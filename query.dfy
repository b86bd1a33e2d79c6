/**
 * Query strings as `urllib.parse.urlencode` writes them: every key and value
 * goes through `quote_plus` (the always-safe characters stay, a space becomes
 * '+', every other character becomes the %XX escapes of its UTF-8 bytes,
 * upper-case hex), and the pairs are joined as `k=v&k=v`. A decoder is given
 * beside it to state that the encoding loses nothing.
 */
module Query {
  import opened Wrappers

  type Params = seq<(string, string)>

  /** The characters `quote_plus` never escapes. */
  predicate AlwaysSafe(c: char) {
    ('A' <= c <= 'Z') || ('a' <= c <= 'z') || ('0' <= c <= '9') ||
    c == '_' || c == '.' || c == '-' || c == '~'
  }

  function HexDigit(d: int): char
    requires 0 <= d < 16
  {
    if d < 10 then ('0' as int + d) as char else ('A' as int + d - 10) as char
  }

  function HexValue(c: char): Option<int> {
    if '0' <= c <= '9' then Some(c as int - '0' as int)
    else if 'A' <= c <= 'F' then Some(c as int - 'A' as int + 10)
    else if 'a' <= c <= 'f' then Some(c as int - 'a' as int + 10)
    else None
  }

  predicate IsByte(b: int) { 0 <= b < 256 }

  /** The UTF-8 encoding of one character, as byte values. */
  function Utf8(c: char): (bytes: seq<int>)
    ensures 1 <= |bytes| <= 4
    ensures forall i :: 0 <= i < |bytes| ==> IsByte(bytes[i])
  {
    var n := c as int;
    if n < 0x80 then [n]
    else if n < 0x800 then [0xC0 + n / 64, 0x80 + n % 64]
    else if n < 0x10000 then [0xE0 + n / 64 / 64, 0x80 + n / 64 % 64, 0x80 + n % 64]
    else [0xF0 + n / 64 / 64 / 64, 0x80 + n / 64 / 64 % 64, 0x80 + n / 64 % 64, 0x80 + n % 64]
  }

  function Escape(b: int): string
    requires IsByte(b)
  {
    ['%', HexDigit(b / 16), HexDigit(b % 16)]
  }

  function EscapeAll(bytes: seq<int>): (t: string)
    requires forall i :: 0 <= i < |bytes| ==> IsByte(bytes[i])
    ensures |t| == 3 * |bytes|
  {
    if bytes == [] then "" else Escape(bytes[0]) + EscapeAll(bytes[1..])
  }

  function QuoteChar(c: char): string {
    if AlwaysSafe(c) then [c]
    else if c == ' ' then "+"
    else EscapeAll(Utf8(c))
  }

  /** `urllib.parse.quote_plus(s)`. */
  function QuotePlus(s: string): string
    decreases |s|
  {
    if s == [] then "" else QuoteChar(s[0]) + QuotePlus(s[1..])
  }

  /** `urllib.parse.urlencode(params)` for a dict of strings, in insertion order. */
  function Urlencode(params: Params): string
    decreases |params|
  {
    if params == [] then ""
    else
      var pair := QuotePlus(params[0].0) + "=" + QuotePlus(params[0].1);
      if |params| == 1 then pair else pair + "&" + Urlencode(params[1..])
  }

  /** `"%s?%s" % (base, urlencode(params))`: the URI a request is sent to. */
  function RequestUri(base: string, params: Params): string {
    base + "?" + Urlencode(params)
  }

  // ---------------------------------------------------------------------
  // Decoding

  /** The byte written as %XY at position i of t. */
  function ByteAt(t: string, i: nat): (r: Option<int>)
    ensures r.Some? ==> i + 3 <= |t| && IsByte(r.value)
  {
    if i + 3 <= |t| && t[i] == '%' then
      var hi :- HexValue(t[i + 1]);
      var lo :- HexValue(t[i + 2]);
      Some(hi * 16 + lo)
    else None
  }

  /** The six payload bits of a UTF-8 continuation byte escaped at position i. */
  function Continuation(t: string, i: nat): (r: Option<int>)
    ensures r.Some? ==> i + 3 <= |t| && 0 <= r.value < 64
  {
    var b :- ByteAt(t, i);
    if 0x80 <= b < 0xC0 then Some(b - 0x80) else None
  }

  function ToChar(n: int, width: nat): (r: Option<(char, nat)>)
    ensures r.Some? ==> r.value.1 == width
  {
    if 0 <= n < 0xD800 || 0xE000 <= n < 0x110000 then Some((n as char, width)) else None
  }

  /** The first character encoded at the start of t, with the length of its encoding. */
  function UnquoteChar(t: string): (r: Option<(char, nat)>)
    ensures r.Some? ==> 1 <= r.value.1 <= |t|
  {
    if t == [] then None
    else if t[0] == '+' then Some((' ', 1))
    else if AlwaysSafe(t[0]) then Some((t[0], 1))
    else
      var b0 :- ByteAt(t, 0);
      if b0 < 0x80 then ToChar(b0, 3)
      else if 0xC0 <= b0 < 0xE0 then
        var b1 :- Continuation(t, 3);
        ToChar((b0 - 0xC0) * 64 + b1, 6)
      else if 0xE0 <= b0 < 0xF0 then
        var b1 :- Continuation(t, 3);
        var b2 :- Continuation(t, 6);
        ToChar(((b0 - 0xE0) * 64 + b1) * 64 + b2, 9)
      else if 0xF0 <= b0 < 0xF8 then
        var b1 :- Continuation(t, 3);
        var b2 :- Continuation(t, 6);
        var b3 :- Continuation(t, 9);
        ToChar((((b0 - 0xF0) * 64 + b1) * 64 + b2) * 64 + b3, 12)
      else None
  }

  /** The text ends, or a key or value ends at '=' or '&'. */
  predicate AtDelimiter(t: string) {
    t == [] || t[0] == '=' || t[0] == '&'
  }

  /** Decodes characters up to the next delimiter; returns them with the rest of t. */
  function UnquoteToken(t: string): (r: Option<(string, string)>)
    ensures r.Some? ==> |r.value.1| <= |t| && AtDelimiter(r.value.1)
    decreases |t|
  {
    if AtDelimiter(t) then Some(([], t))
    else
      var cw :- UnquoteChar(t);
      var sr :- UnquoteToken(t[cw.1..]);
      Some(([cw.0] + sr.0, sr.1))
  }

  /** One or more `k=v` pairs separated by '&', making up all of t. */
  function ParsePairs(t: string): Option<Params>
    decreases |t|
  {
    var key :- UnquoteToken(t);
    if key.1 == [] || key.1[0] != '=' then None
    else
      var value :- UnquoteToken(key.1[1..]);
      if value.1 == [] then Some([(key.0, value.0)])
      else if value.1[0] == '&' then
        var more :- ParsePairs(value.1[1..]);
        Some([(key.0, value.0)] + more)
      else None
  }

  /** The parameters a query string encodes, if it is well formed. */
  function ParseQuery(t: string): Option<Params> {
    if t == [] then Some([]) else ParsePairs(t)
  }

  // ---------------------------------------------------------------------
  // The encoding loses nothing

  lemma HexRoundTrip(b: int)
    requires IsByte(b)
    ensures HexValue(HexDigit(b / 16)) == Some(b / 16)
    ensures HexValue(HexDigit(b % 16)) == Some(b % 16)
  {
  }

  /** The k-th escape of EscapeAll(bytes), followed by anything, reads back as bytes[k]. */
  lemma {:induction false} ByteAtEscaped(bytes: seq<int>, rest: string, k: nat)
    requires forall i :: 0 <= i < |bytes| ==> IsByte(bytes[i])
    requires k < |bytes|
    ensures ByteAt(EscapeAll(bytes) + rest, 3 * k) == Some(bytes[k])
    decreases k
  {
    var t := EscapeAll(bytes) + rest;
    if k == 0 {
      HexRoundTrip(bytes[0]);
      assert t[0] == '%' && t[1] == HexDigit(bytes[0] / 16) && t[2] == HexDigit(bytes[0] % 16);
    } else {
      ByteAtEscaped(bytes[1..], rest, k - 1);
      var t' := EscapeAll(bytes[1..]) + rest;
      assert t == Escape(bytes[0]) + t';
      ByteAtShift(Escape(bytes[0]), t', 3 * (k - 1));
    }
  }

  /** Text in front of t moves its escapes along without changing them. */
  lemma ByteAtShift(p: string, t: string, i: nat)
    ensures ByteAt(p + t, |p| + i) == ByteAt(t, i)
  {
    var u := p + t;
    if i + 3 <= |t| {
      assert u[|p| + i] == t[i] && u[|p| + i + 1] == t[i + 1] && u[|p| + i + 2] == t[i + 2];
    }
  }

  /** Decoding the encoding of c, followed by anything, gives c and the encoding's length. */
  lemma UnquoteQuoteChar(c: char, rest: string)
    ensures UnquoteChar(QuoteChar(c) + rest) == Some((c, |QuoteChar(c)|))
  {
    if !AlwaysSafe(c) && c != ' ' {
      assert QuoteChar(c) == EscapeAll(Utf8(c));
      UnquoteEscaped(c, rest);
    }
  }

  lemma UnquoteEscaped(c: char, rest: string)
    requires !AlwaysSafe(c) && c != ' '
    ensures UnquoteChar(EscapeAll(Utf8(c)) + rest) == Some((c, 3 * |Utf8(c)|))
  {
    var n := c as int;
    if n < 0x80 {
      EscapedAscii(c, rest);
    } else if n < 0x800 {
      EscapedTwo(c, rest);
    } else if n < 0x10000 {
      EscapedThree(c, rest);
    } else {
      EscapedFour(c, rest);
    }
  }

  lemma EscapedAscii(c: char, rest: string)
    requires !AlwaysSafe(c) && c != ' ' && (c as int) < 0x80
    ensures UnquoteChar(EscapeAll(Utf8(c)) + rest) == Some((c, 3))
  {
    var t := EscapeAll(Utf8(c)) + rest;
    ByteAtEscaped(Utf8(c), rest, 0);
    assert t[0] == '%';
  }

  lemma EscapedTwo(c: char, rest: string)
    requires 0x80 <= c as int < 0x800
    ensures UnquoteChar(EscapeAll(Utf8(c)) + rest) == Some((c, 6))
  {
    var t := EscapeAll(Utf8(c)) + rest;
    ByteAtEscaped(Utf8(c), rest, 0);
    ByteAtEscaped(Utf8(c), rest, 1);
    assert t[0] == '%';
    Width2(t, c as int);
  }

  lemma EscapedThree(c: char, rest: string)
    requires 0x800 <= c as int < 0x10000
    ensures UnquoteChar(EscapeAll(Utf8(c)) + rest) == Some((c, 9))
  {
    var t := EscapeAll(Utf8(c)) + rest;
    ByteAtEscaped(Utf8(c), rest, 0);
    ByteAtEscaped(Utf8(c), rest, 1);
    ByteAtEscaped(Utf8(c), rest, 2);
    assert t[0] == '%';
    Width3(t, c as int);
  }

  lemma EscapedFour(c: char, rest: string)
    requires 0x10000 <= c as int
    ensures UnquoteChar(EscapeAll(Utf8(c)) + rest) == Some((c, 12))
  {
    var t := EscapeAll(Utf8(c)) + rest;
    ByteAtEscaped(Utf8(c), rest, 0);
    ByteAtEscaped(Utf8(c), rest, 1);
    ByteAtEscaped(Utf8(c), rest, 2);
    ByteAtEscaped(Utf8(c), rest, 3);
    assert t[0] == '%';
    Width4(t, c as int);
  }

  lemma Width2(t: string, n: int)
    requires 0x80 <= n < 0x800 && t != [] && t[0] == '%'
    requires ByteAt(t, 0) == Some(0xC0 + n / 64) && ByteAt(t, 3) == Some(0x80 + n % 64)
    ensures UnquoteChar(t) == Some((n as char, 6))
  {
    assert Continuation(t, 3) == Some(n % 64);
    assert (0xC0 + n / 64 - 0xC0) * 64 + n % 64 == n;
  }

  lemma Width3(t: string, n: int)
    requires 0x800 <= n < 0x10000 && (n < 0xD800 || 0xE000 <= n) && t != [] && t[0] == '%'
    requires ByteAt(t, 0) == Some(0xE0 + n / 64 / 64)
    requires ByteAt(t, 3) == Some(0x80 + n / 64 % 64) && ByteAt(t, 6) == Some(0x80 + n % 64)
    ensures UnquoteChar(t) == Some((n as char, 9))
  {
    assert Continuation(t, 3) == Some(n / 64 % 64);
    assert Continuation(t, 6) == Some(n % 64);
    assert (n / 64 / 64 * 64 + n / 64 % 64) * 64 + n % 64 == n;
  }

  lemma Width4(t: string, n: int)
    requires 0x10000 <= n < 0x110000 && t != [] && t[0] == '%'
    requires ByteAt(t, 0) == Some(0xF0 + n / 64 / 64 / 64)
    requires ByteAt(t, 3) == Some(0x80 + n / 64 / 64 % 64)
    requires ByteAt(t, 6) == Some(0x80 + n / 64 % 64) && ByteAt(t, 9) == Some(0x80 + n % 64)
    ensures UnquoteChar(t) == Some((n as char, 12))
  {
    assert Continuation(t, 3) == Some(n / 64 / 64 % 64);
    assert Continuation(t, 6) == Some(n / 64 % 64);
    assert Continuation(t, 9) == Some(n % 64);
    assert ((n / 64 / 64 / 64 * 64 + n / 64 / 64 % 64) * 64 + n / 64 % 64) * 64 + n % 64 == n;
  }

  lemma QuoteCharStart(c: char)
    ensures QuoteChar(c) != [] && !AtDelimiter(QuoteChar(c))
  {
    if !AlwaysSafe(c) && c != ' ' {
      assert QuoteChar(c)[0] == '%';
    }
  }

  /** Decoding a quoted key or value stops exactly at the delimiter that follows it. */
  lemma {:induction false} UnquoteQuote(s: string, rest: string)
    requires AtDelimiter(rest)
    ensures UnquoteToken(QuotePlus(s) + rest) == Some((s, rest))
    decreases |s|
  {
    if s == [] {
      assert QuotePlus(s) + rest == rest;
    } else {
      var q := QuoteChar(s[0]);
      var tail := QuotePlus(s[1..]) + rest;
      assert QuotePlus(s) == q + QuotePlus(s[1..]);
      Associate(q, QuotePlus(s[1..]), rest);
      QuoteCharStart(s[0]);
      UnquoteQuoteChar(s[0], tail);
      UnquoteQuote(s[1..], rest);
      UnquoteTokenStep(q, tail, s[0], s[1..], rest);
      HeadTail(s);
    }
  }

  /** A token is its first character followed by the token after that character's encoding. */
  lemma UnquoteTokenStep(q: string, tail: string, c: char, s: string, rest: string)
    requires q != [] && !AtDelimiter(q)
    requires UnquoteChar(q + tail) == Some((c, |q|))
    requires UnquoteToken(tail) == Some((s, rest))
    ensures UnquoteToken(q + tail) == Some(([c] + s, rest))
  {
    var t := q + tail;
    assert t[0] == q[0];
    assert t[|q|..] == tail;
  }

  /** One encoded pair followed by the end, or by '&' and pairs that parse as more. */
  lemma ParseOnePair(k: string, v: string, tail: string, more: Params)
    requires tail == [] || (tail[0] == '&' && ParsePairs(tail[1..]) == Some(more))
    ensures ParsePairs(QuotePlus(k) + "=" + QuotePlus(v) + tail) ==
            Some(if tail == [] then [(k, v)] else [(k, v)] + more)
  {
    var w := QuotePlus(v);
    UnquoteQuote(k, "=" + (w + tail));
    UnquoteQuote(v, tail);
    ParseAssembled(QuotePlus(k), w, k, v, tail, more);
  }

  lemma ParseAssembled(q: string, w: string, k: string, v: string, tail: string, more: Params)
    requires UnquoteToken(q + ("=" + (w + tail))) == Some((k, "=" + (w + tail)))
    requires UnquoteToken(w + tail) == Some((v, tail))
    requires tail == [] || (tail[0] == '&' && ParsePairs(tail[1..]) == Some(more))
    ensures ParsePairs(q + "=" + w + tail) == Some(if tail == [] then [(k, v)] else [(k, v)] + more)
  {
    var afterKey := "=" + (w + tail);
    Regroup(q, "=", w, tail);
    assert afterKey[1..] == w + tail;
    ParsePairsStep(q + afterKey, k, v, afterKey, tail, more);
  }

  lemma HeadTail(s: string)
    requires s != []
    ensures [s[0]] + s[1..] == s
  {
  }

  lemma Associate(a: string, b: string, c: string)
    ensures (a + b) + c == a + (b + c)
  {
  }

  lemma Regroup(a: string, b: string, c: string, d: string)
    ensures a + b + c + d == a + (b + (c + d))
  {
  }

  /** ParsePairs unfolded once, given how the key and the value decode. */
  lemma ParsePairsStep(t: string, k: string, v: string, afterKey: string, tail: string, more: Params)
    requires UnquoteToken(t) == Some((k, afterKey))
    requires afterKey != [] && afterKey[0] == '='
    requires UnquoteToken(afterKey[1..]) == Some((v, tail))
    requires tail == [] || (tail[0] == '&' && ParsePairs(tail[1..]) == Some(more))
    ensures ParsePairs(t) == Some(if tail == [] then [(k, v)] else [(k, v)] + more)
  {
  }

  /** What Urlencode writes, ParseQuery reads back. */
  lemma {:induction false} ParseUrlencode(params: Params)
    ensures ParseQuery(Urlencode(params)) == Some(params)
    decreases |params|
  {
    if params != [] {
      PairsNonEmpty(params);
      assert ParseQuery(Urlencode(params)) == ParsePairs(Urlencode(params));
      if |params| == 1 {
        ParseSingle(params);
      } else {
        ParseUrlencode(params[1..]);
        PairsNonEmpty(params[1..]);
        ParseCons(params);
      }
    }
  }

  lemma ParseSingle(params: Params)
    requires |params| == 1
    ensures ParsePairs(Urlencode(params)) == Some(params)
  {
    var k, v := params[0].0, params[0].1;
    ParseOnePair(k, v, "", []);
    assert QuotePlus(k) + "=" + QuotePlus(v) + "" == Urlencode(params);
    assert [(k, v)] == params;
  }

  lemma ParseCons(params: Params)
    requires |params| > 1
    requires ParsePairs(Urlencode(params[1..])) == Some(params[1..])
    ensures ParsePairs(Urlencode(params)) == Some(params)
  {
    var first, rest := params[0], params[1..];
    assert params == [first] + rest;
    var tail := "&" + Urlencode(rest);
    UrlencodeCons(params);
    assert tail[1..] == Urlencode(rest);
    ParseOnePair(first.0, first.1, tail, rest);
  }

  lemma UrlencodeCons(params: Params)
    requires |params| > 1
    ensures Urlencode(params) ==
            QuotePlus(params[0].0) + "=" + QuotePlus(params[0].1) + ("&" + Urlencode(params[1..]))
  {
  }

  lemma PairsNonEmpty(params: Params)
    requires params != []
    ensures Urlencode(params) != []
  {
    var pair := QuotePlus(params[0].0) + "=" + QuotePlus(params[0].1);
    assert pair[|QuotePlus(params[0].0)|] == '=';
  }

  /** Different parameter lists never produce the same query string. */
  lemma UrlencodeInjective(p: Params, q: Params)
    requires Urlencode(p) == Urlencode(q)
    ensures p == q
  {
    ParseUrlencode(p);
    ParseUrlencode(q);
  }

  /** A string every character of which `quote_plus` leaves alone. */
  predicate Safe(s: string) {
    forall i :: 0 <= i < |s| ==> AlwaysSafe(s[i])
  }

  /** A string of always-safe characters is its own quoting. */
  lemma {:induction false} QuoteSafe(s: string)
    requires Safe(s)
    ensures QuotePlus(s) == s
    decreases |s|
  {
    if s != [] {
      QuoteSafe(s[1..]);
      assert [s[0]] + s[1..] == s;
    }
  }

  /** Quoting works character by character, so it distributes over concatenation. */
  lemma {:induction false} QuoteConcat(a: string, b: string)
    ensures QuotePlus(a + b) == QuotePlus(a) + QuotePlus(b)
    decreases |a|
  {
    if a == [] {
      assert a + b == b;
    } else {
      assert (a + b)[0] == a[0] && (a + b)[1..] == a[1..] + b;
      QuoteConcat(a[1..], b);
    }
  }

  const ApiVersionKey := "api-version"

  /** `'%s?api-version=%s' % (base, version)`: the version parameter written out by hand, unquoted. */
  function Inline(base: string, apiVersion: string): string {
    base + "?" + ApiVersionKey + "=" + apiVersion
  }

  /** The name of the version parameter needs no quoting. */
  lemma ApiVersionKeySafe()
    ensures Safe(ApiVersionKey)
  {
  }

  /** A single parameter of safe characters is written as it stands. */
  lemma SafeSingleParameter(base: string, key: string, value: string)
    requires Safe(key) && Safe(value)
    ensures RequestUri(base, [(key, value)]) == base + "?" + key + "=" + value
  {
    QuoteSafe(key);
    QuoteSafe(value);
  }

  /** Two parameters of safe characters are written as they stand, joined by '&'. */
  lemma SafeTwoParameters(base: string, k1: string, v1: string, k2: string, v2: string)
    requires Safe(k1) && Safe(v1) && Safe(k2) && Safe(v2)
    ensures RequestUri(base, [(k1, v1), (k2, v2)]) == base + "?" + (k1 + "=" + v1 + "&" + (k2 + "=" + v2))
  {
    SafeFirstParameter(k1, v1, k2, v2);
    QuoteSafe(k2);
    QuoteSafe(v2);
  }

  /** A first parameter of safe characters is written as it stands, ahead of the quoted second one. */
  lemma SafeFirstParameter(k1: string, v1: string, k2: string, v2: string)
    requires Safe(k1) && Safe(v1)
    ensures Urlencode([(k1, v1), (k2, v2)]) == k1 + "=" + v1 + "&" + (QuotePlus(k2) + "=" + QuotePlus(v2))
  {
    var params := [(k1, v1), (k2, v2)];
    assert params[1..] == [(k2, v2)];
    QuoteSafe(k1);
    QuoteSafe(v1);
  }

  /** In `b + "?" + s` with no '?' in b, the first '?' is the one after b. */
  lemma MarkAfterBase(b: string, s: string)
    requires '?' !in b
    ensures (b + "?" + s)[|b|] == '?'
    ensures forall i :: 0 <= i < |b| ==> (b + "?" + s)[i] != '?'
  {
    forall i | 0 <= i < |b| ensures (b + "?" + s)[i] != '?' {
      assert (b + "?" + s)[i] == b[i];
    }
  }

  /**
   * The request URI determines both the base and the parameters, for any
   * base without a '?': the URI has no other inputs and loses none.
   */
  lemma RequestUriInjective(b1: string, p1: Params, b2: string, p2: Params)
    requires '?' !in b1 && '?' !in b2
    requires RequestUri(b1, p1) == RequestUri(b2, p2)
    ensures b1 == b2 && p1 == p2
  {
    var u := RequestUri(b1, p1);
    MarkAfterBase(b1, Urlencode(p1));
    MarkAfterBase(b2, Urlencode(p2));
    if |b1| < |b2| {
      assert false;
    } else if |b2| < |b1| {
      assert false;
    }
    assert b1 == u[..|b1|] == b2;
    assert Urlencode(p1) == u[|b1| + 1..] == Urlencode(p2);
    UrlencodeInjective(p1, p2);
  }
}
