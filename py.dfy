/**
 * The Python operations the resolvers apply to decoded JSON, with the
 * exception each one raises on a value of the wrong shape turned into a
 * typed fault.
 */
module Py {
  import opened Wrappers
  import opened Json

  /** The exceptions a resolver can raise, as values. */
  datatype Fault =
    | KeyError(key: Json)     // d[k] on a dict that lacks k
    | IndexError(index: nat)  // xs[i] past the end of a list or string
    | TypeError               // subscripting, iterating, measuring or multiplying a value of the wrong kind
    | AttributeError          // .get or .split on a value that has no such method
    | Unformattable           // '%s' of a number, list or dict (see PyStr)
    | MissingCredential       // the inbound request carries no Authorization header
    | UnsupportedFilter       // a Resources query filtered by resource type only

  type Outcome<+T> = Result<T, Fault>

  /** Python truthiness: None, False, zero and empty containers are false. */
  predicate Truthy(j: Json) {
    match j
    case JNull => false
    case JBool(b) => b
    case JNum(n) => n != 0.0
    case JStr(s) => s != ""
    case JArr(items) => items != []
    case JObj(fields) => fields != map[]
  }

  /** `if arg:` for an optional string argument of a GraphQL field: given and not empty. */
  predicate Given(arg: Option<string>) {
    arg.Some? && arg.value != ""
  }

  /** `j[k]` with a string key. */
  function Sub(j: Json, k: string): (r: Outcome<Json>)
    ensures r.Ok? <==> j.JObj? && k in j.fields
    ensures r.Ok? ==> r.value == j.fields[k]
    ensures j.JObj? && k !in j.fields ==> r == Err(KeyError(JStr(k)))
    ensures !j.JObj? ==> r == Err(TypeError)
  {
    match j
    case JObj(fields) => if k in fields then Ok(fields[k]) else Err(KeyError(JStr(k)))
    case _ => Err(TypeError)
  }

  /** `j[i]` with an integer index: a list element or a one-character string. */
  function At(j: Json, i: nat): (r: Outcome<Json>)
    ensures j.JArr? && i < |j.items| ==> r == Ok(j.items[i])
    ensures j.JArr? && i >= |j.items| ==> r == Err(IndexError(i))
    ensures j.JNull? || j.JNum? || j.JBool? ==> r == Err(TypeError)
  {
    match j
    case JArr(items) => if i < |items| then Ok(items[i]) else Err(IndexError(i))
    case JStr(s) => if i < |s| then Ok(JStr([s[i]])) else Err(IndexError(i))
    case JObj(_) => Err(KeyError(JNum(i as real)))
    case _ => Err(TypeError)
  }

  /** `j.get(k, default)`; only a dict has a `get` method. */
  function GetOr(j: Json, k: string, default: Json): (r: Outcome<Json>)
    ensures r.Ok? <==> j.JObj?
    ensures j.JObj? && k in j.fields ==> r == Ok(j.fields[k])
    ensures j.JObj? && k !in j.fields ==> r == Ok(default)
  {
    match j
    case JObj(fields) => Ok(if k in fields then fields[k] else default)
    case _ => Err(AttributeError)
  }

  /** `j.get(outer, {}).get(inner)`: the lookup of an optional nested object's key. */
  function GetNested(j: Json, outer: string, inner: string): (r: Outcome<Json>)
    ensures j.JObj? && outer !in j.fields ==> r == Ok(JNull)
    ensures j.JObj? && outer in j.fields && j.fields[outer].JObj? ==>
              r == Ok(if inner in j.fields[outer].fields then j.fields[outer].fields[inner] else JNull)
    ensures r.Ok? <==> j.JObj? && (outer in j.fields ==> j.fields[outer].JObj?)
  {
    var nested :- GetOr(j, outer, EmptyObject);
    GetOr(nested, inner, JNull)
  }

  /**
   * The items a `for` loop over `j` visits (the elements of a list), or the
   * fault the loop raises before its body can use any of them. None, numbers
   * and booleans are not iterable. A non-empty string or dict yields strings
   * (its characters, its keys), and every loop body of the resolvers
   * subscripts its item with a string key first, which raises TypeError on
   * a string: the fault is reported here.
   */
  function LoopItems(j: Json): (r: Outcome<seq<Json>>)
    ensures j.JArr? ==> r == Ok(j.items)
    ensures j == JNull ==> r == Err(TypeError)
    ensures r.Ok? && r.value != [] ==> j.JArr?
  {
    match j
    case JArr(items) => Ok(items)
    case JObj(fields) => if fields == map[] then Ok([]) else Err(TypeError)
    case JStr(s) => if s == "" then Ok([]) else Err(TypeError)
    case _ => Err(TypeError)
  }

  /** The numeric value of a JSON number; a bool counts as 0 or 1 as in Python. */
  function AsNumber(j: Json): (r: Outcome<real>)
    ensures j.JNum? ==> r == Ok(j.n)
    ensures r.Ok? <==> j.JNum? || j.JBool?
  {
    match j
    case JNum(n) => Ok(n)
    case JBool(b) => Ok(if b then 1.0 else 0.0)
    case _ => Err(TypeError)
  }

  /** `a * b`, defined here for numbers only. */
  function Mul(a: Json, b: Json): (r: Outcome<real>)
    ensures a.JNum? && b.JNum? ==> r.Ok? && r.value == a.n * b.n
  {
    match (AsNumber(a), AsNumber(b))
    case (Ok(x), Ok(y)) => Ok(x * y)
    case (Err(e), _) => Err(e)
    case (_, Err(e)) => Err(e)
  }

  /**
   * `'%s' % j` for the values a resource reference can hold: a string is
   * itself, None is "None", a bool is "True" or "False". Python would also
   * print numbers, lists and dicts; the model reports them as Unformattable.
   */
  function PyStr(j: Json): (r: Outcome<string>)
    ensures j.JStr? ==> r == Ok(j.s)
    ensures j == JNull ==> r == Ok("None")
  {
    match j
    case JStr(s) => Ok(s)
    case JNull => Ok("None")
    case JBool(b) => Ok(if b then "True" else "False")
    case _ => Err(Unformattable)
  }

  /** `s.split(sep)`: every occurrence of sep separates, empty pieces are kept. */
  function Split(s: string, sep: char): (parts: seq<string>)
    ensures |parts| >= 1
    decreases |s|
  {
    if s == [] then [""] else Prepend(s[0], Split(s[1..], sep), sep)
  }

  /** The pieces of [c] + s, given the pieces of s. */
  function Prepend(c: char, parts: seq<string>, sep: char): (r: seq<string>)
    requires |parts| >= 1
    ensures |r| >= 1
  {
    if c == sep then [""] + parts else [[c] + parts[0]] + parts[1..]
  }

  lemma PrependAppend(c: char, x: seq<string>, y: seq<string>, sep: char)
    requires |x| >= 1
    ensures Prepend(c, x + y, sep) == Prepend(c, x, sep) + y
  {
    if c != sep {
      assert (x + y)[0] == x[0] && (x + y)[1..] == x[1..] + y;
    }
  }

  /** `sep.join(parts)`. */
  function Join(parts: seq<string>, sep: char): string
    decreases |parts|
  {
    if parts == [] then ""
    else if |parts| == 1 then parts[0]
    else parts[0] + [sep] + Join(parts[1..], sep)
  }

  /** Splitting and joining again gives back the string. */
  lemma {:induction false} SplitJoin(s: string, sep: char)
    ensures Join(Split(s, sep), sep) == s
    decreases |s|
  {
    if s != [] {
      SplitJoin(s[1..], sep);
      JoinPrepend(s[0], Split(s[1..], sep), sep);
      assert [s[0]] + s[1..] == s;
    }
  }

  lemma JoinPrepend(c: char, parts: seq<string>, sep: char)
    requires |parts| >= 1
    ensures Join(Prepend(c, parts, sep), sep) == [c] + Join(parts, sep)
  {
    var r := Prepend(c, parts, sep);
    if c == sep {
      assert r[1..] == parts;
    } else if |parts| == 1 {
      assert r == [[c] + parts[0]];
    } else {
      assert r[0] == [c] + parts[0] && r[1..] == parts[1..];
    }
  }

  /** No piece of a split contains the separator. */
  lemma {:induction false} SplitPiecesFree(s: string, sep: char)
    ensures forall i :: 0 <= i < |Split(s, sep)| ==> sep !in Split(s, sep)[i]
    decreases |s|
  {
    if s != [] {
      SplitPiecesFree(s[1..], sep);
    }
  }

  /** A string without the separator splits into itself alone. */
  lemma {:induction false} SplitSingle(s: string, sep: char)
    requires sep !in s
    ensures Split(s, sep) == [s]
    decreases |s|
  {
    if s != [] {
      assert sep !in s[1..] by {
        forall c | c in s[1..] ensures c != sep { assert c in s; }
      }
      SplitSingle(s[1..], sep);
      assert [s[0]] + s[1..] == s;
    }
  }

  /** A separator between a and b splits the two independently. */
  lemma {:induction false} SplitAround(a: string, b: string, sep: char)
    ensures Split(a + [sep] + b, sep) == Split(a, sep) + Split(b, sep)
    decreases |a|
  {
    if a == [] {
      var t := a + [sep] + b;
      assert t[0] == sep && t[1..] == b;
    } else {
      SplitAround(a[1..], b, sep);
      SplitAroundStep(a, b, sep);
    }
  }

  lemma SplitAroundStep(a: string, b: string, sep: char)
    requires a != []
    requires Split(a[1..] + [sep] + b, sep) == Split(a[1..], sep) + Split(b, sep)
    ensures Split(a + [sep] + b, sep) == Split(a, sep) + Split(b, sep)
  {
    var t := a + [sep] + b;
    assert t[0] == a[0] && t[1..] == a[1..] + [sep] + b;
    PrependAppend(a[0], Split(a[1..], sep), Split(b, sep), sep);
  }

  /** A leading segment without a separator splits off as one piece. */
  lemma SplitSegment(a: string, rest: string, sep: char)
    requires sep !in a
    ensures Split(a + [sep] + rest, sep) == [a] + Split(rest, sep)
  {
    SplitAround(a, rest, sep);
    SplitSingle(a, sep);
  }

  /** One step of a path into a JSON document. */
  datatype Step = Key(name: string) | Index(position: nat)

  function Apply(j: Json, step: Step): Outcome<Json> {
    match step
    case Key(k) => Sub(j, k)
    case Index(i) => At(j, i)
  }

  /** The value at the end of a chain of subscripts, or the first fault. */
  function Lookup(j: Json, path: seq<Step>): Outcome<Json>
    decreases |path|
  {
    if path == [] then Ok(j)
    else
      var next :- Apply(j, path[0]);
      Lookup(next, path[1..])
  }

  /**
   * `[f(x) for x in xs]` as a loop appending to a list: the results in
   * order, or the fault of the first item that fails.
   */
  function Traverse<T>(f: Json -> Outcome<T>, xs: seq<Json>): Outcome<seq<T>>
    decreases |xs|
  {
    if xs == [] then Ok([])
    else
      var init :- Traverse(f, xs[..|xs| - 1]);
      var last :- f(xs[|xs| - 1]);
      Ok(init + [last])
  }

  /** Traverse succeeds exactly when every item does; it keeps length and order; it fails with the first failure. */
  lemma {:induction false} TraverseMeaning<T>(f: Json -> Outcome<T>, xs: seq<Json>)
    ensures Traverse(f, xs).Ok? <==> forall i :: 0 <= i < |xs| ==> f(xs[i]).Ok?
    ensures Traverse(f, xs).Ok? ==>
              |Traverse(f, xs).value| == |xs| &&
              forall i :: 0 <= i < |xs| ==> Traverse(f, xs).value[i] == f(xs[i]).value
    ensures Traverse(f, xs).Err? ==>
              exists k :: 0 <= k < |xs| && f(xs[k]).Err? && Traverse(f, xs).error == f(xs[k]).error &&
                          forall i :: 0 <= i < k ==> f(xs[i]).Ok?
    decreases |xs|
  {
    if xs != [] {
      var n := |xs| - 1;
      var init := xs[..n];
      TraverseMeaning(f, init);
      assert forall i :: 0 <= i < n ==> init[i] == xs[i];
      if Traverse(f, init).Err? {
        var k :| 0 <= k < n && f(init[k]).Err? && Traverse(f, init).error == f(init[k]).error &&
                 forall i :: 0 <= i < k ==> f(init[i]).Ok?;
        assert xs[k] == init[k];
      } else if f(xs[n]).Err? {
        assert forall i :: 0 <= i < n ==> f(xs[i]).Ok?;
      }
    }
  }

  /** A loop that has succeeded on the first i items and fails on item i fails as a whole with that fault. */
  lemma TraverseStopsAt<T>(f: Json -> Outcome<T>, xs: seq<Json>, i: nat)
    requires i < |xs| && Traverse(f, xs[..i]).Ok? && f(xs[i]).Err?
    ensures Traverse(f, xs) == Err(f(xs[i]).error)
  {
    TraverseMeaning(f, xs[..i]);
    TraverseMeaning(f, xs);
    assert forall j :: 0 <= j < i ==> xs[..i][j] == xs[j];
    var k :| 0 <= k < |xs| && f(xs[k]).Err? && Traverse(f, xs).error == f(xs[k]).error &&
             forall j :: 0 <= j < k ==> f(xs[j]).Ok?;
    assert k == i;
  }

  /** One more successful item extends a successful loop by its result. */
  lemma TraverseStep<T>(f: Json -> Outcome<T>, xs: seq<Json>, i: nat)
    requires i < |xs| && Traverse(f, xs[..i]).Ok? && f(xs[i]).Ok?
    ensures Traverse(f, xs[..i + 1]) == Ok(Traverse(f, xs[..i]).value + [f(xs[i]).value])
  {
    assert xs[..i + 1][..i] == xs[..i];
  }

  /** Two successful loops, one after the other, succeed with their results in order. */
  lemma TraverseAppend<T>(f: Json -> Outcome<T>, a: seq<Json>, b: seq<Json>)
    requires Traverse(f, a).Ok? && Traverse(f, b).Ok?
    ensures Traverse(f, a + b) == Ok(Traverse(f, a).value + Traverse(f, b).value)
  {
    TraverseMeaning(f, a);
    TraverseMeaning(f, b);
    TraverseMeaning(f, a + b);
    assert forall i :: 0 <= i < |a + b| ==> f((a + b)[i]).Ok? by {
      forall i | 0 <= i < |a + b|
        ensures f((a + b)[i]).Ok?
      {
        if i < |a| { assert (a + b)[i] == a[i]; } else { assert (a + b)[i] == b[i - |a|]; }
      }
    }
    var r := Traverse(f, a + b).value;
    var ra, rb := Traverse(f, a).value, Traverse(f, b).value;
    forall i | 0 <= i < |r|
      ensures r[i] == (ra + rb)[i]
    {
      if i < |a| { assert (a + b)[i] == a[i]; } else { assert (a + b)[i] == b[i - |a|]; }
    }
    assert r == ra + rb;
  }
}
