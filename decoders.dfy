/**
 * The record shapes the resolvers build from remote payloads, with the
 * nested paths each one reads. Every required path is a subscript chain
 * that raises when a step is missing; an optional reference is read with
 * `.get(key, {}).get('id')` and is None when its object is absent.
 */
module Decoders {
  import opened Wrappers
  import opened Json
  import opened Py

  /** A virtual machine as the VM list resolver builds it; nicid is the internal NIC reference. */
  datatype Vm = Vm(id: Json, name: Json, size: Json, location: Json, nicid: Json, os: Json)

  /** A network interface with its three internal references (None when not applicable). */
  datatype Nic = Nic(id: Json, name: Json, ip: Json, allocationMethod: Json,
                     pipid: Json, subnetid: Json, nsgid: Json)

  datatype PublicIp = PublicIp(id: Json, name: Json, ip: Json)

  datatype Subnet = Subnet(id: Json, name: Json, addressPrefix: Json)

  datatype SecurityRule = SecurityRule(name: Json, id: Json, protocol: Json, access: Json)

  datatype SecurityGroup = SecurityGroup(id: Json, name: Json, rules: seq<SecurityRule>)

  const IdPath: seq<Step> := [Key("id")]
  const NamePath: seq<Step> := [Key("name")]
  const PropertiesPath: seq<Step> := [Key("properties")]

  const SizePath: seq<Step> := [Key("properties"), Key("hardwareProfile"), Key("vmSize")]
  const LocationPath: seq<Step> := [Key("location")]
  const FirstNicPath: seq<Step> :=
    [Key("properties"), Key("networkProfile"), Key("networkInterfaces"), Index(0), Key("id")]
  const OsTypePath: seq<Step> := [Key("properties"), Key("storageProfile"), Key("osDisk"), Key("osType")]

  /** The properties of a NIC's first IP configuration. */
  const IpConfigPath: seq<Step> := [Key("properties"), Key("ipConfigurations"), Index(0), Key("properties")]
  const PrivateIpPath: seq<Step> := IpConfigPath + [Key("privateIPAddress")]
  const AllocationPath: seq<Step> := IpConfigPath + [Key("privateIPAllocationMethod")]

  const AddressPrefixPath: seq<Step> := [Key("properties"), Key("addressPrefix")]
  const SecurityRulesPath: seq<Step> := [Key("properties"), Key("securityRules")]
  const ProtocolPath: seq<Step> := [Key("properties"), Key("protocol")]
  const AccessPath: seq<Step> := [Key("properties"), Key("access")]

  /** The value at a path that is known to resolve. */
  function ValueAt(j: Json, path: seq<Step>): Json
    requires Lookup(j, path).Ok?
  {
    Lookup(j, path).value
  }

  /**
   * `o.get(key, {})` does not fail: o is a dict whose key, when present,
   * holds a dict.
   */
  predicate OptionalObject(o: Json, key: string) {
    o.JObj? && (key in o.fields ==> o.fields[key].JObj?)
  }

  /** o carries a non-None reference `o[key]['id']`. */
  predicate HasReference(o: Json, key: string) {
    o.JObj? && key in o.fields && o.fields[key].JObj? && "id" in o.fields[key].fields &&
    o.fields[key].fields["id"] != JNull
  }

  /** A path walked in two stages reaches the same value as the whole path. */
  lemma {:induction false} LookupAppend(j: Json, p: seq<Step>, q: seq<Step>)
    ensures Lookup(j, p + q) == (if Lookup(j, p).Ok? then Lookup(Lookup(j, p).value, q) else Lookup(j, p))
    decreases |p|
  {
    if p == [] {
      assert p + q == q;
    } else {
      assert (p + q)[0] == p[0] && (p + q)[1..] == p[1..] + q;
      var next := Apply(j, p[0]);
      if next.Ok? {
        LookupAppend(next.value, p[1..], q);
      }
    }
  }

  /** LookupAppend for a first stage that succeeds. */
  lemma LookupSteps(j: Json, p: seq<Step>, q: seq<Step>)
    requires Lookup(j, p).Ok?
    ensures Lookup(j, p + q) == Lookup(Lookup(j, p).value, q)
  {
    LookupAppend(j, p, q);
  }

  /** A first step into an object's entry. */
  lemma LookupKey(j: Json, k: string, rest: seq<Step>)
    requires j.JObj? && k in j.fields
    ensures Lookup(j, [Key(k)] + rest) == Lookup(j.fields[k], rest)
  {
    assert ([Key(k)] + rest)[1..] == rest;
  }

  /** A first step into a list's item. */
  lemma LookupIndex(j: Json, i: nat, rest: seq<Step>)
    requires j.JArr? && i < |j.items|
    ensures Lookup(j, [Index(i)] + rest) == Lookup(j.items[i], rest)
  {
    assert ([Index(i)] + rest)[1..] == rest;
  }

  /** One VM list item: each entry of the built dict reads its own path from the item. */
  function DecodeVm(vm: Json): (r: Outcome<Vm>)
    ensures r.Ok? <==>
              Lookup(vm, IdPath).Ok? && Lookup(vm, NamePath).Ok? && Lookup(vm, SizePath).Ok? &&
              Lookup(vm, LocationPath).Ok? && Lookup(vm, FirstNicPath).Ok? && Lookup(vm, OsTypePath).Ok?
    ensures r.Ok? ==>
              r.value == Vm(ValueAt(vm, IdPath), ValueAt(vm, NamePath), ValueAt(vm, SizePath),
                            ValueAt(vm, LocationPath), ValueAt(vm, FirstNicPath), ValueAt(vm, OsTypePath))
    ensures Lookup(vm, IdPath).Err? ==> r == Err(Lookup(vm, IdPath).error)
  {
    var id :- Lookup(vm, IdPath);
    var name :- Lookup(vm, NamePath);
    var size :- Lookup(vm, SizePath);
    var location :- Lookup(vm, LocationPath);
    var nicid :- Lookup(vm, FirstNicPath);
    var os :- Lookup(vm, OsTypePath);
    Ok(Vm(id, name, size, location, nicid, os))
  }

  function VmProperties(v: Vm): Json {
    JObj(map[
      "hardwareProfile" := JObj(map["vmSize" := v.size]),
      "networkProfile" := JObj(map["networkInterfaces" := JArr([JObj(map["id" := v.nicid])])]),
      "storageProfile" := JObj(map["osDisk" := JObj(map["osType" := v.os])])])
  }

  /** A VM payload carrying exactly the fields of v, in the shape the compute API returns. */
  function VmDocument(v: Vm): Json {
    JObj(map["id" := v.id, "name" := v.name, "location" := v.location, "properties" := VmProperties(v)])
  }

  lemma DecodeVmDocument(v: Vm)
    ensures DecodeVm(VmDocument(v)) == Ok(v)
  {
    VmDocumentPaths(v);
  }

  lemma VmDocumentPaths(v: Vm)
    ensures Lookup(VmDocument(v), IdPath) == Ok(v.id)
    ensures Lookup(VmDocument(v), NamePath) == Ok(v.name)
    ensures Lookup(VmDocument(v), LocationPath) == Ok(v.location)
    ensures Lookup(VmDocument(v), SizePath) == Ok(v.size)
    ensures Lookup(VmDocument(v), FirstNicPath) == Ok(v.nicid)
    ensures Lookup(VmDocument(v), OsTypePath) == Ok(v.os)
  {
    var d := VmDocument(v);
    LookupKey(d, "id", []);
    LookupKey(d, "name", []);
    LookupKey(d, "location", []);
    VmPropertyPaths(v);
    LookupKey(d, "properties", SizePath[1..]);
    LookupKey(d, "properties", FirstNicPath[1..]);
    LookupKey(d, "properties", OsTypePath[1..]);
  }

  lemma VmPropertyPaths(v: Vm)
    ensures Lookup(VmProperties(v), SizePath[1..]) == Ok(v.size)
    ensures Lookup(VmProperties(v), FirstNicPath[1..]) == Ok(v.nicid)
    ensures Lookup(VmProperties(v), OsTypePath[1..]) == Ok(v.os)
  {
    var p := VmProperties(v);
    var hardware, network, storage := p.fields["hardwareProfile"], p.fields["networkProfile"], p.fields["storageProfile"];
    LookupKey(hardware, "vmSize", []);
    LookupKey(p, "hardwareProfile", [Key("vmSize")]);
    var interfaces := network.fields["networkInterfaces"];
    LookupKey(interfaces.items[0], "id", []);
    LookupIndex(interfaces, 0, [Key("id")]);
    LookupKey(network, "networkInterfaces", [Index(0), Key("id")]);
    LookupKey(p, "networkProfile", FirstNicPath[2..]);
    var disk := storage.fields["osDisk"];
    LookupKey(disk, "osType", []);
    LookupKey(storage, "osDisk", [Key("osType")]);
    LookupKey(p, "storageProfile", OsTypePath[2..]);
  }

  /** `o.get(key, {}).get('id')` for o at the end of a path. */
  function ReferenceAt(j: Json, path: seq<Step>, key: string): (r: Outcome<Json>)
    ensures r.Ok? <==> Lookup(j, path).Ok? && OptionalObject(ValueAt(j, path), key)
    ensures r.Ok? ==> (r.value != JNull <==> HasReference(ValueAt(j, path), key))
    ensures r.Ok? && r.value != JNull ==> r.value == ValueAt(j, path).fields[key].fields["id"]
  {
    var o :- Lookup(j, path);
    GetNested(o, key, "id")
  }

  /** A network interface payload, in the version whose references are optional. */
  function DecodeNic(nic: Json): (r: Outcome<Nic>)
    ensures r.Ok? <==>
              Lookup(nic, IdPath).Ok? && Lookup(nic, NamePath).Ok? &&
              Lookup(nic, PrivateIpPath).Ok? && Lookup(nic, AllocationPath).Ok? &&
              Lookup(nic, IpConfigPath).Ok? && Lookup(nic, PropertiesPath).Ok? &&
              OptionalObject(ValueAt(nic, IpConfigPath), "publicIPAddress") &&
              OptionalObject(ValueAt(nic, IpConfigPath), "subnet") &&
              OptionalObject(ValueAt(nic, PropertiesPath), "networkSecurityGroup")
    ensures r.Ok? ==>
              r.value.id == ValueAt(nic, IdPath) && r.value.name == ValueAt(nic, NamePath) &&
              r.value.ip == ValueAt(nic, PrivateIpPath) && r.value.allocationMethod == ValueAt(nic, AllocationPath)
    ensures r.Ok? ==>
              var config, properties := ValueAt(nic, IpConfigPath), ValueAt(nic, PropertiesPath);
              (r.value.pipid != JNull <==> HasReference(config, "publicIPAddress")) &&
              (r.value.subnetid != JNull <==> HasReference(config, "subnet")) &&
              (r.value.nsgid != JNull <==> HasReference(properties, "networkSecurityGroup")) &&
              (r.value.pipid != JNull ==> r.value.pipid == config.fields["publicIPAddress"].fields["id"]) &&
              (r.value.subnetid != JNull ==> r.value.subnetid == config.fields["subnet"].fields["id"]) &&
              (r.value.nsgid != JNull ==> r.value.nsgid == properties.fields["networkSecurityGroup"].fields["id"])
  {
    var id :- Lookup(nic, IdPath);
    var name :- Lookup(nic, NamePath);
    var ip :- Lookup(nic, PrivateIpPath);
    var allocation :- Lookup(nic, AllocationPath);
    var pipid :- ReferenceAt(nic, IpConfigPath, "publicIPAddress");
    var subnetid :- ReferenceAt(nic, IpConfigPath, "subnet");
    var nsgid :- ReferenceAt(nic, PropertiesPath, "networkSecurityGroup");
    Ok(Nic(id, name, ip, allocation, pipid, subnetid, nsgid))
  }

  /** The entry `{key: {'id': id}}`, left out when the reference is None. */
  function ReferenceEntry(key: string, id: Json): map<string, Json> {
    if id == JNull then map[] else map[key := JObj(map["id" := id])]
  }

  /** The first IP configuration's properties in the payload of n. */
  function NicConfig(n: Nic): Json {
    JObj(ReferenceEntry("publicIPAddress", n.pipid) + ReferenceEntry("subnet", n.subnetid) +
         map["privateIPAddress" := n.ip, "privateIPAllocationMethod" := n.allocationMethod])
  }

  function NicProperties(n: Nic): Json {
    JObj(ReferenceEntry("networkSecurityGroup", n.nsgid) +
         map["ipConfigurations" := JArr([JObj(map["properties" := NicConfig(n)])])])
  }

  /** A NIC payload carrying exactly the fields of n; absent references are left out of it. */
  function NicDocument(n: Nic): Json {
    JObj(map["id" := n.id, "name" := n.name, "properties" := NicProperties(n)])
  }

  lemma DecodeNicDocument(n: Nic)
    ensures DecodeNic(NicDocument(n)) == Ok(n)
  {
    NicDocumentPaths(n);
    NicReferences(n);
  }

  lemma NicDocumentPaths(n: Nic)
    ensures Lookup(NicDocument(n), IdPath) == Ok(n.id)
    ensures Lookup(NicDocument(n), NamePath) == Ok(n.name)
    ensures Lookup(NicDocument(n), PropertiesPath) == Ok(NicProperties(n))
    ensures Lookup(NicDocument(n), IpConfigPath) == Ok(NicConfig(n))
    ensures Lookup(NicDocument(n), PrivateIpPath) == Ok(n.ip)
    ensures Lookup(NicDocument(n), AllocationPath) == Ok(n.allocationMethod)
  {
    var d := NicDocument(n);
    LookupKey(d, "id", []);
    LookupKey(d, "name", []);
    LookupKey(d, "properties", []);
    NicConfigPath(n);
    LookupKey(d, "properties", IpConfigPath[1..]);
    NicConfigFields(n);
    LookupSteps(d, IpConfigPath, [Key("privateIPAddress")]);
    LookupSteps(d, IpConfigPath, [Key("privateIPAllocationMethod")]);
  }

  lemma NicConfigPath(n: Nic)
    ensures Lookup(NicProperties(n), IpConfigPath[1..]) == Ok(NicConfig(n))
  {
    var properties := NicProperties(n);
    var configurations := properties.fields["ipConfigurations"];
    LookupKey(configurations.items[0], "properties", []);
    LookupIndex(configurations, 0, [Key("properties")]);
    LookupKey(properties, "ipConfigurations", IpConfigPath[2..]);
  }

  lemma NicConfigFields(n: Nic)
    ensures Lookup(NicConfig(n), [Key("privateIPAddress")]) == Ok(n.ip)
    ensures Lookup(NicConfig(n), [Key("privateIPAllocationMethod")]) == Ok(n.allocationMethod)
  {
    LookupKey(NicConfig(n), "privateIPAddress", []);
    LookupKey(NicConfig(n), "privateIPAllocationMethod", []);
  }

  lemma NicReferences(n: Nic)
    ensures GetNested(NicConfig(n), "publicIPAddress", "id") == Ok(n.pipid)
    ensures GetNested(NicConfig(n), "subnet", "id") == Ok(n.subnetid)
    ensures GetNested(NicProperties(n), "networkSecurityGroup", "id") == Ok(n.nsgid)
  {
  }

  /** A public IP payload; its address is None when the resource has none. */
  function DecodePublicIp(data: Json): (r: Outcome<PublicIp>)
    ensures r.Ok? <==>
              Lookup(data, IdPath).Ok? && Lookup(data, NamePath).Ok? &&
              Lookup(data, PropertiesPath).Ok? && ValueAt(data, PropertiesPath).JObj?
    ensures r.Ok? ==>
              var properties := ValueAt(data, PropertiesPath).fields;
              r.value.id == ValueAt(data, IdPath) && r.value.name == ValueAt(data, NamePath) &&
              r.value.ip == if "ipAddress" in properties then properties["ipAddress"] else JNull
  {
    var id :- Lookup(data, IdPath);
    var name :- Lookup(data, NamePath);
    var properties :- Lookup(data, PropertiesPath);
    var ip :- GetOr(properties, "ipAddress", JNull);
    Ok(PublicIp(id, name, ip))
  }

  /** A public IP payload carrying exactly the fields of p; a None address is left out. */
  function PublicIpDocument(p: PublicIp): Json {
    JObj(map["id" := p.id, "name" := p.name,
             "properties" := JObj(if p.ip == JNull then map[] else map["ipAddress" := p.ip])])
  }

  lemma DecodePublicIpDocument(p: PublicIp)
    ensures DecodePublicIp(PublicIpDocument(p)) == Ok(p)
  {
  }

  /** A subnet payload. */
  function DecodeSubnet(data: Json): (r: Outcome<Subnet>)
    ensures r.Ok? <==>
              Lookup(data, IdPath).Ok? && Lookup(data, NamePath).Ok? && Lookup(data, AddressPrefixPath).Ok?
    ensures r.Ok? ==>
              r.value == Subnet(ValueAt(data, IdPath), ValueAt(data, NamePath), ValueAt(data, AddressPrefixPath))
  {
    var id :- Lookup(data, IdPath);
    var name :- Lookup(data, NamePath);
    var prefix :- Lookup(data, AddressPrefixPath);
    Ok(Subnet(id, name, prefix))
  }

  function SubnetDocument(s: Subnet): Json {
    JObj(map["id" := s.id, "name" := s.name, "properties" := JObj(map["addressPrefix" := s.addressPrefix])])
  }

  lemma DecodeSubnetDocument(s: Subnet)
    ensures DecodeSubnet(SubnetDocument(s)) == Ok(s)
  {
  }

  /** One entry of a security group's `securityRules`; its properties are read first. */
  function DecodeRule(rule: Json): (r: Outcome<SecurityRule>)
    ensures r.Ok? <==>
              Lookup(rule, PropertiesPath).Ok? && Lookup(rule, NamePath).Ok? && Lookup(rule, IdPath).Ok? &&
              Lookup(rule, ProtocolPath).Ok? && Lookup(rule, AccessPath).Ok?
    ensures r.Ok? ==>
              r.value == SecurityRule(ValueAt(rule, NamePath), ValueAt(rule, IdPath),
                                      ValueAt(rule, ProtocolPath), ValueAt(rule, AccessPath))
    ensures Lookup(rule, PropertiesPath).Err? ==> r == Err(Lookup(rule, PropertiesPath).error)
  {
    var properties :- Sub(rule, "properties");
    var name :- Sub(rule, "name");
    var id :- Sub(rule, "id");
    var protocol :- Sub(properties, "protocol");
    var access :- Sub(properties, "access");
    Ok(SecurityRule(name, id, protocol, access))
  }

  function RuleDocument(s: SecurityRule): Json {
    JObj(map["name" := s.name, "id" := s.id,
             "properties" := JObj(map["protocol" := s.protocol, "access" := s.access])])
  }

  lemma DecodeRuleDocument(s: SecurityRule)
    ensures DecodeRule(RuleDocument(s)) == Ok(s)
  {
  }

  /**
   * A security group payload: its id and name, then one rule per entry of
   * `properties.securityRules`, in order.
   */
  function DecodeSecurityGroup(data: Json): (r: Outcome<SecurityGroup>)
    ensures r.Ok? <==>
              Lookup(data, IdPath).Ok? && Lookup(data, NamePath).Ok? && Lookup(data, SecurityRulesPath).Ok? &&
              LoopItems(ValueAt(data, SecurityRulesPath)).Ok? &&
              forall i :: 0 <= i < |LoopItems(ValueAt(data, SecurityRulesPath)).value| ==>
                DecodeRule(LoopItems(ValueAt(data, SecurityRulesPath)).value[i]).Ok?
    ensures r.Ok? ==>
              var entries := LoopItems(ValueAt(data, SecurityRulesPath)).value;
              r.value.id == ValueAt(data, IdPath) && r.value.name == ValueAt(data, NamePath) &&
              |r.value.rules| == |entries| &&
              forall i :: 0 <= i < |entries| ==> r.value.rules[i] == DecodeRule(entries[i]).value
  {
    var id :- Lookup(data, IdPath);
    var name :- Lookup(data, NamePath);
    var rulesValue :- Lookup(data, SecurityRulesPath);
    var entries :- LoopItems(rulesValue);
    TraverseMeaning(DecodeRule, entries);
    var rules :- Traverse(DecodeRule, entries);
    Ok(SecurityGroup(id, name, rules))
  }

  /** The security group dict, filled by appending one rule per loop iteration. */
  method BuildSecurityGroup(data: Json) returns (r: Outcome<SecurityGroup>)
    ensures r == DecodeSecurityGroup(data)
  {
    var id :- Lookup(data, IdPath);
    var name :- Lookup(data, NamePath);
    var rulesValue :- Lookup(data, SecurityRulesPath);
    var entries :- LoopItems(rulesValue);
    var rules: seq<SecurityRule> := [];
    var i := 0;
    while i < |entries|
      invariant 0 <= i <= |entries|
      invariant Traverse(DecodeRule, entries[..i]) == Ok(rules)
    {
      var rule := DecodeRule(entries[i]);
      if rule.Err? {
        TraverseStopsAt(DecodeRule, entries, i);
        return Err(rule.error);
      }
      TraverseStep(DecodeRule, entries, i);
      rules := rules + [rule.value];
      i := i + 1;
    }
    assert entries[..i] == entries;
    return Ok(SecurityGroup(id, name, rules));
  }

  /** The VM list: one record per item, appended in order. */
  method BuildVms(items: seq<Json>) returns (r: Outcome<seq<Vm>>)
    ensures r == Traverse(DecodeVm, items)
  {
    var vms: seq<Vm> := [];
    var i := 0;
    while i < |items|
      invariant 0 <= i <= |items|
      invariant Traverse(DecodeVm, items[..i]) == Ok(vms)
    {
      var d := DecodeVm(items[i]);
      if d.Err? {
        TraverseStopsAt(DecodeVm, items, i);
        return Err(d.error);
      }
      TraverseStep(DecodeVm, items, i);
      vms := vms + [d.value];
      i := i + 1;
    }
    assert items[..i] == items;
    return Ok(vms);
  }

  /** A VM list decodes to one record per item, in order, each carrying its item's first NIC id. */
  lemma VmListMeaning(items: seq<Json>)
    ensures Traverse(DecodeVm, items).Ok? <==> forall i :: 0 <= i < |items| ==> DecodeVm(items[i]).Ok?
    ensures Traverse(DecodeVm, items).Ok? ==>
              var vms := Traverse(DecodeVm, items).value;
              |vms| == |items| &&
              forall i :: 0 <= i < |items| ==>
                vms[i] == DecodeVm(items[i]).value && vms[i].nicid == ValueAt(items[i], FirstNicPath) &&
                vms[i].id == ValueAt(items[i], IdPath)
  {
    TraverseMeaning(DecodeVm, items);
  }

  /** `needle in s` for strings: s has needle as a contiguous part. */
  predicate Occurs(needle: string, s: string)
    decreases |s|
  {
    |needle| <= |s| && (s[..|needle|] == needle || Occurs(needle, s[1..]))
  }

  /** `JStr(k) in j`, a membership test that only a dict, a list or a string supports. */
  function Contains(j: Json, k: string): (r: Outcome<bool>)
    ensures j.JObj? ==> r == Ok(k in j.fields)
    ensures j.JArr? ==> r == Ok(JStr(k) in j.items)
    ensures j.JNull? || j.JNum? || j.JBool? ==> r == Err(TypeError)
  {
    match j
    case JObj(fields) => Ok(k in fields)
    case JArr(items) => Ok(JStr(k) in items)
    case JStr(s) => Ok(Occurs(k, s))
    case _ => Err(TypeError)
  }

  /** resolve_sku: the parent resource's `sku` when it has one, else None. */
  function Sku(parent: Json): (r: Outcome<Json>)
    ensures parent.JObj? ==> r.Ok?
    ensures parent.JObj? && "sku" in parent.fields ==> r.value == parent.fields["sku"]
    ensures parent.JObj? && "sku" !in parent.fields ==> r.value == JNull
    ensures Contains(parent, "sku") == Ok(false) ==> r == Ok(JNull)
    ensures !parent.JObj? ==> r.Err? || r == Ok(JNull)
  {
    var present :- Contains(parent, "sku");
    if present then Sub(parent, "sku") else Ok(JNull)
  }
}
