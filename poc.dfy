/**
 * The first prototype of the resolvers: URIs carry their API version inline,
 * Resources knows no resource-type filter, nothing guards against None, and
 * a NIC must reference a public IP.
 */
module Poc {
  import opened Wrappers
  import opened Json
  import opened Py
  import opened Query
  import opened Remote
  import opened Decoders

  /** The URI Resources fetches: scoped to the group when a group name is given, subscription-wide otherwise. */
  function ResourcesUri(subscriptionId: string, resourceGroupName: Option<string>): (uri: string)
    ensures Given(resourceGroupName) ==>
              uri == Management + "/subscriptions/" + subscriptionId + "/resourcegroups/" +
                     resourceGroupName.value + "/resources" + "?" + ApiVersionKey + "=" + "2018-05-01"
    ensures !Given(resourceGroupName) ==>
              uri == Management + "/subscriptions/" + subscriptionId + "/resources" + "?" + ApiVersionKey + "=" + "2018-05-01"
  {
    if Given(resourceGroupName) then
      Inline(Management + "/subscriptions/" + subscriptionId + "/resourcegroups/" + resourceGroupName.value +
             "/resources", "2018-05-01")
    else Inline(Management + "/subscriptions/" + subscriptionId + "/resources", "2018-05-01")
  }

  method Resources(client: Client, subscriptionId: string, resourceGroupName: Option<string>)
    returns (r: Outcome<Json>)
    modifies client
    ensures Fetched(client, ResourcesUri(subscriptionId, resourceGroupName))
    ensures r == client.Response(ResourcesUri(subscriptionId, resourceGroupName))
  {
    r := client.Get(ResourcesUri(subscriptionId, resourceGroupName));
  }

  function ResourceGroupsUri(subscriptionId: string): string {
    Inline(Management + "/subscriptions/" + subscriptionId + "/resourcegroups", "2017-05-10")
  }

  method ResourceGroups(client: Client, subscriptionId: string) returns (r: Outcome<Json>)
    modifies client
    ensures Fetched(client, ResourceGroupsUri(subscriptionId))
    ensures r == client.Response(ResourceGroupsUri(subscriptionId))
  {
    r := client.Get(ResourceGroupsUri(subscriptionId));
  }

  function VirtualMachinesUri(subscriptionId: string): string {
    Inline(Management + "/subscriptions/" + subscriptionId + "/providers/Microsoft.Compute/virtualMachines",
           "2019-03-01")
  }

  /** The VM list built from a fetched value, with no None guard: iterating None fails. */
  function VmList(data: Json): (r: Outcome<seq<Vm>>)
    ensures data == JNull ==> r == Err(TypeError)
    ensures data.JArr? ==>
              (r.Ok? <==> forall i :: 0 <= i < |data.items| ==> DecodeVm(data.items[i]).Ok?)
    ensures data.JArr? && r.Ok? ==>
              |r.value| == |data.items| &&
              forall i :: 0 <= i < |data.items| ==>
                r.value[i] == DecodeVm(data.items[i]).value &&
                r.value[i].nicid == ValueAt(data.items[i], FirstNicPath)
  {
    var items :- LoopItems(data);
    VmListMeaning(items);
    Traverse(DecodeVm, items)
  }

  method VirtualMachines(client: Client, subscriptionId: string) returns (r: Outcome<seq<Vm>>)
    modifies client
    ensures Requested(client, Ok(VirtualMachinesUri(subscriptionId)), VmList, r)
  {
    var data :- client.Get(VirtualMachinesUri(subscriptionId));
    var items :- LoopItems(data);
    r := BuildVms(items);
  }

  /** A network interface as the prototype builds it: the public IP reference is required. */
  datatype PrototypeNic = PrototypeNic(id: Json, name: Json, ip: Json, pipid: Json, allocationMethod: Json)

  const PublicIpIdPath: seq<Step> := IpConfigPath + [Key("publicIPAddress"), Key("id")]

  function DecodePrototypeNic(nic: Json): (r: Outcome<PrototypeNic>)
    ensures r.Ok? <==>
              Lookup(nic, IdPath).Ok? && Lookup(nic, NamePath).Ok? && Lookup(nic, PrivateIpPath).Ok? &&
              Lookup(nic, PublicIpIdPath).Ok? && Lookup(nic, AllocationPath).Ok?
    ensures r.Ok? ==>
              r.value == PrototypeNic(ValueAt(nic, IdPath), ValueAt(nic, NamePath), ValueAt(nic, PrivateIpPath),
                             ValueAt(nic, PublicIpIdPath), ValueAt(nic, AllocationPath))
  {
    var id :- Lookup(nic, IdPath);
    var name :- Lookup(nic, NamePath);
    var ip :- Lookup(nic, PrivateIpPath);
    var pipid :- Lookup(nic, PublicIpIdPath);
    var allocation :- Lookup(nic, AllocationPath);
    Ok(PrototypeNic(id, name, ip, pipid, allocation))
  }

  /** A NIC whose IP configuration has no public IP cannot be decoded by the prototype. */
  lemma NicWithoutPublicIp(nic: Json)
    requires Lookup(nic, IpConfigPath).Ok?
    requires ValueAt(nic, IpConfigPath).JObj? && "publicIPAddress" !in ValueAt(nic, IpConfigPath).fields
    ensures DecodePrototypeNic(nic).Err?
  {
    LookupAppend(nic, IpConfigPath, [Key("publicIPAddress"), Key("id")]);
  }

  /** The URI of a resource named by an internal reference, formatted with whatever it holds. */
  function ResourceUri(reference: Json): (r: Outcome<string>)
    ensures r.Ok? <==> PyStr(reference).Ok?
    ensures reference.JStr? ==> r.Ok? && r.value == Management + reference.s + "?" + ApiVersionKey + "=" + "2019-02-01"
    ensures reference == JNull ==> r.Ok? && r.value == Management + "None" + "?" + ApiVersionKey + "=" + "2019-02-01"
  {
    var id :- PyStr(reference);
    Ok(Inline(Management + id, "2019-02-01"))
  }

  method NetworkInterface(client: Client, parent: Vm) returns (r: Outcome<PrototypeNic>)
    modifies client
    ensures Requested(client, ResourceUri(parent.nicid), DecodePrototypeNic, r)
  {
    var uri :- ResourceUri(parent.nicid);
    var nic :- client.Get(uri);
    r := DecodePrototypeNic(nic);
  }

  /** publicIP always fetches its reference, None included. */
  method PublicIp(client: Client, parent: PrototypeNic) returns (r: Outcome<PublicIp>)
    modifies client
    ensures Requested(client, ResourceUri(parent.pipid), DecodePublicIp, r)
  {
    var uri :- ResourceUri(parent.pipid);
    var data :- client.Get(uri);
    r := DecodePublicIp(data);
  }
}
