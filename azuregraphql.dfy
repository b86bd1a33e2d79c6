/**
 * The second version of the resolvers: every URI carries its API version
 * inline as `?api-version=...`, the VM list and the chained resolvers guard
 * against None, and a NIC exposes optional references to its public IP,
 * subnet and network security group.
 */
module AzureGraphQL {
  import opened Wrappers
  import opened Json
  import opened Py
  import opened Query
  import opened Remote
  import opened Decoders

  /**
   * The URI Resources fetches: scoped to the group when a group name is
   * given, refused (no URI is ever bound) when only a resource type is, and
   * subscription-wide otherwise.
   */
  function ResourcesTarget(subscriptionId: string, resourceGroupName: Option<string>,
                           resourceType: Option<string>): (r: Outcome<string>)
    ensures Given(resourceGroupName) ==>
              r.Ok? && r.value == Management + "/subscriptions/" + subscriptionId + "/resourcegroups/" +
                                  resourceGroupName.value + "/resources" + "?" + ApiVersionKey + "=" + "2018-05-01"
    ensures !Given(resourceGroupName) && Given(resourceType) ==> r == Err(UnsupportedFilter)
    ensures !Given(resourceGroupName) && !Given(resourceType) ==>
              r.Ok? && r.value == Management + "/subscriptions/" + subscriptionId + "/resources" + "?" + ApiVersionKey + "=" + "2018-05-01"
  {
    if Given(resourceGroupName) then
      Ok(Inline(Management + "/subscriptions/" + subscriptionId + "/resourcegroups/" + resourceGroupName.value +
                "/resources", "2018-05-01"))
    else if Given(resourceType) then Err(UnsupportedFilter)
    else Ok(Inline(Management + "/subscriptions/" + subscriptionId + "/resources", "2018-05-01"))
  }

  method Resources(client: Client, subscriptionId: string, resourceGroupName: Option<string>,
                   resourceType: Option<string>) returns (r: Outcome<Json>)
    modifies client
    ensures var target := ResourcesTarget(subscriptionId, resourceGroupName, resourceType);
            if target.Ok? then Fetched(client, target.value) && r == client.Response(target.value)
            else r == Err(UnsupportedFilter) && Untouched(client)
  {
    var uri :- ResourcesTarget(subscriptionId, resourceGroupName, resourceType);
    r := client.Get(uri);
  }

  function ResourceGroupsUri(subscriptionId: string): string {
    Inline(Management + "/subscriptions/" + subscriptionId + "/resourcegroups", "2017-05-10")
  }

  method ResourceGroups(client: Client, subscriptionId: string) returns (r: Outcome<Json>)
    modifies client
    ensures Fetched(client, ResourceGroupsUri(subscriptionId))
    ensures r == client.Response(ResourceGroupsUri(subscriptionId))
  {
    r := client.Get(ResourceGroupsUri(subscriptionId));
  }

  function VirtualMachinesUri(subscriptionId: string): string {
    Inline(Management + "/subscriptions/" + subscriptionId + "/providers/Microsoft.Compute/virtualMachines",
           "2019-03-01")
  }

  /** The VM list built from a fetched value: None passes through, anything else is iterated. */
  function VmList(data: Json): (r: Outcome<Option<seq<Vm>>>)
    ensures data == JNull ==> r == Ok(None)
    ensures data.JArr? ==>
              (r.Ok? <==> forall i :: 0 <= i < |data.items| ==> DecodeVm(data.items[i]).Ok?)
    ensures data.JArr? && r.Ok? ==>
              r.value.Some? && |r.value.value| == |data.items| &&
              forall i :: 0 <= i < |data.items| ==>
                r.value.value[i] == DecodeVm(data.items[i]).value &&
                r.value.value[i].nicid == ValueAt(data.items[i], FirstNicPath)
  {
    if data == JNull then Ok(None)
    else
      var items :- LoopItems(data);
      VmListMeaning(items);
      var vms :- Traverse(DecodeVm, items);
      Ok(Some(vms))
  }

  method VirtualMachines(client: Client, subscriptionId: string) returns (r: Outcome<Option<seq<Vm>>>)
    modifies client
    ensures Requested(client, Ok(VirtualMachinesUri(subscriptionId)), VmList, r)
  {
    var data :- client.Get(VirtualMachinesUri(subscriptionId));
    if data == JNull {
      return Ok(None);
    }
    var items :- LoopItems(data);
    var vms :- BuildVms(items);
    return Ok(Some(vms));
  }

  /** The URI of a resource named by an internal reference, which is formatted in whatever it holds. */
  function ResourceUri(reference: Json): (r: Outcome<string>)
    ensures reference.JStr? ==> r.Ok? && r.value == Management + reference.s + "?" + ApiVersionKey + "=" + "2019-02-01"
    ensures reference == JNull ==> r.Ok? && r.value == Management + "None" + "?" + ApiVersionKey + "=" + "2019-02-01"
  {
    var id :- PyStr(reference);
    Ok(Inline(Management + id, "2019-02-01"))
  }

  /** The nic field fetches the VM's NIC reference, with no None guard. */
  method NetworkInterface(client: Client, parent: Vm) returns (r: Outcome<Nic>)
    modifies client
    ensures Requested(client, ResourceUri(parent.nicid), DecodeNic, r)
  {
    var uri :- ResourceUri(parent.nicid);
    var nic :- client.Get(uri);
    r := DecodeNic(nic);
  }

  /** A chained field: None with no request when the reference is None, else the referenced resource. */
  function ChainedTarget(reference: Json): (r: Outcome<Option<string>>)
    ensures r == Ok(None) <==> reference == JNull
    ensures reference.JStr? ==> r.Ok? && r.value == Some(Management + reference.s + "?" + ApiVersionKey + "=" + "2019-02-01")
  {
    if reference == JNull then Ok(None)
    else
      var uri :- ResourceUri(reference);
      Ok(Some(uri))
  }

  method PublicIp(client: Client, parent: Nic) returns (r: Outcome<Option<PublicIp>>)
    modifies client
    ensures Resolved(client, ChainedTarget(parent.pipid), DecodePublicIp, r)
  {
    if parent.pipid == JNull {
      return Ok(None);
    }
    var uri :- ResourceUri(parent.pipid);
    var data :- client.Get(uri);
    var pip :- DecodePublicIp(data);
    return Ok(Some(pip));
  }

  method NetworkSecurityGroup(client: Client, parent: Nic) returns (r: Outcome<Option<SecurityGroup>>)
    modifies client
    ensures Resolved(client, ChainedTarget(parent.nsgid), DecodeSecurityGroup, r)
  {
    if parent.nsgid == JNull {
      return Ok(None);
    }
    var uri :- ResourceUri(parent.nsgid);
    var data :- client.Get(uri);
    var nsg :- BuildSecurityGroup(data);
    return Ok(Some(nsg));
  }

  method Subnet(client: Client, parent: Nic) returns (r: Outcome<Option<Subnet>>)
    modifies client
    ensures Resolved(client, ChainedTarget(parent.subnetid), DecodeSubnet, r)
  {
    if parent.subnetid == JNull {
      return Ok(None);
    }
    var uri :- ResourceUri(parent.subnetid);
    var data :- client.Get(uri);
    var subnet :- DecodeSubnet(data);
    return Ok(Some(subnet));
  }
}
