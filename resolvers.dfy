/**
 * The server version of the resolvers: every request goes through one
 * adapter that appends the urlencoded parameters to a base URI; resource
 * groups gain a consumption summary and VMs an instance view.
 */
module ServerResolvers {
  import opened Wrappers
  import opened Json
  import opened Py
  import opened Query
  import opened Remote
  import opened Decoders

  /** The API version each family of endpoints is asked for. */
  const ResourcesVersion := "2018-05-01"
  const ResourceGroupsVersion := "2017-05-10"
  const ConsumptionVersion := "2019-01-01"
  const ComputeVersion := "2019-03-01"
  const NetworkVersion := "2019-02-01"

  /** The other query parameters: the usage filter, and the VM list's request for instance views. */
  const FilterKey := "$filter"
  const ExpandInstanceView := ("expand", "instanceView")

  /** The expand parameter needs no quoting. */
  lemma ExpandInstanceViewSafe()
    ensures Safe(ExpandInstanceView.0) && Safe(ExpandInstanceView.1)
  {
  }

  /** The parameters of a request that only names its API version. */
  function ApiVersion(version: string): Params {
    [(ApiVersionKey, version)]
  }

  /** resolveRequest: one GET of the base URI with the urlencoded parameters appended. */
  method Request(client: Client, base: string, params: Params) returns (r: Outcome<Json>)
    modifies client
    ensures Fetched(client, RequestUri(base, params))
    ensures r == client.Response(RequestUri(base, params))
  {
    var uri := RequestUri(base, params);
    r := client.Get(uri);
  }

  /**
   * The base URI Resources fetches: scoped to the group when a group name
   * is given, none at all when only a resource type is, subscription-wide
   * otherwise.
   */
  function ResourcesBase(subscriptionId: string, resourceGroupName: Option<string>,
                         resourceType: Option<string>): (r: Outcome<string>)
    ensures Given(resourceGroupName) ==>
              r.Ok? && r.value == Management + "/subscriptions/" + subscriptionId + "/resourcegroups/" +
                                  resourceGroupName.value + "/resources"
    ensures !Given(resourceGroupName) && Given(resourceType) ==> r == Err(UnsupportedFilter)
    ensures !Given(resourceGroupName) && !Given(resourceType) ==>
              r.Ok? && r.value == Management + "/subscriptions/" + subscriptionId + "/resources"
  {
    if Given(resourceGroupName) then
      Ok(Management + "/subscriptions/" + subscriptionId + "/resourcegroups/" + resourceGroupName.value + "/resources")
    else if Given(resourceType) then Err(UnsupportedFilter)
    else Ok(Management + "/subscriptions/" + subscriptionId + "/resources")
  }

  function ResourcesTarget(subscriptionId: string, resourceGroupName: Option<string>,
                           resourceType: Option<string>): (r: Outcome<string>)
    ensures r.Ok? <==> ResourcesBase(subscriptionId, resourceGroupName, resourceType).Ok?
    ensures r.Ok? ==>
              r.value == RequestUri(ResourcesBase(subscriptionId, resourceGroupName, resourceType).value,
                                    ApiVersion(ResourcesVersion))
  {
    var base :- ResourcesBase(subscriptionId, resourceGroupName, resourceType);
    Ok(RequestUri(base, ApiVersion(ResourcesVersion)))
  }

  method Resources(client: Client, subscriptionId: string, resourceGroupName: Option<string>,
                   resourceType: Option<string>) returns (r: Outcome<Json>)
    modifies client
    ensures var target := ResourcesTarget(subscriptionId, resourceGroupName, resourceType);
            if target.Ok? then Fetched(client, target.value) && r == client.Response(target.value)
            else r == Err(UnsupportedFilter) && Untouched(client)
  {
    var base :- ResourcesBase(subscriptionId, resourceGroupName, resourceType);
    r := Request(client, base, ApiVersion(ResourcesVersion));
  }

  function ResourceGroupsUri(subscriptionId: string): string {
    RequestUri(Management + "/subscriptions/" + subscriptionId + "/resourcegroups", ApiVersion(ResourceGroupsVersion))
  }

  method ResourceGroups(client: Client, subscriptionId: string) returns (r: Outcome<Json>)
    modifies client
    ensures Fetched(client, ResourceGroupsUri(subscriptionId))
    ensures r == client.Response(ResourceGroupsUri(subscriptionId))
  {
    r := Request(client, Management + "/subscriptions/" + subscriptionId + "/resourcegroups", ApiVersion(ResourceGroupsVersion));
  }

  // ---------------------------------------------------------------------
  // Consumption of a resource group

  /** The consumption summary of a resource group. */
  datatype Usage = Usage(usage: real, currency: string)

  /** What a group with no usage data reports. */
  const NoUsage := Usage(0.0, "N/A")

  /** `groupId.split('/')[2]`: the subscription segment of a resource group id. */
  function SubscriptionOf(groupId: Json): (r: Outcome<string>)
    ensures groupId.JStr? && |Split(groupId.s, '/')| > 2 ==> r == Ok(Split(groupId.s, '/')[2])
    ensures groupId.JStr? && |Split(groupId.s, '/')| <= 2 ==> r == Err(IndexError(2))
    ensures !groupId.JStr? ==> r == Err(AttributeError)
  {
    match groupId
    case JStr(s) =>
      var parts := Split(s, '/');
      if |parts| > 2 then Ok(parts[2]) else Err(IndexError(2))
    case _ => Err(AttributeError)
  }

  /** The third '/'-segment of `/a/b/rest` is b, for segments a and b without a '/'. */
  lemma ThirdSegment(a: string, b: string, rest: string)
    requires '/' !in a && '/' !in b
    ensures |Split("/" + a + "/" + b + "/" + rest, '/')| > 2
    ensures Split("/" + a + "/" + b + "/" + rest, '/')[2] == b
  {
    var id := "/" + a + "/" + b + "/" + rest;
    assert id == "/" + (a + "/" + (b + "/" + rest));
    SplitSegment([], a + "/" + (b + "/" + rest), '/');
    assert [] + "/" + (a + "/" + (b + "/" + rest)) == id;
    SplitSegment(a, b + "/" + rest, '/');
    SplitSegment(b, rest, '/');
  }

  /** A group id of the usual shape yields its subscription, whatever follows it. */
  lemma SubscriptionOfGroupId(subscriptionId: string, rest: string)
    requires '/' !in subscriptionId
    ensures SubscriptionOf(JStr("/subscriptions/" + subscriptionId + "/" + rest)) == Ok(subscriptionId)
  {
    assert "/subscriptions/" == "/" + "subscriptions" + "/";
    assert '/' !in "subscriptions";
    ThirdSegment("subscriptions", subscriptionId, rest);
  }

  /** The `$filter` that selects one resource group's usage rows. */
  function GroupFilter(groupName: string): string {
    "properties/resourceGroup eq '" + groupName + "'"
  }

  /**
   * The usage URI of a resource group: its name and id are read first, the
   * subscription is the third segment of the id, and the name is formatted
   * into the filter.
   */
  function ConsumptionTarget(group: Json): Outcome<string>
  {
    var name :- Sub(group, "name");
    var id :- Sub(group, "id");
    var subscriptionId :- SubscriptionOf(id);
    var groupName :- PyStr(name);
    Ok(RequestUri(Management + "/subscriptions/" + subscriptionId + "/providers/Microsoft.Consumption/usageDetails",
                  [(ApiVersionKey, ConsumptionVersion), (FilterKey, GroupFilter(groupName))]))
  }

  /**
   * The usage URI fails with the first fault of the chain name, id, third
   * segment of the id, formatting of the name; otherwise it filters on the
   * name under the id's subscription.
   */
  lemma ConsumptionTargetMeaning(group: Json)
    ensures !group.JObj? ==> ConsumptionTarget(group) == Err(TypeError)
    ensures group.JObj? && "name" !in group.fields ==> ConsumptionTarget(group) == Err(KeyError(JStr("name")))
    ensures group.JObj? && "name" in group.fields && "id" !in group.fields ==>
              ConsumptionTarget(group) == Err(KeyError(JStr("id")))
    ensures group.JObj? && "name" in group.fields && "id" in group.fields &&
            SubscriptionOf(group.fields["id"]).Err? ==>
              ConsumptionTarget(group) == Err(SubscriptionOf(group.fields["id"]).error)
    ensures group.JObj? && "name" in group.fields && "id" in group.fields &&
            SubscriptionOf(group.fields["id"]).Ok? && PyStr(group.fields["name"]).Err? ==>
              ConsumptionTarget(group) == Err(Unformattable)
    ensures ConsumptionTarget(group).Ok? <==>
              Sub(group, "name").Ok? && Sub(group, "id").Ok? && SubscriptionOf(group.fields["id"]).Ok? &&
              PyStr(group.fields["name"]).Ok?
    ensures ConsumptionTarget(group).Ok? ==>
              ConsumptionTarget(group).value ==
              RequestUri(Management + "/subscriptions/" + SubscriptionOf(group.fields["id"]).value +
                         "/providers/Microsoft.Consumption/usageDetails",
                         [(ApiVersionKey, ConsumptionVersion),
                          (FilterKey, GroupFilter(PyStr(group.fields["name"]).value))])
  {
  }

  /**
   * A group as Azure lists it, `{"name": n, "id": "/subscriptions/s/..."}`:
   * its usage is asked of subscription s and filtered on n, and the query
   * decodes back to exactly those two parameters.
   */
  lemma ConsumptionTargetOfGroup(group: Json, subscriptionId: string, rest: string, name: string)
    requires group.JObj? && "name" in group.fields && "id" in group.fields
    requires group.fields["name"] == JStr(name)
    requires group.fields["id"] == JStr("/subscriptions/" + subscriptionId + "/" + rest)
    requires '/' !in subscriptionId
    ensures ConsumptionTarget(group) ==
              Ok(RequestUri(Management + "/subscriptions/" + subscriptionId + "/providers/Microsoft.Consumption/usageDetails",
                            [(ApiVersionKey, ConsumptionVersion), (FilterKey, GroupFilter(name))]))
    ensures ParseQuery(Urlencode([(ApiVersionKey, ConsumptionVersion), (FilterKey, GroupFilter(name))])) ==
              Some([(ApiVersionKey, ConsumptionVersion), (FilterKey, GroupFilter(name))])
  {
    SubscriptionOfGroupId(subscriptionId, rest);
    ParseUrlencode([(ApiVersionKey, ConsumptionVersion), (FilterKey, GroupFilter(name))]);
  }

  /** The number a usage property counts as: its value, or 0.0 when it is missing. */
  function Amount(properties: map<string, Json>, key: string): Json {
    if key in properties then properties[key] else JNum(0.0)
  }

  /** `usage['properties'].get('usageQuantity', 0.0) * usage['properties'].get('pretaxCost', 0.0)`. */
  function UsageCost(row: Json): Outcome<real>
  {
    var properties :- Sub(row, "properties");
    var quantity :- GetOr(properties, "usageQuantity", JNum(0.0));
    Mul(quantity, Amount(properties.fields, "pretaxCost"))
  }

  /**
   * A row without properties fails with the subscript's fault, properties
   * that are not a dict fail on `.get`, and otherwise the cost is the product
   * of the two amounts, a missing amount counting as zero.
   */
  lemma UsageCostMeaning(row: Json)
    ensures Sub(row, "properties").Err? ==> UsageCost(row) == Err(Sub(row, "properties").error)
    ensures Sub(row, "properties").Ok? && !row.fields["properties"].JObj? ==> UsageCost(row) == Err(AttributeError)
    ensures row.JObj? && "properties" in row.fields && row.fields["properties"].JObj? ==>
              var quantity := Amount(row.fields["properties"].fields, "usageQuantity");
              var cost := Amount(row.fields["properties"].fields, "pretaxCost");
              (quantity.JNum? && cost.JNum? ==> UsageCost(row).Ok? && UsageCost(row).value == quantity.n * cost.n) &&
              (UsageCost(row).Ok? ==> (quantity.JNum? || quantity.JBool?) && (cost.JNum? || cost.JBool?))
  {
  }

  /** The sum of a sequence of costs, added up from the left. */
  function Sum(costs: seq<real>): real
    decreases |costs|
  {
    if costs == [] then 0.0 else Sum(costs[..|costs| - 1]) + costs[|costs| - 1]
  }

  lemma {:induction false} SumAppend(a: seq<real>, b: seq<real>)
    ensures Sum(a + b) == Sum(a) + Sum(b)
    decreases |b|
  {
    if b == [] {
      assert a + b == a;
    } else {
      var n := |b| - 1;
      assert (a + b)[..|a + b| - 1] == a + b[..n];
      assert (a + b)[|a + b| - 1] == b[n];
      SumAppend(a, b[..n]);
    }
  }

  /** The running sum over the usage rows, or the fault of the first row that fails. */
  function UsageTotal(rows: seq<Json>): Outcome<real> {
    var costs :- Traverse(UsageCost, rows);
    Ok(Sum(costs))
  }

  /** A failing total fails with the fault of its first failing row; every row before it has a cost. */
  lemma UsageTotalFirstFault(rows: seq<Json>)
    requires UsageTotal(rows).Err?
    ensures exists k :: 0 <= k < |rows| && UsageCost(rows[k]).Err? && UsageTotal(rows).error == UsageCost(rows[k]).error &&
                        forall i :: 0 <= i < k ==> UsageCost(rows[i]).Ok?
  {
    TraverseMeaning(UsageCost, rows);
  }

  /** The total over two runs of rows is the sum of their totals. */
  lemma UsageTotalAppend(a: seq<Json>, b: seq<Json>)
    requires UsageTotal(a).Ok? && UsageTotal(b).Ok?
    ensures UsageTotal(a + b) == Ok(UsageTotal(a).value + UsageTotal(b).value)
  {
    TraverseAppend(UsageCost, a, b);
    SumAppend(Traverse(UsageCost, a).value, Traverse(UsageCost, b).value);
  }

  /** The summary of the fetched usage data: the zero state for None or an empty result, else the sum in DKK. */
  function ConsumptionOf(data: Json): (r: Outcome<Usage>)
    ensures !Truthy(data) ==> r == Ok(NoUsage)
    ensures data.JArr? && data.items != [] ==>
              (r.Ok? <==> UsageTotal(data.items).Ok?) &&
              (r.Ok? ==> r.value == Usage(UsageTotal(data.items).value, "DKK"))
    ensures data.JArr? && data.items != [] && UsageTotal(data.items).Err? ==> r == Err(UsageTotal(data.items).error)
    ensures Truthy(data) && (data.JObj? || data.JStr?) ==> r == Err(TypeError)
    ensures Truthy(data) && (data.JNum? || data.JBool?) ==> r == Err(TypeError)
  {
    if !Truthy(data) then Ok(NoUsage)
    else if !(data.JArr? || data.JStr? || data.JObj?) then Err(TypeError)
    else
      var rows :- LoopItems(data);
      var total :- UsageTotal(rows);
      Ok(Usage(total, "DKK"))
  }

  /** The `sum +=` loop over the usage rows. */
  method SumUsage(rows: seq<Json>) returns (r: Outcome<real>)
    ensures r == UsageTotal(rows)
  {
    var sum := 0.0;
    ghost var costs: seq<real> := [];
    var i := 0;
    while i < |rows|
      invariant 0 <= i <= |rows|
      invariant Traverse(UsageCost, rows[..i]) == Ok(costs) && sum == Sum(costs)
    {
      var cost := UsageCost(rows[i]);
      if cost.Err? {
        TraverseStopsAt(UsageCost, rows, i);
        return Err(cost.error);
      }
      TraverseStep(UsageCost, rows, i);
      assert (costs + [cost.value])[..|costs|] == costs;
      sum := sum + cost.value;
      costs := costs + [cost.value];
      i := i + 1;
    }
    assert rows[..i] == rows;
    return Ok(sum);
  }

  method Consumption(client: Client, group: Json) returns (r: Outcome<Usage>)
    modifies client
    ensures Requested(client, ConsumptionTarget(group), ConsumptionOf, r)
  {
    var uri :- ConsumptionTarget(group);
    var data :- client.Get(uri);
    r := Tally(data);
  }

  /** The part of the consumption resolver after the fetch: the empty-answer guard, then the loop. */
  method Tally(data: Json) returns (r: Outcome<Usage>)
    ensures r == ConsumptionOf(data)
  {
    if !Truthy(data) {
      return Ok(NoUsage);
    }
    if !(data.JArr? || data.JStr? || data.JObj?) {
      return Err(TypeError);
    }
    var rows :- LoopItems(data);
    var total :- SumUsage(rows);
    return Ok(Usage(total, "DKK"));
  }

  /** One usage row with the given quantity and cost. */
  function UsageRow(quantity: real, cost: real): Json {
    JObj(map["properties" := JObj(map["usageQuantity" := JNum(quantity), "pretaxCost" := JNum(cost)])])
  }

  /** Two rows, 2 x 3 and 1 x 5, cost 11 DKK. */
  lemma ConsumptionExample()
    ensures ConsumptionOf(JArr([UsageRow(2.0, 3.0), UsageRow(1.0, 5.0)])) == Ok(Usage(11.0, "DKK"))
  {
    var rows := [UsageRow(2.0, 3.0), UsageRow(1.0, 5.0)];
    UsageCostMeaning(rows[0]);
    UsageCostMeaning(rows[1]);
    assert rows[..0] == [] && rows[..2] == rows;
    TraverseStep(UsageCost, rows, 0);
    TraverseStep(UsageCost, rows, 1);
    assert UsageCost(rows[0]) == Ok(6.0) && UsageCost(rows[1]) == Ok(5.0);
    var costs := [6.0, 5.0];
    assert Traverse(UsageCost, rows[..1]) == Ok([6.0]) by {
      assert [] + [6.0] == [6.0];
    }
    assert [6.0] + [5.0] == costs;
    assert Traverse(UsageCost, rows) == Ok(costs);
    assert costs[..1] == [6.0] && costs[..1][..0] == [];
    assert UsageTotal(rows) == Ok(11.0);
  }

  /** A row without a quantity or a cost adds nothing. */
  lemma MissingKeysCountZero(properties: map<string, Json>)
    requires "usageQuantity" !in properties || "pretaxCost" !in properties
    requires "usageQuantity" in properties ==> properties["usageQuantity"].JNum?
    requires "pretaxCost" in properties ==> properties["pretaxCost"].JNum?
    ensures UsageCost(JObj(map["properties" := JObj(properties)])) == Ok(0.0)
  {
    UsageCostMeaning(JObj(map["properties" := JObj(properties)]));
  }

  // ---------------------------------------------------------------------
  // Virtual machines

  /** A VM as this version builds it: the VM record plus its own id as the instance-view reference. */
  datatype ServerVm = ServerVm(id: Json, name: Json, size: Json, location: Json, nicid: Json, os: Json, vmid: Json)

  function DecodeServerVm(vm: Json): (r: Outcome<ServerVm>)
    ensures r.Ok? <==> DecodeVm(vm).Ok?
    ensures r.Ok? ==>
              var v := DecodeVm(vm).value;
              r.value == ServerVm(v.id, v.name, v.size, v.location, v.nicid, v.os, v.id) &&
              r.value.vmid == ValueAt(vm, IdPath) && r.value.nicid == ValueAt(vm, FirstNicPath)
  {
    var v :- DecodeVm(vm);
    Ok(ServerVm(v.id, v.name, v.size, v.location, v.nicid, v.os, v.id))
  }

  method BuildServerVms(items: seq<Json>) returns (r: Outcome<seq<ServerVm>>)
    ensures r == Traverse(DecodeServerVm, items)
  {
    var vms: seq<ServerVm> := [];
    var i := 0;
    while i < |items|
      invariant 0 <= i <= |items|
      invariant Traverse(DecodeServerVm, items[..i]) == Ok(vms)
    {
      var d := DecodeServerVm(items[i]);
      if d.Err? {
        TraverseStopsAt(DecodeServerVm, items, i);
        return Err(d.error);
      }
      TraverseStep(DecodeServerVm, items, i);
      vms := vms + [d.value];
      i := i + 1;
    }
    assert items[..i] == items;
    return Ok(vms);
  }

  function VirtualMachinesUri(subscriptionId: string): string {
    RequestUri(Management + "/subscriptions/" + subscriptionId + "/providers/Microsoft.Compute/virtualMachines",
               [ExpandInstanceView, (ApiVersionKey, ComputeVersion)])
  }

  /** The VM list built from a fetched value: None passes through, anything else is iterated. */
  function VmList(data: Json): (r: Outcome<Option<seq<ServerVm>>>)
    ensures data == JNull ==> r == Ok(None)
    ensures data.JArr? ==>
              (r.Ok? <==> forall i :: 0 <= i < |data.items| ==> DecodeVm(data.items[i]).Ok?)
    ensures data.JArr? && r.Ok? ==>
              r.value.Some? && |r.value.value| == |data.items| &&
              forall i :: 0 <= i < |data.items| ==>
                r.value.value[i] == DecodeServerVm(data.items[i]).value &&
                r.value.value[i].nicid == ValueAt(data.items[i], FirstNicPath) &&
                r.value.value[i].vmid == ValueAt(data.items[i], IdPath)
  {
    if data == JNull then Ok(None)
    else
      var items :- LoopItems(data);
      TraverseMeaning(DecodeServerVm, items);
      var vms :- Traverse(DecodeServerVm, items);
      Ok(Some(vms))
  }

  method VirtualMachines(client: Client, subscriptionId: string) returns (r: Outcome<Option<seq<ServerVm>>>)
    modifies client
    ensures Requested(client, Ok(VirtualMachinesUri(subscriptionId)), VmList, r)
  {
    var data :- Request(client, Management + "/subscriptions/" + subscriptionId +
                                "/providers/Microsoft.Compute/virtualMachines",
                        [ExpandInstanceView, (ApiVersionKey, ComputeVersion)]);
    if data == JNull {
      return Ok(None);
    }
    var items :- LoopItems(data);
    var vms :- BuildServerVms(items);
    return Ok(Some(vms));
  }

  /** The instance view of a VM: the code of its second status. */
  datatype InstanceView = InstanceView(vmStatus: Json)

  const StatusCodePath: seq<Step> := [Key("statuses"), Index(1), Key("code")]

  function InstanceViewUri(parent: ServerVm): (r: Outcome<string>)
    ensures r.Ok? <==> PyStr(parent.vmid).Ok?
    ensures parent.vmid.JStr? ==>
              r.Ok? && r.value == RequestUri(Management + parent.vmid.s + "/instanceview", ApiVersion(ComputeVersion))
  {
    var id :- PyStr(parent.vmid);
    Ok(RequestUri(Management + id + "/instanceview", ApiVersion(ComputeVersion)))
  }

  /** The instance view of a fetched VM; there is no None guard, so an error answer fails. */
  function DecodeInstanceView(data: Json): (r: Outcome<InstanceView>)
    ensures r.Ok? <==> Lookup(data, StatusCodePath).Ok?
    ensures r.Ok? ==> r.value.vmStatus == ValueAt(data, StatusCodePath)
    ensures data == JNull ==> r == Err(TypeError)
  {
    var code :- Lookup(data, StatusCodePath);
    Ok(InstanceView(code))
  }

  method VmInstanceView(client: Client, parent: ServerVm) returns (r: Outcome<InstanceView>)
    modifies client
    ensures Requested(client, InstanceViewUri(parent), DecodeInstanceView, r)
  {
    var id :- PyStr(parent.vmid);
    var data :- Request(client, Management + id + "/instanceview", ApiVersion(ComputeVersion));
    r := DecodeInstanceView(data);
  }

  // ---------------------------------------------------------------------
  // Network resources

  /** The URI of a resource named by an internal reference, formatted with whatever it holds. */
  function ResourceUri(reference: Json): (r: Outcome<string>)
    ensures r.Ok? <==> PyStr(reference).Ok?
    ensures reference.JStr? ==> r.Ok? && r.value == RequestUri(Management + reference.s, ApiVersion(NetworkVersion))
  {
    var id :- PyStr(reference);
    Ok(RequestUri(Management + id, ApiVersion(NetworkVersion)))
  }

  /** The nic field fetches the VM's NIC reference, with no None guard. */
  method NetworkInterface(client: Client, parent: ServerVm) returns (r: Outcome<Nic>)
    modifies client
    ensures Requested(client, ResourceUri(parent.nicid), DecodeNic, r)
  {
    var id :- PyStr(parent.nicid);
    var nic :- Request(client, Management + id, ApiVersion(NetworkVersion));
    r := DecodeNic(nic);
  }

  /** A chained field: None with no request when the reference is None, else the referenced resource. */
  function ChainedTarget(reference: Json): (r: Outcome<Option<string>>)
    ensures r == Ok(None) <==> reference == JNull
    ensures reference.JStr? ==> r.Ok? && r.value == Some(RequestUri(Management + reference.s, ApiVersion(NetworkVersion)))
  {
    if reference == JNull then Ok(None)
    else
      var uri :- ResourceUri(reference);
      Ok(Some(uri))
  }

  method PublicIp(client: Client, parent: Nic) returns (r: Outcome<Option<PublicIp>>)
    modifies client
    ensures Resolved(client, ChainedTarget(parent.pipid), DecodePublicIp, r)
  {
    if parent.pipid == JNull {
      return Ok(None);
    }
    var id :- PyStr(parent.pipid);
    var data :- Request(client, Management + id, ApiVersion(NetworkVersion));
    var pip :- DecodePublicIp(data);
    return Ok(Some(pip));
  }

  method NetworkSecurityGroup(client: Client, parent: Nic) returns (r: Outcome<Option<SecurityGroup>>)
    modifies client
    ensures Resolved(client, ChainedTarget(parent.nsgid), DecodeSecurityGroup, r)
  {
    if parent.nsgid == JNull {
      return Ok(None);
    }
    var id :- PyStr(parent.nsgid);
    var data :- Request(client, Management + id, ApiVersion(NetworkVersion));
    var nsg :- BuildSecurityGroup(data);
    return Ok(Some(nsg));
  }

  method Subnet(client: Client, parent: Nic) returns (r: Outcome<Option<Subnet>>)
    modifies client
    ensures Resolved(client, ChainedTarget(parent.subnetid), DecodeSubnet, r)
  {
    if parent.subnetid == JNull {
      return Ok(None);
    }
    var id :- PyStr(parent.subnetid);
    var data :- Request(client, Management + id, ApiVersion(NetworkVersion));
    var subnet :- DecodeSubnet(data);
    return Ok(Some(subnet));
  }
}
