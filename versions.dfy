/**
 * How the three versions of the resolvers relate: which requests stayed the
 * same as urlencoding replaced the inline query strings, and which guards
 * and optional references were added along the way.
 */
module Versions {
  import opened Wrappers
  import opened Json
  import opened Py
  import opened Query
  import opened Decoders
  import opened Remote
  import Poc
  import AzureGraphQL
  import ServerResolvers

  /** An API version of the form yyyy-mm-dd is written as it stands. */
  lemma DateSafe(date: string)
    requires |date| == 10 && date[4] == '-' && date[7] == '-'
    requires forall i :: 0 <= i < 10 && i != 4 && i != 7 ==> '0' <= date[i] <= '9'
    ensures Safe(date)
  {
  }

  /** An urlencoded API version is the same query as the inline one. */
  lemma EncodedApiVersion(base: string, version: string)
    requires Safe(version)
    ensures RequestUri(base, ServerResolvers.ApiVersion(version)) == Inline(base, version)
  {
    ApiVersionKeySafe();
    SafeSingleParameter(base, ApiVersionKey, version);
  }

  lemma KnownDatesSafe()
    ensures Safe("2017-05-10") && Safe("2018-05-01") && Safe("2019-02-01")
    ensures Safe("2019-01-01") && Safe("2019-03-01")
  {
    DateSafe("2017-05-10");
    DateSafe("2018-05-01");
    DateSafe("2019-02-01");
    DateSafe("2019-01-01");
    DateSafe("2019-03-01");
  }

  /** Resources sends the same request in the second and the server version, and refuses the same calls. */
  lemma ResourcesUnchanged(subscriptionId: string, resourceGroupName: Option<string>, resourceType: Option<string>)
    ensures ServerResolvers.ResourcesTarget(subscriptionId, resourceGroupName, resourceType) ==
            AzureGraphQL.ResourcesTarget(subscriptionId, resourceGroupName, resourceType)
  {
    KnownDatesSafe();
    var base := ServerResolvers.ResourcesBase(subscriptionId, resourceGroupName, resourceType);
    if base.Ok? {
      EncodedApiVersion(base.value, "2018-05-01");
    }
  }

  /** Without a resource type, the second version's Resources requests are the prototype's. */
  lemma ResourcesAsInPrototype(subscriptionId: string, resourceGroupName: Option<string>)
    ensures AzureGraphQL.ResourcesTarget(subscriptionId, resourceGroupName, None) ==
            Ok(Poc.ResourcesUri(subscriptionId, resourceGroupName))
  {
  }

  lemma ResourceGroupsUnchanged(subscriptionId: string)
    ensures ServerResolvers.ResourceGroupsUri(subscriptionId) == AzureGraphQL.ResourceGroupsUri(subscriptionId)
    ensures AzureGraphQL.ResourceGroupsUri(subscriptionId) == Poc.ResourceGroupsUri(subscriptionId)
  {
    KnownDatesSafe();
    EncodedApiVersion(Management + "/subscriptions/" + subscriptionId + "/resourcegroups",
                      "2017-05-10");
  }

  /** A referenced network resource is requested at the same URI in all three versions. */
  lemma ResourceUriUnchanged(reference: Json)
    ensures ServerResolvers.ResourceUri(reference) == AzureGraphQL.ResourceUri(reference)
    ensures AzureGraphQL.ResourceUri(reference) == Poc.ResourceUri(reference)
  {
    KnownDatesSafe();
    var id := PyStr(reference);
    if id.Ok? {
      EncodedApiVersion(Management + id.value, "2019-02-01");
    }
  }

  /** The API versions of the server version are written as they stand. */
  lemma ServerVersionsSafe()
    ensures Safe(ServerResolvers.ComputeVersion) && Safe(ServerResolvers.ConsumptionVersion)
  {
    DateSafe(ServerResolvers.ComputeVersion);
    DateSafe(ServerResolvers.ConsumptionVersion);
  }

  /**
   * The VM list is requested at the same URI in the prototype and the second
   * version, `?api-version=2019-03-01`; the server version asks for the
   * instance views, `?expand=instanceView&api-version=2019-03-01`.
   */
  lemma VirtualMachinesUriExtended(subscriptionId: string)
    ensures var base := Management + "/subscriptions/" + subscriptionId + "/providers/Microsoft.Compute/virtualMachines";
            AzureGraphQL.VirtualMachinesUri(subscriptionId) == Poc.VirtualMachinesUri(subscriptionId) &&
            Poc.VirtualMachinesUri(subscriptionId) == Inline(base, ServerResolvers.ComputeVersion) &&
            ServerResolvers.VirtualMachinesUri(subscriptionId) ==
              base + "?" + (ServerResolvers.ExpandInstanceView.0 + "=" + ServerResolvers.ExpandInstanceView.1 + "&" +
                            (ApiVersionKey + "=" + ServerResolvers.ComputeVersion))
  {
    ServerVersionsSafe();
    ApiVersionKeySafe();
    ServerResolvers.ExpandInstanceViewSafe();
    var base := Management + "/subscriptions/" + subscriptionId + "/providers/Microsoft.Compute/virtualMachines";
    SafeTwoParameters(base, ServerResolvers.ExpandInstanceView.0, ServerResolvers.ExpandInstanceView.1,
                      ApiVersionKey, ServerResolvers.ComputeVersion);
  }

  /** The instance view of a VM is requested at `https://management.azure.com{_vmid}/instanceview?api-version=2019-03-01`. */
  lemma InstanceViewUriLiteral(parent: ServerResolvers.ServerVm)
    requires parent.vmid.JStr?
    ensures ServerResolvers.InstanceViewUri(parent) ==
            Ok(Inline(Management + parent.vmid.s + "/instanceview", ServerResolvers.ComputeVersion))
  {
    ServerVersionsSafe();
    EncodedApiVersion(Management + parent.vmid.s + "/instanceview", ServerResolvers.ComputeVersion);
  }

  /** The usage query starts with `api-version=2019-01-01`, written as it stands, then the quoted filter. */
  lemma ConsumptionQueryLiteral(groupName: string)
    ensures var filter := ServerResolvers.GroupFilter(groupName);
            Urlencode([(ApiVersionKey, ServerResolvers.ConsumptionVersion), (ServerResolvers.FilterKey, filter)]) ==
            ApiVersionKey + "=" + ServerResolvers.ConsumptionVersion + "&" +
            (QuotePlus(ServerResolvers.FilterKey) + "=" + QuotePlus(filter))
  {
    ServerVersionsSafe();
    ApiVersionKeySafe();
    var filter := ServerResolvers.GroupFilter(groupName);
    SafeFirstParameter(ApiVersionKey, ServerResolvers.ConsumptionVersion, ServerResolvers.FilterKey, filter);
  }

  /** The chained fields skip and fetch alike in the second and the server version. */
  lemma ChainedTargetUnchanged(reference: Json)
    ensures ServerResolvers.ChainedTarget(reference) == AzureGraphQL.ChainedTarget(reference)
  {
    ResourceUriUnchanged(reference);
  }

  /**
   * The second version guards the VM list against None, which the
   * prototype iterates and fails on; on any other value the two build the
   * same list.
   */
  lemma VmListGuardAdded(data: Json)
    ensures data == JNull ==> Poc.VmList(data) == Err(TypeError) && AzureGraphQL.VmList(data) == Ok(None)
    ensures data != JNull ==> AzureGraphQL.VmList(data) == Present(Ok(data), Poc.VmList)
  {
  }

  /** The server version's VM list holds the second version's records, each with its id as the instance-view reference. */
  lemma VmListExtended(data: Json)
    ensures ServerResolvers.VmList(data).Ok? <==> AzureGraphQL.VmList(data).Ok?
    ensures data.JArr? && AzureGraphQL.VmList(data).Ok? ==>
              var second := AzureGraphQL.VmList(data).value.value;
              var server := ServerResolvers.VmList(data).value.value;
              |server| == |second| &&
              forall i :: 0 <= i < |second| ==>
                server[i] == ServerResolvers.ServerVm(second[i].id, second[i].name, second[i].size, second[i].location,
                                                    second[i].nicid, second[i].os, second[i].id)
  {
  }

  /** Where both versions decode a NIC, they agree on every field the prototype has. */
  lemma NicDecodingAgrees(nic: Json)
    requires Poc.DecodePrototypeNic(nic).Ok? && DecodeNic(nic).Ok?
    ensures var p, n := Poc.DecodePrototypeNic(nic).value, DecodeNic(nic).value;
            p.id == n.id && p.name == n.name && p.ip == n.ip && p.allocationMethod == n.allocationMethod &&
            p.pipid == n.pipid
  {
    LookupAppend(nic, IpConfigPath, [Key("publicIPAddress"), Key("id")]);
  }

  /** A NIC without a public IP fails in the prototype and has no public IP reference later. */
  lemma PublicIpBecameOptional(nic: Json)
    requires DecodeNic(nic).Ok?
    requires "publicIPAddress" !in ValueAt(nic, IpConfigPath).fields
    ensures DecodeNic(nic).value.pipid == JNull
    ensures Poc.DecodePrototypeNic(nic).Err?
  {
    Poc.NicWithoutPublicIp(nic);
  }
}
