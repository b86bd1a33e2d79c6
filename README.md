# AzureGraphQL resolution engine, modelled in Dafny

AzureGraphQL puts a GraphQL façade in front of the Azure management REST API.
Each GraphQL field has a resolver. Root fields (`Resources`, `ResourceGroups`,
`VirtualMachines`) build a management URI and issue one authenticated GET.
Chained fields (`nic`, `publicIP`, `networkSecurityGroup`, `subnet`,
`instanceView`, `consumption`) follow an internal reference stored in their
parent record (`_nicid`, `_pipid`, `_subnetid`, `_nsgid`, `_vmid`), or the
parent's id, and fetch the referenced resource. Every request goes through
`resolveRequest`. It forwards the inbound `Authorization` header and unwraps
the response envelope: a body with a truthy `error` becomes None, any other
body with a `value` entry becomes that entry, and the rest are passed through
whole.

The repository holds three successive versions of this engine. Each is
modelled as written, in its own module:

| module | source | what it is |
|---|---|---|
| `Poc` | `src/poc.py` | The prototype. API versions are inlined into the URI. There is no `resourceType` filter and no None guard, and a NIC must reference a public IP. |
| `AzureGraphQL` | `src/azuregraphql.py` | Adds network security groups and subnets. NIC references become optional, and publicIP, networkSecurityGroup and subnet short-circuit on None. |
| `ServerResolvers` | `server/src/v0.1/src/resolvers.py` | Builds every URI with `urllib.parse.urlencode`. Adds the resource-group consumption summary and the VM instance view. |

These modules sit underneath the three versions:

- `Json` is the JSON value type, with None as `JNull`.
- `Py` holds the Python operations the resolvers apply to decoded JSON. These are `d[k]`, `xs[i]`, `.get`, `for` loops, `%s`, `str.split` and `*`. Each exception they raise becomes a typed `Fault`.
- `Query` defines `quote_plus` and `urlencode`, together with a decoder and the proof that the encoding is injective.
- `Remote` models the request adapter. It has the envelope unwrap and a `Client` class. The class holds the inbound credential and a fetch oracle standing in for the network. It also records every request sent in a ghost trace and every printed error message in a ghost log.
- `Decoders` holds the record shapes that the second and server versions share, with the exact paths each one reads. Its loops are written as methods, and each loop method is proved equal to a specification function.
- `Versions` holds lemmas relating the three versions. They show which requests stayed the same when `urlencode` replaced the inline query strings, and which guards were added.

Field resolvers that fetch are methods with `modifies client`. Each one states
which request it sent, or that it sent none, and what its result is in terms of
the oracle's answer. An operation the source performs as a loop is a method with
a `while` loop. Its invariant ties the accumulated list or sum to the
specification function `Py.Traverse` ("map, stopping at the first failure") or
to `ServerResolvers.UsageTotal`.

The one behaviour the code leaves undefined is the `resourceType`-only branch of
`Resources`. There the code binds no URI, so Python raises `UnboundLocalError`,
and the model returns the explicit fault `UnsupportedFilter`.

## Model

| member | source | states |
|---|---|---|
| Py.Sub | server/src/v0.1/src/resolvers.py:87-92 | `d[k]` gives the entry when the dict has the key, `KeyError(k)` when it lacks it, and `TypeError` on a non-dict. |
| Py.At | server/src/v0.1/src/resolvers.py:91 | `xs[i]` gives the i-th element of a list, `IndexError` past its end, and `TypeError` on None, numbers and bools. |
| Py.GetOr | server/src/v0.1/src/resolvers.py:73 | `d.get(k, default)` succeeds exactly on dicts, giving the entry or the default. |
| Py.GetNested | server/src/v0.1/src/resolvers.py:121-123 | `o.get(outer, {}).get(inner)` is None when outer is absent, gives the inner entry or None when outer holds a dict, and fails exactly when o is not a dict or outer holds a non-dict. |
| Py.LoopItems | server/src/v0.1/src/resolvers.py:85 | A `for` loop visits the elements of a list, and iterating None fails with `TypeError`. A loop that yields items was over a list. |
| Py.AsNumber | server/src/v0.1/src/resolvers.py:73 | A number is its value. Only numbers and bools are numeric. |
| Py.Mul | server/src/v0.1/src/resolvers.py:73 | The product of two numbers is their real product. |
| Py.PyStr | server/src/v0.1/src/resolvers.py:113 | `'%s' %` of a string is the string, and of None is `"None"`. |
| Py.Split | server/src/v0.1/src/resolvers.py:64 | `s.split(sep)` yields at least one piece. What the pieces are is stated by `Py.SplitJoin`, `Py.SplitPiecesFree` and `Py.SplitSegment`. |
| Py.SplitJoin | server/src/v0.1/src/resolvers.py:64 | `'/'.join(s.split('/')) == s`: the model of `split` loses nothing. |
| Py.SplitPiecesFree | server/src/v0.1/src/resolvers.py:64 | No piece produced by `split` contains the separator. |
| Py.SplitSegment | server/src/v0.1/src/resolvers.py:64 | A leading segment without the separator splits off as exactly one piece. |
| Py.Traverse | server/src/v0.1/src/resolvers.py:84-95 | The specification of every append loop (the `for` loops at src/poc.py:109, src/azuregraphql.py:129 and 177, and server/src/v0.1/src/resolvers.py:85 and 148): the results for each item in order, or the first fault. It has no contract of its own; its meaning is `Py.TraverseMeaning`. |
| Py.TraverseMeaning | server/src/v0.1/src/resolvers.py:84-95 | An append loop over items succeeds exactly when every item succeeds, keeps length and order, and otherwise fails with the fault of the first failing item. |
| Py.TraverseStopsAt | server/src/v0.1/src/resolvers.py:84-95 | A loop that has succeeded up to item i and fails at item i fails as a whole with that item's fault. |
| Py.TraverseStep | server/src/v0.1/src/resolvers.py:84-95 | One more successful item appends its result to the accumulated list. |
| Py.TraverseAppend | server/src/v0.1/src/resolvers.py:72-73 | A loop over two concatenated runs gives the concatenation of the two runs' results. |
| Query.Utf8 | server/src/v0.1/src/resolvers.py:22 | A character encodes to between one and four bytes. |
| Query.HexRoundTrip | server/src/v0.1/src/resolvers.py:22 | Each hex digit of an escape reads back as its value. |
| Query.QuotePlus | server/src/v0.1/src/resolvers.py:22 | `quote_plus`, character by character. It has no contract of its own; it is inverted by `Query.UnquoteQuote` and characterized by `Query.QuoteSafe` and `Query.QuoteConcat`. |
| Query.Urlencode | server/src/v0.1/src/resolvers.py:22 | `urlencode` of an ordered parameter list, `k=v` pairs joined by `&`. It has no contract of its own; `Query.ParseUrlencode` and `Query.UrlencodeInjective` state that it loses nothing. |
| Query.RequestUri | server/src/v0.1/src/resolvers.py:23 | `"%s?%s" % (baseuri, query)`. It has no contract of its own; `Query.RequestUriInjective` states that the base and the parameters are its only inputs. |
| Query.UnquoteQuoteChar | server/src/v0.1/src/resolvers.py:22 | The `quote_plus` encoding of one character decodes back to that character and consumes exactly its encoding. |
| Query.UnquoteEscaped | server/src/v0.1/src/resolvers.py:22 | A `%XX` UTF-8 escape sequence decodes to the escaped character. |
| Query.UnquoteQuote | server/src/v0.1/src/resolvers.py:22 | An encoded key or value decodes back to itself and stops at the next `=` or `&`. |
| Query.ParseUrlencode | server/src/v0.1/src/resolvers.py:22 | `urlencode` round-trips: parsing the encoded query gives back the same ordered parameter list. |
| Query.UrlencodeInjective | server/src/v0.1/src/resolvers.py:22 | Distinct parameter lists encode to distinct query strings. |
| Query.QuoteSafe | server/src/v0.1/src/resolvers.py:22 | `quote_plus` leaves a string of always-safe characters unchanged. |
| Query.QuoteConcat | server/src/v0.1/src/resolvers.py:22 | `quote_plus` distributes over concatenation. |
| Query.ApiVersionKeySafe | server/src/v0.1/src/resolvers.py:43 | The key `api-version` needs no escaping. |
| Query.Inline | src/azuregraphql.py:103 | `'...?api-version=%s' % version`, the API version written out by hand, unquoted. It has no contract of its own; `Versions.EncodedApiVersion` proves it equal to the urlencoded form for safe versions. |
| Query.SafeSingleParameter | server/src/v0.1/src/resolvers.py:22-23 | For one parameter whose key and value need no escaping, the request URI is `base?key=value`. |
| Query.SafeTwoParameters | server/src/v0.1/src/resolvers.py:80 | Two parameters whose keys and values need no escaping give `base?k1=v1&k2=v2`, in insertion order. |
| Query.SafeFirstParameter | server/src/v0.1/src/resolvers.py:66 | A safe first parameter is written as it stands, ahead of `&` and the quoted second one. |
| Query.RequestUriInjective | server/src/v0.1/src/resolvers.py:22-23 | For bases without `?`, `base + "?" + urlencode(params)` determines both the base and the parameters. The only open inputs are the base and the parameter list. |
| Remote.Unwrap | server/src/v0.1/src/resolvers.py:29-32 | A body with a truthy `error` unwraps to None when the error has a message, and fails on the message subscript otherwise. Any other dict body unwraps to its `value` if present, else to the body itself. A non-dict body fails on `.get`. |
| Remote.Printed | server/src/v0.1/src/resolvers.py:29-30 | At most one message is printed, and one is printed exactly when the body is an error envelope with a message. |
| Remote.UnwrapList | server/src/v0.1/src/resolvers.py:32 | A `{"value": [...]}` envelope unwraps to its list and prints nothing. |
| Remote.UnwrapError | server/src/v0.1/src/resolvers.py:29-31 | An error envelope unwraps to None and prints its message once. |
| Remote.Client.constructor | server/src/v0.1/src/resolvers.py:18-20 | A client starts from the inbound credential and the remote API, with no requests sent and nothing printed. |
| Remote.Client.Get | server/src/v0.1/src/resolvers.py:17-32 | Without an `Authorization` header, the call fails before sending anything. Otherwise it sends exactly one GET of the URI carrying the header, logs what the answer prints, and returns the unwrapped answer. |
| Decoders.DecodeVm | server/src/v0.1/src/resolvers.py:86-92 | A VM item decodes exactly when all six paths (id, name, vmSize, location, first NIC id, osType) resolve. Each field is the value at its path, and `nicid` is the first network interface's id. |
| Decoders.DecodeVmDocument | server/src/v0.1/src/resolvers.py:86-92 | A VM payload built from a record decodes back to that record. |
| Decoders.BuildVms | src/azuregraphql.py:128-138 | The append loop over VM items equals `Traverse(DecodeVm, items)`. |
| Decoders.VmListMeaning | src/azuregraphql.py:128-139 | The VM list has one record per item, in order. Each record carries its item's id and first NIC id, and the list fails exactly when some item does. |
| Decoders.ReferenceAt | server/src/v0.1/src/resolvers.py:121-123 | `o.get(key, {}).get('id')` at a path is not None exactly when the nested object exists with a non-None id, and is then that id. |
| Decoders.DecodeNic | server/src/v0.1/src/resolvers.py:116-124 | `id`, `name`, `ip` and `allocationMethod` are required and come from the first IP configuration. Each of `_pipid`, `_subnetid` and `_nsgid` is None exactly when its nested object is absent or has no id, and is otherwise that id. |
| Decoders.DecodeNicDocument | server/src/v0.1/src/resolvers.py:116-124 | A NIC payload built from a record, with absent references left out, decodes back to that record. |
| Decoders.DecodePublicIp | server/src/v0.1/src/resolvers.py:135 | `id` and `name` are required, and `properties` must be a dict. `ip` is `properties.get('ipAddress')`. |
| Decoders.DecodePublicIpDocument | server/src/v0.1/src/resolvers.py:135 | A public IP payload built from a record decodes back to that record. |
| Decoders.DecodeSubnet | server/src/v0.1/src/resolvers.py:167 | A subnet decodes exactly when id, name and `properties.addressPrefix` resolve, and it holds those values. |
| Decoders.DecodeSubnetDocument | server/src/v0.1/src/resolvers.py:167 | A subnet payload built from a record decodes back to that record. |
| Decoders.DecodeRule | server/src/v0.1/src/resolvers.py:149-155 | A rule copies name, id, protocol and access. Its `properties` is read first, so a missing one is the rule's fault. |
| Decoders.DecodeRuleDocument | server/src/v0.1/src/resolvers.py:149-155 | A rule payload built from a record decodes back to that record. |
| Decoders.DecodeSecurityGroup | server/src/v0.1/src/resolvers.py:147-156 | An NSG keeps its id and name and has exactly one rule per `securityRules` entry, in order. It fails exactly when some required path or some rule fails. |
| Decoders.BuildSecurityGroup | server/src/v0.1/src/resolvers.py:147-155 | The `nsg['rules'].append` loop equals `DecodeSecurityGroup`. |
| Decoders.Contains | server/src/v0.1/src/resolvers.py:49 | `'sku' in parent` is key membership for a dict and element membership for a list. It raises `TypeError` on None, numbers and bools. |
| Decoders.Sku | server/src/v0.1/src/resolvers.py:47-50 | For a dict parent, the result is `parent['sku']` when the key is present and None otherwise. |
| Poc.ResourcesUri | src/poc.py:86-89 | With a group name, the URI is the group-scoped `.../resourcegroups/{g}/resources?api-version=2018-05-01`. Otherwise it is the subscription-wide `.../resources?api-version=2018-05-01`. |
| Poc.Resources | src/poc.py:83-90 | Sends exactly the GET of that URI and returns its unwrapped answer. |
| Poc.ResourceGroups | src/poc.py:97-101 | Sends exactly the GET of the resource-groups URI and returns its unwrapped answer. |
| Poc.ResourceGroupsUri | src/poc.py:100 | The inline resource-groups URI with `api-version=2017-05-10`. It has no contract of its own; `Versions.ResourceGroupsUnchanged` relates it to the later versions. |
| Poc.VmList | src/poc.py:107-119 | Iterating None fails with `TypeError`, because there is no guard. A list gives one record per item, in order, with `nicid` from the first network interface. |
| Poc.VirtualMachinesUri | src/poc.py:106 | The inline VM-list URI with `api-version=2019-03-01`. It has no contract of its own; `Versions.VirtualMachinesUriExtended` states it. |
| Poc.VirtualMachines | src/poc.py:103-119 | Sends exactly the VM-list GET, then builds the list with the loop. The result equals `VmList` of the answer. |
| Poc.DecodePrototypeNic | src/poc.py:127-133 | A NIC decodes exactly when id, name, private IP, `publicIPAddress.id` and allocation method all resolve. |
| Poc.NicWithoutPublicIp | src/poc.py:131 | A NIC whose IP configuration has no public IP fails to decode in the prototype. |
| Poc.ResourceUri | src/poc.py:125 | A referenced resource is fetched at `https://management.azure.com{id}?api-version=2019-02-01`. A None reference gives `.../None?...`. |
| Poc.NetworkInterface | src/poc.py:121-133 | Fetches the VM's `nicid` unguarded and decodes the answer as a prototype NIC. |
| Poc.PublicIp | src/poc.py:135-142 | Always issues the fetch of `pipid`, with no None short-circuit, and decodes the answer. |
| AzureGraphQL.ResourcesTarget | src/azuregraphql.py:101-107 | With a group name, the URI is group-scoped. With only a resource type, the outcome is `UnsupportedFilter`. Otherwise it is subscription-wide. Both URIs embed `api-version=2018-05-01`. |
| AzureGraphQL.Resources | src/azuregraphql.py:99-108 | Sends exactly the GET of the target, or nothing at all in the `UnsupportedFilter` case. |
| AzureGraphQL.ResourceGroups | src/azuregraphql.py:115-119 | Sends exactly the GET of the resource-groups URI and returns its unwrapped answer. |
| AzureGraphQL.ResourceGroupsUri | src/azuregraphql.py:118 | The inline resource-groups URI, as in the prototype. It has no contract of its own; see `Versions.ResourceGroupsUnchanged`. |
| AzureGraphQL.VirtualMachinesUri | src/azuregraphql.py:124 | The inline VM-list URI, as in the prototype. It has no contract of its own; see `Versions.VirtualMachinesUriExtended`. |
| AzureGraphQL.VmList | src/azuregraphql.py:125-139 | None gives None. A list gives one record per item, in order, with `_nicid` from the first NIC, and succeeds exactly when every item decodes. |
| AzureGraphQL.VirtualMachines | src/azuregraphql.py:121-139 | Sends exactly the VM-list GET. The guarded loop's result equals `VmList` of the answer. |
| AzureGraphQL.ResourceUri | src/azuregraphql.py:145 | A string reference is fetched at `https://management.azure.com{id}?api-version=2019-02-01`, and None at `.../None?...`. |
| AzureGraphQL.NetworkInterface | src/azuregraphql.py:141-155 | Fetches `_nicid`, with no None guard, and decodes the answer with the optional-reference NIC decoder. |
| AzureGraphQL.ChainedTarget | src/azuregraphql.py:160-163 | A chained field skips the fetch exactly when its reference is None. Otherwise it targets the reference's URI. |
| AzureGraphQL.PublicIp | src/azuregraphql.py:157-166 | A None `_pipid` returns None with no request and nothing printed. Otherwise it sends exactly one GET and decodes the answer. |
| AzureGraphQL.NetworkSecurityGroup | src/azuregraphql.py:168-185 | A None `_nsgid` returns None with no request. Otherwise it sends exactly one GET and builds the NSG with one rule per entry, in order. |
| AzureGraphQL.Subnet | src/azuregraphql.py:187-196 | A None `_subnetid` returns None with no request. Otherwise it sends exactly one GET and decodes the subnet. |
| ServerResolvers.Request | server/src/v0.1/src/resolvers.py:17-32 | Sends exactly the GET of `base + "?" + urlencode(params)` and returns its unwrapped answer. |
| ServerResolvers.ResourcesBase | server/src/v0.1/src/resolvers.py:37-42 | The base is group-scoped with a group name and subscription-wide with neither argument. A resource type alone gives no base: `UnsupportedFilter`. |
| ServerResolvers.ResourcesTarget | server/src/v0.1/src/resolvers.py:37-44 | The URI exists exactly when the base does, and is the base with `api-version=2018-05-01` urlencoded. |
| ServerResolvers.Resources | server/src/v0.1/src/resolvers.py:34-45 | Sends exactly the GET of the target, or nothing in the `UnsupportedFilter` case. |
| ServerResolvers.ResourceGroups | server/src/v0.1/src/resolvers.py:52-58 | Sends exactly the GET of the resource-groups URI with `api-version=2017-05-10`. |
| ServerResolvers.ResourceGroupsUri | server/src/v0.1/src/resolvers.py:55-56 | The base URI with `api-version=2017-05-10` urlencoded. It has no contract of its own; `Versions.ResourceGroupsUnchanged` proves it literally equal to the inline URI. |
| ServerResolvers.SubscriptionOf | server/src/v0.1/src/resolvers.py:64 | `id.split('/')[2]` is the third `/`-segment. It is `IndexError` when there are fewer than three segments and `AttributeError` on a non-string. |
| ServerResolvers.ThirdSegment | server/src/v0.1/src/resolvers.py:64 | In `/a/b/rest`, with a and b free of `/`, the third segment is b. |
| ServerResolvers.SubscriptionOfGroupId | server/src/v0.1/src/resolvers.py:64 | A group id `/subscriptions/{s}/...` yields subscription s, whatever follows it. |
| ServerResolvers.ConsumptionTarget | server/src/v0.1/src/resolvers.py:62-66 | The usage URI of a resource group. It has no contract of its own; its meaning is `ServerResolvers.ConsumptionTargetMeaning`. |
| ServerResolvers.ConsumptionTargetMeaning | server/src/v0.1/src/resolvers.py:62-66 | The usage URI fails with the first fault among `name`, `id`, the third segment and formatting the name (`Unformattable`). Otherwise it targets the id's subscription with parameters `api-version=2019-01-01` and `$filter=properties/resourceGroup eq '<name>'`, urlencoded in that order. |
| ServerResolvers.ConsumptionTargetOfGroup | server/src/v0.1/src/resolvers.py:63-66 | For a group `{name: n, id: /subscriptions/s/...}`, the usage query targets subscription s. Its query string decodes back to exactly the two parameters. |
| ServerResolvers.UsageCost | server/src/v0.1/src/resolvers.py:73 | The cost of one usage row. It has no contract of its own; its meaning is `ServerResolvers.UsageCostMeaning`. |
| ServerResolvers.UsageCostMeaning | server/src/v0.1/src/resolvers.py:73 | A row's cost is `usageQuantity × pretaxCost` over its properties, with a missing key counting as 0. It fails on a missing `properties` and raises `AttributeError` on non-dict properties. |
| ServerResolvers.MissingKeysCountZero | server/src/v0.1/src/resolvers.py:73 | A row that lacks the quantity or the cost adds exactly 0. |
| ServerResolvers.Sum | server/src/v0.1/src/resolvers.py:70-73 | `sum` starting from 0.0 and adding each cost in loop order. It has no contract of its own; `ServerResolvers.SumAppend` states its additivity. |
| ServerResolvers.SumAppend | server/src/v0.1/src/resolvers.py:70-73 | The running sum over two runs of costs is the sum of the two sums. |
| ServerResolvers.UsageTotal | server/src/v0.1/src/resolvers.py:70-73 | The specification of the `sum +=` loop: the sum of the row costs, or the first failing row's fault. It has no contract of its own; see `ServerResolvers.UsageTotalFirstFault`, `ServerResolvers.UsageTotalAppend` and `ServerResolvers.SumUsage`. |
| ServerResolvers.UsageTotalFirstFault | server/src/v0.1/src/resolvers.py:72-73 | A failing total fails with the fault of its first failing row, and every row before it has a cost. |
| ServerResolvers.UsageTotalAppend | server/src/v0.1/src/resolvers.py:70-73 | The usage total over two runs of rows is the sum of their totals. |
| ServerResolvers.ConsumptionOf | server/src/v0.1/src/resolvers.py:68-74 | None or an empty answer gives exactly `{usage: 0.0, currency: 'N/A'}`. A non-empty list gives the sum of the row costs in `DKK` when `UsageTotal` succeeds, and `UsageTotal`'s fault otherwise, which is the first failing row's (`ServerResolvers.UsageTotalFirstFault`). A truthy number fails on `len`, and a non-empty dict or string fails with `TypeError` on subscripting its first key or character. |
| ServerResolvers.SumUsage | server/src/v0.1/src/resolvers.py:70-73 | The `sum +=` loop equals `UsageTotal` of the rows. |
| ServerResolvers.Tally | server/src/v0.1/src/resolvers.py:68-74 | The guard-then-loop after the fetch equals `ConsumptionOf` of the answer. |
| ServerResolvers.Consumption | server/src/v0.1/src/resolvers.py:60-74 | When the group lacks name or id, fails before sending anything. Otherwise it sends exactly the usage GET and returns `ConsumptionOf` of the answer. |
| ServerResolvers.ConsumptionExample | server/src/v0.1/src/resolvers.py:70-74 | Rows 2×3 and 1×5 sum to 11.0 DKK. |
| ServerResolvers.DecodeServerVm | server/src/v0.1/src/resolvers.py:86-94 | The server VM record is the shared VM record plus `_vmid`, which equals the item's `id`. `_nicid` is the first NIC id. |
| ServerResolvers.BuildServerVms | server/src/v0.1/src/resolvers.py:84-95 | The append loop equals `Traverse(DecodeServerVm, items)`. |
| ServerResolvers.VmList | server/src/v0.1/src/resolvers.py:82-96 | None gives None. A list gives one record per item, in order, with `_nicid` the first NIC id and `_vmid` the item's id. |
| ServerResolvers.VirtualMachinesUri | server/src/v0.1/src/resolvers.py:79-80 | The VM-list base with `expand=instanceView` then `api-version=2019-03-01`, urlencoded. It has no contract of its own; `Versions.VirtualMachinesUriExtended` gives its literal form. |
| ServerResolvers.ExpandInstanceViewSafe | server/src/v0.1/src/resolvers.py:80 | The parameter `expand=instanceView` needs no escaping. |
| ServerResolvers.VirtualMachines | server/src/v0.1/src/resolvers.py:76-96 | Sends exactly the GET of `VirtualMachinesUri`, whose parameters `expand` then `api-version` are urlencoded. The result equals `VmList` of the answer. |
| ServerResolvers.InstanceViewUri | server/src/v0.1/src/resolvers.py:101-103 | The instance view of `_vmid` is fetched at `https://management.azure.com{_vmid}/instanceview` with `api-version=2019-03-01` urlencoded. It fails exactly when `_vmid` cannot be formatted. |
| ServerResolvers.DecodeInstanceView | server/src/v0.1/src/resolvers.py:105-107 | `vmStatus` is `statuses[1].code` and fails exactly when that path does. A None answer fails, because there is no guard. |
| ServerResolvers.VmInstanceView | server/src/v0.1/src/resolvers.py:98-107 | Sends exactly the instance-view GET and decodes the answer. |
| ServerResolvers.ResourceUri | server/src/v0.1/src/resolvers.py:112-114 | A referenced resource is fetched at `https://management.azure.com{id}` with `api-version=2019-02-01` urlencoded. |
| ServerResolvers.NetworkInterface | server/src/v0.1/src/resolvers.py:109-124 | Fetches `_nicid` unguarded and decodes it with the optional-reference NIC decoder. |
| ServerResolvers.ChainedTarget | server/src/v0.1/src/resolvers.py:129-133 | Skips the fetch exactly when the reference is None, and otherwise targets its urlencoded URI. |
| ServerResolvers.PublicIp | server/src/v0.1/src/resolvers.py:126-136 | A None `_pipid` returns None with no request. Otherwise it sends exactly one GET and decodes the public IP. |
| ServerResolvers.NetworkSecurityGroup | server/src/v0.1/src/resolvers.py:138-156 | A None `_nsgid` returns None with no request. Otherwise it sends exactly one GET and builds one rule per entry, in order. |
| ServerResolvers.Subnet | server/src/v0.1/src/resolvers.py:158-168 | A None `_subnetid` returns None with no request. Otherwise it sends exactly one GET and decodes the subnet. |
| Versions.DateSafe | server/src/v0.1/src/resolvers.py:36 | An API version of the form yyyy-mm-dd needs no escaping. |
| Versions.KnownDatesSafe | server/src/v0.1/src/resolvers.py:36 | The five API versions the resolvers use (2017-05-10, 2018-05-01, 2019-01-01, 2019-02-01, 2019-03-01) need no escaping. |
| Versions.ServerVersionsSafe | server/src/v0.1/src/resolvers.py:78 | The compute and consumption API versions of the server version need no escaping. |
| Versions.VirtualMachinesUriExtended | server/src/v0.1/src/resolvers.py:79-80 | The prototype and the second version request the VM list at the same `...?api-version=2019-03-01`. The server version's urlencoded URI is literally `...?expand=instanceView&api-version=2019-03-01`. |
| Versions.InstanceViewUriLiteral | server/src/v0.1/src/resolvers.py:101-103 | For a string `_vmid`, the urlencoded instance-view URI is literally `https://management.azure.com{_vmid}/instanceview?api-version=2019-03-01`. |
| Versions.ConsumptionQueryLiteral | server/src/v0.1/src/resolvers.py:66 | The urlencoded usage query is literally `api-version=2019-01-01&` followed by the quoted `$filter` and the quoted filter text. |
| Versions.EncodedApiVersion | server/src/v0.1/src/resolvers.py:22-23 | For an API version that needs no escaping, `urlencode({'api-version': v})` gives the same URI as the inline `?api-version=v` of the earlier versions. |
| Versions.ResourcesUnchanged | server/src/v0.1/src/resolvers.py:37-43 | The server version's `Resources` targets exactly the second version's URI and refuses exactly the same calls. |
| Versions.ResourcesAsInPrototype | src/azuregraphql.py:102-107 | Without a resource type, the second version's `Resources` URI is the prototype's. |
| Versions.ResourceGroupsUnchanged | server/src/v0.1/src/resolvers.py:55-56 | `ResourceGroups` requests the same URI in all three versions. |
| Versions.ResourceUriUnchanged | server/src/v0.1/src/resolvers.py:113-114 | A referenced network resource is requested at the same URI in all three versions. |
| Versions.ChainedTargetUnchanged | server/src/v0.1/src/resolvers.py:129-133 | The chained fields skip and fetch identically in the second and the server version. |
| Versions.VmListGuardAdded | src/azuregraphql.py:126-127 | On None the prototype fails and the second version gives None. On any other value the two build the same list. |
| Versions.VmListExtended | server/src/v0.1/src/resolvers.py:93 | The server VM list succeeds exactly when the second version's does. It holds the same records, each extended with `_vmid` = its id. |
| Versions.NicDecodingAgrees | src/poc.py:127-133 | Where the prototype and the later NIC decoder both succeed, they agree on id, name, ip, allocation method and public IP reference. |
| Versions.PublicIpBecameOptional | src/azuregraphql.py:152 | A NIC without a public IP is a decode error in the prototype, while the later decoder sets `_pipid` to None. |

## Left out

- Networking and concurrency are not modelled. `aiohttp` sessions, awaiting and real HTTP become the `Remote.Client.fetch` oracle. That oracle answers the same URI and credential with the same body for the lifetime of one client, so responses that change over time are not modelled.
- Transport failures and `resp.json()` failures on a body that is not JSON are not modelled. The oracle always returns a JSON value.
- The Ariadne `ObjectType` binding, the schema text, `make_executable_schema`, the two `main.py` files and the `uvicorn` entry point are not part of this model. They are a foreign framework and its start-up code.
- GraphQL execution order is not modelled: which chained fields run, and in what order or concurrently. Each resolver is modelled on its own, with its parent record as an argument.
- Parent records are modelled as typed datatypes (`Vm`, `Nic`, `ServerVm`) rather than dicts. As a result, `parent['_pipid']` and `parent.get('_nsgid')` cannot differ, and the prototype's `nicid` and the second version's `_nicid` share the field `Vm.nicid`.
- The `print` of an error message is a ghost log of the printed values. No output is produced.
- Usage amounts are `real`. Floating-point rounding of the consumption sum is not modelled. The sum is added up from the left, in the loop's order.
- Py.PyStr: `%s` of a number, list or dict is reported as the fault `Unformattable` instead of Python's `str()` text. All references the resolvers format are strings or None.
- Py.LoopItems: iterating a non-empty string or dict is reported as `TypeError` directly. Python would first yield characters or keys, but every loop body here then subscripts the item with a string key, which raises `TypeError` on a string.
- A response body that is not a dict, a JSON list among them, fails in `Remote.Unwrap` with `AttributeError`, as `data.get` does.
- Repeated subscripts such as `vm['id']` in the server VM record and `usage['properties']` in the consumption loop are evaluated once. Both occurrences read the same value, so this changes no result.
- The `'DKK'` currency is the constant the server source hard-codes. No currency is read from the usage rows.
- `UnboundLocalError` in the `resourceType`-only branch of `Resources` is the explicit fault `UnsupportedFilter`. The model sends no request there, as Python also does not.
- AzureGraphQL.ResourceUri: the contract states the URI for string and None references only. Bools format and numbers, lists and dicts do not (see Py.PyStr), as in `Poc.ResourceUri`, `ServerResolvers.ResourceUri` and `Versions.ResourceUriUnchanged`.
