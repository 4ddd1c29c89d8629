# A verified model of the Azure Stack Terraform provider's core rules

This project models, in Dafny, the deterministic rules that the create, read,
update and delete handlers of the Azure Stack Terraform provider rely on, and
proves what those rules promise.

- **Resource identifiers.** The generic `/key/value` resource ID parser is
  `ResourceIds`. The typed IDs built on it are:
  - the key vault ID, the subnet ID (strict and case-insensitive) and the route table ID;
  - the resource group ID and the management group ID;
  - the network security rule ID, fixed by its package's test vectors.

  The data-plane URL of a key vault item (key, secret or certificate) is
  modelled too, with the `|`-joined pseudo-IDs of role definitions and of
  network interface/backend pool associations. Every formatter has its
  round trip proved, and every parser its rejection cases.
- **Validators.** The schema validators of `helpers/azure/validate.go`, the
  public IP domain label validator, and the key vault item name and vault ID
  validators.
- **Handlers.** Each handler is a `method` that changes the Terraform
  resource's ID (`Terraform.ResourceData`) and returns the trace of remote
  calls it made. Every remote reply is a parameter: success with a body, or
  a failure carrying its HTTP status. The handlers model:
  - refusing an object that already exists;
  - clearing the ID when a read finds nothing;
  - the key vault update patch, built only from changed fields, and its guards on purge protection and retention;
  - a secret update choosing a new version or a metadata update;
  - the read-modify-write edits of a subnet's route table and of a network interface's backend pool list;
  - the delete-then-purge sequence of key vault keys and secrets, with the classification of its polls.
- **Client caches.** The provider client (`Config.ArmClient`) is a class
  whose `map` fields are:
  - the vault cache, keyed by lower-cased vault name;
  - the storage account key cache, keyed by `resourceGroup/account`.

  The client's user agent string is a field as well.
- **Selection rules.** The resources data source's filter string and
  required-tag match, and the image data source's choice of the first image
  by name.

Go's nil-pointer panics and out-of-range indexes are modelled as the errors
`NilDereference` and `OutOfRange`, on the paths where the code reaches them,
except for the few values listed under "Left out" that are assumed present.
Polling waits (`resource.StateChangeConf`) are modelled by their
specification over a sequence of observed refresh results. A wait converges
after the required number of consecutive target states, fails on an error,
and times out when the observations run out.

## Model

| member | source | states |
|---|---|---|
| AzureParse.ParseManagementGroupID | azurestack/helpers/azure/parse.go:20-46 | accepted exactly when the text starts with the case-flexible `/providers/[Mm]icrosoft.[Mm]anagement/[Mm]anagement[Gg]roups/` prefix and the remainder is a non-empty name without "/"; the parsed name is that remainder |
| AzureParse.SplitByPrefix | azurestack/helpers/azure/parse.go:27-31 | splitting a matching ID on the anchored prefix always yields exactly two pieces, so the two-piece guard never fires |
| AzureParse.ManagementGroupRoundTrip | azurestack/helpers/azure/parse.go:20-46 | any accepted spelling of the prefix followed by a non-empty slash-free name parses back to that name |
| AzureParse.CanonicalPrefixMatches | azurestack/helpers/azure/parse.go:22-25 | the canonical spelling `/providers/Microsoft.Management/managementGroups/` matches the pattern, whatever follows |
| AzureParse.ResourceGroupId.String | azurestack/helpers/azure/parse.go:55-61 | the description is `Resource Group: (Resource Group "{name}")` for a name of printable ASCII without quotes or backslashes |
| AzureParse.EscapeChar | azurestack/helpers/azure/parse.go:57 | `%q` writes a character unchanged exactly when it is not a quote, a backslash or an ASCII control character, and never writes a raw control character |
| AzureParse.Escape | azurestack/helpers/azure/parse.go:57 | printable ASCII text without quotes or backslashes is unchanged, and the escaped text holds no raw ASCII control character |
| AzureParse.QuoteEscapesNewline | azurestack/helpers/azure/parse.go:57 | a newline in a quoted name is written as a backslash and `n` |
| AzureParse.ParseResourceGroupID | azurestack/helpers/azure/parse.go:69-94 | accepted exactly when the generic parser accepts the text, a resource group is present and nothing is left over; the result carries the parsed subscription and resource group |
| AzureParse.ResourceGroupIdIsFormat | azurestack/helpers/azure/parse.go:63-66 | `ID()` is the `/subscriptions/{s}/resourceGroups/{rg}` formatting of the two pairs |
| AzureParse.ResourceGroupRoundTrip | azurestack/helpers/azure/parse.go:63-94 | parsing `ID()` of non-empty slash-free fields gives back the same subscription and resource group |
| AzureValidate.ValidateResourceID | azurestack/helpers/azure/validate.go:11-23 | no warnings; exactly one error for a non-string or unparsable value and none for a parsable string |
| AzureValidate.ValidateResourceIDOrEmpty | azurestack/helpers/azure/validate.go:25-38 | the empty string is accepted with no errors; every other value gets exactly the outcome of `ValidateResourceID` |
| AzureValidate.VaultName | azurestack/helpers/azure/validate.go:40-47 | no errors exactly when the name is 3 to 24 letters, digits and dashes; otherwise one error |
| AzureValidate.SubscriptionID | azurestack/helpers/azure/validate.go:49-71 | no errors exactly when the value parses, its subscription is an RFC 4122 textual UUID and neither a resource group nor further segments are present; an unparsable value gets the single not-a-subscription error |
| AzureValidate.SubscriptionIdAccepted | azurestack/helpers/azure/validate.go:49-71 | `/subscriptions/{uuid}` is accepted |
| AzureValidate.ResourceGroupIdRefused | azurestack/helpers/azure/validate.go:65-68 | a resource group ID under a valid subscription gets exactly the other-ID-type error |
| AzureValidate.ManagementGroupID | azurestack/helpers/azure/validate.go:73-87 | no warnings; no errors exactly when `ParseManagementGroupID` accepts the string, and at most one error |
| ResourceIds.Parse | azurestack/resource_arm_subnet.go:427-444 | the assumed `ParseAzureResourceID`: text not starting with "/" is refused; an accepted ID has a non-empty slash-free subscription, an empty or slash-free resource group, and a path of distinct non-empty keys and values from which `resourceGroups` and `providers` have been set aside |
| ResourceIds.PopSegment | azurestack/resource_arm_subnet.go:446-451 | succeeds exactly when the key is present with a non-empty value; returns that value and the path without the key, and fails with the missing-segment error otherwise |
| ResourceIds.ValidateNoEmptySegments | azurestack/resource_arm_subnet.go:453-455 | succeeds exactly when no pair is left in the path |
| ResourceIds.PathValue | azurestack/resource_arm_subnet.go:165-167 | Go's map read `id.Path[k]`: the stored value when the key is present, "" otherwise |
| ResourceIds.ParseFormat | azurestack/resource_arm_subnet.go:427-431 | parsing the `/key/value` rendering of non-empty slash-free pairs reads exactly those pairs back |
| ResourceIds.ParseConventional | azurestack/resource_arm_subnet.go:427-458 | a rendered `/subscriptions/{s}/resourceGroups/{rg}[/providers/{p}]/...` ID parses back to the same subscription, resource group, provider and remaining pairs |
| ResourceIds.ParseConventionalSlash | azurestack/resource_arm_subnet.go:427-431 | a trailing "/" after such an ID is ignored |
| ResourceIds.DanglingConventional | azurestack/resource_arm_subnet.go:427-431 | a key with no value after such an ID is refused |
| ResourceIds.ParseSubscriptionOnly | azurestack/helpers/azure/validate.go:55-59 | `/subscriptions/{s}` parses to that subscription with no resource group and an empty path |
| TypedIds.ParseScoped | azurestack/resource_arm_subnet.go:428-444 | accepted exactly when the generic parse succeeds with a non-empty resource group; a parsed ID without one gets the missing-`resourceGroups` error |
| TypedIds.PopOneAccepted | azurestack/resource_arm_route_table.go:314-322 | popping one key then checking for leftovers succeeds exactly when that key is the only pair left, and returns its value |
| TypedIds.PopTwoAccepted | azurestack/resource_arm_subnet.go:446-455 | popping two distinct keys then checking for leftovers succeeds exactly when those two keys are the only pairs left |
| TypedIds.RoundTripOne | azurestack/resource_arm_route_table.go:291-325 | a conventional ID with one typed pair parses back into its parts |
| TypedIds.RoundTripTwo | azurestack/resource_arm_subnet.go:365-368 | a conventional ID with two typed pairs parses back into its parts |
| Subnets.ParseSubnetID | azurestack/resource_arm_subnet.go:427-458 | an accepted ID has four non-empty slash-free fields |
| Subnets.ParseSubnetIDAccepted | azurestack/resource_arm_subnet.go:438-455 | accepted exactly when the ID parses, names a resource group, and holds exactly one `virtualNetworks` and one `subnets` pair and nothing else |
| Subnets.IdIsFormat | azurestack/resource_arm_subnet.go:365-368 | `ID()` is the pair rendering `/subscriptions/{s}/resourceGroups/{rg}/providers/Microsoft.Network/virtualNetworks/{vnet}/subnets/{name}` |
| Subnets.ParseSubnetIDRoundTrip | azurestack/resource_arm_subnet.go:365-368 | `ParseSubnetID(id.ID())` returns the same four fields for non-empty slash-free values |
| Subnets.FoldedKey | azurestack/resource_arm_subnet.go:395-402 | the key looked up equals the wanted key up to case, and is either that key itself or a key of the path |
| Subnets.FoldedKeyFirst | azurestack/resource_arm_subnet.go:397-402 | the search stops at the first key of the path that matches up to case |
| Subnets.FoldedKeyNone | azurestack/resource_arm_subnet.go:396-402 | with no key matching up to case, the canonical spelling is looked up |
| Subnets.FindFoldedKey | azurestack/resource_arm_subnet.go:396-402 | the key-search loop returns the key `FoldedKey` specifies |
| Subnets.SubnetIDInsensitively | azurestack/resource_arm_subnet.go:376-424 | an accepted ID has four non-empty slash-free fields |
| Subnets.InsensitiveAnyCasing | azurestack/resource_arm_subnet.go:395-418 | any casing of the `virtualNetworks` and `subnets` keys is accepted and the values keep their casing |
| Subnets.InsensitiveAgreesWithStrict | azurestack/resource_arm_subnet.go:376-458 | on every ID the strict parser accepts, the case-insensitive parser gives the same result |
| Subnets.InsensitiveCanonical | azurestack/resource_arm_subnet.go:365-368 | `ID()` of a case-insensitive parse re-emits the canonical key casing and the strict parser reads it back to the same fields |
| Subnets.FlattenSubnetIPConfigurations | azurestack/resource_arm_subnet.go:327-337 | the IP configuration IDs in input order, and an empty list for a nil list |
| Subnets.OptionalRef | azurestack/resource_arm_subnet.go:91-110 | a reference is set exactly when the optional attribute is non-empty, and carries that ID |
| Subnets.CreateProperties | azurestack/resource_arm_subnet.go:87-119 | the properties carry the address prefix and the NSG and route-table references only for the attributes that are set; a name parse error of a set attribute is returned |
| Subnets.Create | azurestack/resource_arm_subnet.go:73-157 | sends exactly those properties, reads the subnet back and stores the ID the API returned; any failure leaves the ID unchanged |
| Subnets.Read | azurestack/resource_arm_subnet.go:157-207 | NotFound clears the ID with no error; another failure is returned; a found subnet is read successfully, with its name, network and group from the stored ID, and the address prefix, the security group and route table IDs (when referenced) and the IP configuration IDs from its properties; nothing more when the properties are nil |
| Subnets.CreatedSubnetReadsBack | azurestack/resource_arm_subnet.go:85-197 | reading back what the create handler sends stores the configured prefix, no IP configurations, and the security group and route table IDs exactly when configured |
| Subnets.Delete | azurestack/resource_arm_subnet.go:209-293 | with a route table configured the subnet is first read and written back with `RouteTable` nil, and only then deleted; NotFound on that read clears the ID and returns nil; an unparsable route table name, a failed read, nil properties or a failed write-back each return their error with no delete sent; without a route table only the delete is sent |
| RouteTables.StringPlain | azurestack/resource_arm_route_table.go:282-289 | for names of printable ASCII without quotes or backslashes the description is `Route Table: (Name "{name}" / Resource Group "{rg}")` |
| RouteTables.ParseRouteTableID | azurestack/resource_arm_route_table.go:297-325 | an accepted ID has three non-empty slash-free fields |
| RouteTables.ParseRouteTableIDAccepted | azurestack/resource_arm_route_table.go:308-322 | accepted exactly when the ID parses, names a resource group and holds one `routeTables` pair and nothing else; the name is that pair's value |
| RouteTables.IdIsFormat | azurestack/resource_arm_route_table.go:291-294 | `ID()` is the rendering `/subscriptions/{s}/resourceGroups/{rg}/providers/Microsoft.Network/routeTables/{name}` |
| RouteTables.ParseRouteTableIDRoundTrip | azurestack/resource_arm_route_table.go:291-325 | `ParseRouteTableID(id.ID())` returns the same three fields for non-empty slash-free values |
| RouteTables.ExpandRouteTableRoutes | azurestack/resource_arm_route_table.go:206-230 | one route per block, in order, with the block's name, prefix and next-hop type; the next-hop address is set exactly when it is non-empty |
| RouteTables.FlattenRoute | azurestack/resource_arm_route_table.go:236-249 | the name is always read (a nil name is a dereference error); prefix and next-hop type are present exactly when the properties are; the next-hop address only when it is non-nil |
| RouteTables.FlattenRouteTableRoutes | azurestack/resource_arm_route_table.go:232-254 | an empty list for nil; otherwise every route flattened, in order |
| RouteTables.FlattenAfterExpand | azurestack/resource_arm_route_table.go:206-254 | flattening the expanded routes restores each block's name, prefix and next-hop type, and its next-hop address exactly when it was non-empty |
| RouteTables.FlattenRouteTableSubnets | azurestack/resource_arm_route_table.go:256-266 | the subnet IDs in order, an empty list for nil; a nil ID is a dereference error |
| RouteTables.CreateUpdate | azurestack/resource_arm_route_table.go:96-138 | sends the expanded routes under the table's name, waits, reads back and stores the returned ID; any failure leaves the ID unchanged |
| RouteTables.Read | azurestack/resource_arm_route_table.go:140-179 | NotFound clears the ID with no error; another failure is returned; a found table is read successfully exactly when its routes and subnet IDs can be flattened, and then its name and group come from the stored ID, its routes are every route flattened in order and its subnets the subnet IDs in order |
| RouteTables.ReadBackRoutes | azurestack/resource_arm_route_table.go:166-170 | the routes the create handler sends can always be read back, and the read stores each configured block restored, in order |
| RouteTables.Delete | azurestack/resource_arm_route_table.go:181-204 | a NotFound from the delete call is tolerated and the operation is still awaited; another delete error is returned without waiting |
| SubnetRouteTableAssociation.Associated | azurestack/resource_arm_subnet_route_table_association.go:89-100 | the subnet written back on create differs from the one read only in `RouteTable`, which is set to the requested ID, and only when the properties are present |
| SubnetRouteTableAssociation.Disassociated | azurestack/resource_arm_subnet_route_table_association.go:218 | the subnet written back on delete differs from the one read only in `RouteTable`, which is nil |
| SubnetRouteTableAssociation.DisassociateUndoesAssociate | azurestack/resource_arm_subnet_route_table_association.go:97-99 | dissociating an associated subnet gives the original subnet without a route table |
| SubnetRouteTableAssociation.Attach | azurestack/resource_arm_subnet_route_table_association.go:80-116 | a missing subnet is an error; a subnet with a route table that has an ID (and a subnet ID) is refused as already existing, whatever that ID is; otherwise exactly the associated subnet is written, awaited and read back, and its ID stored |
| SubnetRouteTableAssociation.Create | azurestack/resource_arm_subnet_route_table_association.go:49-119 | both IDs must parse before any call; then as `Attach`; any failure leaves the ID unchanged |
| SubnetRouteTableAssociation.Read | azurestack/resource_arm_subnet_route_table_association.go:121-160 | a missing subnet or one without a route table clears the ID with no error; nil properties are an error; otherwise the subnet ID and route table ID are stored |
| SubnetRouteTableAssociation.Release | azurestack/resource_arm_subnet_route_table_association.go:207-229 | the subnet is read again; if gone nothing is written and there is no error; otherwise exactly the dissociated subnet is written back and awaited |
| SubnetRouteTableAssociation.Detach | azurestack/resource_arm_subnet_route_table_association.go:175-229 | nothing is written and no error returned when the subnet is gone or has no route table with an ID; an unparsable route table ID is an error; otherwise as `Release` |
| SubnetRouteTableAssociation.Delete | azurestack/resource_arm_subnet_route_table_association.go:162-230 | the association ID must be a subnet ID before any call; then as `Detach` |
| SubnetRouteTableAssociation.ReleaseClears | azurestack/resource_arm_subnet_route_table_association.go:218-220 | every write-back the delete makes carries no route table reference |
| NicBackendPoolAssociation.ParseAssociationId | azurestack/resource_arm_network_interface_backend_address_pool_association.go:154-167 | the ID is accepted exactly when it splits into two parts on "\|" and the first parses as a resource ID; the pool ID is the second part; an ID without "\|" is refused |
| NicBackendPoolAssociation.AssociationIdSplits | azurestack/resource_arm_network_interface_backend_address_pool_association.go:114 | an ID built from "\|"-free parts splits into the IP configuration's ID and the pool ID |
| NicBackendPoolAssociation.ParseAssociationIdParts | azurestack/resource_arm_network_interface_backend_address_pool_association.go:159-167 | the group, interface and IP configuration are taken from the first part's path, the pool ID from the second part |
| NicBackendPoolAssociation.AssociationIdRoundTrip | azurestack/resource_arm_network_interface_backend_address_pool_association.go:114 | the ID the create handler stores parses back to the group, interface name, IP configuration name and pool ID it was built from |
| NicBackendPoolAssociation.AttachPool | azurestack/resource_arm_network_interface_backend_address_pool_association.go:111-131 | refused with "already exists" exactly when a listed pool has the ID; otherwise the pools that have IDs, in order, followed by the new pool |
| NicBackendPoolAssociation.DetachPool | azurestack/resource_arm_network_interface_backend_address_pool_association.go:282-294 | the pools that have IDs other than the removed one, in order; the result never lists the removed pool |
| NicBackendPoolAssociation.HasPool | azurestack/resource_arm_network_interface_backend_address_pool_association.go:198-212 | found exactly when a listed pool has the ID |
| NicBackendPoolAssociation.AttachedSnoc | azurestack/resource_arm_network_interface_backend_address_pool_association.go:130 | appending a pool lists an ID exactly when it was listed before or is the appended pool's |
| NicBackendPoolAssociation.WithoutDetaches | azurestack/resource_arm_network_interface_backend_address_pool_association.go:282-294 | after the delete's filter the pool is not listed |
| NicBackendPoolAssociation.WithIdsAttachesNothing | azurestack/resource_arm_network_interface_backend_address_pool_association.go:116-124 | dropping the pools without IDs does not add the pool |
| NicBackendPoolAssociation.WithoutAbsent | azurestack/resource_arm_network_interface_backend_address_pool_association.go:282-294 | removing a pool that is not listed only drops the pools without IDs |
| NicBackendPoolAssociation.WithIdsIdempotent | azurestack/resource_arm_network_interface_backend_address_pool_association.go:116-124 | dropping the pools without IDs twice is the same as once |
| NicBackendPoolAssociation.DetachUndoesAttach | azurestack/resource_arm_network_interface_backend_address_pool_association.go:111-131 | the delete's list after the create's list is the pool list the create started from, less the pools without IDs |
| NicBackendPoolAssociation.FindIpConfiguration | azurestack/resource_arm_network_interface_backend_address_pool_association.go:100-103 | the index of the first IP configuration with the name, or none when no configuration has it |
| NicBackendPoolAssociation.WithPools | azurestack/resource_arm_network_interface_backend_address_pool_association.go:131-133 | only the named configuration's pool list changes; the interface's ID, MAC address, other configurations and the configuration's name and other properties are kept |
| NicBackendPoolAssociation.Locate | azurestack/resource_arm_network_interface_backend_address_pool_association.go:90-109 | fails exactly when the properties, the configuration list, the named configuration or its properties are missing; otherwise the configuration's index and its pool list |
| NicBackendPoolAssociation.Attach | azurestack/resource_arm_network_interface_backend_address_pool_association.go:81-144 | a missing or unreadable interface is an error; an already listed pool is "already exists" with no write; otherwise exactly the interface with the extended pool list is written, under the name it was read with, and awaited; the ID is stored only on success |
| NicBackendPoolAssociation.Create | azurestack/resource_arm_network_interface_backend_address_pool_association.go:58-147 | an unparsable interface ID is an error before any call; otherwise as `Attach`, storing "{interface}/ipConfigurations/{name}\|{pool}" on success |
| NicBackendPoolAssociation.Read | azurestack/resource_arm_network_interface_backend_address_pool_association.go:149-225 | a malformed ID is an error; a missing interface or configuration, or a pool no longer listed, clears the ID with no error; a failed read other than not found is returned with the ID kept; otherwise the ID is kept and the pool ID, the IP configuration's name and the interface's ID are stored |
| NicBackendPoolAssociation.ReadTarget | azurestack/resource_arm_network_interface_backend_address_pool_association.go:169-218 | the ID is kept, and the pool, configuration name and interface ID stored, exactly when the named configuration lists the pool; nil properties or configuration lists are errors |
| NicBackendPoolAssociation.Detach | azurestack/resource_arm_network_interface_backend_address_pool_association.go:252-306 | the interface is read by its name; a missing or unreadable interface or configuration is an error with no write; otherwise exactly the interface with the pool filtered out is written under the name given, and awaited |
| NicBackendPoolAssociation.Delete | azurestack/resource_arm_network_interface_backend_address_pool_association.go:227-307 | a malformed ID is an error before any call; otherwise as `Detach`, writing the interface back under the name it was read with |
| NicBackendPoolAssociation.DeleteAsWritten | azurestack/resource_arm_network_interface_backend_address_pool_association.go:227-307 | as `Delete`, but the interface is written back under the IP configuration's name, as at line 297 |
| NicBackendPoolAssociation.AsWrittenWritesAnotherInterface | azurestack/resource_arm_network_interface_backend_address_pool_association.go:252-297 | as written, when the configuration's name differs from the interface's, the write-back addresses another interface than the one read |
| NicBackendPoolAssociation.DeleteWritesWhatItRead | azurestack/resource_arm_network_interface_backend_address_pool_association.go:252-297 | the delete handler writes only to the interface it read |
| KeyVaultIds.VaultID | azurestack/resource_arm_key_vault.go:1055-1083 | every vault ID accepted has non-empty, "/"-free subscription, group and name |
| KeyVaultIds.VaultIDAccepted | azurestack/resource_arm_key_vault.go:1055-1083 | accepted exactly when the ID parses, names a resource group and holds one `vaults` pair and nothing else; the fields are those of the parsed ID |
| KeyVaultIds.VaultIdIsFormat | azurestack/resource_arm_key_vault.go:1049-1052 | the vault's ID text is the generic resource ID of its subscription, group, `Microsoft.KeyVault` and `vaults/{name}` |
| KeyVaultIds.VaultIDRoundTrip | azurestack/resource_arm_key_vault.go:1032-1083 | parsing the ID a vault writes gives back that vault |
| KeyVaultIds.ValidateVaultID | azurestack/resource_arm_key_vault.go:1194-1206 | no warnings; an error exactly when the parser refuses the value, and then the parser's own error |
| KeyVaultIds.ValidateVaultIDAcceptsOwnIds | azurestack/resource_arm_key_vault.go:1194-1206 | every ID the provider writes for a vault passes the validator |
| KeyVaultIds.ParseRequestUri | azurestack/resource_arm_key_vault.go:1163 | an accepted URL's path has no query and its host no "/"; a URL without scheme has no host; the empty string is refused |
| KeyVaultIds.ParseNestedItemId | azurestack/resource_arm_key_vault.go:1160-1192 | accepted only when the URL parses; the base URL is "{scheme}://{host}/"; type, name and version contain no "/" |
| KeyVaultIds.ParseNestedItemIdComponents | azurestack/resource_arm_key_vault.go:1168-1182 | accepted exactly when the trimmed path has two or three components; the version is empty exactly when there are two or the third is empty |
| KeyVaultIds.ParseVersionedNestedItemId | azurestack/resource_arm_key_vault.go:1147-1158 | accepted exactly when the unversioned parser accepts with a non-empty version, and then gives the same item |
| KeyVaultIds.NestedItemIdRoundTrip | azurestack/resource_arm_key_vault.go:1114-1125 | the URL an item writes parses back to that item, with or without a version |
| KeyVaultIds.NestedItemIdTrimsBase | azurestack/resource_arm_key_vault.go:1117 | a base URL with or without its trailing "/" gives the same ID |
| KeyVaultIds.VersionedRoundTrip | azurestack/resource_arm_key_vault.go:1147-1158 | the versioned parser accepts an item's own URL exactly when the item has a version |
| KeyVaultIds.ValidateNestedItemName | azurestack/resource_arm_key_vault.go:1208-1216 | no warnings; accepted exactly when the name is non-empty and only letters, digits and dashes |
| KeyVaultIds.IPv4HashKey | azurestack/resource_arm_key_vault.go:1092-1103 | a bare IPv4 address is hashed as its "/32" network; anything else as written |
| KeyVaultIds.AddressHasNoSlash | azurestack/resource_arm_key_vault.go:1093-1101 | an IPv4 address contains no "/" |
| KeyVaultIds.AddressAndHostNetworkHashAlike | azurestack/resource_arm_key_vault.go:1092-1103 | an address and its "/32" network land in the same set slot |
| KeyVaultAcls.ExpandKeyVaultNetworkAcls | azurestack/resource_arm_key_vault.go:833-872 | no block gives no rule set and no subnet IDs; otherwise the first block's bypass and default action, one rule per address and one per subnet ID carrying it, and the subnet IDs as configured |
| KeyVaultAcls.FlattenKeyVaultNetworkAcls | azurestack/resource_arm_key_vault.go:892-940 | no rule set gives the default block ("AzureServices", "Allow", no rules); otherwise the rules' addresses and subnet IDs, skipping rules without one, with subnet IDs in canonical key casing |
| KeyVaultAcls.CanonicalSubnetIdParses | azurestack/resource_arm_key_vault.go:924-928 | a subnet ID accepted in any key casing is rewritten to an ID the strict parser reads as the same subnet; any other ID is kept as it is |
| KeyVaultAcls.IpRuleValuesMembers | azurestack/resource_arm_key_vault.go:905-914 | an address is written back exactly when some rule carries it |
| KeyVaultAcls.PresentIdsMembers | azurestack/resource_arm_key_vault.go:917-931 | an ID is kept exactly when some rule carries it |
| KeyVaultAcls.IpRuleValuesOfExpanded | azurestack/resource_arm_key_vault.go:844-852 | the addresses read back from the expanded rules are the configured addresses |
| KeyVaultAcls.PresentIdsOfExpanded | azurestack/resource_arm_key_vault.go:854-862 | the IDs read back from the expanded rules are the configured IDs |
| KeyVaultAcls.PresentIdsAppend | azurestack/resource_arm_key_vault.go:917-931 | reading two lists of rules one after the other gives the IDs of each in turn |
| KeyVaultAcls.CanonicalSubnetIdIdempotent | azurestack/resource_arm_key_vault.go:924-928 | canonicalising twice is the same as once |
| KeyVaultAcls.CanonicalSubnetIdOfValid | azurestack/resource_arm_key_vault.go:924-928 | an ID the provider writes for a subnet is already canonical |
| KeyVaultAcls.CanonicalParsesAlike | azurestack/resource_arm_key_vault.go:924-928 | the canonical form names the same subnet, or fails alike, under the case-insensitive parser |
| KeyVaultAcls.FlattenAfterExpand | azurestack/resource_arm_key_vault.go:833-940 | reading back what was sent gives the default block when nothing was configured, and otherwise the configured block with canonical subnet IDs |
| KeyVaultAcls.FlattenAfterExpandCanonical | azurestack/resource_arm_key_vault.go:833-940 | a block whose subnet IDs are canonical reads back exactly as configured |
| KeyVaultAcls.FlattenedIdsCanonical | azurestack/resource_arm_key_vault.go:917-931 | every subnet ID written back is canonical |
| KeyVaultAcls.ReadBackStable | azurestack/resource_arm_key_vault.go:833-940 | a block read into state, sent again and read back once more is unchanged |
| KeyVaultAcls.NetworksOfErrExtends | azurestack/resource_arm_key_vault.go:346-350 | once an ID fails to parse, the IDs after it do not change the error |
| KeyVaultAcls.VirtualNetworkNames | azurestack/resource_arm_key_vault.go:345-355 | the loop over configured subnet IDs yields the distinct network names or the first parse error, as `NetworkNames` |
| KeyVaultAcls.VirtualNetworkNamesOfRules | azurestack/resource_arm_key_vault.go:738-760 | the loop over the vault's rules skips rules without an ID and otherwise agrees with `NetworkNames` |
| KeyVaultAcls.NetworksOfOk | azurestack/resource_arm_key_vault.go:346-350 | the list succeeds exactly when every ID parses, and then names each ID's virtual network in order |
| KeyVaultAcls.NetworksOfFirstError | azurestack/resource_arm_key_vault.go:346-350 | a failing list reports the error of its first unparsable ID |
| KeyVaultAcls.DistinctMembers | azurestack/resource_arm_key_vault.go:352-354 | the locked names are exactly the names met |
| KeyVaultAcls.DistinctNoDuplicates | azurestack/resource_arm_key_vault.go:352-354 | no name is locked twice |
| KeyVaultAcls.DistinctFirstOccurrenceOrder | azurestack/resource_arm_key_vault.go:352-354 | the names are locked in the order of their first occurrences |
| KeyVaultAcls.DeleteLocksSentNetworks | azurestack/resource_arm_key_vault.go:738-760 | the delete locks the same networks the create locked for the rules it sent |
| KeyVaultAcls.CanonicalIdsLockAlike | azurestack/resource_arm_key_vault.go:917-931 | canonicalising IDs on read does not change the networks they lock |
| KeyVaults.BuildCreateParameters | azurestack/resource_arm_key_vault.go:292-339 | the parameters carry every setting as configured, the tenant as the UUID it names (`uuid.FromStringOrNil`), the network rules as expanded and soft delete off; purge protection is sent only when on and the retention period only when it is not 90; the subnet IDs are those of the rules |
| KeyVaults.ChangesPropertiesMeansIntersects | azurestack/resource_arm_key_vault.go:438-568 | some property is patched exactly when one of the property attributes changed |
| KeyVaults.PatchSettings | azurestack/resource_arm_key_vault.go:438-478 | each of access policy and the four flags is carried exactly when it changed, with its configured value |
| KeyVaults.PatchNetworkRules | azurestack/resource_arm_key_vault.go:480-505 | an error exactly when a configured subnet ID does not parse, with that error; otherwise the expanded rules and the distinct networks to lock |
| KeyVaults.PatchGuarded | azurestack/resource_arm_key_vault.go:507-568 | switching purge protection off once on is refused; changing a retention period already set is refused; otherwise purge protection, SKU, retention and tenant are each carried exactly when changed, the tenant as the UUID it names |
| KeyVaults.BuildUpdatePatch | azurestack/resource_arm_key_vault.go:436-575 | refused exactly on a bad network rule, disabling purge protection or changing a set retention, the bad rule reported first; otherwise a patch carrying exactly the changed attributes and no properties when none changed |
| KeyVaults.TagsOnlyPatchHasNoProperties | azurestack/resource_arm_key_vault.go:436-575 | the patch has no properties exactly when only tags or contacts changed |
| KeyVaults.SinglePropertyPatch | azurestack/resource_arm_key_vault.go:529-538 | a change to the SKU alone sends only the SKU |
| KeyVaults.CanonicalSkuName | azurestack/resource_arm_key_vault.go:664-673 | the stored SKU name is the last known name equal to the returned one up to case, or "" |
| KeyVaults.KnownSkuNameFound | azurestack/resource_arm_key_vault.go:667-671 | a name is found exactly when some known name equals it up to case, and it is then such a known name |
| KeyVaults.SkuNamesApart | azurestack/resource_arm_key_vault.go:667-671 | the two known SKU names differ even up to case |
| KeyVaults.SkuNameRecased | azurestack/resource_arm_key_vault.go:664-673 | any casing of a known SKU name is stored as that name |
| KeyVaults.SkuNameStable | azurestack/resource_arm_key_vault.go:664-673 | a stored SKU name, sent and read again, is stored unchanged |
| KeyVaults.RetentionSurvivesCreate | azurestack/resource_arm_key_vault.go:337-339 | a non-zero retention period reads back as configured, including the default 90 that is not sent |
| KeyVaults.PurgeProtectionSurvivesCreate | azurestack/resource_arm_key_vault.go:333-335 | purge protection reads back as configured though it is sent only when on |
| KeyVaults.Read | azurestack/resource_arm_key_vault.go:606-697 | an unparsable ID is an error before any call; a missing vault clears the ID; a vault without URI is an error; otherwise the vault is cached under its name, a nil location or tenant is a dereference error, and the state holds its settings, the tenant as the UUID's text, the network rules flattened, the retention defaulted, the SKU recased and the contacts, unless listing them fails other than forbidden or not found |
| KeyVaults.EchoedVault | azurestack/resource_arm_key_vault.go:364-370 | the vault read back has a URI and the location sent |
| KeyVaults.CreatedVaultReadsBack | azurestack/resource_arm_key_vault.go:292-339 | a vault created from a configuration reads back with every setting as configured, the tenant as its UUID in lower case, and subnet IDs canonical, given a non-zero retention and a known SKU name |
| KeyVaults.TenantUuid | azurestack/resource_arm_key_vault.go:292 | the tenant sent is always a lower-case UUID; a configured UUID gives the same UUID up to case, and any other text the nil UUID |
| KeyVaults.TenantUuidIdempotent | azurestack/resource_arm_key_vault.go:641 | a tenant the read handler stored is sent again unchanged |
| KeyVaults.UpperCaseTenantReadsLower | azurestack/resource_arm_key_vault.go:641 | the upper-case tenant `72F988BF-86F1-41AF-91AB-2D7CD011DB47` is sent and stored as `72f988bf-86f1-41af-91ab-2d7cd011db47` |
| KeyVaults.PrepareCreate | azurestack/resource_arm_key_vault.go:292-358 | an error exactly when a configured subnet ID does not parse; otherwise the create parameters and the distinct networks to lock |
| KeyVaults.Provision | azurestack/resource_arm_key_vault.go:360-403 | succeeds exactly when the create, the read-back with a URI, the wait and, with contacts configured, setting them succeed; on success the ID is stored and the vault cached |
| KeyVaults.Create | azurestack/resource_arm_key_vault.go:242-406 | an existing vault is "already exists"; a failed lookup or soft-deleted lookup other than not found or forbidden is an error; a bad subnet ID stops before the create call; the create call carries the configured parameters; success stores the ID and caches the vault |
| KeyVaults.Update | azurestack/resource_arm_key_vault.go:408-604 | an unparsable ID or failed read is an error; a refused patch sends nothing; otherwise exactly the patch for the changed attributes is sent, then changed contacts are set, or deleted when none are configured |
| KeyVaults.Delete | azurestack/resource_arm_key_vault.go:699-808 | a vault that is gone is not an error; nil properties or location are errors; the networks of its rules are locked; a delete that fails other than not found is an error; on success the cache entry is dropped and nothing else changes |
| Config.CacheKeyForKeyVault | azurestack/config.go:498-500 | the key is the name lower-cased: as long as the name, equal to it up to case, and already lower case |
| Config.ParseKeyVaultNameFromBaseUrl | azurestack/config.go:485-496 | accepted exactly when the URL parses, with the parse error otherwise; the name is the host's first "."-separated label: the whole host when it has no ".", otherwise the text before its first "." |
| Config.BaseUrlParses | azurestack/config.go:486 | a "{scheme}://{host}/" URL parses to that scheme, host and path "/" |
| Config.VaultNameFromBaseUrl | azurestack/config.go:485-496 | the name read from "{scheme}://{name}.{suffix}/" is the vault name |
| Config.UserAgentParts | azurestack/config.go:110-124 | with an existing agent and a Cloud Shell agent, the agent is the existing, Terraform and Cloud Shell agents separated by single spaces |
| Config.UserAgentFresh | azurestack/config.go:114-118 | without an existing agent the Terraform agent comes first |
| Config.ArmClient.constructor | azurestack/config.go:345-346 | both caches start empty |
| Config.ArmClient.SetUserAgent | azurestack/config.go:110-124 | the agent becomes the Terraform agent after any existing one, then the Cloud Shell agent if set; the caches are unchanged |
| Config.ArmClient.AddKeyVaultToCache | azurestack/config.go:502-511 | exactly the vault's key is set to its ID, data-plane URI and resource group; no other entry or field changes |
| Config.ArmClient.PurgeKeyVaultCache | azurestack/config.go:513-523 | exactly the vault's key is removed; no other entry or field changes |
| Config.ArmClient.KeyVaultExists | azurestack/config.go:550-579 | a cached vault exists without a remote call; otherwise a missing vault does not exist and is not cached, a failed read is an error, a vault without URI is an error, and a vault with a URI exists and is cached |
| Config.ArmClient.KeyVaultIDFromBaseUrl | azurestack/config.go:425-483 | an unparsable URL is an error; a cached name returns the cached ID with no call; otherwise the listing is scanned and a matching vault is read and cached; no match gives no ID and no error |
| Config.ArmClient.GetKeyForStorageAccount | azurestack/config.go:349-392 | a cached key answers at once; a missing account is not an error and not cached; another failure keeps the account as existing; only a first key with a value is cached |
| Config.ScanIds | azurestack/config.go:451-474 | a page's scan stops only on an unparsable ID or a vault whose name matches up to case |
| Config.ScanPages | azurestack/config.go:450-479 | a vault found matches the name up to case |
| Config.ScanListing | azurestack/config.go:450-479 | the paging loop gives the outcome `ScanPages` defines: the first unparsable ID, matching vault or failed page request, in order |
| Config.LookupCachesUnderName | azurestack/config.go:431-472 | after a lookup that returns an ID, that ID is cached under the key of the name looked up |
| SecurityRule.SecurityRuleID | internal/services/network/parse/security_rule_test.go:85-95 | every rule ID accepted has non-empty, "/"-free subscription, group, security group and rule name |
| SecurityRule.Accepted | internal/services/network/parse/security_rule_test.go:24-101 | accepted exactly when the ID parses, names a resource group and holds one `networkSecurityGroups` and one `securityRules` pair and nothing else |
| SecurityRule.IdIsFormat | internal/services/network/parse/security_rule_test.go:16-22 | the rule's ID text is the generic resource ID of its pairs |
| SecurityRule.RoundTrip | internal/services/network/parse/security_rule_test.go:16-95 | parsing the ID a rule writes gives back that rule |
| SecurityRule.FormatterVector | internal/services/network/parse/security_rule_test.go:16-22 | the formatter's vector renders as the expected text |
| SecurityRule.ValidVector | internal/services/network/parse/security_rule_test.go:85-95 | the valid vector parses to the expected subscription, group, security group and name |
| SecurityRule.RejectsEmptyAndRoot | internal/services/network/parse/security_rule_test.go:31-42 | "" and "/" are refused |
| SecurityRule.RejectsLoneKey | internal/services/network/parse/security_rule_test.go:43-48 | a lone key such as "/subscriptions/" is refused |
| SecurityRule.RejectsMissingResourceGroup | internal/services/network/parse/security_rule_test.go:49-54 | a subscription without resource group is refused |
| SecurityRule.RejectsEmptyResourceGroup | internal/services/network/parse/security_rule_test.go:55-60 | an empty resource group is refused |
| SecurityRule.RejectsMissingSecurityGroup | internal/services/network/parse/security_rule_test.go:61-66 | a provider without security group is refused |
| SecurityRule.RejectsEmptySecurityGroup | internal/services/network/parse/security_rule_test.go:67-72 | an empty security group name is refused |
| SecurityRule.RejectsMissingName | internal/services/network/parse/security_rule_test.go:73-78 | a security group without rule is refused |
| SecurityRule.RejectsEmptyName | internal/services/network/parse/security_rule_test.go:79-84 | an empty rule name is refused |
| SecurityRule.RejectsUpperCased | internal/services/network/parse/security_rule_test.go:96-101 | the upper-cased vector is refused: keys are matched case-sensitively |
| RoleDefinitions.TextAfterMarker | azurestack/resource_arm_role_definition.go:454 | the role GUID is a prefix of the text after the first "roleDefinitions/", and all of it when no second marker follows |
| RoleDefinitions.SecondPieceAfterMarker | azurestack/resource_arm_role_definition.go:454 | splitting a resource ID that holds the marker gives at least two pieces, the second being the text after the first marker |
| RoleDefinitions.PairRejoins | azurestack/resource_arm_role_definition.go:449-450 | an input that splits on "\|" into exactly two pieces is those pieces joined by "\|", and neither holds a "\|" |
| RoleDefinitions.ParseRoleDefinitionId | azurestack/resource_arm_role_definition.go:448-472 | a parsed pseudo-ID is exactly "resourceId\|scope" with a subscription or management-group scope and a resource ID holding "roleDefinitions/", the GUID being the text after it; a resource ID without the marker gets past the never-true `< 1` guard and ends in the out-of-range index |
| RoleDefinitions.StoredIdSplits | azurestack/resource_arm_role_definition.go:212 | the stored "resourceId\|scope" ID splits back into its two halves |
| RoleDefinitions.StoredIdParses | azurestack/resource_arm_role_definition.go:212 | the ID stored by create/update parses back to its resource ID, its scope and the GUID after the marker |
| RoleDefinitions.MissingMarkerIsOutOfRange | azurestack/resource_arm_role_definition.go:465-468 | a stored ID whose resource ID lacks "roleDefinitions/" fails with the out-of-range index |
| RoleDefinitions.ForeignScopeRejected | azurestack/resource_arm_role_definition.go:456-458 | a scope that is neither a subscription nor a management group is refused |
| RoleDefinitions.PipeCountRejected | azurestack/resource_arm_role_definition.go:449-452 | input with no "\|" or with more than one is refused |
| RoleDefinitions.CopyStrings | azurestack/resource_arm_role_definition.go:302-306 | the action list is copied element for element |
| RoleDefinitions.ExpandPermissions | azurestack/resource_arm_role_definition.go:294-336 | one permission per configured block, in order, with both its action lists always present and equal to the configured ones |
| RoleDefinitions.FlattenPermissions | azurestack/resource_arm_role_definition.go:354-397 | a nil list gives no blocks; otherwise one block per permission, in order, with absent action lists read as empty |
| RoleDefinitions.ExpandAssignableScopes | azurestack/resource_arm_role_definition.go:338-352 | no configured assignable scopes means the role's own scope alone; otherwise the configured list unchanged |
| RoleDefinitions.FlattenAssignableScopes | azurestack/resource_arm_role_definition.go:399-410 | a nil list reads as empty, otherwise it is kept as is |
| RoleDefinitions.FlattenAfterExpand | azurestack/resource_arm_role_definition.go:294-397 | a permission block sent by expand reads back unchanged through flatten |
| RoleDefinitions.AbsentListsReadEmpty | azurestack/resource_arm_role_definition.go:363-382 | a permission whose lists are both absent reads back as two empty lists |
| RoleDefinitions.UpdateRefresh | azurestack/resource_arm_role_definition.go:412-423 | a found role is "OK" with no error; a missing one is "NotFound" and an other failure "Error", each carrying its error |
| RoleDefinitions.DeleteRefresh | azurestack/resource_arm_role_definition.go:425-436 | a missing role is "NotFound" with no error, an other failure "Error" with its error, a found role still "Pending" |
| RoleDefinitions.Wait | azurestack/resource_arm_role_definition.go:186-199 | the polling loop's outcome is the wait's specification over the refresh results |
| RoleDefinitions.UpdateRefreshes | azurestack/resource_arm_role_definition.go:193 | each poll of the update wait is classified by the update refresh |
| RoleDefinitions.DeleteRefreshes | azurestack/resource_arm_role_definition.go:281 | each poll of the delete wait is classified by the delete refresh |
| RoleDefinitions.SettleConverged | azurestack/resource_arm_role_definition.go:195 | a wait converges only after six target states in a row, ending at the last poll |
| RoleDefinitions.UpdateConvergedOnSixReads | azurestack/resource_arm_role_definition.go:186-199 | a converged update wait saw six successful reads in a row as its last polls |
| RoleDefinitions.UpdateWaitFailsOnNotFound | azurestack/resource_arm_role_definition.go:412-419 | a first read that finds no role ends the update wait at once with that error |
| RoleDefinitions.DeleteConvergesOnSixMissing | azurestack/resource_arm_role_definition.go:273-289 | six reads in a row that find no role settle the delete wait after six polls |
| RoleDefinitions.DeleteConvergedOnSixMissing | azurestack/resource_arm_role_definition.go:273-289 | a converged delete wait saw six missing roles in a row as its last polls |
| RoleDefinitions.RoleName | azurestack/resource_arm_role_definition.go:135-143 | the configured GUID when one is set, otherwise the generated one or its error |
| RoleDefinitions.ExistingError | azurestack/resource_arm_role_definition.go:152-164 | on create, a failed lookup other than not-found is an error, an existing role with a non-empty ID is refused with the "ID\|scope" it would import as, and otherwise creation proceeds |
| RoleDefinitions.Replicate | azurestack/resource_arm_role_definition.go:180-212 | on update the stored ID must parse and the wait converge; then the read-back role ID joined to the scope is stored, and it is stored exactly when all that succeeds |
| RoleDefinitions.CreateUpdate | azurestack/resource_arm_role_definition.go:130-212 | the definition sent carries the name, description, "CustomRole", the expanded permissions and assignable scopes; a GUID error, an existing role or a failed write stops the handler with the ID untouched; success stores the read-back ID next to the scope |
| RoleDefinitions.Read | azurestack/resource_arm_role_definition.go:216-257 | the parsed ID gives the scope and both IDs; a missing role clears the ID with no error; other failures keep it; present properties are stored flattened |
| RoleDefinitions.Delete | azurestack/resource_arm_role_definition.go:259-292 | a stored ID without the role marker panics on the parser's index; any other unparsable ID dereferences nil; a not-found delete counts as done; success is exactly the delete wait converging, with one read per poll |
| KeyVaultKeys.ClassifyPoll | azurestack/resource_arm_key_vault_key.go:544-554 | a poll that finds no item is "NotFound", a found item "InProgress", any other failure "Error" carrying its error, and nothing else |
| KeyVaultKeys.WaitUntilNotFound | azurestack/resource_arm_key_vault_key.go:541-562 | the polling loop's outcome is the wait's specification over the observed polls |
| KeyVaultKeys.SettleBounds | azurestack/resource_arm_key_vault_key.go:541-562 | a wait never claims more polls than were observed, and one that converges or fails made at least one poll |
| KeyVaultKeys.SettleConverged | azurestack/resource_arm_key_vault_key.go:556 | a converged wait ended on three "NotFound" polls in a row and saw no error |
| KeyVaultKeys.SettleFailed | azurestack/resource_arm_key_vault_key.go:549-552 | a failed wait stopped at its first error, on its last poll, with that error |
| KeyVaultKeys.ThreeNotFoundConverge | azurestack/resource_arm_key_vault_key.go:541-562 | three missing-item polls at the start settle the wait after three polls |
| KeyVaultKeys.PresentItemTimesOut | azurestack/resource_arm_key_vault_key.go:553-562 | an item that is still present at every poll makes the wait time out after all of them |
| KeyVaultKeys.Repeat | azurestack/resource_arm_key_vault_key.go:541-562 | the polls of a wait are that many copies of the same call |
| KeyVaultKeys.DeleteAndOptionallyPurge | azurestack/resource_arm_key_vault_key.go:526-600 | no deadline is an error before any call; an item already gone is success with nothing further; other delete errors are returned; the purge is sent only when asked for after the delete wait converged and its error is returned; success is exactly the whole sequence succeeding |
| KeyVaultKeys.CountAppend | azurestack/resource_arm_key_vault_key.go:526-600 | counting a call in a joined trace adds the two counts |
| KeyVaultKeys.CountRepeat | azurestack/resource_arm_key_vault_key.go:541-562 | the polls of a wait hold only the polled call |
| KeyVaultKeys.PurgeCallsCount | azurestack/resource_arm_key_vault_key.go:565-597 | after the delete wait, the purge is called once when asked for and never otherwise, and the delete is not called again |
| KeyVaultKeys.DeletePhaseCount | azurestack/resource_arm_key_vault_key.go:533-562 | the delete phase calls the delete exactly once and never the purge |
| KeyVaultKeys.PurgeCalledOnceAfterDelete | azurestack/resource_arm_key_vault_key.go:533-573 | the item is deleted exactly once, first; the purge is called at most once, and exactly when asked for after a successful delete whose wait converged |
| KeyVaultKeys.NoPurgeWithoutOptIn | azurestack/resource_arm_key_vault_key.go:565-568 | with purging off neither the purge nor its polls are ever called |
| KeyVaultKeys.ExpandKeyOptions | azurestack/resource_arm_key_vault_key.go:497-506 | the configured key operations are sent in order |
| KeyVaultKeys.BuildKeyParameters | azurestack/resource_arm_key_vault_key.go:187-225 | the parameters fail exactly for an RSA key whose size is absent or 0; otherwise they are the configuration's: the key enabled, its type, operations and tags, an elliptic-curve key's curve, an RSA key's non-zero size, and each date that is set and non-empty |
| KeyVaultKeys.GetOk | azurestack/resource_arm_key_vault_key.go:207-223 | a value reads as set exactly when it is present and not the zero value, and then as itself |
| KeyVaultKeys.ParametersForUnique | azurestack/resource_arm_key_vault_key.go:187-225 | the create parameters are fixed by the configuration |
| KeyVaultKeys.KeyOperations | azurestack/resource_arm_key_vault_key.go:478-495 | the key's purge sequence deletes with DeleteKey, polls GetKey, purges with PurgeDeletedKey and polls GetDeletedKey |
| KeyVaultKeys.Create | azurestack/resource_arm_key_vault_key.go:159-267 | a bad vault ID or base URI stops before any call; a failed lookup or an existing key with a non-empty ID is refused; an RSA key without a size is refused before the create; otherwise the create call carries exactly the configuration's parameters; the ID is set only on success, to the read-back key ID |
| KeyVaultKeys.Delete | azurestack/resource_arm_key_vault_key.go:423-468 | an unparsable ID or an unresolved vault is an error; a vault that no longer exists clears the ID with no error; otherwise the key is deleted and always purged, success being the purge sequence succeeding, with the ID kept |
| KeyVaultSecrets.SecretOperations | azurestack/resource_arm_key_vault_secret.go:405-423 | the secret's purge sequence deletes with DeleteSecret, polls GetSecret, purges with PurgeDeletedSecret and polls GetDeletedSecret |
| KeyVaultSecrets.ExpandAttributes | azurestack/resource_arm_key_vault_secret.go:126-136 | the attributes carry each configured non-empty date, and only those |
| KeyVaultSecrets.Create | azurestack/resource_arm_key_vault_secret.go:84-186 | a bad vault ID or base URL stops before any call; a failed lookup or an existing secret with a non-empty ID is refused; otherwise the value, content type, tags and dates are set; success, exactly when the write and the read-back give an ID, stores the read-back versioned ID |
| KeyVaultSecrets.FindVault | azurestack/resource_arm_key_vault_secret.go:199-219 | a failed lookup is an error; a base URL matching no vault is a vault gone on read and an error on update and delete; the vault is found exactly when its ID parses and it exists; an existing-check that says no means gone |
| KeyVaultSecrets.WriteVersion | azurestack/resource_arm_key_vault_secret.go:239-274 | the first call is the update's write; a failed write is returned at once; success is exactly the write and a read-back with a versioned ID, which is stored |
| KeyVaultSecrets.Update | azurestack/resource_arm_key_vault_secret.go:188-277 | an unparsable ID or failed vault lookup is an error; a gone vault clears the ID with no error; otherwise the write chosen by the value change is sent and the new versioned ID stored on success, the ID kept on failure |
| KeyVaultSecrets.UpdateSendsValueIffChanged | azurestack/resource_arm_key_vault_secret.go:239-261 | a new version carrying the value is written if and only if the value changed; otherwise only the metadata is updated |
| KeyVaultSecrets.Read | azurestack/resource_arm_key_vault_secret.go:279-348 | the secret is dropped from state when its vault is gone, matches no vault or the secret is missing; other failures are errors; the name and version stored are those of the ID the latest version is read back with |
| KeyVaultSecrets.ReadStoresServiceVersion | azurestack/resource_arm_key_vault_secret.go:326-332 | a secret read back under "{vault}/secrets/{name}/{version}" is stored with that name and that version |
| KeyVaultSecrets.Delete | azurestack/resource_arm_key_vault_secret.go:350-396 | an unparsable ID or failed vault lookup is an error; a gone vault clears the ID with no error; otherwise the secret is deleted and always purged, success being the purge sequence succeeding |
| KeyVaultSecrets.DeleteChecksWithTheRightCalls | azurestack/resource_arm_key_vault_secret.go:405-423 | after a successful delete call, the deletion is polled with GetSecret before the purge, and the purge with GetDeletedSecret after it |
| PublicIps.ValidateDomainNameLabel | azurestack/resource_arm_public_ip.go:276-300 | no warnings; no errors exactly for a label of lower-case letters, digits and hyphens, 1 to 61 bytes long, not ending in a hyphen; each rule's error is present exactly when that rule fails, the length rule counting UTF-8 bytes as `len` does, all naming the attribute and value, in rule order; the empty label gets both the character and the empty-string error |
| PublicIps.AccentedLabelTooLong | azurestack/resource_arm_public_ip.go:284 | 31 copies of `é` fit in 61 characters but are 62 bytes, so the length rule rejects them |
| Strings.Utf8Length | azurestack/resource_arm_public_ip.go:284 | the byte length is at least the character count and at most four times it, and equals it for ASCII text |
| PublicIps.CheckSku | azurestack/resource_arm_public_ip.go:132-143 | compared without regard to case, a Basic address with zones and a Standard address not statically allocated are refused, and nothing else is |
| PublicIps.CheckSkuIgnoresCase | azurestack/resource_arm_public_ip.go:132-143 | the SKU rules give the same verdict for any casing of the SKU and allocation method |
| PublicIps.SkuRulesExclusive | azurestack/resource_arm_public_ip.go:132-143 | no SKU is both Basic and Standard, so at most one rule applies |
| PublicIps.ZonalNeedsStandardStatic | azurestack/resource_arm_public_ip.go:132-143 | an address with zones passes only as a statically allocated Standard address |
| PublicIps.BuildDnsSettings | azurestack/resource_arm_public_ip.go:160-178 | DNS settings are sent exactly when a domain label or reverse FQDN is set, each carrying the configured value exactly when it is set |
| PublicIps.ToInt32 | azurestack/resource_arm_public_ip.go:151 | the idle timeout sent is the configured one reduced to a signed 32-bit value |
| PublicIps.IdleTimeoutFits | azurestack/resource_arm_public_ip.go:151 | the schema's idle timeouts of 4 to 30 minutes pass the 32-bit conversion unchanged |
| PublicIps.BuildPublicIp | azurestack/resource_arm_public_ip.go:144-178 | the address sent carries the name, location, allocation method, idle timeout, tags, SKU and zones as configured, with DNS settings exactly for the fields set |
| PublicIps.CreateUpdate | azurestack/resource_arm_public_ip.go:116-199 | a SKU rule violation is refused before any call; otherwise the address describing the configuration is written; success is exactly the write, its completion and a read-back with an ID, which is stored; on failure the ID is kept |
| PublicIps.ImportCheck | azurestack/resource_arm_public_ip.go:25-36 | an ID is importable exactly when it parses and names a public IP address |
| PublicIps.StateOf | azurestack/resource_arm_public_ip.go:221-248 | the state is read from a returned address exactly when it has properties (otherwise a nil dereference), keeping the group, name, location and SKU, with an FQDN exactly when DNS settings are returned |
| PublicIps.StoredAllocationIsLowerCase | azurestack/resource_arm_public_ip.go:229-237 | the stored allocation method is the returned one lower-cased |
| PublicIps.Read | azurestack/resource_arm_public_ip.go:201-250 | an unparsable ID is an error; a missing address clears the ID with no error; other failures are returned; a returned address is stored exactly when its state can be read |
| PublicIps.Delete | azurestack/resource_arm_public_ip.go:252-274 | an unparsable ID is an error; the address named by the ID is deleted; a failed delete is returned at once; otherwise success is exactly its completion |
| VnetPeerings.ClassifyAttempt | azurestack/resource_arm_virtual_network_peering.go:204-228 | a failed create is retried exactly when the shared retryable test accepts it or it is a 400 whose text holds "ReferencedResourceNotProvisioned", and otherwise ends the loop, with the create's error either way; after a created peering the attempt is done exactly when its completion succeeds, a failed completion ending the loop |
| VnetPeerings.NotProvisionedIsRetried | azurestack/resource_arm_virtual_network_peering.go:213-215 | a 400 naming the not-provisioned marker anywhere in its text is retried |
| VnetPeerings.OtherStatusNotRetried | azurestack/resource_arm_virtual_network_peering.go:211-218 | any other status that the shared test refuses is not retried, whatever its text |
| VnetPeerings.PropertiesOf | azurestack/resource_arm_virtual_network_peering.go:186-202 | every property is sent and carries the configured value, the remote network by its ID |
| VnetPeerings.StateOf | azurestack/resource_arm_virtual_network_peering.go:141-154 | the group and network come from the ID and the name from the reply; without properties no flag is stored; the remote network ID is stored exactly when the reply names one |
| VnetPeerings.ReadBackMatchesConfig | azurestack/resource_arm_virtual_network_peering.go:141-154 | reading back the properties that were sent stores the configuration unchanged |
| VnetPeerings.Read | azurestack/resource_arm_virtual_network_peering.go:120-157 | an unparsable ID is an error; a missing peering clears the ID with no error; other failures are returned; a returned peering's state is stored with the ID kept |
| ResourcesDataSource.Clauses | azurestack/data_source_resources.go:75-96 | one clause per non-empty attribute, in the order group, name, type |
| ResourcesDataSource.EqAt | azurestack/data_source_resources.go:83 | text with "eq" at some index contains "eq" |
| ResourcesDataSource.EndsWithClauseHasEq | azurestack/data_source_resources.go:83-95 | once any clause has been added the filter contains "eq" |
| ResourcesDataSource.EmptyHasNoEq | azurestack/data_source_resources.go:83-95 | the empty filter does not contain "eq", so the first clause gets no separator |
| ResourcesDataSource.AddClauseJoins | azurestack/data_source_resources.go:83-95 | adding a clause to the joined earlier clauses joins them all with " and " |
| ResourcesDataSource.AddFilterClause | azurestack/data_source_resources.go:82-96 | a later clause is added with " and " exactly when an earlier one is present, so the filter stays the join of the clauses so far and contains "eq" exactly when it is non-empty |
| ResourcesDataSource.BuildFilter | azurestack/data_source_resources.go:75-96 | the filter is the clauses for the set attributes joined by " and ", and empty exactly when none is set |
| ResourcesDataSource.HitsAtMostOnce | azurestack/data_source_resources.go:114-118 | with distinct tag names a required tag matches at most once, and once exactly when the resource has it with that value |
| ResourcesDataSource.MatchesAllRequired | azurestack/data_source_resources.go:111-121 | the match count never exceeds the required tags, and reaches them exactly when every required tag is present with an equal value |
| ResourcesDataSource.CountTagMatches | azurestack/data_source_resources.go:111-119 | a resource without tags counts no match; otherwise the nested loops count every equal name-and-value pair |
| ResourcesDataSource.KeptIffAllMatch | azurestack/data_source_resources.go:121 | the test that the match count equals the number of required tags holds exactly when every required tag is present with its value |
| ResourcesDataSource.Reported | azurestack/data_source_resources.go:122-157 | a kept resource is reported with its name, ID, type and location, an absent one as "", and no tags when it has none |
| ResourcesDataSource.Walk | azurestack/data_source_resources.go:104-168 | the intended loop: the listing completes exactly when no move past a resource fails and no skipped resource lacks a name; then the resources with an ID whose tags match are reported in listing order |
| ResourcesDataSource.HangsOnNilId | azurestack/data_source_resources.go:104-108 | as written, once the loop reaches a resource without an ID, no number of iterations stops it or moves it past that resource |
| ResourcesDataSource.NilIdListingHangs | azurestack/data_source_resources.go:104-108 | a listing of one resource without an ID completes in the intended loop but the loop as written stays on it forever |
| ResourcesDataSource.Read | azurestack/data_source_resources.go:61-175 | with no group, name or type it is refused; otherwise success is exactly a listing that completes, storing the kept resources and the given time as the ID; on failure the ID is kept |
| ResourcesDataSource.NoRequiredTagsKeepsAll | azurestack/data_source_resources.go:111-121 | with no required tags every listed resource with an ID is reported |
| ResourcesDataSource.ReportedWereListed | azurestack/data_source_resources.go:104-157 | every reported resource was listed with that ID and its tags matched |
| Images.BelowIrreflexive | internal/services/compute/image_data_source.go:181-184 | no name sorts before itself under Go's string order |
| Images.BelowTransitive | internal/services/compute/image_data_source.go:181-184 | Go's string order is transitive |
| Images.BelowTotal | internal/services/compute/image_data_source.go:181-184 | two different names are ordered one way or the other |
| Images.Pick | internal/services/compute/image_data_source.go:177-186 | the image taken after sorting is one of the matches |
| Images.PickSortsFirst | internal/services/compute/image_data_source.go:181-186 | no match sorts before the image taken |
| Images.AscendingPicksLeast | internal/services/compute/image_data_source.go:181-186 | with ascending order the name taken is the least of the matches' names |
| Images.DescendingPicksGreatest | internal/services/compute/image_data_source.go:181-186 | with descending order the name taken is the greatest of the matches' names |
| Images.SingleMatchChosen | internal/services/compute/image_data_source.go:177-186 | a single match is taken whichever way the sort would run |
| Images.Matching | internal/services/compute/image_data_source.go:161-170 | only images whose names the expression matches are collected, never more than were listed |
| Images.CollectMatches | internal/services/compute/image_data_source.go:161-170 | the loop completes exactly when every image has a name and every move succeeds, and then collects the matching images in listing order |
| Images.Read | internal/services/compute/image_data_source.go:125-189 | without a name or an expression it is refused before any call; a name alone is read directly, an expression lists the group; a failed read or no match is an error; success is exactly a lookup that settles on an image with an ID, which is stored; on failure the ID is kept |

## Left out

- Vendored SDK clients, the end-to-end test suites that drive real cloud resources, and the data sources and resources that only copy fields are outside the modelled core.
- Client construction, authentication and client registration in `azurestack/config.go` are not modelled; they are I/O and library set-up.
- `BaseUriForKeyVault` (`azurestack/config.go:525-548`) is not modelled. The key and secret create handlers take its result as a parameter.
- Concurrency is not modelled. This covers the name locks (`azureStackLockByName`, `azureStackLockMultipleByName`) and the mutexes around the client caches. The key vault handlers return the virtual network names they would lock; the locking itself is left out.
- The timing of the polling and retry engines is not modelled. Minimum timeouts, poll intervals and deadlines become the length of the observed sequence of refresh results. `WaitForCompletionRef` becomes one reply.
- VnetPeerings.ClassifyAttempt: only one attempt is modelled. The 300-second `resource.Retry` loop around it is library code.
- The create/update and delete handlers of the virtual network peering are not modelled. Only the classification of an attempt, the properties sent and the read handler are.
- The update and read handlers of the key vault key resource and `flattenKeyVaultKeyOptions` are not modelled; they copy fields. The read handler would also decode the RSA modulus as base64url (section 5 of RFC 4648).
- KeyVaultKeys.BuildKeyParameters: the key size is sent as configured. The source's `int32` conversion, which wraps sizes outside the 32-bit range, is not modelled.
- The create and update handlers stop where the ID is stored. The call to the read handler that ends them in the source is modelled by that resource's `Read` method on its own.
- Writing attributes into state (`d.Set`) is modelled by the returned state records. The errors `d.Set` can return are not modelled.
- Tags are passed through unchanged as maps; `expandTags` and `flattenAndSetTags` are not modelled.
- KeyVaults.BuildCreateParameters: access policies are opaque values sent as configured. `expandAccessPolicies` is not part of this model.
- KeyVaults.CreatedVaultReadsBack: the access policies read back as configured only on the assumption that `flattenAccessPolicies` inverts `expandAccessPolicies`. Neither is part of this model.
- KeyVaults.TenantUuid: only the hyphenated 36-character form is read as a UUID. That is the one form the schema's `validation.IsUUID` accepts (`azurestack/resource_arm_key_vault.go:86`). `uuid.FromStringOrNil` also reads braced, `urn:uuid:` and unhyphenated forms, which cannot reach the handlers.
- Location normalisation (`azureStackNormalizeLocation`, `location.NormalizeNilable`) is not modelled. Locations are stored as the API returns them.
- The regular expression engine is not modelled.
  - Images.Read: the `name_regex` match is a predicate parameter. A pattern that `regexp.MustCompile` would refuse cannot reach the handler, since the schema's `validation.StringIsValidRegExp` (`internal/services/compute/image_data_source.go:34`) refuses it first.
  - Fixed patterns such as `^[a-z0-9-]+$` and `^[a-zA-Z0-9-]{3,24}$` are written out as character predicates.
- `url.ParseRequestURI` and `url.Parse` are modelled only as far as the scheme, query and authority rules go. Percent-decoding, user information and host validation are left out.
- UUID generation is a parameter of the role definition handler (`RoleDefinitions.RoleName`).
- RFC 3339 dates of keys and secrets are kept in their configured text; `time.Parse` and its formatting are not modelled.
- `schema.Set` ordering and `schema.HashString` are not modelled. Set-typed attributes are ordered lists in the order given.
- The generic `azure.ParseAzureResourceID` is not part of this model's sources. `ResourceIds.Parse` is a pair parser of the documented shape. Its path is an ordered list of pairs, not a Go map, so iteration follows insertion order rather than Go's random map order.
- `strings.ToLower` and `strings.EqualFold` are modelled on ASCII letters only.
- AzureParse.Quote: `%q` escapes are modelled for ASCII. Non-ASCII characters are copied unchanged; Go also escapes those that `unicode.IsPrint` rejects, as `\u` or `\U` sequences. The Unicode tables are not modelled.
- KeyVaultIds.IPv4HashKey: only the dotted-quad form without leading zeros counts as an IPv4 address. `net.ParseIP(v).To4()` also accepts IPv6 spellings of IPv4 addresses, such as `::ffff:10.0.0.1`; those are hashed as written here, not with "/32".
- Images.Pick: `sort.Slice` followed by `list[0]` is modelled as choosing an image that no other match sorts before; among equal names the earliest is taken. The in-place reordering of the list is not modelled. The unstable sort's choice among equal names is not modelled.
- Image OS-disk and data-disk flattening and the zone-resilience flag are not modelled; they copy fields.
- ResourcesDataSource.Walk: models the intended loop, which moves past a resource without an ID. The loop as written is `ResourcesDataSource.IterateAsWritten`; see "Findings".
- ResourcesDataSource.Walk: tag values in the listing are assumed present. The source dereferences each tag value (`azurestack/data_source_resources.go:115` and `:147`), which would panic on a nil value.
- ResourcesDataSource.Read: the ID stored is the current time, which is a parameter.
- NicBackendPoolAssociation.Delete: writes the interface back under the name it was read with. The source writes under the IP configuration's name; that is `NicBackendPoolAssociation.DeleteAsWritten`, see "Findings".
- `FindNetworkInterfaceIPConfiguration` and `updateNetworkInterfaceIPConfiguration` are not part of this model. They are modelled as finding the first IP configuration with the name and replacing the configuration at that index.
- `parseNetworkSecurityGroupName` and `parseRouteTableName` are not part of this model. Their results are parameters of `Subnets.CreateProperties` and `Subnets.Create`.
- Subnets.FlattenSubnetIPConfigurations: IP configuration IDs are assumed present. The source would dereference a nil ID (a panic).
- The key vault's reachability probe (`keyVaultRefreshFunc`) is an HTTP request. Its outcome is a parameter of `KeyVaults.Provision`.
- Log output is not modelled.

## Findings

| source | as written | input that shows it | evidently intended | confidence | as-written member | corrected member |
|---|---|---|---|---|---|---|
| azurestack/data_source_resources.go:104-108 | a resource without an ID is met by `continue`, which also skips `NextWithContext` at line 163, so the loop reads the same resource again forever | a listing whose first resource has no ID | skip that resource and move on to the next one | high; not executed | ResourcesDataSource.HangsOnNilId | ResourcesDataSource.Walk |
| azurestack/resource_arm_network_interface_backend_address_pool_association.go:297 | the delete handler writes the network interface back under the IP configuration's name, while it read it under the interface's own name (line 252) | an association whose IP configuration is `ipconfig1` on interface `nic1`: the write addresses an interface named `ipconfig1` | write back to `networkInterfaceName`, as the create handler does at line 135 | high; not executed | NicBackendPoolAssociation.AsWrittenWritesAnotherInterface | NicBackendPoolAssociation.DeleteWritesWhatItRead |
