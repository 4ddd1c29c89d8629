/**
 * The records of the Key Vault management API that the provider reads and
 * writes (`keyvault.Vault`, `keyvault.VaultProperties`,
 * `keyvault.NetworkRuleSet`, ...), and the `network_acls` block of the
 * resource's configuration. Pointers of the API become `Option`s.
 */
module KeyVaultModels {
  import opened Common

  datatype IpRule = IpRule(value: Option<string>)

  datatype VirtualNetworkRule = VirtualNetworkRule(id: Option<string>)

  datatype NetworkRuleSet = NetworkRuleSet(
    bypass: string,
    defaultAction: string,
    ipRules: Option<seq<IpRule>>,
    virtualNetworkRules: Option<seq<VirtualNetworkRule>>)

  datatype Sku = Sku(family: string, name: string)

  /** The only SKU family the API knows. */
  const SkuFamilyA: string := "A"

  /** `TenantID` is a `uuid.UUID`, held here as the text its `String()` prints. */
  datatype VaultProperties = VaultProperties(
    tenantId: Option<string>,
    sku: Option<Sku>,
    accessPolicies: Option<seq<string>>,
    vaultUri: Option<string>,
    enabledForDeployment: Option<bool>,
    enabledForDiskEncryption: Option<bool>,
    enabledForTemplateDeployment: Option<bool>,
    enableRbacAuthorization: Option<bool>,
    enablePurgeProtection: Option<bool>,
    softDeleteRetentionInDays: Option<int>,
    networkAcls: Option<NetworkRuleSet>)

  datatype Vault = Vault(
    name: Option<string>,
    location: Option<string>,
    properties: Option<VaultProperties>,
    tags: map<string, string>)

  /** One `network_acls` block, as configured and as written back to state. */
  datatype AclBlock = AclBlock(bypass: string, defaultAction: string, ipRules: seq<string>, subnetIds: seq<string>)
}
