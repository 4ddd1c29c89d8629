/**
 * The key vault resource of `azurestack/resource_arm_key_vault.go`: the
 * parameters sent on create, the patch sent on update with its guards on
 * settings that cannot be undone, the defaults applied on read, and the
 * create, update, read and delete handlers.
 */
module KeyVaults {
  import opened Common
  import opened Strings
  import opened KeyVaultIds
  import opened KeyVaultModels
  import opened KeyVaultAcls
  import Config
  import opened Terraform
  import AzureValidate

  /** One entry of the `contact` block. */
  datatype CertificateContact = CertificateContact(name: string, email: string, phone: string)

  /** The resource's configuration, as the handlers read it. */
  datatype VaultConfig = VaultConfig(
    name: string,
    resourceGroup: string,
    location: string,
    tenantId: string,
    skuName: string,
    accessPolicies: seq<string>,
    enabledForDeployment: bool,
    enabledForDiskEncryption: bool,
    enabledForTemplateDeployment: bool,
    enableRbacAuthorization: bool,
    networkAcls: seq<AclBlock>,
    purgeProtectionEnabled: bool,
    softDeleteRetentionDays: int,
    contacts: seq<CertificateContact>,
    tags: map<string, string>)

  /** The remote calls of the key vault handlers. */
  datatype VaultCall =
    | GetVault
    | GetDeletedVault
    | CreateOrUpdateVault(parameters: CreateParameters)
    | UpdateVault(patch: VaultPatch)
    | DeleteVault
    | AwaitAvailable(uri: string)
    | SetContacts(uri: string, contacts: seq<CertificateContact>)
    | DeleteContacts(uri: string)
    | GetContacts(uri: string)

  /** The retention period the API applies when none is sent. */
  const DefaultRetentionDays: int := 90

  // ---------------------------------------------------------------------
  // Create parameters
  // ---------------------------------------------------------------------

  datatype CreateProperties = CreateProperties(
    tenantId: string,
    sku: Sku,
    accessPolicies: seq<string>,
    enabledForDeployment: bool,
    enabledForDiskEncryption: bool,
    enabledForTemplateDeployment: bool,
    enableRbacAuthorization: bool,
    networkAcls: Option<NetworkRuleSet>,
    enableSoftDelete: bool,
    enablePurgeProtection: Option<bool>,
    softDeleteRetentionInDays: Option<int>)

  /** `keyvault.VaultCreateOrUpdateParameters`. */
  datatype CreateParameters = CreateParameters(location: string, properties: CreateProperties, tags: map<string, string>)

  /** Purge protection is sent only to turn it on. */
  function SentPurgeProtection(enabled: bool): Option<bool>
  {
    if enabled then Some(true) else None
  }

  /** The retention period is sent only when it differs from the default. */
  function SentRetention(days: int): Option<int>
  {
    if days != DefaultRetentionDays then Some(days) else None
  }

  /** The text of the nil UUID. */
  const NilUuid: string := "00000000-0000-0000-0000-000000000000"

  /** A character of a UUID's text in lower-case hexadecimal. */
  lemma LowerUuidChar(c: char)
    requires AzureValidate.IsHexDigit(c) || c == '-'
    ensures LowerChar(c) == c || 'A' <= c <= 'F'
    ensures AzureValidate.IsHexDigit(c) ==> AzureValidate.IsHexDigit(LowerChar(c))
    ensures c == '-' ==> LowerChar(c) == '-'
  {
  }

  /**
   * `uuid.FromStringOrNil(s).String()`: the tenant the handlers send, and
   * the text the read handler stores for it. A hyphenated UUID is read in
   * either case and printed in lower case; text that is not a UUID gives the
   * nil UUID.
   */
  function TenantUuid(s: string): (u: string)
    ensures AzureValidate.IsUuid(u) && ToLower(u) == u
    ensures AzureValidate.IsUuid(s) ==> EqualFold(u, s)
    ensures !AzureValidate.IsUuid(s) ==> u == NilUuid
  {
    if AzureValidate.IsUuid(s) then
      var u := ToLower(s);
      forall i | 0 <= i < 36
        ensures if i == 8 || i == 13 || i == 18 || i == 23 then u[i] == '-' else AzureValidate.IsHexDigit(u[i])
      {
        LowerUuidChar(s[i]);
      }
      ToLowerIdempotent(s);
      u
    else
      assert forall i :: 0 <= i < 36 ==> NilUuid[i] == '0' || NilUuid[i] == '-';
      NilUuid
  }

  /** The tenant the read handler stores, when sent again, is sent unchanged. */
  lemma {:induction false} TenantUuidIdempotent(s: string)
    ensures TenantUuid(TenantUuid(s)) == TenantUuid(s)
  {
    var u := TenantUuid(s);
    assert EqualFold(TenantUuid(u), u);
  }

  /** An upper-case tenant is sent, and read back, in lower case. */
  lemma UpperCaseTenantReadsLower()
    ensures TenantUuid("72F988BF-86F1-41AF-91AB-2D7CD011DB47") == "72f988bf-86f1-41af-91ab-2d7cd011db47"
  {
    var s := "72F988BF-86F1-41AF-91AB-2D7CD011DB47";
    assert AzureValidate.IsUuid(s);
    assert ToLower(s) == "72f988bf-86f1-41af-91ab-2d7cd011db47";
  }

  /**
   * The parameters sent for a configuration: its settings as configured,
   * the tenant as the UUID it names, soft delete switched off, and purge protection and retention only as
   * the two functions above send them.
   */
  predicate CreatesWith(cfg: VaultConfig, parameters: CreateParameters)
  {
    var p := parameters.properties;
    parameters.location == cfg.location && parameters.tags == cfg.tags
    && p.tenantId == TenantUuid(cfg.tenantId) && p.sku == Sku(SkuFamilyA, cfg.skuName)
    && p.accessPolicies == cfg.accessPolicies
    && p.enabledForDeployment == cfg.enabledForDeployment
    && p.enabledForDiskEncryption == cfg.enabledForDiskEncryption
    && p.enabledForTemplateDeployment == cfg.enabledForTemplateDeployment
    && p.enableRbacAuthorization == cfg.enableRbacAuthorization
    && ExpandsTo(cfg.networkAcls, p.networkAcls)
    && !p.enableSoftDelete
    && p.enablePurgeProtection == SentPurgeProtection(cfg.purgeProtectionEnabled)
    && p.softDeleteRetentionInDays == SentRetention(cfg.softDeleteRetentionDays)
  }

  /** The parameters the create handler fills in, and the subnet IDs they name. */
  method BuildCreateParameters(cfg: VaultConfig) returns (parameters: CreateParameters, subnetIds: seq<string>)
    ensures CreatesWith(cfg, parameters)
    ensures subnetIds == ConfiguredSubnetIds(cfg.networkAcls)
  {
    var networkAcls;
    networkAcls, subnetIds := ExpandKeyVaultNetworkAcls(cfg.networkAcls);
    var props := CreateProperties(TenantUuid(cfg.tenantId), Sku(SkuFamilyA, cfg.skuName), cfg.accessPolicies,
      cfg.enabledForDeployment, cfg.enabledForDiskEncryption, cfg.enabledForTemplateDeployment,
      cfg.enableRbacAuthorization, networkAcls, false, None, None);
    if cfg.purgeProtectionEnabled {
      props := props.(enablePurgeProtection := Some(cfg.purgeProtectionEnabled));
    }
    if cfg.softDeleteRetentionDays != 90 {
      props := props.(softDeleteRetentionInDays := Some(cfg.softDeleteRetentionDays));
    }
    parameters := CreateParameters(cfg.location, props, cfg.tags);
  }

  // ---------------------------------------------------------------------
  // Update patch
  // ---------------------------------------------------------------------

  /** The attributes whose change the update handler looks at. */
  datatype Attribute =
    | AccessPolicy
    | EnabledForDeployment
    | EnabledForDiskEncryption
    | EnabledForTemplateDeployment
    | EnableRbacAuthorization
    | NetworkAcls
    | PurgeProtectionEnabled
    | SkuName
    | SoftDeleteRetentionDays
    | TenantId
    | Tags
    | Contact

  /** The attributes the patch carries in `Properties`; tags and contacts are sent elsewhere. */
  const PropertyAttributes: set<Attribute> :=
    {AccessPolicy, EnabledForDeployment, EnabledForDiskEncryption, EnabledForTemplateDeployment,
     EnableRbacAuthorization, NetworkAcls, PurgeProtectionEnabled, SkuName, SoftDeleteRetentionDays, TenantId}

  /** `keyvault.VaultPatchProperties`: every field optional. */
  datatype PatchProperties = PatchProperties(
    tenantId: Option<string>,
    sku: Option<Sku>,
    accessPolicies: Option<seq<string>>,
    enabledForDeployment: Option<bool>,
    enabledForDiskEncryption: Option<bool>,
    enabledForTemplateDeployment: Option<bool>,
    enableRbacAuthorization: Option<bool>,
    networkAcls: Option<NetworkRuleSet>,
    enablePurgeProtection: Option<bool>,
    softDeleteRetentionInDays: Option<int>)

  const NoPatchProperties: PatchProperties := PatchProperties(None, None, None, None, None, None, None, None, None, None)

  /** `keyvault.VaultPatchParameters`. */
  datatype VaultPatch = VaultPatch(properties: Option<PatchProperties>, tags: Option<map<string, string>>)

  /** The configured value when the attribute changed, nothing otherwise. */
  function IfChanged<T>(changed: set<Attribute>, a: Attribute, v: T): Option<T>
  {
    if a in changed then Some(v) else None
  }

  /** One of the attributes the patch builder handles before the network rules changed. */
  predicate ChangesLeading(changed: set<Attribute>)
  {
    AccessPolicy in changed || EnabledForDeployment in changed || EnabledForDiskEncryption in changed
    || EnabledForTemplateDeployment in changed || EnableRbacAuthorization in changed || NetworkAcls in changed
  }

  /** One of the attributes carried in `Properties` changed. */
  predicate ChangesProperties(changed: set<Attribute>)
  {
    ChangesLeading(changed) || PurgeProtectionEnabled in changed || SkuName in changed
    || SoftDeleteRetentionDays in changed || TenantId in changed
  }

  /** Some property changed exactly when a property attribute is among the changed ones. */
  lemma ChangesPropertiesMeansIntersects(changed: set<Attribute>)
    ensures ChangesProperties(changed) <==> changed * PropertyAttributes != {}
  {
    if changed * PropertyAttributes != {} {
      var a :| a in changed * PropertyAttributes;
      assert a in changed && a in PropertyAttributes;
    } else {
      forall a | a in PropertyAttributes
        ensures a !in changed
      {
        assert a !in changed * PropertyAttributes;
      }
    }
  }

  /**
   * The patch for a set of changed attributes: each property field carries
   * the configured value exactly when its attribute changed (the network
   * rules as expanded), and `Properties` is absent when no property changed.
   */
  predicate IsPatchFor(patch: VaultPatch, changed: set<Attribute>, cfg: VaultConfig)
  {
    (patch.properties.None? <==> !ChangesProperties(changed))
    && patch.tags == IfChanged(changed, Tags, cfg.tags)
    && (patch.properties.Some? ==>
          var p := patch.properties.value;
          p.tenantId == IfChanged(changed, TenantId, TenantUuid(cfg.tenantId))
          && p.sku == IfChanged(changed, SkuName, Sku(SkuFamilyA, cfg.skuName))
          && p.accessPolicies == IfChanged(changed, AccessPolicy, cfg.accessPolicies)
          && p.enabledForDeployment == IfChanged(changed, EnabledForDeployment, cfg.enabledForDeployment)
          && p.enabledForDiskEncryption == IfChanged(changed, EnabledForDiskEncryption, cfg.enabledForDiskEncryption)
          && p.enabledForTemplateDeployment == IfChanged(changed, EnabledForTemplateDeployment, cfg.enabledForTemplateDeployment)
          && p.enableRbacAuthorization == IfChanged(changed, EnableRbacAuthorization, cfg.enableRbacAuthorization)
          && (NetworkAcls in changed ==> ExpandsTo(cfg.networkAcls, p.networkAcls))
          && (NetworkAcls !in changed ==> p.networkAcls.None?)
          && p.enablePurgeProtection == IfChanged(changed, PurgeProtectionEnabled, cfg.purgeProtectionEnabled)
          && p.softDeleteRetentionInDays == IfChanged(changed, SoftDeleteRetentionDays, cfg.softDeleteRetentionDays))
  }

  /** The purge protection the vault reports; absent counts as off. */
  function ExistingPurgeProtection(existing: VaultProperties): bool
  {
    existing.enablePurgeProtection.Some? && existing.enablePurgeProtection.value
  }

  /** The retention period the vault reports; absent counts as 0. */
  function ExistingRetention(existing: VaultProperties): int
  {
    if existing.softDeleteRetentionInDays.Some? then existing.softDeleteRetentionInDays.value else 0
  }

  /** The update would switch purge protection off once it is on. */
  predicate DisablesPurgeProtection(changed: set<Attribute>, cfg: VaultConfig, existing: VaultProperties)
  {
    PurgeProtectionEnabled in changed && ExistingPurgeProtection(existing) && !cfg.purgeProtectionEnabled
  }

  /** The update would change a retention period that is already set. */
  predicate ChangesSetRetention(changed: set<Attribute>, existing: VaultProperties)
  {
    SoftDeleteRetentionDays in changed && ExistingRetention(existing) != 0
  }

  /** The changed network rules name a subnet ID that does not parse. */
  predicate BadNetworkRules(changed: set<Attribute>, cfg: VaultConfig)
  {
    NetworkAcls in changed && NetworkNames(ConfiguredSubnetIds(cfg.networkAcls)).Err?
  }

  /** The attributes before the network rules, each copied into its field when it changed. */
  method PatchSettings(changed: set<Attribute>, cfg: VaultConfig) returns (p: PatchProperties)
    ensures p.accessPolicies == IfChanged(changed, AccessPolicy, cfg.accessPolicies)
    ensures p.enabledForDeployment == IfChanged(changed, EnabledForDeployment, cfg.enabledForDeployment)
    ensures p.enabledForDiskEncryption == IfChanged(changed, EnabledForDiskEncryption, cfg.enabledForDiskEncryption)
    ensures p.enabledForTemplateDeployment == IfChanged(changed, EnabledForTemplateDeployment, cfg.enabledForTemplateDeployment)
    ensures p.enableRbacAuthorization == IfChanged(changed, EnableRbacAuthorization, cfg.enableRbacAuthorization)
  {
    var accessPolicies: Option<seq<string>> := None;
    var deployment: Option<bool> := None;
    var diskEncryption: Option<bool> := None;
    var templateDeployment: Option<bool> := None;
    var rbacAuthorization: Option<bool> := None;
    if AccessPolicy in changed {
      accessPolicies := Some(cfg.accessPolicies);
    }
    if EnabledForDeployment in changed {
      deployment := Some(cfg.enabledForDeployment);
    }
    if EnabledForDiskEncryption in changed {
      diskEncryption := Some(cfg.enabledForDiskEncryption);
    }
    if EnabledForTemplateDeployment in changed {
      templateDeployment := Some(cfg.enabledForTemplateDeployment);
    }
    if EnableRbacAuthorization in changed {
      rbacAuthorization := Some(cfg.enableRbacAuthorization);
    }
    p := NoPatchProperties.(accessPolicies := accessPolicies, enabledForDeployment := deployment,
      enabledForDiskEncryption := diskEncryption, enabledForTemplateDeployment := templateDeployment,
      enableRbacAuthorization := rbacAuthorization);
  }

  /** The network rules as sent, and the networks they name; a subnet ID that does not parse is an error. */
  method PatchNetworkRules(cfg: VaultConfig) returns (r: Result<Option<NetworkRuleSet>>, networks: seq<string>)
    ensures r.Err? <==> NetworkNames(ConfiguredSubnetIds(cfg.networkAcls)).Err?
    ensures r.Err? ==> r.error == NetworkNames(ConfiguredSubnetIds(cfg.networkAcls)).error
    ensures r.Ok? ==>
      ExpandsTo(cfg.networkAcls, r.value) && networks == NetworkNames(ConfiguredSubnetIds(cfg.networkAcls)).value
  {
    var networkAcls, subnetIds := ExpandKeyVaultNetworkAcls(cfg.networkAcls);
    var names := VirtualNetworkNames(subnetIds);
    if names.Err? {
      return Err(names.error), [];
    }
    networks := names.value;
    r := Ok(networkAcls);
  }

  /**
   * The attributes after the network rules: purge protection, which cannot
   * be switched off, the SKU, the retention period, which cannot be changed
   * once set, and the tenant.
   */
  method PatchGuarded(changed: set<Attribute>, cfg: VaultConfig, existing: VaultProperties)
    returns (r: Result<PatchProperties>)
    ensures DisablesPurgeProtection(changed, cfg, existing) ==> r == Err(Invalid("purge_protection_enabled"))
    ensures !DisablesPurgeProtection(changed, cfg, existing) && ChangesSetRetention(changed, existing) ==>
      r == Err(Invalid("soft_delete_retention_days"))
    ensures r.Ok? <==> !DisablesPurgeProtection(changed, cfg, existing) && !ChangesSetRetention(changed, existing)
    ensures r.Ok? ==>
      r.value.enablePurgeProtection == IfChanged(changed, PurgeProtectionEnabled, cfg.purgeProtectionEnabled)
      && r.value.sku == IfChanged(changed, SkuName, Sku(SkuFamilyA, cfg.skuName))
      && r.value.softDeleteRetentionInDays == IfChanged(changed, SoftDeleteRetentionDays, cfg.softDeleteRetentionDays)
      && r.value.tenantId == IfChanged(changed, TenantId, TenantUuid(cfg.tenantId))
  {
    var p := NoPatchProperties;
    if PurgeProtectionEnabled in changed {
      var newValue := cfg.purgeProtectionEnabled;
      var oldValue := false;
      if existing.enablePurgeProtection.Some? {
        oldValue := existing.enablePurgeProtection.value;
      }
      if oldValue && !newValue {
        return Err(Invalid("purge_protection_enabled"));
      }
      p := p.(enablePurgeProtection := Some(newValue));
    }
    if SkuName in changed {
      p := p.(sku := Some(Sku(SkuFamilyA, cfg.skuName)));
    }
    if SoftDeleteRetentionDays in changed {
      var oldValue := 0;
      if existing.softDeleteRetentionInDays.Some? {
        oldValue := existing.softDeleteRetentionInDays.value;
      }
      if oldValue != 0 {
        return Err(Invalid("soft_delete_retention_days"));
      }
      p := p.(softDeleteRetentionInDays := Some(cfg.softDeleteRetentionDays));
    }
    if TenantId in changed {
      p := p.(tenantId := Some(TenantUuid(cfg.tenantId)));
    }
    r := Ok(p);
  }

  /**
   * The update handler's patch builder. Each changed attribute is copied
   * into its field of `update.Properties`, which exists only when some
   * property changed; the attributes are taken in the handler's order, so a
   * bad network rule is reported before the two guards.
   */
  method BuildUpdatePatch(changed: set<Attribute>, cfg: VaultConfig, existing: VaultProperties)
    returns (r: Result<VaultPatch>, networks: seq<string>)
    ensures r.Err? <==>
      BadNetworkRules(changed, cfg) || DisablesPurgeProtection(changed, cfg, existing) || ChangesSetRetention(changed, existing)
    ensures BadNetworkRules(changed, cfg) ==> r == Err(NetworkNames(ConfiguredSubnetIds(cfg.networkAcls)).error)
    ensures r.Ok? ==> IsPatchFor(r.value, changed, cfg)
    ensures r.Ok? ==>
      networks == (if NetworkAcls in changed then NetworkNames(ConfiguredSubnetIds(cfg.networkAcls)).value else [])
  {
    var settings := PatchSettings(changed, cfg);
    var networkAcls: Option<NetworkRuleSet> := None;
    networks := [];
    if NetworkAcls in changed {
      var rules;
      rules, networks := PatchNetworkRules(cfg);
      if rules.Err? {
        return Err(rules.error), [];
      }
      networkAcls := rules.value;
    }
    var guarded := PatchGuarded(changed, cfg, existing);
    if guarded.Err? {
      return Err(guarded.error), networks;
    }
    var g := guarded.value;
    var properties: Option<PatchProperties> := None;
    if ChangesProperties(changed) {
      properties := Some(settings.(networkAcls := networkAcls, enablePurgeProtection := g.enablePurgeProtection,
        sku := g.sku, softDeleteRetentionInDays := g.softDeleteRetentionInDays, tenantId := g.tenantId));
    }
    var tags: Option<map<string, string>> := None;
    if Tags in changed {
      tags := Some(cfg.tags);
    }
    r := Ok(VaultPatch(properties, tags));
  }

  /** A patch for tags or contacts alone, or for nothing, carries no properties. */
  lemma TagsOnlyPatchHasNoProperties(patch: VaultPatch, changed: set<Attribute>, cfg: VaultConfig)
    requires IsPatchFor(patch, changed, cfg)
    ensures patch.properties.None? <==> changed <= {Tags, Contact}
  {
    ChangesPropertiesMeansIntersects(changed);
    if patch.properties.None? {
      forall a | a in changed
        ensures a == Tags || a == Contact
      {
        assert a !in changed * PropertyAttributes;
      }
    }
  }

  /** A patch for one property changes that property and no other. */
  lemma SinglePropertyPatch(patch: VaultPatch, cfg: VaultConfig)
    requires IsPatchFor(patch, {SkuName}, cfg)
    ensures patch.properties == Some(NoPatchProperties.(sku := Some(Sku(SkuFamilyA, cfg.skuName))))
    ensures patch.tags.None?
  {
  }

  // ---------------------------------------------------------------------
  // Read
  // ---------------------------------------------------------------------

  /** `keyvault.PossibleSkuNameValues()`. */
  const PossibleSkuNames: seq<string> := ["premium", "standard"]

  /** The last of `values` equal to `name` up to case, or "" when there is none. */
  function KnownSkuName(values: seq<string>, name: string): string
  {
    if |values| == 0 then ""
    else if EqualFold(values[|values| - 1], name) then values[|values| - 1]
    else KnownSkuName(values[..|values| - 1], name)
  }

  /** The SKU name the read handler stores: the known name in its own casing, or "". */
  function SkuNameOf(sku: Option<Sku>): string
  {
    if sku.None? then "" else KnownSkuName(PossibleSkuNames, sku.value.name)
  }

  /** The loop that rewrites the SKU name the API returns into the known casing. */
  method CanonicalSkuName(sku: Option<Sku>) returns (skuName: string)
    ensures skuName == SkuNameOf(sku)
  {
    skuName := "";
    if sku.None? {
      return;
    }
    var values := PossibleSkuNames;
    var i := 0;
    while i < |values|
      invariant 0 <= i <= |values|
      invariant skuName == KnownSkuName(values[..i], sku.value.name)
    {
      assert values[..i + 1][..i] == values[..i];
      if EqualFold(values[i], sku.value.name) {
        skuName := values[i];
      }
      i := i + 1;
    }
    assert values[..i] == values;
  }

  /**
   * The name found is one of the values and equal to the name up to case;
   * "" is found exactly when no value is.
   */
  lemma {:induction false} KnownSkuNameFound(values: seq<string>, name: string)
    requires forall k :: 0 <= k < |values| ==> values[k] != ""
    ensures KnownSkuName(values, name) != "" <==> exists k :: 0 <= k < |values| && EqualFold(values[k], name)
    ensures KnownSkuName(values, name) != "" ==>
      KnownSkuName(values, name) in values && EqualFold(KnownSkuName(values, name), name)
    decreases |values|
  {
    if |values| > 0 {
      var n := |values| - 1;
      var init := values[..n];
      KnownSkuNameFound(init, name);
      if !EqualFold(values[n], name) {
        if exists k :: 0 <= k < |values| && EqualFold(values[k], name) {
          var k :| 0 <= k < |values| && EqualFold(values[k], name);
          assert init[k] == values[k];
        }
      }
    }
  }

  lemma SkuNamesApart()
    ensures !EqualFold("premium", "standard")
  {
    if EqualFold("premium", "standard") {
      EqualFoldLength("premium", "standard");
    }
  }

  /** Any casing of a known SKU name is stored as that name. */
  lemma SkuNameRecased(name: string, known: string)
    requires known in PossibleSkuNames && EqualFold(name, known)
    ensures SkuNameOf(Some(Sku(SkuFamilyA, name))) == known
  {
    SkuNamesApart();
    var values := PossibleSkuNames;
    assert values[|values| - 1] == "standard";
    assert values[..|values| - 1] == ["premium"];
    assert ["premium"][..0] == [];
    if known == "premium" {
      assert !EqualFold("standard", name);
      assert ["premium"][0] == "premium";
      assert KnownSkuName(["premium"], name) == "premium";
    }
  }

  /** Storing a stored SKU name again leaves it unchanged. */
  lemma SkuNameStable(sku: Option<Sku>)
    ensures SkuNameOf(Some(Sku(SkuFamilyA, SkuNameOf(sku)))) == SkuNameOf(sku)
  {
    var s := SkuNameOf(sku);
    if s != "" {
      KnownSkuNameFound(PossibleSkuNames, sku.value.name);
      SkuNameRecased(s, s);
    } else {
      var values := PossibleSkuNames;
      assert values[|values| - 1] == "standard";
      assert values[..|values| - 1] == ["premium"];
      assert ["premium"][..0] == [];
      if EqualFold("standard", "") {
        EqualFoldLength("standard", "");
      }
      if EqualFold("premium", "") {
        EqualFoldLength("premium", "");
      }
    }
  }

  /** The retention period stored: the API's value, or the default when it is absent or 0. */
  function ReportedRetention(days: Option<int>): int
  {
    if days.None? || days.value == 0 then DefaultRetentionDays else days.value
  }

  /** A configured retention period reads back as configured after create. */
  lemma RetentionSurvivesCreate(days: int)
    requires days != 0
    ensures ReportedRetention(SentRetention(days)) == days
  {
  }

  /** An optional flag read as a boolean; absent reads as off. */
  function OrFalse(b: Option<bool>): bool
  {
    b.Some? && b.value
  }

  /** Purge protection reads back as configured after create. */
  lemma PurgeProtectionSurvivesCreate(enabled: bool)
    ensures OrFalse(SentPurgeProtection(enabled)) == enabled
  {
  }

  /** What the read handler stores about a vault it found. */
  datatype VaultState = VaultState(
    name: string,
    resourceGroup: string,
    location: string,
    tenantId: string,
    enabledForDeployment: bool,
    enabledForDiskEncryption: bool,
    enabledForTemplateDeployment: bool,
    enableRbacAuthorization: bool,
    purgeProtectionEnabled: bool,
    vaultUri: string,
    softDeleteRetentionDays: int,
    skuName: string,
    networkAcls: AclBlock,
    accessPolicies: seq<string>,
    contacts: seq<CertificateContact>,
    tags: map<string, string>)

  /** The vault reply carries properties with a data-plane URI. */
  predicate HasVaultUri(vault: Vault)
  {
    vault.properties.Some? && vault.properties.value.vaultUri.Some?
  }

  /** The vault reply's properties name a tenant; `TenantID.String()` dereferences it. */
  predicate HasTenant(vault: Vault)
  {
    vault.properties.Some? && vault.properties.value.tenantId.Some?
  }

  /** The contacts stored: those listed, or none when listing them was refused or found nothing. */
  function ContactsOf(contacts: Reply<seq<CertificateContact>>): seq<CertificateContact>
  {
    if contacts.Success? then contacts.body else []
  }

  /** Listing the contacts failed for a reason other than a refusal or a missing list. */
  predicate ContactsFailed(contacts: Reply<seq<CertificateContact>>)
  {
    contacts.Failure? && !contacts.WasForbidden() && !contacts.WasNotFound()
  }

  /** The state stored for a vault with properties, a URI, a tenant and a location. */
  function StateOf(id: VaultId, vault: Vault, contacts: seq<CertificateContact>): VaultState
    requires HasVaultUri(vault) && HasTenant(vault) && vault.location.Some?
  {
    var p := vault.properties.value;
    VaultState(id.name, id.resourceGroup, vault.location.value, p.tenantId.value,
      OrFalse(p.enabledForDeployment), OrFalse(p.enabledForDiskEncryption),
      OrFalse(p.enabledForTemplateDeployment), OrFalse(p.enableRbacAuthorization),
      OrFalse(p.enablePurgeProtection), p.vaultUri.value,
      ReportedRetention(p.softDeleteRetentionInDays), SkuNameOf(p.sku),
      FlattenedAcls(p.networkAcls), Listed(p.accessPolicies), contacts, vault.tags)
  }

  /**
   * The read handler. A vault that is gone is removed from state; a vault
   * read back is cached under its name before the rest is stored.
   */
  method Read(d: ResourceData, client: Config.ArmClient, get: Reply<Vault>, contacts: Reply<seq<CertificateContact>>)
    returns (err: Option<Error>, state: Option<VaultState>, calls: seq<VaultCall>)
    modifies d, client
    ensures VaultID(old(d.id)).Err? ==> err == Some(VaultID(old(d.id)).error) && calls == []
    ensures VaultID(old(d.id)).Ok? ==> |calls| >= 1 && calls[0] == GetVault
    ensures get.WasNotFound() && VaultID(old(d.id)).Ok? ==> err.None? && state.None? && d.id == ""
    ensures get.Failure? && !get.WasNotFound() && VaultID(old(d.id)).Ok? ==> err == Some(get.AsError())
    ensures get.Success? && !HasVaultUri(get.body) ==> err.Some? && state.None?
    ensures d.id == old(d.id) || (d.id == "" && get.WasNotFound() && err.None?)
    ensures VaultID(old(d.id)).Ok? && get.Success? && HasVaultUri(get.body) ==>
      var id := VaultID(old(d.id)).value;
      client.keyVaultsCache == old(client.keyVaultsCache)[Config.CacheKeyForKeyVault(id.name) :=
        Config.KeyVaultDetails(id.ID(), get.body.properties.value.vaultUri.value, id.resourceGroup)]
      && calls == (if get.body.location.None? || !HasTenant(get.body) then [GetVault]
                   else [GetVault, GetContacts(get.body.properties.value.vaultUri.value)])
      && (get.body.location.None? ==> err == Some(NilDereference("location")) && state.None?)
      && (get.body.location.Some? && !HasTenant(get.body) ==> err == Some(NilDereference("TenantID")) && state.None?)
      && (get.body.location.Some? && HasTenant(get.body) && ContactsFailed(contacts) ==>
            err == Some(contacts.AsError()) && state.None?)
      && (get.body.location.Some? && HasTenant(get.body) && !ContactsFailed(contacts) ==>
            err.None? && state == Some(StateOf(id, get.body, ContactsOf(contacts))))
    ensures !(VaultID(old(d.id)).Ok? && get.Success? && HasVaultUri(get.body)) ==>
      client.keyVaultsCache == old(client.keyVaultsCache)
    ensures client.storageKeyCache == old(client.storageKeyCache) && client.userAgent == old(client.userAgent)
  {
    state := None;
    var parsed := VaultID(d.id);
    if parsed.Err? {
      return Some(parsed.error), None, [];
    }
    var id := parsed.value;
    calls := [GetVault];
    if get.Failure? {
      if get.WasNotFound() {
        d.id := "";
        return None, None, calls;
      }
      return Some(get.AsError()), None, calls;
    }
    var vault := get.body;
    if vault.properties.None? {
      return Some(Missing("properties")), None, calls;
    }
    var props := vault.properties.value;
    if props.vaultUri.None? {
      return Some(Missing("properties.VaultUri")), None, calls;
    }
    client.AddKeyVaultToCache(id, props.vaultUri.value);
    if vault.location.None? {
      return Some(NilDereference("location")), None, calls;
    }
    if props.tenantId.None? {
      return Some(NilDereference("TenantID")), None, calls;
    }
    var retention := 90;
    if props.softDeleteRetentionInDays.Some? && props.softDeleteRetentionInDays.value != 0 {
      retention := props.softDeleteRetentionInDays.value;
    }
    var skuName := CanonicalSkuName(props.sku);
    var networkAcls := FlattenKeyVaultNetworkAcls(props.networkAcls);
    calls := calls + [GetContacts(props.vaultUri.value)];
    var stored: seq<CertificateContact> := [];
    if contacts.Failure? {
      if !contacts.WasForbidden() && !contacts.WasNotFound() {
        return Some(contacts.AsError()), None, calls;
      }
    } else {
      stored := contacts.body;
    }
    state := Some(VaultState(id.name, id.resourceGroup, vault.location.value, props.tenantId.value,
      OrFalse(props.enabledForDeployment), OrFalse(props.enabledForDiskEncryption),
      OrFalse(props.enabledForTemplateDeployment), OrFalse(props.enableRbacAuthorization),
      OrFalse(props.enablePurgeProtection), props.vaultUri.value,
      retention, skuName, networkAcls, Listed(props.accessPolicies), stored, vault.tags));
    err := None;
  }

  /** The vault the API reports after storing the create parameters as sent. */
  function EchoedVault(parameters: CreateParameters, uri: string): (v: Vault)
    ensures HasVaultUri(v) && HasTenant(v) && v.location == Some(parameters.location)
  {
    var p := parameters.properties;
    Vault(None, Some(parameters.location),
      Some(VaultProperties(Some(p.tenantId), Some(p.sku), Some(p.accessPolicies), Some(uri),
        Some(p.enabledForDeployment), Some(p.enabledForDiskEncryption), Some(p.enabledForTemplateDeployment),
        Some(p.enableRbacAuthorization), p.enablePurgeProtection, p.softDeleteRetentionInDays, p.networkAcls)),
      parameters.tags)
  }

  /**
   * Reading back a vault created from a configuration stores that
   * configuration: every setting as configured, the tenant as its UUID in
   * lower case, and the network rules with their subnet IDs in canonical
   * form. A retention period of 0 is the one value that does not survive,
   * since it reads back as the default.
   */
  lemma CreatedVaultReadsBack(cfg: VaultConfig, parameters: CreateParameters, id: VaultId, uri: string,
                              contacts: seq<CertificateContact>)
    requires CreatesWith(cfg, parameters)
    requires cfg.softDeleteRetentionDays != 0 && cfg.skuName in PossibleSkuNames
    ensures var s := StateOf(id, EchoedVault(parameters, uri), contacts);
      s.location == cfg.location && s.tenantId == TenantUuid(cfg.tenantId) && s.skuName == cfg.skuName
      && s.accessPolicies == cfg.accessPolicies && s.tags == cfg.tags && s.vaultUri == uri
      && s.enabledForDeployment == cfg.enabledForDeployment
      && s.enabledForDiskEncryption == cfg.enabledForDiskEncryption
      && s.enabledForTemplateDeployment == cfg.enabledForTemplateDeployment
      && s.enableRbacAuthorization == cfg.enableRbacAuthorization
      && s.purgeProtectionEnabled == cfg.purgeProtectionEnabled
      && s.softDeleteRetentionDays == cfg.softDeleteRetentionDays
      && s.contacts == contacts
      && (|cfg.networkAcls| == 0 ==> s.networkAcls == DefaultAcls)
      && (|cfg.networkAcls| > 0 ==>
            s.networkAcls == cfg.networkAcls[0].(subnetIds := CanonicalIds(cfg.networkAcls[0].subnetIds)))
  {
    FlattenAfterExpand(cfg.networkAcls, parameters.properties.networkAcls);
    SkuNameRecased(cfg.skuName, cfg.skuName);
    RetentionSurvivesCreate(cfg.softDeleteRetentionDays);
    PurgeProtectionSurvivesCreate(cfg.purgeProtectionEnabled);
  }

  // ---------------------------------------------------------------------
  // Create, update and delete
  // ---------------------------------------------------------------------

  /** The soft-deleted lookup failed for a reason other than a missing vault or a refusal. */
  predicate DeletedLookupFailed(getDeleted: Reply<()>)
  {
    getDeleted.Failure? && !getDeleted.WasNotFound() && !getDeleted.WasForbidden()
  }

  /** The create parameters, and the networks their rules name; a subnet ID that does not parse is an error. */
  method PrepareCreate(cfg: VaultConfig) returns (r: Result<CreateParameters>, networks: seq<string>)
    ensures r.Err? <==> NetworkNames(ConfiguredSubnetIds(cfg.networkAcls)).Err?
    ensures r.Err? ==> r.error == NetworkNames(ConfiguredSubnetIds(cfg.networkAcls)).error && networks == []
    ensures r.Ok? ==>
      CreatesWith(cfg, r.value) && networks == NetworkNames(ConfiguredSubnetIds(cfg.networkAcls)).value
  {
    var parameters, subnetIds := BuildCreateParameters(cfg);
    var names := VirtualNetworkNames(subnetIds);
    if names.Err? {
      return Err(names.error), [];
    }
    networks := names.value;
    r := Ok(parameters);
  }

  /** Every remote step after the vault is sent succeeds, up to setting the contacts. */
  predicate Provisions(contacts: seq<CertificateContact>, put: Reply<()>, read: Reply<Vault>,
                       available: Reply<()>, setContacts: Reply<()>)
  {
    put.Success? && read.Success? && HasVaultUri(read.body) && available.Success?
    && (|contacts| > 0 ==> setContacts.Success?)
  }

  /**
   * The create handler from the create call on: the vault is read back for
   * its URI, stored and cached, awaited, and its contacts are set when any
   * are configured.
   */
  method Provision(d: ResourceData, client: Config.ArmClient, id: VaultId, contacts: seq<CertificateContact>,
                   parameters: CreateParameters, put: Reply<()>, read: Reply<Vault>,
                   available: Reply<()>, setContacts: Reply<()>)
    returns (err: Option<Error>, calls: seq<VaultCall>)
    modifies d, client
    ensures |calls| >= 1 && calls[0] == CreateOrUpdateVault(parameters)
    ensures put.Failure? ==> err == Some(put.AsError()) && |calls| == 1
    ensures err.None? <==> Provisions(contacts, put, read, available, setContacts)
    ensures d.id == old(d.id) || d.id == id.ID()
    ensures err.None? ==>
      d.id == id.ID()
      && client.keyVaultsCache == old(client.keyVaultsCache)[Config.CacheKeyForKeyVault(id.name) :=
           Config.KeyVaultDetails(id.ID(), read.body.properties.value.vaultUri.value, id.resourceGroup)]
    ensures client.storageKeyCache == old(client.storageKeyCache) && client.userAgent == old(client.userAgent)
  {
    calls := [CreateOrUpdateVault(parameters)];
    if put.Failure? {
      return Some(put.AsError()), calls;
    }
    calls := calls + [VaultCall.GetVault];
    if read.Failure? {
      return Some(read.AsError()), calls;
    }
    if read.body.properties.None? || read.body.properties.value.vaultUri.None? {
      return Some(Missing("properties.VaultUri")), calls;
    }
    var uri := read.body.properties.value.vaultUri.value;
    d.id := id.ID();
    client.AddKeyVaultToCache(id, uri);
    calls := calls + [AwaitAvailable(uri)];
    if available.Failure? {
      return Some(WaitFailed("available")), calls;
    }
    if |contacts| > 0 {
      calls := calls + [SetContacts(uri, contacts)];
      if setContacts.Failure? {
        return Some(setContacts.AsError()), calls;
      }
    }
    err := None;
  }

  /**
   * The create handler up to the final read: an existing vault is refused,
   * and so is a soft-deleted lookup that fails for another reason than a
   * missing vault or a refusal; the networks the rules name must parse
   * before the vault is created.
   */
  method Create(d: ResourceData, client: Config.ArmClient, subscriptionId: string, cfg: VaultConfig,
                get: Reply<Vault>, getDeleted: Reply<()>, put: Reply<()>, read: Reply<Vault>,
                available: Reply<()>, setContacts: Reply<()>)
    returns (err: Option<Error>, calls: seq<VaultCall>, networks: seq<string>)
    modifies d, client
    ensures var id := VaultId(subscriptionId, cfg.resourceGroup, cfg.name);
      (get.Failure? && !get.WasNotFound() ==> err == Some(get.AsError()) && calls == [GetVault])
      && (get.Success? ==> err == Some(AlreadyExists(id.ID())) && calls == [GetVault])
    ensures get.WasNotFound() && DeletedLookupFailed(getDeleted) ==>
      err == Some(getDeleted.AsError()) && calls == [GetVault, GetDeletedVault]
    ensures get.WasNotFound() && !DeletedLookupFailed(getDeleted) && NetworkNames(ConfiguredSubnetIds(cfg.networkAcls)).Err? ==>
      err == Some(NetworkNames(ConfiguredSubnetIds(cfg.networkAcls)).error) && calls == [GetVault, GetDeletedVault]
    ensures |calls| > 2 ==>
      calls[2].CreateOrUpdateVault? && CreatesWith(cfg, calls[2].parameters)
      && NetworkNames(ConfiguredSubnetIds(cfg.networkAcls)) == Ok(networks)
    ensures err.None? <==>
      get.WasNotFound() && !DeletedLookupFailed(getDeleted) && NetworkNames(ConfiguredSubnetIds(cfg.networkAcls)).Ok?
      && Provisions(cfg.contacts, put, read, available, setContacts)
    ensures d.id == old(d.id) || d.id == VaultId(subscriptionId, cfg.resourceGroup, cfg.name).ID()
    ensures err.None? ==>
      var id := VaultId(subscriptionId, cfg.resourceGroup, cfg.name);
      d.id == id.ID()
      && client.keyVaultsCache == old(client.keyVaultsCache)[Config.CacheKeyForKeyVault(cfg.name) :=
           Config.KeyVaultDetails(id.ID(), read.body.properties.value.vaultUri.value, cfg.resourceGroup)]
    ensures client.storageKeyCache == old(client.storageKeyCache) && client.userAgent == old(client.userAgent)
  {
    var id := VaultId(subscriptionId, cfg.resourceGroup, cfg.name);
    networks := [];
    calls := [GetVault];
    if get.Failure? && !get.WasNotFound() {
      return Some(get.AsError()), calls, networks;
    }
    if !get.WasNotFound() {
      return Some(AlreadyExists(id.ID())), calls, networks;
    }
    calls := calls + [GetDeletedVault];
    if getDeleted.Failure? && !getDeleted.WasNotFound() && !getDeleted.WasForbidden() {
      return Some(getDeleted.AsError()), calls, networks;
    }
    var prepared;
    prepared, networks := PrepareCreate(cfg);
    if prepared.Err? {
      return Some(prepared.error), calls, networks;
    }
    var remaining;
    err, remaining := Provision(d, client, id, cfg.contacts, prepared.value, put, read, available, setContacts);
    calls := calls + remaining;
  }

  /**
   * The update handler up to the final read: the vault is read for the
   * values the guards compare with, the patch is sent, and changed contacts
   * are replaced, or deleted when none are configured.
   */
  method Update(id: string, changed: set<Attribute>, cfg: VaultConfig,
                get: Reply<Vault>, update: Reply<()>, contacts: Reply<()>)
    returns (err: Option<Error>, calls: seq<VaultCall>, networks: seq<string>)
    ensures VaultID(id).Err? ==> err == Some(VaultID(id).error) && calls == []
    ensures VaultID(id).Ok? ==> |calls| >= 1 && calls[0] == GetVault
    ensures VaultID(id).Ok? && get.Failure? ==> err == Some(get.AsError()) && calls == [GetVault]
    ensures VaultID(id).Ok? && get.Success? && get.body.properties.None? ==> err.Some? && calls == [GetVault]
    ensures VaultID(id).Ok? && get.Success? && get.body.properties.Some? ==>
      var existing := get.body.properties.value;
      var refused := BadNetworkRules(changed, cfg) || DisablesPurgeProtection(changed, cfg, existing)
                     || ChangesSetRetention(changed, existing);
      (refused ==> err.Some? && calls == [GetVault])
      && (!refused ==> |calls| >= 2 && calls[1].UpdateVault? && IsPatchFor(calls[1].patch, changed, cfg))
      && (!refused && update.Failure? ==> err == Some(update.AsError()) && calls == calls[..2])
      && (!refused && update.Success? && Contact !in changed ==> err.None? && |calls| == 2)
      && (!refused && update.Success? && Contact in changed && existing.vaultUri.None? ==> err.Some? && |calls| == 2)
      && (!refused && update.Success? && Contact in changed && existing.vaultUri.Some? ==>
            |calls| == 3
            && calls[2] == (if |cfg.contacts| == 0 then DeleteContacts(existing.vaultUri.value)
                            else SetContacts(existing.vaultUri.value, cfg.contacts))
            && (err.None? <==> contacts.Success?))
  {
    var parsed := VaultID(id);
    networks := [];
    if parsed.Err? {
      return Some(parsed.error), [], networks;
    }
    calls := [GetVault];
    if get.Failure? {
      return Some(get.AsError()), calls, networks;
    }
    if get.body.properties.None? {
      return Some(Missing("properties")), calls, networks;
    }
    var existing := get.body.properties.value;
    var patch;
    patch, networks := BuildUpdatePatch(changed, cfg, existing);
    if patch.Err? {
      return Some(patch.error), calls, networks;
    }
    calls := calls + [UpdateVault(patch.value)];
    if update.Failure? {
      return Some(update.AsError()), calls, networks;
    }
    if Contact in changed {
      if existing.vaultUri.None? {
        return Some(Missing("vault URI")), calls, networks;
      }
      var uri := existing.vaultUri.value;
      if |cfg.contacts| == 0 {
        calls := calls + [DeleteContacts(uri)];
      } else {
        calls := calls + [SetContacts(uri, cfg.contacts)];
      }
      if contacts.Failure? {
        return Some(contacts.AsError()), calls, networks;
      }
    }
    err := None;
  }

  /** The virtual network rules of a vault; absent rule sets and lists count as empty. */
  function RulesOf(props: VaultProperties): seq<VirtualNetworkRule>
  {
    if props.networkAcls.Some? then Listed(props.networkAcls.value.virtualNetworkRules) else []
  }

  /**
   * The delete handler: a vault that is already gone is not an error; the
   * networks its rules name are locked, the vault is deleted, and its cache
   * entry is dropped.
   */
  method Delete(id: string, client: Config.ArmClient, get: Reply<Vault>, del: Reply<()>)
    returns (err: Option<Error>, calls: seq<VaultCall>, networks: seq<string>)
    modifies client
    ensures VaultID(id).Err? ==> err == Some(VaultID(id).error) && calls == []
    ensures VaultID(id).Ok? && get.WasNotFound() ==> err.None? && calls == [GetVault]
    ensures VaultID(id).Ok? && get.Failure? && !get.WasNotFound() ==> err == Some(get.AsError()) && calls == [GetVault]
    ensures VaultID(id).Ok? && get.Success? && (get.body.properties.None? || get.body.location.None?) ==>
      err.Some? && calls == [GetVault]
    ensures VaultID(id).Ok? && get.Success? && get.body.properties.Some? && get.body.location.Some? ==>
      var names := NetworkNames(PresentIds(RulesOf(get.body.properties.value)));
      (names.Err? ==> err == Some(names.error) && calls == [GetVault])
      && (names.Ok? ==> calls == [GetVault, DeleteVault] && networks == names.value)
      && (names.Ok? && del.Failure? && !del.WasNotFound() ==> err == Some(del.AsError()))
      && (names.Ok? && (del.Success? || del.WasNotFound()) ==>
            err.None? && client.keyVaultsCache == old(client.keyVaultsCache) - {Config.CacheKeyForKeyVault(VaultID(id).value.name)})
    ensures err.Some? || calls != [GetVault, DeleteVault] ==> client.keyVaultsCache == old(client.keyVaultsCache)
    ensures client.storageKeyCache == old(client.storageKeyCache) && client.userAgent == old(client.userAgent)
  {
    var parsed := VaultID(id);
    networks := [];
    if parsed.Err? {
      return Some(parsed.error), [], networks;
    }
    var vaultId := parsed.value;
    calls := [GetVault];
    if get.Failure? {
      if get.WasNotFound() {
        return None, calls, networks;
      }
      return Some(get.AsError()), calls, networks;
    }
    if get.body.properties.None? {
      return Some(Missing("properties")), calls, networks;
    }
    if get.body.location.None? {
      return Some(Missing("location")), calls, networks;
    }
    var props := get.body.properties.value;
    var rules: seq<VirtualNetworkRule> := [];
    if props.networkAcls.Some? && props.networkAcls.value.virtualNetworkRules.Some? {
      rules := props.networkAcls.value.virtualNetworkRules.value;
    }
    var names := VirtualNetworkNamesOfRules(rules);
    if names.Err? {
      return Some(names.error), calls, networks;
    }
    networks := names.value;
    calls := calls + [DeleteVault];
    if del.Failure? && !del.WasNotFound() {
      return Some(del.AsError()), calls, networks;
    }
    client.PurgeKeyVaultCache(vaultId);
    err := None;
  }
}
