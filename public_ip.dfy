/**
 * Public IP addresses (`azurestack/resource_arm_public_ip.go`): the domain
 * label validator, the SKU / zone / allocation consistency rules, the
 * conditional DNS settings, and the create/update, read, delete and import
 * handlers.
 */
module PublicIps {
  import opened Common
  import opened Strings
  import opened Terraform
  import ResourceIds

  // ---------------------------------------------------------------------
  // The domain label validator
  // ---------------------------------------------------------------------

  /** One complaint of the domain label validator, naming the attribute and the value. */
  datatype LabelProblem =
    | BadCharacters(attribute: string, value: string)   // not only lower-case letters, digits and hyphens
    | TooLong(attribute: string, value: string)         // longer than 61 bytes
    | EmptyLabel(attribute: string, value: string)
    | HyphenAtEnd(attribute: string, value: string)

  /** The longest label accepted, in bytes. */
  const MaxLabelLength: nat := 61

  /** The order in which the validator's rules run. */
  function Rank(p: LabelProblem): nat
  {
    match p
    case BadCharacters(_, _) => 0
    case TooLong(_, _) => 1
    case EmptyLabel(_, _) => 2
    case HyphenAtEnd(_, _) => 3
  }

  predicate IsLabelChar(c: char)
  {
    'a' <= c <= 'z' || '0' <= c <= '9' || c == '-'
  }

  /** `^[a-z0-9-]+$`. */
  predicate MatchesLabelPattern(s: string)
  {
    |s| > 0 && forall i :: 0 <= i < |s| ==> IsLabelChar(s[i])
  }

  /**
   * A label Azure accepts: 1 to 61 lower-case letters, digits and hyphens,
   * not ending with a hyphen.
   */
  predicate IsDomainNameLabel(s: string)
  {
    1 <= |s| <= MaxLabelLength
    && (forall i :: 0 <= i < |s| ==> IsLabelChar(s[i]))
    && s[|s| - 1] != '-'
  }

  /**
   * `validatePublicIpDomainNameLabel`: runs every rule and collects one
   * error per failed rule, in the order the rules run.
   */
  method ValidateDomainNameLabel(value: string, k: string) returns (warnings: seq<string>, errors: seq<LabelProblem>)
    ensures warnings == []
    ensures errors == [] <==> IsDomainNameLabel(value)
    ensures BadCharacters(k, value) in errors <==> !MatchesLabelPattern(value)
    ensures TooLong(k, value) in errors <==> Utf8Length(value) > MaxLabelLength
    ensures EmptyLabel(k, value) in errors <==> value == ""
    ensures HyphenAtEnd(k, value) in errors <==> HasSuffix(value, "-")
    ensures forall p :: p in errors ==> p.attribute == k && p.value == value
    ensures forall i, j :: 0 <= i < j < |errors| ==> Rank(errors[i]) < Rank(errors[j])
    ensures value == "" ==> errors == [BadCharacters(k, value), EmptyLabel(k, value)]
  {
    warnings := [];
    errors := [];
    if !MatchesLabelPattern(value) {
      errors := errors + [BadCharacters(k, value)];
    }
    if Utf8Length(value) > MaxLabelLength {
      errors := errors + [TooLong(k, value)];
    }
    if |value| == 0 {
      errors := errors + [EmptyLabel(k, value)];
    }
    if HasSuffix(value, "-") {
      assert value[|value| - 1..] == "-";
      errors := errors + [HyphenAtEnd(k, value)];
    }
    if |value| > 0 && !HasSuffix(value, "-") {
      assert value[|value| - 1..] == [value[|value| - 1]];
    }
  }

  /**
   * The length rule counts bytes: 31 copies of `é` are 31 characters but 62
   * bytes, so such a label gets the too-long error besides the character one.
   */
  lemma AccentedLabelTooLong(value: string)
    requires |value| == 31 && forall i :: 0 <= i < |value| ==> value[i] == 'é'
    ensures Utf8Length(value) > MaxLabelLength && |value| <= MaxLabelLength
  {
    Utf8LengthOfCopies(value, 'é');
  }

  // ---------------------------------------------------------------------
  // SKU, zones and allocation
  // ---------------------------------------------------------------------

  const BasicSku: string := "Basic"
  const StandardSku: string := "Standard"
  const StaticAllocation: string := "Static"

  /**
   * The SKU rules of the create/update handler, comparing without regard to
   * case: a Basic SKU takes no zones, a Standard SKU needs static allocation.
   */
  function CheckSku(sku: string, allocationMethod: string, zones: Option<seq<string>>): (r: Option<Error>)
    ensures EqualFold(sku, BasicSku) && zones.Some? ==> r == Some(Invalid("zones"))
    ensures EqualFold(sku, StandardSku) && !EqualFold(allocationMethod, StaticAllocation)
      ==> r == Some(Invalid("allocation_method"))
    ensures r.None? <==> (EqualFold(sku, BasicSku) ==> zones.None?)
                         && (EqualFold(sku, StandardSku) ==> EqualFold(allocationMethod, StaticAllocation))
  {
    if EqualFold(sku, BasicSku) && zones.Some? then Some(Invalid("zones"))
    else if EqualFold(sku, StandardSku) && !EqualFold(allocationMethod, StaticAllocation) then
      Some(Invalid("allocation_method"))
    else None
  }

  /** The rules do not depend on how the SKU and the allocation method are cased. */
  lemma CheckSkuIgnoresCase(sku: string, allocationMethod: string, zones: Option<seq<string>>)
    ensures CheckSku(sku, allocationMethod, zones) == CheckSku(ToLower(sku), ToLower(allocationMethod), zones)
  {
    ToLowerIdempotent(sku);
    ToLowerIdempotent(allocationMethod);
  }

  /** Only one of the two rules can apply, since the SKU names differ in more than case. */
  lemma SkuRulesExclusive(sku: string)
    ensures !(EqualFold(sku, BasicSku) && EqualFold(sku, StandardSku))
  {
    if EqualFold(sku, BasicSku) && EqualFold(sku, StandardSku) {
      EqualFoldLength(sku, BasicSku);
      EqualFoldLength(sku, StandardSku);
    }
  }

  /** A zonal address passes the rules only as a statically allocated Standard address, in any casing. */
  lemma ZonalNeedsStandardStatic(sku: string, allocationMethod: string, zones: seq<string>)
    requires EqualFold(sku, StandardSku) || EqualFold(sku, BasicSku)
    ensures CheckSku(sku, allocationMethod, Some(zones)).None?
      <==> EqualFold(sku, StandardSku) && EqualFold(allocationMethod, StaticAllocation)
  {
    SkuRulesExclusive(sku);
  }

  // ---------------------------------------------------------------------
  // DNS settings
  // ---------------------------------------------------------------------

  datatype DnsSettings = DnsSettings(domainNameLabel: Option<string>, reverseFqdn: Option<string>)

  /**
   * The DNS settings of the create/update handler.  `GetOk` reports an
   * attribute holding the empty string as unset, so "" stands for unset.
   */
  method BuildDnsSettings(domainLabel: string, reverseFqdn: string) returns (dns: Option<DnsSettings>)
    ensures dns.Some? <==> domainLabel != "" || reverseFqdn != ""
    ensures dns.Some? ==> (dns.value.domainNameLabel.Some? <==> domainLabel != "")
    ensures dns.Some? ==> (dns.value.reverseFqdn.Some? <==> reverseFqdn != "")
    ensures dns.Some? && domainLabel != "" ==> dns.value.domainNameLabel.value == domainLabel
    ensures dns.Some? && reverseFqdn != "" ==> dns.value.reverseFqdn.value == reverseFqdn
  {
    dns := None;
    if domainLabel != "" || reverseFqdn != "" {
      var settings := DnsSettings(None, None);
      if reverseFqdn != "" {
        settings := settings.(reverseFqdn := Some(reverseFqdn));
      }
      if domainLabel != "" {
        settings := settings.(domainNameLabel := Some(domainLabel));
      }
      dns := Some(settings);
    }
  }

  // ---------------------------------------------------------------------
  // Handlers
  // ---------------------------------------------------------------------

  /** Go's `int32(x)`: keeps the low 32 bits as a signed value. */
  function ToInt32(x: int): (r: int)
    ensures -0x8000_0000 <= r < 0x8000_0000
    ensures (r - x) % 0x1_0000_0000 == 0
  {
    var low := x % 0x1_0000_0000;
    if low >= 0x8000_0000 then low - 0x1_0000_0000 else low
  }

  /** The idle timeouts the schema accepts (4 to 30 minutes) pass the conversion unchanged. */
  lemma IdleTimeoutFits(minutes: int)
    requires 4 <= minutes <= 30
    ensures ToInt32(minutes) == minutes
  {
  }

  /** The configuration of a public IP address. */
  datatype PublicIpConfig = PublicIpConfig(
    name: string,
    location: string,            // already normalised
    resourceGroup: string,
    sku: string,
    allocationMethod: string,
    idleTimeout: int,
    zones: Option<seq<string>>,  // as the zone expansion returns them
    domainNameLabel: string,     // "" when unset
    reverseFqdn: string,         // "" when unset
    tags: map<string, string>)

  /** The public IP address the create/update handler sends. */
  datatype PublicIp = PublicIp(
    name: string,
    location: string,
    allocationMethod: string,
    idleTimeoutInMinutes: int,
    dnsSettings: Option<DnsSettings>,
    tags: map<string, string>,
    skuName: string,
    zones: Option<seq<string>>)

  datatype PublicIpCall =
    | PutPublicIp(resourceGroup: string, name: string, address: PublicIp)
    | AwaitPut
    | GetPublicIp(resourceGroup: string, name: string)
    | DeletePublicIp(resourceGroup: string, name: string)
    | AwaitDelete

  /** The address sent carries the configuration unchanged, with DNS settings exactly for the given fields. */
  predicate Describes(cfg: PublicIpConfig, ip: PublicIp)
  {
    ip.name == cfg.name && ip.location == cfg.location && ip.allocationMethod == cfg.allocationMethod
    && ip.idleTimeoutInMinutes == ToInt32(cfg.idleTimeout) && ip.tags == cfg.tags
    && ip.skuName == cfg.sku && ip.zones == cfg.zones
    && (ip.dnsSettings.Some? <==> cfg.domainNameLabel != "" || cfg.reverseFqdn != "")
    && (ip.dnsSettings.Some? ==>
          (ip.dnsSettings.value.domainNameLabel.Some? <==> cfg.domainNameLabel != "")
          && (ip.dnsSettings.value.reverseFqdn.Some? <==> cfg.reverseFqdn != "")
          && (cfg.domainNameLabel != "" ==> ip.dnsSettings.value.domainNameLabel.value == cfg.domainNameLabel)
          && (cfg.reverseFqdn != "" ==> ip.dnsSettings.value.reverseFqdn.value == cfg.reverseFqdn))
  }

  /** The address the create/update handler builds from its configuration. */
  method BuildPublicIp(cfg: PublicIpConfig) returns (ip: PublicIp)
    ensures Describes(cfg, ip)
  {
    var dns := BuildDnsSettings(cfg.domainNameLabel, cfg.reverseFqdn);
    ip := PublicIp(cfg.name, cfg.location, cfg.allocationMethod, ToInt32(cfg.idleTimeout),
                   dns, cfg.tags, cfg.sku, cfg.zones);
  }

  /**
   * `resourceArmPublicIpCreateUpdate` up to its final read: the SKU rules
   * are checked before any call; then the write, its completion, and the
   * read whose ID is stored.
   */
  method CreateUpdate(d: ResourceData, cfg: PublicIpConfig, put: Reply<()>, completion: Reply<()>,
                      read: Reply<Option<string>>)
    returns (err: Option<Error>, calls: seq<PublicIpCall>)
    modifies d
    ensures CheckSku(cfg.sku, cfg.allocationMethod, cfg.zones).Some? ==>
      err == CheckSku(cfg.sku, cfg.allocationMethod, cfg.zones) && calls == []
    ensures CheckSku(cfg.sku, cfg.allocationMethod, cfg.zones).None? ==>
      |calls| >= 1 && calls[0].PutPublicIp? && calls[0].resourceGroup == cfg.resourceGroup
      && calls[0].name == cfg.name && Describes(cfg, calls[0].address)
    ensures err.None? <==>
      CheckSku(cfg.sku, cfg.allocationMethod, cfg.zones).None?
      && put.Success? && completion.Success? && read.Success? && read.body.Some?
    ensures err.None? ==>
      d.id == read.body.value && calls == [calls[0], AwaitPut, GetPublicIp(cfg.resourceGroup, cfg.name)]
    ensures err.Some? ==> d.id == old(d.id)
  {
    calls := [];
    err := CheckSku(cfg.sku, cfg.allocationMethod, cfg.zones);
    if err.Some? {
      return;
    }
    var ip := BuildPublicIp(cfg);
    calls := calls + [PutPublicIp(cfg.resourceGroup, cfg.name, ip)];
    if put.Failure? {
      return Some(put.AsError()), calls;
    }
    calls := calls + [AwaitPut];
    if completion.Failure? {
      return Some(completion.AsError()), calls;
    }
    calls := calls + [GetPublicIp(cfg.resourceGroup, cfg.name)];
    if read.Failure? {
      return Some(read.AsError()), calls;
    }
    if read.body.None? {
      return Some(Missing("public IP ID")), calls;
    }
    d.id := read.body.value;
    err := None;
  }

  /** The key of the address's name in its resource ID. */
  const NameKey: string := "publicIPAddresses"

  /** The resource group and name the read and delete handlers take from a stored ID. */
  function Target(id: ResourceIds.ResourceId): (string, string)
  {
    (id.resourceGroup, ResourceIds.PathValue(id.path, NameKey))
  }

  /** The importer: the ID must parse and name an address. */
  function ImportCheck(id: string): (r: Option<Error>)
    ensures r.None? <==> ResourceIds.Parse(id).Ok? && ResourceIds.Lookup(ResourceIds.Parse(id).value.path, NameKey).Some?
  {
    match ResourceIds.Parse(id)
    case Err(e) => Some(e)
    case Ok(parsed) =>
      ResourceIds.LookupWellFormed(parsed.path, NameKey);
      if ResourceIds.PathValue(parsed.path, NameKey) == "" then Some(MalformedId(id)) else None
  }

  /** The DNS settings as the API returns them. */
  datatype RemoteDns = RemoteDns(fqdn: Option<string>)

  /** The properties as the API returns them. */
  datatype RemoteProperties = RemoteProperties(
    allocationMethod: string,
    dnsSettings: Option<RemoteDns>,
    ipAddress: Option<string>,
    idleTimeoutInMinutes: Option<int>)

  /** A public IP address as the API returns it. */
  datatype RemotePublicIp = RemotePublicIp(
    name: Option<string>,
    location: Option<string>,
    sku: Option<string>,
    zones: Option<seq<string>>,
    properties: Option<RemoteProperties>,
    tags: map<string, string>)

  /** What the read handler stores; `None` marks an attribute it leaves as it was. */
  datatype PublicIpState = PublicIpState(
    name: string,
    resourceGroup: string,
    location: Option<string>,
    allocationMethod: string,
    sku: Option<string>,
    zones: Option<seq<string>>,
    fqdn: Option<string>,
    ipAddress: string,
    idleTimeoutInMinutes: int,
    tags: map<string, string>)

  function OrEmpty(s: Option<string>): string
  {
    if s.Some? then s.value else ""
  }

  /**
   * The state read from an address.  The allocation method is read through
   * the properties before they are checked for nil, so an address without
   * properties is a nil dereference.
   */
  function StateOf(resourceGroup: string, ip: RemotePublicIp): (r: Result<PublicIpState>)
    ensures ip.properties.None? <==> r.Err?
    ensures r.Err? ==> r.error.NilDereference?
    ensures r.Ok? ==>
      r.value.allocationMethod == ToLower(ip.properties.value.allocationMethod)
      && r.value.resourceGroup == resourceGroup && r.value.name == OrEmpty(ip.name)
      && r.value.location == ip.location && r.value.sku == ip.sku
      && (r.value.fqdn.Some? <==> ip.properties.value.dnsSettings.Some?)
  {
    if ip.properties.None? then Err(NilDereference("public IP properties"))
    else
      var props := ip.properties.value;
      Ok(PublicIpState(
        OrEmpty(ip.name), resourceGroup, ip.location, ToLower(props.allocationMethod), ip.sku, ip.zones,
        if props.dnsSettings.Some? then Some(OrEmpty(props.dnsSettings.value.fqdn)) else None,
        OrEmpty(props.ipAddress),
        if props.idleTimeoutInMinutes.Some? then props.idleTimeoutInMinutes.value else 0,
        ip.tags))
  }

  /** The allocation method stored is lower-cased, so reading it again changes nothing. */
  lemma StoredAllocationIsLowerCase(resourceGroup: string, ip: RemotePublicIp)
    requires StateOf(resourceGroup, ip).Ok?
    ensures ToLower(StateOf(resourceGroup, ip).value.allocationMethod) == StateOf(resourceGroup, ip).value.allocationMethod
    ensures EqualFold(StateOf(resourceGroup, ip).value.allocationMethod, ip.properties.value.allocationMethod)
  {
    ToLowerIdempotent(ip.properties.value.allocationMethod);
  }

  /**
   * `resourceArmPublicIpRead`: a missing address clears the ID with no
   * error; otherwise its state is stored.
   */
  method Read(d: ResourceData, get: Reply<RemotePublicIp>)
    returns (err: Option<Error>, state: Option<PublicIpState>, calls: seq<PublicIpCall>)
    modifies d
    ensures ResourceIds.Parse(old(d.id)).Err? ==>
      err == Some(ResourceIds.Parse(old(d.id)).error) && calls == [] && d.id == old(d.id)
    ensures ResourceIds.Parse(old(d.id)).Ok? ==>
      var (group, name) := Target(ResourceIds.Parse(old(d.id)).value);
      calls == [GetPublicIp(group, name)]
      && (get.WasNotFound() ==> err.None? && d.id == "" && state.None?)
      && (get.Failure? && !get.WasNotFound() ==> err == Some(get.AsError()) && d.id == old(d.id))
      && (get.Success? ==>
            d.id == old(d.id)
            && (err.None? <==> StateOf(group, get.body).Ok?)
            && (err.None? ==> state == Some(StateOf(group, get.body).value)))
  {
    calls := [];
    state := None;
    var id := ResourceIds.Parse(d.id);
    if id.Err? {
      return Some(id.error), state, calls;
    }
    var (group, name) := Target(id.value);
    calls := [GetPublicIp(group, name)];
    if get.Failure? {
      if get.WasNotFound() {
        d.id := "";
        return None, state, calls;
      }
      return Some(get.AsError()), state, calls;
    }
    var read := StateOf(group, get.body);
    if read.Err? {
      return Some(read.error), state, calls;
    }
    state := Some(read.value);
    err := None;
  }

  /** `resourceArmPublicIpDelete`: the delete and its completion; any failure is returned. */
  method Delete(d: ResourceData, del: Reply<()>, completion: Reply<()>)
    returns (err: Option<Error>, calls: seq<PublicIpCall>)
    ensures ResourceIds.Parse(d.id).Err? ==> err == Some(ResourceIds.Parse(d.id).error) && calls == []
    ensures ResourceIds.Parse(d.id).Ok? ==>
      var (group, name) := Target(ResourceIds.Parse(d.id).value);
      |calls| >= 1 && calls[0] == DeletePublicIp(group, name)
      && (del.Failure? ==> err == Some(del.AsError()) && |calls| == 1)
      && (del.Success? ==> calls == [calls[0], AwaitDelete] && (err.None? <==> completion.Success?))
  {
    calls := [];
    var id := ResourceIds.Parse(d.id);
    if id.Err? {
      return Some(id.error), calls;
    }
    var (group, name) := Target(id.value);
    calls := [DeletePublicIp(group, name)];
    if del.Failure? {
      return Some(del.AsError()), calls;
    }
    calls := calls + [AwaitDelete];
    if completion.Failure? {
      return Some(completion.AsError()), calls;
    }
    err := None;
  }
}
