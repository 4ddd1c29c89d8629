/**
 * Virtual network peerings (`azurestack/resource_arm_virtual_network_peering.go`):
 * the classification of one create attempt for the retry loop, the peering
 * properties built from the configuration, and the read handler.
 */
module VnetPeerings {
  import opened Common
  import opened Strings
  import opened Terraform
  import ResourceIds

  // ---------------------------------------------------------------------
  // Create attempts
  // ---------------------------------------------------------------------

  /**
   * A failed create call: its HTTP status, its error text, and whether the
   * shared retryable-response test (not part of this model) accepts it.
   */
  datatype CreateFailure = CreateFailure(status: int, message: string, retryableResponse: bool)

  /** What one attempt tells the retry loop. */
  datatype Verdict = Done | Retryable(error: Error) | NonRetryable(error: Error)

  /** The text Azure reports while a referenced network is still being provisioned. */
  const NotProvisionedMarker: string := "ReferencedResourceNotProvisioned"

  const BadRequestStatus: int := 400

  /**
   * `retryVnetPeeringsClientCreateUpdate`'s closure: a create error is
   * retried when the shared test accepts it, or when it is a 400 whose text
   * says the referenced resource is not provisioned yet; every other create
   * error, and any failure of the completion wait, ends the loop.
   */
  function ClassifyAttempt(create: Option<CreateFailure>, completion: Reply<()>): (v: Verdict)
    ensures create.Some? ==> v.Retryable? || v.NonRetryable?
    ensures create.Some? ==>
      (v.Retryable? <==>
        create.value.retryableResponse
        || (create.value.status == BadRequestStatus && Contains(create.value.message, NotProvisionedMarker)))
    ensures create.Some? ==> v.error == Remote(create.value.status, create.value.message)
    ensures create.None? ==> (v == Done <==> completion.Success?)
    ensures create.None? && completion.Failure? ==> v == NonRetryable(completion.AsError())
  {
    match create
    case Some(f) =>
      if f.retryableResponse then Retryable(Remote(f.status, f.message))
      else if f.status == BadRequestStatus && Contains(f.message, NotProvisionedMarker) then
        Retryable(Remote(f.status, f.message))
      else NonRetryable(Remote(f.status, f.message))
    case None =>
      if completion.Failure? then NonRetryable(completion.AsError()) else Done
  }

  /** The not-provisioned text makes a 400 retryable wherever it appears in the message. */
  lemma NotProvisionedIsRetried(before: string, after: string)
    ensures ClassifyAttempt(Some(CreateFailure(BadRequestStatus, before + NotProvisionedMarker + after, false)),
                            Success(())).Retryable?
  {
    var m := before + NotProvisionedMarker + after;
    assert m[|before|..|before| + |NotProvisionedMarker|] == NotProvisionedMarker;
    assert OccursAt(m, NotProvisionedMarker, |before|);
  }

  /** The same text with any other status is not retried unless the shared test accepts it. */
  lemma OtherStatusNotRetried(status: int, message: string)
    requires status != BadRequestStatus
    ensures ClassifyAttempt(Some(CreateFailure(status, message, false)), Success(())).NonRetryable?
  {
  }

  // ---------------------------------------------------------------------
  // Peering properties
  // ---------------------------------------------------------------------

  /** The peering's configuration. */
  datatype PeeringConfig = PeeringConfig(
    allowVirtualNetworkAccess: bool,
    allowForwardedTraffic: bool,
    allowGatewayTransit: bool,
    useRemoteGateways: bool,
    remoteVirtualNetworkId: string)

  /** The peering properties as the API takes and returns them; every field may be absent. */
  datatype PeeringProperties = PeeringProperties(
    allowVirtualNetworkAccess: Option<bool>,
    allowForwardedTraffic: Option<bool>,
    allowGatewayTransit: Option<bool>,
    useRemoteGateways: Option<bool>,
    remoteVirtualNetwork: Option<Option<string>>)  // the sub-resource, and its ID

  /** `getVirtualNetworkPeeringProperties`: every field is present and carries the configured value. */
  function PropertiesOf(cfg: PeeringConfig): (p: PeeringProperties)
    ensures p.allowVirtualNetworkAccess == Some(cfg.allowVirtualNetworkAccess)
    ensures p.allowForwardedTraffic == Some(cfg.allowForwardedTraffic)
    ensures p.allowGatewayTransit == Some(cfg.allowGatewayTransit)
    ensures p.useRemoteGateways == Some(cfg.useRemoteGateways)
    ensures p.remoteVirtualNetwork == Some(Some(cfg.remoteVirtualNetworkId))
  {
    PeeringProperties(Some(cfg.allowVirtualNetworkAccess), Some(cfg.allowForwardedTraffic),
                      Some(cfg.allowGatewayTransit), Some(cfg.useRemoteGateways),
                      Some(Some(cfg.remoteVirtualNetworkId)))
  }

  // ---------------------------------------------------------------------
  // Read
  // ---------------------------------------------------------------------

  /** A peering as the API returns it. */
  datatype RemotePeering = RemotePeering(name: Option<string>, properties: Option<PeeringProperties>)

  /** What the read handler stores; `None` marks an attribute it leaves as it was. */
  datatype PeeringState = PeeringState(
    resourceGroup: string,
    name: string,
    virtualNetworkName: string,
    allowVirtualNetworkAccess: Option<bool>,
    allowForwardedTraffic: Option<bool>,
    allowGatewayTransit: Option<bool>,
    useRemoteGateways: Option<bool>,
    remoteVirtualNetworkId: Option<string>)

  /** Storing an absent pointer stores the zero value. */
  function FlagOrFalse(b: Option<bool>): bool
  {
    if b.Some? then b.value else false
  }

  function TextOrEmpty(s: Option<string>): string
  {
    if s.Some? then s.value else ""
  }

  /** The state stored from a peering found under the given group and network. */
  function StateOf(resourceGroup: string, vnetName: string, peering: RemotePeering): (s: PeeringState)
    ensures s.resourceGroup == resourceGroup && s.virtualNetworkName == vnetName
    ensures s.name == TextOrEmpty(peering.name)
    ensures peering.properties.None? ==>
      s.allowVirtualNetworkAccess.None? && s.allowForwardedTraffic.None?
      && s.allowGatewayTransit.None? && s.useRemoteGateways.None? && s.remoteVirtualNetworkId.None?
    ensures s.remoteVirtualNetworkId.Some? <==> peering.properties.Some? && peering.properties.value.remoteVirtualNetwork.Some?
  {
    match peering.properties
    case None => PeeringState(resourceGroup, TextOrEmpty(peering.name), vnetName, None, None, None, None, None)
    case Some(p) =>
      PeeringState(resourceGroup, TextOrEmpty(peering.name), vnetName,
        Some(FlagOrFalse(p.allowVirtualNetworkAccess)), Some(FlagOrFalse(p.allowForwardedTraffic)),
        Some(FlagOrFalse(p.allowGatewayTransit)), Some(FlagOrFalse(p.useRemoteGateways)),
        if p.remoteVirtualNetwork.Some? then Some(TextOrEmpty(p.remoteVirtualNetwork.value)) else None)
  }

  /** Reading back the properties that were sent stores the configuration unchanged. */
  lemma ReadBackMatchesConfig(resourceGroup: string, vnetName: string, name: string, cfg: PeeringConfig)
    ensures var s := StateOf(resourceGroup, vnetName, RemotePeering(Some(name), Some(PropertiesOf(cfg))));
      s.name == name
      && s.allowVirtualNetworkAccess == Some(cfg.allowVirtualNetworkAccess)
      && s.allowForwardedTraffic == Some(cfg.allowForwardedTraffic)
      && s.allowGatewayTransit == Some(cfg.allowGatewayTransit)
      && s.useRemoteGateways == Some(cfg.useRemoteGateways)
      && s.remoteVirtualNetworkId == Some(cfg.remoteVirtualNetworkId)
  {
  }

  /** The network and peering names the read handler takes from a stored ID. */
  function Target(id: ResourceIds.ResourceId): (string, string, string)
  {
    (id.resourceGroup, ResourceIds.PathValue(id.path, "virtualNetworks"),
     ResourceIds.PathValue(id.path, "virtualNetworkPeerings"))
  }

  /** The read handler's one call. */
  datatype PeeringCall = GetPeering(resourceGroup: string, vnetName: string, name: string)

  /**
   * `resourceArmVirtualNetworkPeeringRead`: a missing peering clears the ID
   * with no error; otherwise its state is stored.
   */
  method Read(d: ResourceData, get: Reply<RemotePeering>)
    returns (err: Option<Error>, state: Option<PeeringState>, calls: seq<PeeringCall>)
    modifies d
    ensures ResourceIds.Parse(old(d.id)).Err? ==>
      err == Some(ResourceIds.Parse(old(d.id)).error) && calls == [] && d.id == old(d.id) && state.None?
    ensures ResourceIds.Parse(old(d.id)).Ok? ==>
      var (group, vnet, name) := Target(ResourceIds.Parse(old(d.id)).value);
      calls == [GetPeering(group, vnet, name)]
      && (get.WasNotFound() ==> err.None? && d.id == "" && state.None?)
      && (get.Failure? && !get.WasNotFound() ==> err == Some(get.AsError()) && d.id == old(d.id) && state.None?)
      && (get.Success? ==> err.None? && d.id == old(d.id) && state == Some(StateOf(group, vnet, get.body)))
  {
    state := None;
    calls := [];
    var id := ResourceIds.Parse(d.id);
    if id.Err? {
      return Some(id.error), state, calls;
    }
    var (group, vnet, name) := Target(id.value);
    calls := [GetPeering(group, vnet, name)];
    if get.Failure? {
      if get.WasNotFound() {
        d.id := "";
        return None, state, calls;
      }
      return Some(get.AsError()), state, calls;
    }
    state := Some(StateOf(group, vnet, get.body));
    err := None;
  }
}
