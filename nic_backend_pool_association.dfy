/**
 * The network interface/backend address pool association of
 * `azurestack/resource_arm_network_interface_backend_address_pool_association.go`:
 * a pseudo-ID joining an IP configuration and a pool with "|", and the
 * edits of the IP configuration's pool list made by read-modify-write of
 * the network interface.
 */
module NicBackendPoolAssociation {
  import opened Common
  import opened Strings
  import opened ResourceIds
  import opened TypedIds
  import opened Terraform

  /** `network.BackendAddressPool`, as referenced from an IP configuration. */
  datatype Pool = Pool(id: Option<string>, name: Option<string>)

  datatype IpConfigurationProperties = IpConfigurationProperties(privateIpAddress: Option<string>, pools: Option<seq<Pool>>)

  datatype IpConfiguration = IpConfiguration(name: Option<string>, properties: Option<IpConfigurationProperties>)

  datatype NicProperties = NicProperties(macAddress: Option<string>, ipConfigurations: Option<seq<IpConfiguration>>)

  /** `network.Interface`. */
  datatype Nic = Nic(id: Option<string>, properties: Option<NicProperties>)

  /** The association's ID: the IP configuration's ID, "|", and the pool's ID. */
  function AssociationId(networkInterfaceId: string, ipConfigurationName: string, poolId: string): string
  {
    networkInterfaceId + "/ipConfigurations/" + ipConfigurationName + "|" + poolId
  }

  /** What the read and delete handlers take from an association ID. */
  datatype AssociationTarget = AssociationTarget(
    resourceGroup: string,
    networkInterfaceName: string,
    ipConfigurationName: string,
    backendAddressPoolId: string)

  /**
   * The prologue of the read and delete handlers: the ID must split into
   * exactly two parts on "|", and the first must parse as a resource ID.
   */
  function ParseAssociationId(id: string): (r: Result<AssociationTarget>)
    ensures r.Ok? <==> |Split(id, "|")| == 2 && ResourceIds.Parse(Split(id, "|")[0]).Ok?
    ensures r.Ok? ==> r.value.backendAddressPoolId == Split(id, "|")[1]
    ensures '|' !in id ==> r.Err?
  {
    SplitSingle(id, '|');
    var parts := Split(id, "|");
    if |parts| != 2 then Err(MalformedId(id))
    else
      var nic :- ResourceIds.Parse(parts[0]);
      Ok(AssociationTarget(nic.resourceGroup, PathValue(nic.path, "networkInterfaces"),
        PathValue(nic.path, "ipConfigurations"), parts[1]))
  }

  lemma PipeFreeKeys()
    ensures '|' !in "subscriptions" && '|' !in "resourceGroups" && '|' !in "providers"
    ensures '|' !in "Microsoft.Network" && '|' !in "networkInterfaces" && '|' !in "ipConfigurations"
  {
  }

  lemma NetworkKeys()
    ensures IsSegmentText("Microsoft.Network")
    ensures IsSegmentText("networkInterfaces") && !ReservedKey("networkInterfaces")
    ensures IsSegmentText("ipConfigurations") && !ReservedKey("ipConfigurations")
    ensures "networkInterfaces" != "ipConfigurations"
  {
  }

  lemma IpConfigurationsLiteral()
    ensures "/" + "ipConfigurations" + "/" == "/ipConfigurations/"
  {
  }

  lemma Regroup(a: string, b: string, c: string, d: string, e: string)
    ensures a + b + c + d + e == a + (b + c + d) + e
  {
  }

  lemma SplitPair(a: string, b: string)
    requires '|' !in a && '|' !in b
    ensures Split(a + "|" + b, "|") == [a, b]
  {
    assert Join([a, b], "|") == a + "|" + b by {
      assert [a, b][1..] == [b];
    }
    SplitJoin([a, b], '|');
  }

  /** The IP configuration's ID is the interface's ID followed by `/ipConfigurations/<name>`. */
  lemma IpConfigurationIdText(withNic: seq<Segment>, ipConfigurationName: string)
    ensures Format(withNic + [Segment("ipConfigurations", ipConfigurationName)])
      == Format(withNic) + "/ipConfigurations/" + ipConfigurationName
  {
    FormatSnoc(withNic, "ipConfigurations", ipConfigurationName);
    IpConfigurationsLiteral();
    Regroup(Format(withNic), "/", "ipConfigurations", "/", ipConfigurationName);
  }

  /** A path built from pipe-free parts renders without a "|". */
  lemma PipeFreePath(head: seq<Segment>, k1: string, v1: string, k2: string, v2: string)
    requires forall i :: 0 <= i < |head| ==> '|' !in head[i].key && '|' !in head[i].value
    requires '|' !in k1 && '|' !in v1 && '|' !in k2 && '|' !in v2
    ensures '|' !in Format(head + [Segment(k1, v1)] + [Segment(k2, v2)])
  {
    var tail := [Segment(k1, v1), Segment(k2, v2)];
    var ps := head + tail;
    AppendTwo(head, Segment(k1, v1), Segment(k2, v2));
    forall i | 0 <= i < |ps|
      ensures '|' !in ps[i].key && '|' !in ps[i].value
    {
      if i < |head| {
        assert ps[i] == head[i];
      } else if i == |head| {
        assert ps[i] == tail[0];
      } else {
        assert ps[i] == tail[1];
      }
    }
    FormatAvoids(ps, '|');
  }

  /** The association ID is the IP configuration's ID, a "|" and the pool's ID. */
  lemma AssociationIdText(withNic: seq<Segment>, ipConfigurationName: string, poolId: string)
    ensures AssociationId(Format(withNic), ipConfigurationName, poolId)
      == Format(withNic + [Segment("ipConfigurations", ipConfigurationName)]) + "|" + poolId
  {
    IpConfigurationIdText(withNic, ipConfigurationName);
  }

  lemma AppendTwo(head: seq<Segment>, a: Segment, b: Segment)
    ensures head + [a] + [b] == head + [a, b]
  {
  }

  /** The association ID of a pipe-free interface ID splits back into that IP configuration's ID and the pool's ID. */
  lemma AssociationIdSplits(head: seq<Segment>, nic: string, ipConfigurationName: string, poolId: string)
    requires forall i :: 0 <= i < |head| ==> '|' !in head[i].key && '|' !in head[i].value
    requires '|' !in nic && '|' !in ipConfigurationName && '|' !in poolId
    ensures Split(AssociationId(Format(head + [Segment("networkInterfaces", nic)]), ipConfigurationName, poolId), "|")
      == [Format(head + [Segment("networkInterfaces", nic)] + [Segment("ipConfigurations", ipConfigurationName)]), poolId]
  {
    var withNic := head + [Segment("networkInterfaces", nic)];
    AssociationIdText(withNic, ipConfigurationName, poolId);
    PipeFreeKeys();
    PipeFreePath(head, "networkInterfaces", nic, "ipConfigurations", ipConfigurationName);
    SplitPair(Format(withNic + [Segment("ipConfigurations", ipConfigurationName)]), poolId);
  }

  lemma LookupSecond(k1: string, v1: string, k2: string, v2: string)
    requires k1 != k2
    ensures PathValue([Segment(k1, v1), Segment(k2, v2)], k1) == v1
    ensures PathValue([Segment(k1, v1), Segment(k2, v2)], k2) == v2
  {
    assert [Segment(k1, v1), Segment(k2, v2)][1..] == [Segment(k2, v2)];
    assert Lookup([Segment(k2, v2)], k2) == Some(v2);
  }

  /** An ID of two parts whose first parses is read as that resource's group, interface and IP configuration, and the pool. */
  lemma ParseAssociationIdParts(id: string, first: string, poolId: string, parsed: ResourceId)
    requires Split(id, "|") == [first, poolId]
    requires ResourceIds.Parse(first) == Ok(parsed)
    ensures ParseAssociationId(id) == Ok(AssociationTarget(parsed.resourceGroup,
      PathValue(parsed.path, "networkInterfaces"), PathValue(parsed.path, "ipConfigurations"), poolId))
  {
  }

  lemma HeadPipeFree(subscription: string, resourceGroup: string)
    requires '|' !in subscription && '|' !in resourceGroup
    ensures var head := Head(subscription, resourceGroup, "Microsoft.Network");
      forall i :: 0 <= i < |head| ==> '|' !in head[i].key && '|' !in head[i].value
  {
    PipeFreeKeys();
  }

  /**
   * The ID the create handler stores for a conventional network interface
   * ID is read back, by the read and delete handlers, as that interface,
   * IP configuration and pool.
   */
  lemma AssociationIdRoundTrip(subscription: string, resourceGroup: string, nic: string, ipConfigurationName: string, poolId: string)
    requires IsSegmentText(subscription) && IsSegmentText(resourceGroup)
    requires IsSegmentText(nic) && IsSegmentText(ipConfigurationName)
    requires '|' !in subscription && '|' !in resourceGroup && '|' !in nic && '|' !in ipConfigurationName && '|' !in poolId
    ensures var networkInterfaceId := Format(Head(subscription, resourceGroup, "Microsoft.Network") + [Segment("networkInterfaces", nic)]);
      ParseAssociationId(AssociationId(networkInterfaceId, ipConfigurationName, poolId))
        == Ok(AssociationTarget(resourceGroup, nic, ipConfigurationName, poolId))
  {
    var head := Head(subscription, resourceGroup, "Microsoft.Network");
    var rest := [Segment("networkInterfaces", nic), Segment("ipConfigurations", ipConfigurationName)];
    var id := AssociationId(Format(head + [Segment("networkInterfaces", nic)]), ipConfigurationName, poolId);
    HeadPipeFree(subscription, resourceGroup);
    AssociationIdSplits(head, nic, ipConfigurationName, poolId);
    AppendTwo(head, Segment("networkInterfaces", nic), Segment("ipConfigurations", ipConfigurationName));
    NetworkKeys();
    RoundTripTwo(subscription, resourceGroup, "Microsoft.Network", "networkInterfaces", nic, "ipConfigurations", ipConfigurationName);
    ParseAssociationIdParts(id, Format(head + rest), poolId, ResourceId(subscription, resourceGroup, "Microsoft.Network", rest));
    LookupSecond("networkInterfaces", nic, "ipConfigurations", ipConfigurationName);
  }

  /** The pools of a possibly nil list, in order. */
  function Listed(pools: Option<seq<Pool>>): seq<Pool>
  {
    if pools.None? then [] else pools.value
  }

  /** The pools that have an ID, in order. */
  function WithIds(pools: seq<Pool>): seq<Pool>
  {
    if |pools| == 0 then []
    else
      var last := pools[|pools| - 1];
      assert pools == pools[..|pools| - 1] + [last];
      WithIds(pools[..|pools| - 1]) + (if last.id.Some? then [last] else [])
  }

  /** The pools that have an ID other than `poolId`, in order. */
  function Without(pools: seq<Pool>, poolId: string): seq<Pool>
  {
    if |pools| == 0 then []
    else
      var last := pools[|pools| - 1];
      assert pools == pools[..|pools| - 1] + [last];
      Without(pools[..|pools| - 1], poolId) + (if last.id.Some? && last.id.value != poolId then [last] else [])
  }

  /** Some pool of the list has ID `poolId`. */
  predicate Attached(pools: seq<Pool>, poolId: string)
  {
    exists i :: 0 <= i < |pools| && pools[i].id == Some(poolId)
  }

  /**
   * The pool-list edit of the create handler: refused when the pool is
   * already attached; otherwise the pools that have an ID, in order,
   * followed by the new pool.
   */
  method AttachPool(existing: Option<seq<Pool>>, poolId: string, resourceId: string) returns (r: Result<seq<Pool>>)
    ensures r.Err? <==> Attached(Listed(existing), poolId)
    ensures r.Err? ==> r.error == AlreadyExists(resourceId)
    ensures r.Ok? ==> r.value == WithIds(Listed(existing)) + [Pool(Some(poolId), None)]
  {
    var pools := [];
    if existing.Some? {
      var list := existing.value;
      var i := 0;
      while i < |list|
        invariant 0 <= i <= |list|
        invariant pools == WithIds(list[..i])
        invariant !Attached(list[..i], poolId)
      {
        assert list[..i + 1][..i] == list[..i];
        if list[i].id.Some? {
          if list[i].id.value == poolId {
            assert list[..i + 1][i] == list[i];
            assert Attached(list, poolId);
            return Err(AlreadyExists(resourceId));
          }
          pools := pools + [list[i]];
        }
        i := i + 1;
      }
      assert list[..i] == list;
    }
    r := Ok(pools + [Pool(Some(poolId), None)]);
  }

  /** The pool-list edit of the delete handler: every pool with an ID other than `poolId`, in order. */
  method DetachPool(existing: Option<seq<Pool>>, poolId: string) returns (pools: seq<Pool>)
    ensures pools == Without(Listed(existing), poolId)
    ensures !Attached(pools, poolId)
  {
    pools := [];
    if existing.Some? {
      var list := existing.value;
      var i := 0;
      while i < |list|
        invariant 0 <= i <= |list|
        invariant pools == Without(list[..i], poolId)
      {
        assert list[..i + 1][..i] == list[..i];
        if list[i].id.Some? && list[i].id.value != poolId {
          pools := pools + [list[i]];
        }
        i := i + 1;
      }
      assert list[..i] == list;
    }
    WithoutDetaches(Listed(existing), poolId);
  }

  /** The membership scan of the read handler. */
  method HasPool(existing: Option<seq<Pool>>, poolId: string) returns (found: bool)
    ensures found <==> Attached(Listed(existing), poolId)
  {
    found := false;
    if existing.Some? {
      var list := existing.value;
      var i := 0;
      while i < |list|
        invariant 0 <= i <= |list|
        invariant !Attached(list[..i], poolId)
      {
        assert list[..i + 1][..i] == list[..i];
        if list[i].id.Some? && list[i].id.value == poolId {
          found := true;
          assert list[..i + 1][i] == list[i];
          return;
        }
        i := i + 1;
      }
      assert list[..i] == list;
    }
  }

  /** A pool appended to a list is attached exactly when it or one of the list's pools has the ID. */
  lemma AttachedSnoc(pools: seq<Pool>, last: Pool, poolId: string)
    ensures Attached(pools + [last], poolId) <==> Attached(pools, poolId) || last.id == Some(poolId)
  {
    var grown := pools + [last];
    if Attached(pools, poolId) {
      var j :| 0 <= j < |pools| && pools[j].id == Some(poolId);
      assert grown[j] == pools[j];
    }
    if last.id == Some(poolId) {
      assert grown[|pools|] == last;
    }
  }

  /** After removing a pool by its ID, no pool left has that ID. */
  lemma {:induction false} WithoutDetaches(pools: seq<Pool>, poolId: string)
    ensures !Attached(Without(pools, poolId), poolId)
    decreases |pools|
  {
    if |pools| > 0 {
      var init := pools[..|pools| - 1];
      var last := pools[|pools| - 1];
      WithoutDetaches(init, poolId);
      if last.id.Some? && last.id.value != poolId {
        AttachedSnoc(Without(init, poolId), last, poolId);
      }
    }
  }

  /** Dropping the pools without an ID attaches nothing new. */
  lemma {:induction false} WithIdsAttachesNothing(pools: seq<Pool>, poolId: string)
    requires !Attached(pools, poolId)
    ensures !Attached(WithIds(pools), poolId)
    decreases |pools|
  {
    if |pools| > 0 {
      var init := pools[..|pools| - 1];
      var last := pools[|pools| - 1];
      assert pools == init + [last];
      AttachedSnoc(init, last, poolId);
      WithIdsAttachesNothing(init, poolId);
      if last.id.Some? {
        AttachedSnoc(WithIds(init), last, poolId);
      }
    }
  }

  /** Removing pools by an ID none of them has keeps exactly the pools with an ID. */
  lemma {:induction false} WithoutAbsent(pools: seq<Pool>, poolId: string)
    requires !Attached(pools, poolId)
    ensures Without(pools, poolId) == WithIds(pools)
    decreases |pools|
  {
    if |pools| > 0 {
      var init := pools[..|pools| - 1];
      var last := pools[|pools| - 1];
      assert pools == init + [last];
      AttachedSnoc(init, last, poolId);
      WithoutAbsent(init, poolId);
    }
  }

  /** Keeping the pools with an ID twice keeps the same pools as once. */
  lemma {:induction false} WithIdsIdempotent(pools: seq<Pool>)
    ensures WithIds(WithIds(pools)) == WithIds(pools)
    decreases |pools|
  {
    if |pools| > 0 {
      var init := pools[..|pools| - 1];
      var last := pools[|pools| - 1];
      WithIdsIdempotent(init);
      var w := WithIds(init);
      if last.id.Some? {
        var g := w + [last];
        assert WithIds(pools) == g;
        assert g[..|g| - 1] == w;
        assert WithIds(g) == WithIds(w) + [last];
      } else {
        assert WithIds(pools) == w;
      }
    }
  }

  /** Detaching a pool right after attaching it leaves exactly the pools that had an ID before. */
  lemma DetachUndoesAttach(existing: seq<Pool>, poolId: string)
    requires !Attached(existing, poolId)
    ensures Without(WithIds(existing) + [Pool(Some(poolId), None)], poolId) == WithIds(existing)
  {
    var kept := WithIds(existing);
    var grown := kept + [Pool(Some(poolId), None)];
    assert grown[..|grown| - 1] == kept;
    WithIdsAttachesNothing(existing, poolId);
    WithoutAbsent(kept, poolId);
    WithIdsIdempotent(existing);
  }

  /** The index of the first IP configuration with the given name. */
  function FindIpConfiguration(configs: seq<IpConfiguration>, name: string): (r: Option<nat>)
    ensures r.Some? ==> r.value < |configs| && configs[r.value].name == Some(name)
    ensures r.Some? ==> forall i :: 0 <= i < r.value ==> configs[i].name != Some(name)
    ensures r.None? ==> forall i :: 0 <= i < |configs| ==> configs[i].name != Some(name)
  {
    if |configs| == 0 then None
    else if configs[0].name == Some(name) then Some(0)
    else
      var r := FindIpConfiguration(configs[1..], name);
      assert forall i :: 0 < i < |configs| ==> configs[i] == configs[1..][i - 1];
      if r.None? then None else Some(r.value + 1)
  }

  /** The network interface with one IP configuration's pool list replaced; nothing else changes. */
  function WithPools(nic: Nic, index: nat, pools: seq<Pool>): (r: Nic)
    requires nic.properties.Some? && nic.properties.value.ipConfigurations.Some?
    requires index < |nic.properties.value.ipConfigurations.value|
    requires nic.properties.value.ipConfigurations.value[index].properties.Some?
    ensures r.id == nic.id && r.properties.Some? && r.properties.value.macAddress == nic.properties.value.macAddress
    ensures var before := nic.properties.value.ipConfigurations.value;
      r.properties.value.ipConfigurations.Some? && |r.properties.value.ipConfigurations.value| == |before|
      && (forall i :: 0 <= i < |before| && i != index ==> r.properties.value.ipConfigurations.value[i] == before[i])
      && r.properties.value.ipConfigurations.value[index].name == before[index].name
      && r.properties.value.ipConfigurations.value[index].properties
         == Some(before[index].properties.value.(pools := Some(pools)))
  {
    var props := nic.properties.value;
    var configs := props.ipConfigurations.value;
    var config := configs[index];
    var updated := config.(properties := Some(config.properties.value.(pools := Some(pools))));
    nic.(properties := Some(props.(ipConfigurations := Some(configs[index := updated]))))
  }

  /** The remote calls of the association handlers, each naming the network interface it addresses. */
  datatype NicCall = GetNic(name: string) | PutNic(name: string, body: Nic) | WaitNic

  /** The IP configuration a handler edits, located in a network interface as returned. */
  datatype Located = Located(index: nat, pools: Option<seq<Pool>>)

  /**
   * The checks shared by the create and delete handlers: the interface,
   * its properties, its IP configuration list, the named configuration and
   * that configuration's properties must all be present.
   */
  function Locate(nic: Nic, ipConfigurationName: string): (r: Result<Located>)
    ensures r.Ok? ==>
      nic.properties.Some? && nic.properties.value.ipConfigurations.Some?
      && r.value.index < |nic.properties.value.ipConfigurations.value|
      && nic.properties.value.ipConfigurations.value[r.value.index].name == Some(ipConfigurationName)
      && nic.properties.value.ipConfigurations.value[r.value.index].properties.Some?
      && r.value.pools == nic.properties.value.ipConfigurations.value[r.value.index].properties.value.pools
    ensures r.Err? <==>
      nic.properties.None? || nic.properties.value.ipConfigurations.None?
      || FindIpConfiguration(nic.properties.value.ipConfigurations.value, ipConfigurationName).None?
      || nic.properties.value.ipConfigurations.value[FindIpConfiguration(nic.properties.value.ipConfigurations.value, ipConfigurationName).value].properties.None?
  {
    if nic.properties.None? then Err(Missing("network interface properties"))
    else if nic.properties.value.ipConfigurations.None? then Err(Missing("IP configurations"))
    else
      var configs := nic.properties.value.ipConfigurations.value;
      var found := FindIpConfiguration(configs, ipConfigurationName);
      if found.None? then Err(Missing("IP configuration"))
      else if configs[found.value].properties.None? then Err(Missing("IP configuration properties"))
      else Ok(Located(found.value, configs[found.value].properties.value.pools))
  }

  /**
   * The remote part of the create handler: the interface is read, the pool
   * appended to the named IP configuration, and the interface written back.
   */
  predicate Attaches(nicName: string, ipConfigurationName: string, poolId: string, resourceId: string,
                     get: Reply<Nic>, put: Reply<()>, wait: Reply<()>,
                     err: Option<Error>, calls: seq<NicCall>)
  {
    |calls| >= 1 && calls[0] == GetNic(nicName)
    && (get.WasNotFound() ==> err == Some(Missing("network interface")) && calls == [GetNic(nicName)])
    && (get.Failure? && !get.WasNotFound() ==> err == Some(get.AsError()) && calls == [GetNic(nicName)])
    && (get.Success? && Locate(get.body, ipConfigurationName).Err? ==> err.Some? && calls == [GetNic(nicName)])
    && (get.Success? && Locate(get.body, ipConfigurationName).Ok? ==>
          var at := Locate(get.body, ipConfigurationName).value;
          (Attached(Listed(at.pools), poolId) ==> err == Some(AlreadyExists(resourceId)) && calls == [GetNic(nicName)])
          && (!Attached(Listed(at.pools), poolId) ==>
                var body := WithPools(get.body, at.index, WithIds(Listed(at.pools)) + [Pool(Some(poolId), None)]);
                calls == [GetNic(nicName), PutNic(nicName, body)] + (if put.Success? then [WaitNic] else [])
                && (err.None? <==> put.Success? && wait.Success?)))
    && (err.None? ==> get.Success?)
  }

  method Attach(d: ResourceData, nicName: string, ipConfigurationName: string, poolId: string, resourceId: string,
                get: Reply<Nic>, put: Reply<()>, wait: Reply<()>)
    returns (err: Option<Error>, calls: seq<NicCall>)
    modifies d
    ensures Attaches(nicName, ipConfigurationName, poolId, resourceId, get, put, wait, err, calls)
    ensures err.None? ==> d.id == resourceId
    ensures err.Some? ==> d.id == old(d.id)
  {
    calls := [GetNic(nicName)];
    if get.Failure? {
      if get.WasNotFound() {
        return Some(Missing("network interface")), calls;
      }
      return Some(get.AsError()), calls;
    }
    var located := Locate(get.body, ipConfigurationName);
    if located.Err? {
      return Some(located.error), calls;
    }
    var pools := AttachPool(located.value.pools, poolId, resourceId);
    if pools.Err? {
      return Some(pools.error), calls;
    }
    var body := WithPools(get.body, located.value.index, pools.value);
    calls := calls + [PutNic(nicName, body)];
    if put.Failure? {
      return Some(put.AsError()), calls;
    }
    calls := calls + [WaitNic];
    if wait.Failure? {
      return Some(wait.AsError()), calls;
    }
    d.id := resourceId;
    err := None;
  }

  /**
   * The create handler: the network interface ID must parse before
   * anything is called; the stored ID is the association ID.
   */
  method Create(d: ResourceData, networkInterfaceId: string, ipConfigurationName: string, poolId: string,
                get: Reply<Nic>, put: Reply<()>, wait: Reply<()>)
    returns (err: Option<Error>, calls: seq<NicCall>)
    modifies d
    ensures ResourceIds.Parse(networkInterfaceId).Err? ==> err.Some? && calls == []
    ensures ResourceIds.Parse(networkInterfaceId).Ok? ==>
      Attaches(PathValue(ResourceIds.Parse(networkInterfaceId).value.path, "networkInterfaces"), ipConfigurationName, poolId,
               AssociationId(networkInterfaceId, ipConfigurationName, poolId), get, put, wait, err, calls)
    ensures err.None? ==> d.id == AssociationId(networkInterfaceId, ipConfigurationName, poolId)
    ensures err.Some? ==> d.id == old(d.id)
  {
    var parsed := ResourceIds.Parse(networkInterfaceId);
    if parsed.Err? {
      return Some(parsed.error), [];
    }
    var resourceId := AssociationId(networkInterfaceId, ipConfigurationName, poolId);
    var nicName := PathValue(parsed.value.path, "networkInterfaces");
    err, calls := Attach(d, nicName, ipConfigurationName, poolId, resourceId, get, put, wait);
  }

  /** What the read handler stores for an association it found. */
  datatype AssociationState = AssociationState(
    backendAddressPoolId: string,
    ipConfigurationName: string,
    networkInterfaceId: Option<string>)

  /** The interface read has the named IP configuration, and it lists the pool. */
  predicate ListsPool(nic: Nic, target: AssociationTarget)
  {
    nic.properties.Some? && nic.properties.value.ipConfigurations.Some?
    && var configs := nic.properties.value.ipConfigurations.value;
    var found := FindIpConfiguration(configs, target.ipConfigurationName);
    found.Some? && configs[found.value].properties.Some?
    && Attached(Listed(configs[found.value].properties.value.pools), target.backendAddressPoolId)
  }

  /**
   * The read handler: the association stays in state exactly when the
   * named IP configuration lists the pool, and then the pool, the
   * configuration's name and the interface's ID are stored; a missing
   * interface or configuration removes it without an error.
   */
  method Read(d: ResourceData, get: Reply<Nic>) returns (err: Option<Error>, state: Option<AssociationState>)
    modifies d
    ensures ParseAssociationId(old(d.id)).Err? ==> err.Some? && state.None? && d.id == old(d.id)
    ensures ParseAssociationId(old(d.id)).Ok? && get.WasNotFound() ==> err.None? && d.id == ""
    ensures ParseAssociationId(old(d.id)).Ok? && get.Failure? && !get.WasNotFound() ==>
      err == Some(get.AsError()) && d.id == old(d.id)
    ensures ParseAssociationId(old(d.id)).Ok? && get.Success? ==>
      var target := ParseAssociationId(old(d.id)).value;
      var nic := get.body;
      (nic.properties.None? || nic.properties.value.ipConfigurations.None? ==> err.Some? && d.id == old(d.id))
      && (nic.properties.Some? && nic.properties.value.ipConfigurations.Some? ==>
            err.None? && (ListsPool(nic, target) ==> d.id == old(d.id)) && (!ListsPool(nic, target) ==> d.id == ""))
    ensures state.Some? <==> ParseAssociationId(old(d.id)).Ok? && get.Success? && ListsPool(get.body, ParseAssociationId(old(d.id)).value)
    ensures state.Some? ==>
      var target := ParseAssociationId(old(d.id)).value;
      state.value == AssociationState(target.backendAddressPoolId, target.ipConfigurationName, get.body.id)
    ensures d.id == old(d.id) || (d.id == "" && err.None? && ParseAssociationId(old(d.id)).Ok?)
  {
    var parsed := ParseAssociationId(d.id);
    if parsed.Err? {
      return Some(parsed.error), None;
    }
    var target := parsed.value;
    err, state := ReadTarget(d, target, get);
  }

  /** The read handler once the association ID has been parsed into `target`. */
  method ReadTarget(d: ResourceData, target: AssociationTarget, get: Reply<Nic>)
    returns (err: Option<Error>, state: Option<AssociationState>)
    modifies d
    ensures get.WasNotFound() ==> err.None? && d.id == ""
    ensures get.Failure? && !get.WasNotFound() ==> err == Some(get.AsError()) && d.id == old(d.id)
    ensures get.Success? ==>
      var nic := get.body;
      (nic.properties.None? || nic.properties.value.ipConfigurations.None? ==> err.Some? && d.id == old(d.id))
      && (nic.properties.Some? && nic.properties.value.ipConfigurations.Some? ==>
            err.None? && (ListsPool(nic, target) ==> d.id == old(d.id)) && (!ListsPool(nic, target) ==> d.id == ""))
    ensures state.Some? <==> get.Success? && ListsPool(get.body, target)
    ensures state.Some? ==> state.value == AssociationState(target.backendAddressPoolId, target.ipConfigurationName, get.body.id)
    ensures d.id == old(d.id) || (d.id == "" && err.None?)
  {
    state := None;
    if get.Failure? {
      if get.WasNotFound() {
        d.id := "";
        return None, None;
      }
      return Some(get.AsError()), None;
    }
    var nic := get.body;
    if nic.properties.None? {
      return Some(Missing("network interface properties")), None;
    }
    if nic.properties.value.ipConfigurations.None? {
      return Some(Missing("IP configurations")), None;
    }
    var configs := nic.properties.value.ipConfigurations.value;
    var found := FindIpConfiguration(configs, target.ipConfigurationName);
    if found.None? {
      d.id := "";
      return None, None;
    }
    var attached := false;
    var props := configs[found.value].properties;
    if props.Some? {
      attached := HasPool(props.value.pools, target.backendAddressPoolId);
    }
    if !attached {
      d.id := "";
      return None, None;
    }
    state := Some(AssociationState(target.backendAddressPoolId, target.ipConfigurationName, nic.id));
    err := None;
  }

  /**
   * The remote part of the delete handler: the interface must exist, and
   * the named IP configuration is written back without the pool, to the
   * network interface named `writeName`.
   */
  predicate Detaches(target: AssociationTarget, writeName: string, get: Reply<Nic>, put: Reply<()>, wait: Reply<()>,
                     err: Option<Error>, calls: seq<NicCall>)
  {
    var read := GetNic(target.networkInterfaceName);
    |calls| >= 1 && calls[0] == read
    && (get.WasNotFound() ==> err == Some(Missing("network interface")) && calls == [read])
    && (get.Failure? && !get.WasNotFound() ==> err == Some(get.AsError()) && calls == [read])
    && (get.Success? && Locate(get.body, target.ipConfigurationName).Err? ==> err.Some? && calls == [read])
    && (get.Success? && Locate(get.body, target.ipConfigurationName).Ok? ==>
          var at := Locate(get.body, target.ipConfigurationName).value;
          var body := WithPools(get.body, at.index, Without(Listed(at.pools), target.backendAddressPoolId));
          calls == [read, PutNic(writeName, body)] + (if put.Success? then [WaitNic] else [])
          && (err.None? <==> put.Success? && wait.Success?))
    && (err.None? ==> get.Success?)
  }

  method Detach(target: AssociationTarget, writeName: string, get: Reply<Nic>, put: Reply<()>, wait: Reply<()>)
    returns (err: Option<Error>, calls: seq<NicCall>)
    ensures Detaches(target, writeName, get, put, wait, err, calls)
  {
    calls := [GetNic(target.networkInterfaceName)];
    if get.Failure? {
      if get.WasNotFound() {
        return Some(Missing("network interface")), calls;
      }
      return Some(get.AsError()), calls;
    }
    var located := Locate(get.body, target.ipConfigurationName);
    if located.Err? {
      return Some(located.error), calls;
    }
    var pools := DetachPool(located.value.pools, target.backendAddressPoolId);
    var body := WithPools(get.body, located.value.index, pools);
    calls := calls + [PutNic(writeName, body)];
    if put.Failure? {
      return Some(put.AsError()), calls;
    }
    calls := calls + [WaitNic];
    if wait.Failure? {
      return Some(wait.AsError()), calls;
    }
    err := None;
  }

  /**
   * The delete handler: the association ID must split and parse before
   * anything is called, and the interface is written back under the name it
   * was read with.
   */
  method Delete(id: string, get: Reply<Nic>, put: Reply<()>, wait: Reply<()>)
    returns (err: Option<Error>, calls: seq<NicCall>)
    ensures ParseAssociationId(id).Err? ==> err.Some? && calls == []
    ensures ParseAssociationId(id).Ok? ==>
      var target := ParseAssociationId(id).value;
      Detaches(target, target.networkInterfaceName, get, put, wait, err, calls)
  {
    var parsed := ParseAssociationId(id);
    if parsed.Err? {
      return Some(parsed.error), [];
    }
    err, calls := Detach(parsed.value, parsed.value.networkInterfaceName, get, put, wait);
  }

  /**
   * The delete handler as the source writes it: the interface is read under
   * its own name but written back under the IP configuration's name.
   */
  method DeleteAsWritten(id: string, get: Reply<Nic>, put: Reply<()>, wait: Reply<()>)
    returns (err: Option<Error>, calls: seq<NicCall>)
    ensures ParseAssociationId(id).Err? ==> err.Some? && calls == []
    ensures ParseAssociationId(id).Ok? ==>
      var target := ParseAssociationId(id).value;
      Detaches(target, target.ipConfigurationName, get, put, wait, err, calls)
  {
    var parsed := ParseAssociationId(id);
    if parsed.Err? {
      return Some(parsed.error), [];
    }
    err, calls := Detach(parsed.value, parsed.value.ipConfigurationName, get, put, wait);
  }

  /**
   * As written, whenever the write-back happens and the IP configuration's
   * name differs from the interface's, the interface written is not the one
   * that was read.
   */
  lemma AsWrittenWritesAnotherInterface(target: AssociationTarget, get: Reply<Nic>, put: Reply<()>, wait: Reply<()>,
                                        err: Option<Error>, calls: seq<NicCall>)
    requires Detaches(target, target.ipConfigurationName, get, put, wait, err, calls)
    requires target.ipConfigurationName != target.networkInterfaceName
    requires get.Success? && Locate(get.body, target.ipConfigurationName).Ok?
    ensures |calls| >= 2 && calls[0].GetNic? && calls[1].PutNic? && calls[1].name != calls[0].name
  {
  }

  /** The delete handler writes only to the interface it read, whatever the configuration is called. */
  lemma DeleteWritesWhatItRead(id: string, get: Reply<Nic>, put: Reply<()>, wait: Reply<()>,
                               err: Option<Error>, calls: seq<NicCall>)
    requires ParseAssociationId(id).Ok?
    requires Detaches(ParseAssociationId(id).value, ParseAssociationId(id).value.networkInterfaceName, get, put, wait, err, calls)
    ensures calls[0].GetNic?
    ensures forall i :: 0 <= i < |calls| && calls[i].PutNic? ==> calls[i].name == calls[0].name
  {
    var target := ParseAssociationId(id).value;
    if get.Success? && Locate(get.body, target.ipConfigurationName).Ok? {
      assert calls[0] == GetNic(target.networkInterfaceName) && calls[1].name == target.networkInterfaceName;
      assert forall i :: 2 <= i < |calls| ==> calls[i] == WaitNic;
    }
  }
}
