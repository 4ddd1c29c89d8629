/**
 * The subnet resource of `azurestack/resource_arm_subnet.go`: its typed ID
 * (`SubnetId`, `ParseSubnetID`, `subnetIDInsensitively`), the subnet record
 * the network API exchanges, and the create, read and delete handlers.
 */
module Subnets {
  import opened Common
  import opened Strings
  import opened ResourceIds
  import opened TypedIds
  import opened Terraform

  datatype SubnetId = SubnetId(
    subscriptionId: string,
    resourceGroup: string,
    virtualNetworkName: string,
    name: string)
  {
    function ID(): string
    {
      "/subscriptions/" + subscriptionId + "/resourceGroups/" + resourceGroup
        + "/providers/Microsoft.Network/virtualNetworks/" + virtualNetworkName
        + "/subnets/" + name
    }

    predicate Valid()
    {
      IsSegmentText(subscriptionId) && IsSegmentText(resourceGroup)
      && IsSegmentText(virtualNetworkName) && IsSegmentText(name)
    }
  }

  /** `ParseSubnetID`: the `virtualNetworks` and `subnets` keys must be spelt exactly so. */
  function ParseSubnetID(input: string): (r: Result<SubnetId>)
    ensures r.Ok? ==> r.value.Valid()
  {
    var id :- ParseScoped(input);
    var (vnet, name) :- PopTwo(id.path, "virtualNetworks", "subnets");
    Ok(SubnetId(id.subscriptionId, id.resourceGroup, vnet, name))
  }

  /**
   * An ID is accepted exactly when it parses, names a resource group and
   * holds nothing besides one `virtualNetworks` and one `subnets` pair.
   */
  lemma ParseSubnetIDAccepted(input: string)
    ensures var p := ResourceIds.Parse(input);
      ParseSubnetID(input).Ok? <==>
        (p.Ok? && p.value.resourceGroup != "" && |p.value.path| == 2
         && Lookup(p.value.path, "virtualNetworks").Some? && Lookup(p.value.path, "subnets").Some?)
  {
    var p := ResourceIds.Parse(input);
    if p.Ok? {
      PopTwoAccepted(p.value.path, "virtualNetworks", "subnets");
    }
  }

  function Pairs(id: SubnetId): seq<Segment>
  {
    Head(id.subscriptionId, id.resourceGroup, "Microsoft.Network")
      + [Segment("virtualNetworks", id.virtualNetworkName), Segment("subnets", id.name)]
  }

  lemma Literals()
    ensures "/providers/" + "Microsoft.Network" + ("/" + "virtualNetworks" + "/")
      == "/providers/Microsoft.Network/virtualNetworks/"
    ensures "/" + "subnets" + "/" == "/subnets/"
  {
  }

  lemma IdIsFormat(id: SubnetId)
    ensures id.ID() == Format(Pairs(id))
  {
    FormatConventional2(id.subscriptionId, id.resourceGroup, "Microsoft.Network",
      "virtualNetworks", id.virtualNetworkName, "subnets", id.name);
    Literals();
  }

  /** `ParseSubnetID(id.ID())` gives back the four fields. */
  lemma ParseSubnetIDRoundTrip(id: SubnetId)
    requires id.Valid()
    ensures ParseSubnetID(id.ID()) == Ok(id)
  {
    IdIsFormat(id);
    NetworkKeys();
    RoundTripTwo(id.subscriptionId, id.resourceGroup, "Microsoft.Network",
      "virtualNetworks", id.virtualNetworkName, "subnets", id.name);
  }

  lemma NetworkKeys()
    ensures IsSegmentText("Microsoft.Network")
    ensures IsSegmentText("virtualNetworks") && !ReservedKey("virtualNetworks")
    ensures IsSegmentText("subnets") && !ReservedKey("subnets")
    ensures "virtualNetworks" != "subnets"
  {
  }

  /**
   * The key the case-insensitive parser looks up for `k`: the first key of
   * the path that equals `k` up to case, or `k` itself when there is none.
   */
  function FoldedKey(path: seq<Segment>, k: string): (key: string)
    ensures EqualFold(key, k)
    ensures key == k || exists i :: 0 <= i < |path| && path[i].key == key
  {
    if |path| == 0 then k
    else if EqualFold(path[0].key, k) then path[0].key
    else
      var key := FoldedKey(path[1..], k);
      assert key != k ==> exists i :: 0 <= i < |path[1..]| && path[1..][i].key == key;
      assert forall i :: 0 <= i < |path[1..]| ==> path[1..][i] == path[i + 1];
      key
  }

  /** The folded key is the first match of the path, when there is one. */
  lemma {:induction false} FoldedKeyFirst(path: seq<Segment>, k: string, j: nat)
    requires j < |path| && EqualFold(path[j].key, k)
    requires forall i :: 0 <= i < j ==> !EqualFold(path[i].key, k)
    ensures FoldedKey(path, k) == path[j].key
    decreases j
  {
    if j > 0 {
      FoldedKeyFirst(path[1..], k, j - 1);
    }
  }

  /** With no key equal to `k` up to case, `k` itself is looked up. */
  lemma {:induction false} FoldedKeyNone(path: seq<Segment>, k: string)
    requires forall i :: 0 <= i < |path| ==> !EqualFold(path[i].key, k)
    ensures FoldedKey(path, k) == k
    decreases |path|
  {
    if |path| > 0 {
      FoldedKeyNone(path[1..], k);
    }
  }

  /** The key search loop of `subnetIDInsensitively`, which stops at the first match. */
  method FindFoldedKey(path: seq<Segment>, k: string) returns (key: string)
    ensures key == FoldedKey(path, k)
  {
    key := k;
    var i := 0;
    while i < |path|
      invariant 0 <= i <= |path|
      invariant FoldedKey(path, k) == FoldedKey(path[i..], k)
      invariant key == k
    {
      assert path[i..][1..] == path[i + 1..];
      if EqualFold(path[i].key, k) {
        key := path[i].key;
        break;
      }
      i := i + 1;
    }
  }

  /**
   * `subnetIDInsensitively`: as `ParseSubnetID`, but the `virtualNetworks`
   * and `subnets` keys may be spelt in any case.
   */
  function SubnetIDInsensitively(input: string): (r: Result<SubnetId>)
    ensures r.Ok? ==> r.value.Valid()
  {
    var id :- ParseScoped(input);
    var vnetKey := FoldedKey(id.path, "virtualNetworks");
    var (vnet, path1) :- PopSegment(id.path, vnetKey);
    var subnetsKey := FoldedKey(path1, "subnets");
    var (name, path2) :- PopSegment(path1, subnetsKey);
    var _ :- ValidateNoEmptySegments(path2);
    LookupWellFormed(id.path, vnetKey);
    LookupWellFormed(path1, subnetsKey);
    Ok(SubnetId(id.subscriptionId, id.resourceGroup, vnet, name))
  }

  lemma FoldLengths(kv: string, ks: string)
    requires EqualFold(kv, "virtualNetworks") && EqualFold(ks, "subnets")
    ensures |kv| == 15 && |ks| == 7
    ensures !ReservedKey(kv) && !ReservedKey(ks)
  {
    EqualFoldLength(kv, "virtualNetworks");
    EqualFoldLength(ks, "subnets");
  }

  /**
   * Any casing of the two keys is accepted, and the values keep their own
   * casing.
   */
  lemma InsensitiveAnyCasing(subscription: string, resourceGroup: string, provider: string,
                             kv: string, vnet: string, ks: string, name: string)
    requires IsSegmentText(subscription) && IsSegmentText(resourceGroup) && IsSegmentText(provider)
    requires IsSegmentText(kv) && IsSegmentText(vnet) && IsSegmentText(ks) && IsSegmentText(name)
    requires EqualFold(kv, "virtualNetworks") && EqualFold(ks, "subnets")
    ensures SubnetIDInsensitively(Format(Head(subscription, resourceGroup, provider) + [Segment(kv, vnet), Segment(ks, name)]))
      == Ok(SubnetId(subscription, resourceGroup, vnet, name))
  {
    FoldLengths(kv, ks);
    var a := Segment(kv, vnet);
    var b := Segment(ks, name);
    RoundTripTwo(subscription, resourceGroup, provider, kv, vnet, ks, name);
    FoldedKeyFirst([a, b], "virtualNetworks", 0);
    FoldedKeyFirst([b], "subnets", 0);
    assert [a, b] == [a] + [b];
    PopFirst(kv, vnet, [b]);
    PopFirst(ks, name, []);
    assert [b] == [b] + [];
  }

  /** When no other key folds to `k`, the key looked up is `k` itself. */
  lemma {:induction false} FoldedKeyExact(path: seq<Segment>, k: string)
    requires forall i :: 0 <= i < |path| && EqualFold(path[i].key, k) ==> path[i].key == k
    ensures FoldedKey(path, k) == k
    decreases |path|
  {
    if |path| > 0 && !EqualFold(path[0].key, k) {
      assert forall i :: 0 <= i < |path[1..]| ==> path[1..][i] == path[i + 1];
      FoldedKeyExact(path[1..], k);
    }
  }

  lemma KeysApart()
    ensures !EqualFold("subnets", "virtualNetworks")
  {
    if EqualFold("subnets", "virtualNetworks") {
      EqualFoldLength("subnets", "virtualNetworks");
    }
  }

  /** A path of two pairs holding both keys holds no other key. */
  lemma StrictKeys(path: seq<Segment>)
    requires |path| == 2
    requires Lookup(path, "virtualNetworks").Some? && Lookup(path, "subnets").Some?
    ensures forall i :: 0 <= i < |path| ==> path[i].key == "virtualNetworks" || path[i].key == "subnets"
  {
    var a :| 0 <= a < |path| && path[a].key == "virtualNetworks";
    var b :| 0 <= b < |path| && path[b].key == "subnets";
  }

  /** On every ID the strict parser accepts, the case-insensitive one gives the same answer. */
  lemma InsensitiveAgreesWithStrict(input: string)
    requires ParseSubnetID(input).Ok?
    ensures SubnetIDInsensitively(input) == ParseSubnetID(input)
  {
    var path := ParseScoped(input).value.path;
    ParseSubnetIDAccepted(input);
    StrictKeys(path);
    KeysApart();
    FoldedKeyExact(path, "virtualNetworks");
    var path1 := Remove(path, "virtualNetworks");
    RemoveKeeps(path1, "subnets");
    assert forall i :: 0 <= i < |path1| ==> path1[i].key == "subnets";
    FoldedKeyExact(path1, "subnets");
  }

  /** The rewritten ID uses the canonical key casing and is accepted by the strict parser. */
  lemma InsensitiveCanonical(input: string)
    requires SubnetIDInsensitively(input).Ok?
    ensures ParseSubnetID(SubnetIDInsensitively(input).value.ID()) == SubnetIDInsensitively(input)
  {
    ParseSubnetIDRoundTrip(SubnetIDInsensitively(input).value);
  }

  /** A reference to another network object (`network.RouteTable`, `network.SecurityGroup`). */
  datatype Ref = Ref(id: Option<string>)

  datatype IpConfiguration = IpConfiguration(id: string)

  datatype SubnetProperties = SubnetProperties(
    addressPrefix: Option<string>,
    networkSecurityGroup: Option<Ref>,
    routeTable: Option<Ref>,
    ipConfigurations: Option<seq<IpConfiguration>>)

  /** `network.Subnet` as the API returns and accepts it. */
  datatype Subnet = Subnet(id: Option<string>, name: Option<string>, properties: Option<SubnetProperties>)

  /** `flattenSubnetIPConfigurations`: the IDs of the IP configurations, in order. */
  method FlattenSubnetIPConfigurations(configurations: Option<seq<IpConfiguration>>) returns (ips: seq<string>)
    ensures configurations.None? ==> ips == []
    ensures configurations.Some? ==>
      |ips| == |configurations.value| && forall i :: 0 <= i < |ips| ==> ips[i] == configurations.value[i].id
  {
    ips := [];
    if configurations.Some? {
      var list := configurations.value;
      var i := 0;
      while i < |list|
        invariant 0 <= i <= |list|
        invariant |ips| == i
        invariant forall j :: 0 <= j < i ==> ips[j] == list[j].id
      {
        ips := ips + [list[i].id];
        i := i + 1;
      }
    }
  }

  /** A reference that is set exactly when the optional attribute is non-empty. */
  function OptionalRef(id: string): (r: Option<Ref>)
    ensures r.Some? <==> id != ""
    ensures r.Some? ==> r.value.id == Some(id)
  {
    if id == "" then None else Some(Ref(Some(id)))
  }

  /**
   * The properties the create handler sends.  The name parsers
   * `parseNetworkSecurityGroupName` and `parseRouteTableName` are not part
   * of this model: their results are given, and only matter (for locking and
   * for their errors) when the attribute is set.
   */
  method CreateProperties(addressPrefix: string,
                          networkSecurityGroupId: string, networkSecurityGroupName: Result<string>,
                          routeTableId: string, routeTableName: Result<string>)
    returns (r: Result<SubnetProperties>)
    ensures r.Err? <==> (networkSecurityGroupId != "" && networkSecurityGroupName.Err?)
                        || (routeTableId != "" && routeTableName.Err?)
    ensures r.Ok? ==> r.value == SubnetProperties(Some(addressPrefix), OptionalRef(networkSecurityGroupId),
                                                  OptionalRef(routeTableId), None)
  {
    var properties := SubnetProperties(Some(addressPrefix), None, None, None);
    if networkSecurityGroupId != "" {
      properties := properties.(networkSecurityGroup := Some(Ref(Some(networkSecurityGroupId))));
      if networkSecurityGroupName.Err? {
        return Err(networkSecurityGroupName.error);
      }
    }
    if routeTableId != "" {
      properties := properties.(routeTable := Some(Ref(Some(routeTableId))));
      if routeTableName.Err? {
        return Err(routeTableName.error);
      }
    }
    r := Ok(properties);
  }

  /** The remote calls the subnet handlers make. */
  datatype SubnetCall = PutSubnet(body: Subnet) | GetSubnet | DeleteSubnet

  /**
   * The create (and update) handler: send the subnet, read it back, and
   * store the ID the API returned.
   */
  method Create(d: ResourceData, name: string, addressPrefix: string,
                networkSecurityGroupId: string, networkSecurityGroupName: Result<string>,
                routeTableId: string, routeTableName: Result<string>,
                put: Reply<()>, get: Reply<Subnet>)
    returns (err: Option<Error>, calls: seq<SubnetCall>)
    modifies d
    ensures var props := SubnetProperties(Some(addressPrefix), OptionalRef(networkSecurityGroupId),
                                          OptionalRef(routeTableId), None);
      calls == [] || calls[0] == PutSubnet(Subnet(None, Some(name), Some(props)))
    ensures calls == [] <==> (networkSecurityGroupId != "" && networkSecurityGroupName.Err?)
                             || (routeTableId != "" && routeTableName.Err?)
    ensures err.None? <==> |calls| == 2 && calls[1] == GetSubnet && put.Success? && get.Success? && get.body.id.Some?
    ensures err.None? ==> d.id == get.body.id.value
    ensures err.Some? ==> d.id == old(d.id)
  {
    calls := [];
    var properties := CreateProperties(addressPrefix, networkSecurityGroupId, networkSecurityGroupName,
                                       routeTableId, routeTableName);
    if properties.Err? {
      return Some(properties.error), calls;
    }
    calls := calls + [PutSubnet(Subnet(None, Some(name), Some(properties.value)))];
    if put.Failure? {
      return Some(put.AsError()), calls;
    }
    calls := calls + [GetSubnet];
    if get.Failure? {
      return Some(get.AsError()), calls;
    }
    if get.body.id.None? {
      return Some(Missing("subnet ID")), calls;
    }
    d.id := get.body.id.value;
    err := None;
  }

  /** What the read handler stores about a subnet it found. */
  datatype SubnetState = SubnetState(
    name: string,
    resourceGroup: string,
    virtualNetworkName: string,
    addressPrefix: Option<string>,
    networkSecurityGroupId: Option<Option<string>>,
    routeTableId: Option<Option<string>>,
    ipConfigurations: seq<string>)

  /** The IP configuration IDs, in order; none for a nil list. */
  predicate ListsConfigurationIds(ips: seq<string>, configurations: Option<seq<IpConfiguration>>)
  {
    if configurations.None? then ips == []
    else |ips| == |configurations.value| && forall i :: 0 <= i < |ips| ==> ips[i] == configurations.value[i].id
  }

  /**
   * What the read handler stores from the subnet's properties: the address
   * prefix, the security group and route table IDs when they are referenced,
   * and the IP configuration IDs; nothing when the properties are nil.
   */
  predicate StoresProperties(s: SubnetState, props: Option<SubnetProperties>)
  {
    if props.None? then
      s.addressPrefix.None? && s.networkSecurityGroupId.None? && s.routeTableId.None? && s.ipConfigurations == []
    else
      var p := props.value;
      s.addressPrefix == p.addressPrefix
      && (s.networkSecurityGroupId.Some? <==> p.networkSecurityGroup.Some?)
      && (p.networkSecurityGroup.Some? ==> s.networkSecurityGroupId.value == p.networkSecurityGroup.value.id)
      && (s.routeTableId.Some? <==> p.routeTable.Some?)
      && (p.routeTable.Some? ==> s.routeTableId.value == p.routeTable.value.id)
      && ListsConfigurationIds(s.ipConfigurations, p.ipConfigurations)
  }

  /**
   * Reading back the properties the create handler sends stores the
   * configured prefix, and the security group and route table IDs exactly
   * when they were configured.
   */
  lemma CreatedSubnetReadsBack(s: SubnetState, addressPrefix: string, networkSecurityGroupId: string, routeTableId: string)
    requires StoresProperties(s, Some(SubnetProperties(Some(addressPrefix), OptionalRef(networkSecurityGroupId),
                                                       OptionalRef(routeTableId), None)))
    ensures s.addressPrefix == Some(addressPrefix) && s.ipConfigurations == []
    ensures s.networkSecurityGroupId == (if networkSecurityGroupId == "" then None else Some(Some(networkSecurityGroupId)))
    ensures s.routeTableId == (if routeTableId == "" then None else Some(Some(routeTableId)))
  {
  }

  /**
   * The read handler.  The names come from the generic parser's path (a
   * missing key reads as ""); a NotFound reply removes the subnet from state
   * without an error.
   */
  method Read(d: ResourceData, get: Reply<Subnet>) returns (err: Option<Error>, state: Option<SubnetState>)
    modifies d
    ensures ResourceIds.Parse(old(d.id)).Err? ==> err.Some? && d.id == old(d.id)
    ensures ResourceIds.Parse(old(d.id)).Ok? && get.WasNotFound() ==> err.None? && state.None? && d.id == ""
    ensures ResourceIds.Parse(old(d.id)).Ok? && get.Failure? && !get.WasNotFound() ==> err == Some(get.AsError())
    ensures d.id == old(d.id) || (d.id == "" && get.WasNotFound() && err.None?)
    ensures ResourceIds.Parse(old(d.id)).Ok? && get.Success? ==> err.None? && state.Some? && d.id == old(d.id)
    ensures state.Some? ==> get.Success? && ResourceIds.Parse(old(d.id)).Ok?
    ensures state.Some? && get.Success? ==> StoresProperties(state.value, get.body.properties)
    ensures state.Some? && ResourceIds.Parse(old(d.id)).Ok? ==>
      var id := ResourceIds.Parse(old(d.id)).value;
      state.value.name == PathValue(id.path, "subnets") && state.value.virtualNetworkName == PathValue(id.path, "virtualNetworks")
      && state.value.resourceGroup == id.resourceGroup
  {
    var parsed := ResourceIds.Parse(d.id);
    if parsed.Err? {
      return Some(parsed.error), None;
    }
    var id := parsed.value;
    if get.Failure? {
      if get.WasNotFound() {
        d.id := "";
        return None, None;
      }
      return Some(get.AsError()), None;
    }
    var s := SubnetState(PathValue(id.path, "subnets"), id.resourceGroup, PathValue(id.path, "virtualNetworks"),
                         None, None, None, []);
    if get.body.properties.Some? {
      var props := get.body.properties.value;
      var ips := FlattenSubnetIPConfigurations(props.ipConfigurations);
      s := s.(addressPrefix := props.addressPrefix, ipConfigurations := ips);
      if props.networkSecurityGroup.Some? {
        s := s.(networkSecurityGroupId := Some(props.networkSecurityGroup.value.id));
      }
      if props.routeTable.Some? {
        s := s.(routeTableId := Some(props.routeTable.value.id));
      }
    }
    return None, Some(s);
  }

  /**
   * The delete handler.  When the configuration names a route table, the
   * subnet is first read and written back without its route table, and only
   * then deleted; a NotFound on that read removes it from state instead.
   */
  method Delete(d: ResourceData,
                networkSecurityGroupId: string, networkSecurityGroupName: Result<string>,
                routeTableId: string, routeTableName: Result<string>,
                get: Reply<Subnet>, put: Reply<()>, del: Reply<()>)
    returns (err: Option<Error>, calls: seq<SubnetCall>)
    modifies d
    ensures var ready := ResourceIds.Parse(old(d.id)).Ok?
                         && !(networkSecurityGroupId != "" && networkSecurityGroupName.Err?);
      (!ready ==> err.Some? && calls == [])
      && (ready && routeTableId == "" ==> calls == [DeleteSubnet] && (err.None? <==> del.Success?))
      && (ready && routeTableId != "" && routeTableName.Ok? && get.Success? && get.body.properties.Some? && put.Success? ==>
            calls == [GetSubnet, PutSubnet(get.body.(properties := Some(get.body.properties.value.(routeTable := None)))), DeleteSubnet]
            && (err.None? <==> del.Success?))
      && (ready && routeTableId != "" && routeTableName.Ok? && get.WasNotFound() ==>
            calls == [GetSubnet] && err.None? && d.id == "")
      && (ready && routeTableId != "" && routeTableName.Err? ==> err == Some(routeTableName.error) && calls == [])
      && (ready && routeTableId != "" && routeTableName.Ok? && get.Failure? && !get.WasNotFound() ==>
            err == Some(get.AsError()) && calls == [GetSubnet])
      && (ready && routeTableId != "" && routeTableName.Ok? && get.Success? && get.body.properties.None? ==>
            err.Some? && err.value.NilDereference? && calls == [GetSubnet])
      && (ready && routeTableId != "" && routeTableName.Ok? && get.Success? && get.body.properties.Some? && put.Failure? ==>
            err == Some(put.AsError()) && |calls| == 2 && calls[0] == GetSubnet && calls[1].PutSubnet?)
    ensures DeleteSubnet in calls ==> calls[|calls| - 1] == DeleteSubnet
    ensures DeleteSubnet in calls && routeTableId != "" ==>
      |calls| == 3 && calls[1].PutSubnet? && calls[1].body.properties.Some? && calls[1].body.properties.value.routeTable.None?
    ensures d.id == old(d.id) || (d.id == "" && err.None? && DeleteSubnet !in calls)
  {
    calls := [];
    var parsed := ResourceIds.Parse(d.id);
    if parsed.Err? {
      return Some(parsed.error), calls;
    }
    if networkSecurityGroupId != "" && networkSecurityGroupName.Err? {
      return Some(networkSecurityGroupName.error), calls;
    }
    if routeTableId != "" {
      if routeTableName.Err? {
        return Some(routeTableName.error), calls;
      }
      calls := calls + [GetSubnet];
      if get.Failure? {
        if get.WasNotFound() {
          d.id := "";
          return None, calls;
        }
        return Some(get.AsError()), calls;
      }
      var subnet := get.body;
      if subnet.properties.None? {
        return Some(NilDereference("subnet properties")), calls;
      }
      subnet := subnet.(properties := Some(subnet.properties.value.(routeTable := None)));
      calls := calls + [PutSubnet(subnet)];
      if put.Failure? {
        return Some(put.AsError()), calls;
      }
    }
    calls := calls + [DeleteSubnet];
    if del.Failure? {
      return Some(del.AsError()), calls;
    }
    err := None;
  }
}
