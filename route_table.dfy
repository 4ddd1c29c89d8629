/**
 * The route table resource of `azurestack/resource_arm_route_table.go`: its
 * typed ID, the expansion of the `route` blocks into API routes and the
 * flattening of API routes and subnets back into state, and the create,
 * read and delete handlers.
 */
module RouteTables {
  import opened Common
  import opened Strings
  import opened ResourceIds
  import opened TypedIds
  import opened Terraform
  import AzureParse
  import Subnets

  datatype RouteTableId = RouteTableId(subscriptionId: string, resourceGroup: string, name: string)
  {
    function ID(): string
    {
      "/subscriptions/" + subscriptionId + "/resourceGroups/" + resourceGroup
        + "/providers/Microsoft.Network/routeTables/" + name
    }

    /** `RouteTableId.String`: the name and the resource group, quoted. */
    function String(): (r: string)
      ensures r == "Route Table: (" + "Name " + AzureParse.Quote(name) + " / " + "Resource Group " + AzureParse.Quote(resourceGroup) + ")"
    {
      var segments := ["Name " + AzureParse.Quote(name), "Resource Group " + AzureParse.Quote(resourceGroup)];
      JoinTwo(segments[0], segments[1], " / ");
      "Route Table" + ": (" + Join(segments, " / ") + ")"
    }

    predicate Valid()
    {
      IsSegmentText(subscriptionId) && IsSegmentText(resourceGroup) && IsSegmentText(name)
    }
  }

  lemma JoinTwo(a: string, b: string, sep: string)
    ensures Join([a, b], sep) == a + sep + b
  {
    assert [a, b][1..] == [b];
  }

  /** Names without quotes or backslashes are printed between plain double quotes. */
  lemma StringPlain(id: RouteTableId)
    requires AzureParse.PlainText(id.name) && AzureParse.PlainText(id.resourceGroup)
    ensures id.String() == "Route Table: (Name \"" + id.name + "\" / Resource Group \"" + id.resourceGroup + "\")"
  {
    var q := "\"";
    Regroup("Route Table: (", "Name ", q, id.name, " / ", "Resource Group ", id.resourceGroup, ")");
    StringLiterals();
  }

  lemma StringLiterals()
    ensures "Route Table: (" + "Name " + "\"" == "Route Table: (Name \""
    ensures "\"" + " / " + "Resource Group " + "\"" == "\" / Resource Group \""
    ensures "\"" + ")" == "\")"
  {
  }

  lemma Regroup(a1: string, a2: string, q: string, n: string, s: string, rg: string, g: string, c: string)
    ensures a1 + a2 + (q + n + q) + s + rg + (q + g + q) + c == (a1 + a2 + q) + n + (q + s + rg + q) + g + (q + c)
  {
  }

  /** `ParseRouteTableID`: a scoped ID whose only further pair is `routeTables`. */
  function ParseRouteTableID(input: string): (r: Result<RouteTableId>)
    ensures r.Ok? ==> r.value.Valid()
  {
    var id :- ParseScoped(input);
    var name :- PopOne(id.path, "routeTables");
    Ok(RouteTableId(id.subscriptionId, id.resourceGroup, name))
  }

  /**
   * An ID is accepted exactly when it parses, names a subscription and a
   * resource group, and holds one `routeTables` pair and nothing else.
   */
  lemma ParseRouteTableIDAccepted(input: string)
    ensures var p := ResourceIds.Parse(input);
      ParseRouteTableID(input).Ok? <==>
        (p.Ok? && p.value.resourceGroup != "" && |p.value.path| == 1 && p.value.path[0].key == "routeTables")
    ensures ParseRouteTableID(input).Ok? ==> ParseRouteTableID(input).value.name == ResourceIds.Parse(input).value.path[0].value
  {
    var p := ResourceIds.Parse(input);
    if p.Ok? {
      PopOneAccepted(p.value.path, "routeTables");
    }
  }

  lemma Literals()
    ensures "/providers/" + "Microsoft.Network" + ("/" + "routeTables" + "/")
      == "/providers/Microsoft.Network/routeTables/"
  {
  }

  lemma IdIsFormat(id: RouteTableId)
    ensures id.ID() == Format(Head(id.subscriptionId, id.resourceGroup, "Microsoft.Network") + [Segment("routeTables", id.name)])
  {
    FormatConventional1(id.subscriptionId, id.resourceGroup, "Microsoft.Network", "routeTables", id.name);
    Literals();
  }

  /** `ParseRouteTableID(id.ID())` gives back the three fields. */
  lemma ParseRouteTableIDRoundTrip(id: RouteTableId)
    requires id.Valid()
    ensures ParseRouteTableID(id.ID()) == Ok(id)
  {
    IdIsFormat(id);
    RoundTripOne(id.subscriptionId, id.resourceGroup, "Microsoft.Network", "routeTables", id.name);
  }

  /** One `route` block of the configuration. */
  datatype RouteConfig = RouteConfig(name: string, addressPrefix: string, nextHopType: string, nextHopInIpAddress: string)

  datatype RouteProperties = RouteProperties(addressPrefix: Option<string>, nextHopType: string, nextHopIpAddress: Option<string>)

  /** `network.Route`. */
  datatype Route = Route(name: Option<string>, properties: Option<RouteProperties>)

  /** A flattened route: each optional field is a key that may be absent from the state map. */
  datatype FlatRoute = FlatRoute(name: string, addressPrefix: Option<string>, nextHopType: Option<string>, nextHopInIpAddress: Option<string>)

  /** What `expandRouteTableRoutes` makes of one block. */
  predicate ExpandsTo(c: RouteConfig, r: Route)
  {
    r.name == Some(c.name) && r.properties.Some?
    && r.properties.value.addressPrefix == Some(c.addressPrefix)
    && r.properties.value.nextHopType == c.nextHopType
    && (r.properties.value.nextHopIpAddress.Some? <==> c.nextHopInIpAddress != "")
    && (r.properties.value.nextHopIpAddress.Some? ==> r.properties.value.nextHopIpAddress.value == c.nextHopInIpAddress)
  }

  /** `expandRouteTableRoutes`: one route per block, in order. */
  method ExpandRouteTableRoutes(configs: seq<RouteConfig>) returns (routes: seq<Route>)
    ensures |routes| == |configs|
    ensures forall i :: 0 <= i < |routes| ==> ExpandsTo(configs[i], routes[i])
  {
    routes := [];
    var i := 0;
    while i < |configs|
      invariant 0 <= i <= |configs|
      invariant |routes| == i
      invariant forall j :: 0 <= j < i ==> ExpandsTo(configs[j], routes[j])
    {
      var data := configs[i];
      var route := Route(Some(data.name), Some(RouteProperties(Some(data.addressPrefix), data.nextHopType, None)));
      if data.nextHopInIpAddress != "" {
        route := route.(properties := Some(route.properties.value.(nextHopIpAddress := Some(data.nextHopInIpAddress))));
      }
      routes := routes + [route];
      i := i + 1;
    }
  }

  /**
   * The flattening of one route.  The name, and the address prefix when the
   * properties are present, are dereferenced unconditionally.
   */
  function FlattenRoute(r: Route): (f: Result<FlatRoute>)
    ensures f.Ok? <==> r.name.Some? && (r.properties.Some? ==> r.properties.value.addressPrefix.Some?)
    ensures f.Ok? ==> f.value.name == r.name.value
    ensures f.Ok? ==> (f.value.addressPrefix.Some? <==> r.properties.Some?)
    ensures f.Ok? ==> (f.value.nextHopType.Some? <==> r.properties.Some?)
    ensures f.Ok? ==> (f.value.nextHopInIpAddress.Some? <==> r.properties.Some? && r.properties.value.nextHopIpAddress.Some?)
  {
    if r.name.None? then Err(NilDereference("route name"))
    else if r.properties.None? then Ok(FlatRoute(r.name.value, None, None, None))
    else
      var props := r.properties.value;
      if props.addressPrefix.None? then Err(NilDereference("route address prefix"))
      else Ok(FlatRoute(r.name.value, props.addressPrefix, Some(props.nextHopType), props.nextHopIpAddress))
  }

  /** `flattenRouteTableRoutes`: every route flattened, in order; nothing for a nil list. */
  method FlattenRouteTableRoutes(input: Option<seq<Route>>) returns (r: Result<seq<FlatRoute>>)
    ensures input.None? ==> r == Ok([])
    ensures input.Some? ==> (r.Ok? <==> forall i :: 0 <= i < |input.value| ==> FlattenRoute(input.value[i]).Ok?)
    ensures r.Ok? && input.Some? ==>
      |r.value| == |input.value| && forall i :: 0 <= i < |r.value| ==> Ok(r.value[i]) == FlattenRoute(input.value[i])
  {
    var results := [];
    if input.Some? {
      var routes := input.value;
      var i := 0;
      while i < |routes|
        invariant 0 <= i <= |routes|
        invariant |results| == i
        invariant forall j :: 0 <= j < i ==> Ok(results[j]) == FlattenRoute(routes[j])
      {
        var f := FlattenRoute(routes[i]);
        if f.Err? {
          return Err(f.error);
        }
        results := results + [f.value];
        i := i + 1;
      }
    }
    r := Ok(results);
  }

  /** What reading back an expanded block restores: every field, the next hop address only when set. */
  function Restored(c: RouteConfig): FlatRoute
  {
    FlatRoute(c.name, Some(c.addressPrefix), Some(c.nextHopType),
      if c.nextHopInIpAddress == "" then None else Some(c.nextHopInIpAddress))
  }

  /** Flattening the expanded routes gives back each block, in order. */
  lemma FlattenAfterExpand(configs: seq<RouteConfig>, routes: seq<Route>)
    requires |routes| == |configs|
    requires forall i :: 0 <= i < |routes| ==> ExpandsTo(configs[i], routes[i])
    ensures forall i :: 0 <= i < |routes| ==> FlattenRoute(routes[i]) == Ok(Restored(configs[i]))
  {
    forall i | 0 <= i < |routes|
      ensures FlattenRoute(routes[i]) == Ok(Restored(configs[i]))
    {
      var c := configs[i];
      var props := routes[i].properties.value;
      if c.nextHopInIpAddress == "" {
        assert props.nextHopIpAddress == None;
      } else {
        assert props.nextHopIpAddress == Some(c.nextHopInIpAddress);
      }
    }
  }

  /** `flattenRouteTableSubnets`: the subnet IDs, in order; each ID is dereferenced unconditionally. */
  method FlattenRouteTableSubnets(subnets: Option<seq<Subnets.Subnet>>) returns (r: Result<seq<string>>)
    ensures subnets.None? ==> r == Ok([])
    ensures subnets.Some? ==> (r.Ok? <==> forall i :: 0 <= i < |subnets.value| ==> subnets.value[i].id.Some?)
    ensures r.Ok? && subnets.Some? ==>
      |r.value| == |subnets.value| && forall i :: 0 <= i < |r.value| ==> subnets.value[i].id == Some(r.value[i])
  {
    var output := [];
    if subnets.Some? {
      var list := subnets.value;
      var i := 0;
      while i < |list|
        invariant 0 <= i <= |list|
        invariant |output| == i
        invariant forall j :: 0 <= j < i ==> list[j].id == Some(output[j])
      {
        if list[i].id.None? {
          return Err(NilDereference("subnet ID"));
        }
        output := output + [list[i].id.value];
        i := i + 1;
      }
    }
    r := Ok(output);
  }

  datatype RouteTableProperties = RouteTableProperties(routes: Option<seq<Route>>, subnets: Option<seq<Subnets.Subnet>>)

  /** `network.RouteTable`. */
  datatype RouteTable = RouteTable(id: Option<string>, name: Option<string>, properties: Option<RouteTableProperties>)

  /** The remote calls of the route table handlers. */
  datatype RouteTableCall = PutRouteTable(body: RouteTable) | WaitRouteTable | GetRouteTable | DeleteRouteTable

  /**
   * The create (and update) handler up to storing the ID: the blocks are
   * expanded and sent, the operation awaited and the table read back.
   */
  method CreateUpdate(d: ResourceData, name: string, configs: seq<RouteConfig>,
                      put: Reply<()>, wait: Reply<()>, get: Reply<RouteTable>)
    returns (err: Option<Error>, calls: seq<RouteTableCall>)
    modifies d
    ensures |calls| >= 1 && calls[0].PutRouteTable? && calls[0].body.name == Some(name)
    ensures var props := calls[0].body.properties;
      props.Some? && props.value.routes.Some? && |props.value.routes.value| == |configs|
      && forall i :: 0 <= i < |configs| ==> ExpandsTo(configs[i], props.value.routes.value[i])
    ensures err.None? <==> put.Success? && wait.Success? && get.Success? && get.body.id.Some?
    ensures err.None? ==> calls == [calls[0], WaitRouteTable, GetRouteTable] && d.id == get.body.id.value
    ensures err.Some? ==> d.id == old(d.id)
  {
    var routes := ExpandRouteTableRoutes(configs);
    calls := [PutRouteTable(RouteTable(None, Some(name), Some(RouteTableProperties(Some(routes), None))))];
    if put.Failure? {
      return Some(put.AsError()), calls;
    }
    calls := calls + [WaitRouteTable];
    if wait.Failure? {
      return Some(wait.AsError()), calls;
    }
    calls := calls + [GetRouteTable];
    if get.Failure? {
      return Some(get.AsError()), calls;
    }
    if get.body.id.None? {
      return Some(Missing("route table ID")), calls;
    }
    d.id := get.body.id.value;
    err := None;
  }

  /** What the read handler stores about a route table it found. */
  datatype RouteTableState = RouteTableState(name: string, resourceGroup: string, routes: seq<FlatRoute>, subnets: seq<string>)

  /** Every route can be flattened: the names, and the address prefixes of routes with properties, are present. */
  predicate RoutesFlatten(input: Option<seq<Route>>)
  {
    input.Some? ==> forall i :: 0 <= i < |input.value| ==> FlattenRoute(input.value[i]).Ok?
  }

  /** `out` holds every route flattened, in order; nothing for a nil list. */
  predicate FlattenedRoutes(input: Option<seq<Route>>, out: seq<FlatRoute>)
  {
    if input.None? then out == []
    else |out| == |input.value| && forall i :: 0 <= i < |out| ==> Ok(out[i]) == FlattenRoute(input.value[i])
  }

  /** Every subnet in the list has an ID. */
  predicate SubnetIdsPresent(subnets: Option<seq<Subnets.Subnet>>)
  {
    subnets.Some? ==> forall i :: 0 <= i < |subnets.value| ==> subnets.value[i].id.Some?
  }

  /** `out` holds the subnet IDs, in order; nothing for a nil list. */
  predicate ListsSubnetIds(subnets: Option<seq<Subnets.Subnet>>, out: seq<string>)
  {
    if subnets.None? then out == []
    else |out| == |subnets.value| && forall i :: 0 <= i < |out| ==> subnets.value[i].id == Some(out[i])
  }

  /**
   * The routes the create handler sends can be read, and the read stores
   * each configured block restored, in order.
   */
  lemma ReadBackRoutes(configs: seq<RouteConfig>, routes: seq<Route>, out: seq<FlatRoute>)
    requires |routes| == |configs|
    requires forall i :: 0 <= i < |routes| ==> ExpandsTo(configs[i], routes[i])
    requires FlattenedRoutes(Some(routes), out)
    ensures RoutesFlatten(Some(routes))
    ensures |out| == |configs| && forall i :: 0 <= i < |out| ==> out[i] == Restored(configs[i])
  {
    FlattenAfterExpand(configs, routes);
  }

  /** The read handler: a NotFound reply removes the table from state without an error. */
  method Read(d: ResourceData, get: Reply<RouteTable>) returns (err: Option<Error>, state: Option<RouteTableState>)
    modifies d
    ensures ResourceIds.Parse(old(d.id)).Err? ==> err.Some? && d.id == old(d.id)
    ensures ResourceIds.Parse(old(d.id)).Ok? && get.WasNotFound() ==> err.None? && state.None? && d.id == ""
    ensures ResourceIds.Parse(old(d.id)).Ok? && get.Failure? && !get.WasNotFound() ==> err == Some(get.AsError())
    ensures d.id == old(d.id) || (d.id == "" && get.WasNotFound() && err.None?)
    ensures state.Some? ==> err.None? && get.Success? && ResourceIds.Parse(old(d.id)).Ok?
    ensures state.Some? && ResourceIds.Parse(old(d.id)).Ok? ==>
      var id := ResourceIds.Parse(old(d.id)).value;
      state.value.name == PathValue(id.path, "routeTables") && state.value.resourceGroup == id.resourceGroup
    ensures ResourceIds.Parse(old(d.id)).Ok? && get.Success? ==>
      var props := get.body.properties;
      (err.None? <==> props.Some? ==> RoutesFlatten(props.value.routes) && SubnetIdsPresent(props.value.subnets))
      && (err.None? <==> state.Some?) && d.id == old(d.id)
    ensures state.Some? && get.Success? ==>
      var props := get.body.properties;
      (props.None? ==> state.value.routes == [] && state.value.subnets == [])
      && (props.Some? ==> FlattenedRoutes(props.value.routes, state.value.routes)
                          && ListsSubnetIds(props.value.subnets, state.value.subnets))
  {
    var parsed := ResourceIds.Parse(d.id);
    if parsed.Err? {
      return Some(parsed.error), None;
    }
    var id := parsed.value;
    if get.Failure? {
      if get.WasNotFound() {
        d.id := "";
        return None, None;
      }
      return Some(get.AsError()), None;
    }
    var s := RouteTableState(PathValue(id.path, "routeTables"), id.resourceGroup, [], []);
    if get.body.properties.Some? {
      var props := get.body.properties.value;
      var routes := FlattenRouteTableRoutes(props.routes);
      if routes.Err? {
        return Some(routes.error), None;
      }
      var subnets := FlattenRouteTableSubnets(props.subnets);
      if subnets.Err? {
        return Some(subnets.error), None;
      }
      s := s.(routes := routes.value, subnets := subnets.value);
    }
    return None, Some(s);
  }

  /**
   * The delete handler: a NotFound from the delete call is not an error,
   * and the operation is then awaited either way.
   */
  method Delete(d: ResourceData, del: Reply<()>, wait: Reply<()>) returns (err: Option<Error>, calls: seq<RouteTableCall>)
    ensures ResourceIds.Parse(d.id).Err? ==> err.Some? && calls == []
    ensures ResourceIds.Parse(d.id).Ok? && del.Failure? && !del.WasNotFound() ==>
      err == Some(del.AsError()) && calls == [DeleteRouteTable]
    ensures ResourceIds.Parse(d.id).Ok? && (del.Success? || del.WasNotFound()) ==>
      calls == [DeleteRouteTable, WaitRouteTable] && (err.None? <==> wait.Success?)
  {
    var parsed := ResourceIds.Parse(d.id);
    if parsed.Err? {
      return Some(parsed.error), [];
    }
    calls := [DeleteRouteTable];
    if del.Failure? && !del.WasNotFound() {
      return Some(del.AsError()), calls;
    }
    calls := calls + [WaitRouteTable];
    if wait.Failure? {
      return Some(wait.AsError()), calls;
    }
    err := None;
  }
}
