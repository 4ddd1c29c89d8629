/**
 * The subnet/route table association of
 * `azurestack/resource_arm_subnet_route_table_association.go`: a resource
 * whose ID is the subnet's ID and whose whole effect is the `RouteTable`
 * reference inside that subnet, set on create and cleared on delete by a
 * read-modify-write of the subnet.
 */
module SubnetRouteTableAssociation {
  import opened Common
  import opened Terraform
  import opened Subnets
  import RouteTables

  /** The subnet to write back on create: only the route table reference changes, and only when the properties are present. */
  function Associated(subnet: Subnet, routeTableId: string): (r: Subnet)
    ensures r.id == subnet.id && r.name == subnet.name
    ensures subnet.properties.None? ==> r.properties.None?
    ensures subnet.properties.Some? ==>
      r.properties.Some? && r.properties.value.routeTable == Some(Ref(Some(routeTableId)))
      && r.properties.value.(routeTable := subnet.properties.value.routeTable) == subnet.properties.value
  {
    match subnet.properties
    case None => subnet
    case Some(props) => subnet.(properties := Some(props.(routeTable := Some(Ref(Some(routeTableId))))))
  }

  /** The subnet to write back on delete: the route table reference is dropped and nothing else changes. */
  function Disassociated(subnet: Subnet): (r: Subnet)
    requires subnet.properties.Some?
    ensures r.id == subnet.id && r.name == subnet.name && r.properties.Some?
    ensures r.properties.value.routeTable.None?
    ensures r.properties.value.(routeTable := subnet.properties.value.routeTable) == subnet.properties.value
  {
    subnet.(properties := Some(subnet.properties.value.(routeTable := None)))
  }

  /** Associating and then dissociating leaves the subnet as it was, without a route table. */
  lemma DisassociateUndoesAssociate(subnet: Subnet, routeTableId: string)
    requires subnet.properties.Some?
    ensures Disassociated(Associated(subnet, routeTableId)) == Disassociated(subnet)
  {
  }

  /** A subnet the create handler refuses to take over. */
  predicate AlreadyAssociated(subnet: Subnet)
  {
    subnet.properties.Some? && subnet.properties.value.routeTable.Some?
    && subnet.properties.value.routeTable.value.id.Some? && subnet.id.Some?
  }

  /** The remote calls of the association handlers, all on the subnet. */
  datatype AssociationCall = Get | Put(body: Subnet) | Wait

  /**
   * The remote part of the create handler, from the first read of the
   * subnet to the read-back: a missing subnet is an error, a subnet that
   * already has a route table is refused, and otherwise the subnet is
   * written back with the route table reference set.
   */
  predicate Attaches(routeTableId: string, get: Reply<Subnet>, put: Reply<()>, wait: Reply<()>, reread: Reply<Subnet>,
                     err: Option<Error>, calls: seq<AssociationCall>)
  {
    |calls| >= 1 && calls[0] == Get
    && (get.WasNotFound() ==> err == Some(Missing("subnet")) && calls == [Get])
    && (get.Success? && AlreadyAssociated(get.body) ==> err == Some(AlreadyExists(get.body.id.value)) && calls == [Get])
    && (|calls| >= 2 ==> get.Success? && !AlreadyAssociated(get.body) && calls[1] == Put(Associated(get.body, routeTableId)))
    && (err.None? <==>
          get.Success? && calls == [Get, Put(Associated(get.body, routeTableId)), Wait, Get]
          && put.Success? && wait.Success? && reread.Success? && reread.body.id.Some?)
  }

  method Attach(d: ResourceData, routeTableId: string,
                get: Reply<Subnet>, put: Reply<()>, wait: Reply<()>, reread: Reply<Subnet>)
    returns (err: Option<Error>, calls: seq<AssociationCall>)
    modifies d
    ensures Attaches(routeTableId, get, put, wait, reread, err, calls)
    ensures err.None? ==> d.id == reread.body.id.value
    ensures err.Some? ==> d.id == old(d.id)
  {
    calls := [Get];
    if get.Failure? {
      if get.WasNotFound() {
        return Some(Missing("subnet")), calls;
      }
      return Some(get.AsError()), calls;
    }
    var subnet := get.body;
    if subnet.properties.Some? {
      var props := subnet.properties.value;
      if props.routeTable.Some? && props.routeTable.value.id.Some? && subnet.id.Some? {
        return Some(AlreadyExists(subnet.id.value)), calls;
      }
    }
    subnet := Associated(subnet, routeTableId);
    calls := calls + [Put(subnet)];
    if put.Failure? {
      return Some(put.AsError()), calls;
    }
    calls := calls + [Wait];
    if wait.Failure? {
      return Some(wait.AsError()), calls;
    }
    calls := calls + [Get];
    if reread.Failure? {
      return Some(reread.AsError()), calls;
    }
    if reread.body.id.None? {
      return Some(NilDereference("subnet ID")), calls;
    }
    d.id := reread.body.id.value;
    err := None;
  }

  /**
   * The create handler: both IDs must parse before anything is called;
   * the association's ID is then the subnet's ID as read back.
   */
  method Create(d: ResourceData, subnetId: string, routeTableId: string,
                get: Reply<Subnet>, put: Reply<()>, wait: Reply<()>, reread: Reply<Subnet>)
    returns (err: Option<Error>, calls: seq<AssociationCall>)
    modifies d
    ensures ParseSubnetID(subnetId).Err? || RouteTables.ParseRouteTableID(routeTableId).Err? ==> err.Some? && calls == []
    ensures ParseSubnetID(subnetId).Ok? && RouteTables.ParseRouteTableID(routeTableId).Ok? ==>
      Attaches(routeTableId, get, put, wait, reread, err, calls)
    ensures err.None? ==> reread.Success? && reread.body.id.Some? && d.id == reread.body.id.value
    ensures err.Some? ==> d.id == old(d.id)
  {
    var parsedSubnet := ParseSubnetID(subnetId);
    if parsedSubnet.Err? {
      return Some(parsedSubnet.error), [];
    }
    var parsedRouteTable := RouteTables.ParseRouteTableID(routeTableId);
    if parsedRouteTable.Err? {
      return Some(parsedRouteTable.error), [];
    }
    err, calls := Attach(d, routeTableId, get, put, wait, reread);
  }

  /** What the read handler stores: the subnet's ID and the route table's ID, as returned. */
  datatype AssociationState = AssociationState(subnetId: Option<string>, routeTableId: Option<string>)

  /**
   * The read handler: a missing subnet, or one without a route table,
   * removes the association from state without an error.
   */
  method Read(d: ResourceData, get: Reply<Subnet>) returns (err: Option<Error>, state: Option<AssociationState>)
    modifies d
    ensures ParseSubnetID(old(d.id)).Err? ==> err.Some? && state.None? && d.id == old(d.id)
    ensures ParseSubnetID(old(d.id)).Ok? && get.WasNotFound() ==> err.None? && state.None? && d.id == ""
    ensures ParseSubnetID(old(d.id)).Ok? && get.Success? && get.body.properties.Some? && get.body.properties.value.routeTable.None? ==>
      err.None? && state.None? && d.id == ""
    ensures ParseSubnetID(old(d.id)).Ok? && get.Success? && get.body.properties.None? ==> err.Some?
    ensures state.Some? <==>
      ParseSubnetID(old(d.id)).Ok? && get.Success? && get.body.properties.Some? && get.body.properties.value.routeTable.Some?
    ensures state.Some? ==>
      err.None? && d.id == old(d.id) && state.value == AssociationState(get.body.id, get.body.properties.value.routeTable.value.id)
    ensures d.id == old(d.id) || (d.id == "" && err.None?)
  {
    var parsed := ParseSubnetID(d.id);
    if parsed.Err? {
      return Some(parsed.error), None;
    }
    if get.Failure? {
      if get.WasNotFound() {
        d.id := "";
        return None, None;
      }
      return Some(get.AsError()), None;
    }
    var props := get.body.properties;
    if props.None? {
      return Some(Missing("subnet properties")), None;
    }
    var routeTable := props.value.routeTable;
    if routeTable.None? {
      d.id := "";
      return None, None;
    }
    return None, Some(AssociationState(get.body.id, routeTable.value.id));
  }

  /**
   * The write-back of the delete handler: the subnet is read again and, if
   * it is still there, written back without its route table reference.
   */
  predicate Releases(reread: Reply<Subnet>, put: Reply<()>, wait: Reply<()>, err: Option<Error>, calls: seq<AssociationCall>)
  {
    (reread.WasNotFound() ==> err.None? && calls == [Get])
    && (reread.Failure? && !reread.WasNotFound() ==> err == Some(reread.AsError()) && calls == [Get])
    && (reread.Success? && reread.body.properties.None? ==> err.Some? && calls == [Get])
    && (reread.Success? && reread.body.properties.Some? ==>
          calls == [Get, Put(Disassociated(reread.body))] + (if put.Success? then [Wait] else [])
          && (err.None? <==> put.Success? && wait.Success?))
  }

  method Release(reread: Reply<Subnet>, put: Reply<()>, wait: Reply<()>) returns (err: Option<Error>, calls: seq<AssociationCall>)
    ensures Releases(reread, put, wait, err, calls)
  {
    calls := [Get];
    if reread.Failure? {
      if reread.WasNotFound() {
        return None, calls;
      }
      return Some(reread.AsError()), calls;
    }
    var subnet := reread.body;
    if subnet.properties.None? {
      return Some(NilDereference("subnet properties")), calls;
    }
    subnet := Disassociated(subnet);
    calls := calls + [Put(subnet)];
    if put.Failure? {
      return Some(put.AsError()), calls;
    }
    calls := calls + [Wait];
    if wait.Failure? {
      return Some(wait.AsError()), calls;
    }
    err := None;
  }

  /** The subnet has a route table reference with an ID, the condition for the delete handler to write. */
  predicate HasRouteTableId(subnet: Subnet)
  {
    subnet.properties.Some? && subnet.properties.value.routeTable.Some? && subnet.properties.value.routeTable.value.id.Some?
  }

  /**
   * The remote part of the delete handler: nothing is written when the
   * subnet is gone or has no route table reference with an ID.
   */
  predicate Detaches(get: Reply<Subnet>, reread: Reply<Subnet>, put: Reply<()>, wait: Reply<()>,
                     err: Option<Error>, calls: seq<AssociationCall>)
  {
    |calls| >= 1 && calls[0] == Get
    && (get.WasNotFound() ==> err.None? && calls == [Get])
    && (get.Failure? && !get.WasNotFound() ==> err == Some(get.AsError()) && calls == [Get])
    && (get.Success? && get.body.properties.None? ==> err.Some? && calls == [Get])
    && (get.Success? && get.body.properties.Some? && !HasRouteTableId(get.body) ==> err.None? && calls == [Get])
    && (get.Success? && HasRouteTableId(get.body) ==>
          var routeTable := RouteTables.ParseRouteTableID(get.body.properties.value.routeTable.value.id.value);
          (routeTable.Err? ==> err.Some? && calls == [Get])
          && (routeTable.Ok? ==> Releases(reread, put, wait, err, calls[1..])))
  }

  method Detach(get: Reply<Subnet>, reread: Reply<Subnet>, put: Reply<()>, wait: Reply<()>)
    returns (err: Option<Error>, calls: seq<AssociationCall>)
    ensures Detaches(get, reread, put, wait, err, calls)
  {
    calls := [Get];
    if get.Failure? {
      if get.WasNotFound() {
        return None, calls;
      }
      return Some(get.AsError()), calls;
    }
    var props := get.body.properties;
    if props.None? {
      return Some(Missing("subnet properties")), calls;
    }
    if props.value.routeTable.None? || props.value.routeTable.value.id.None? {
      return None, calls;
    }
    var routeTable := RouteTables.ParseRouteTableID(props.value.routeTable.value.id.value);
    if routeTable.Err? {
      return Some(routeTable.error), calls;
    }
    var rest;
    err, rest := Release(reread, put, wait);
    calls := calls + rest;
    assert calls[1..] == rest;
  }

  /** The delete handler: the association's ID must be a subnet ID. */
  method Delete(id: string, get: Reply<Subnet>, reread: Reply<Subnet>, put: Reply<()>, wait: Reply<()>)
    returns (err: Option<Error>, calls: seq<AssociationCall>)
    ensures ParseSubnetID(id).Err? ==> err.Some? && calls == []
    ensures ParseSubnetID(id).Ok? ==> Detaches(get, reread, put, wait, err, calls)
  {
    var parsed := ParseSubnetID(id);
    if parsed.Err? {
      return Some(parsed.error), [];
    }
    err, calls := Detach(get, reread, put, wait);
  }

  /** A write-back never carries a route table reference, so the association is gone once it succeeds. */
  lemma ReleaseClears(reread: Reply<Subnet>, put: Reply<()>, wait: Reply<()>, err: Option<Error>, calls: seq<AssociationCall>)
    requires Releases(reread, put, wait, err, calls)
    ensures forall i :: 0 <= i < |calls| && calls[i].Put? ==>
      calls[i].body.properties.Some? && calls[i].body.properties.value.routeTable.None?
  {
  }
}
