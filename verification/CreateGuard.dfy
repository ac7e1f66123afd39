/** Create validates its own row and no other.  That is enough for the whole graph with one exception: a router
    interface that puts a next hop of its router on a second link. */
module CreateGuard {
  import opened Ports
  import opened Model
  import opened Graph

  /** What Create has established of the row it is about to store. */
  ghost predicate Admitted(r: Rules, rows: Rows, key: Key, row: Row) {
    && key !in rows && key.id != "" && KindOf(row.body) == key.kind && Shape(row.body) && row.meta.state == Pending
    && Passes(r, rows, key.id, row.body) && NewReferencesUsable(rows, row.body, None)
  }

  ghost predicate Sound(r: Rules, rows: Rows) {
    Typed(rows) && AllPass(r, rows) && forall k :: k in rows ==> Shape(rows[k].body)
  }

  // ---------------------------------------------------------------- rows that only need others to exist

  lemma ChassisStays(rows: Rows, key: Key, row: Row, c: string)
    requires key !in rows && HasChassis(rows, c)
    ensures HasChassis(rows[key := row], c)
  {
    var k :| k in rows && k.kind == KindNode && rows[k].body.Node? && rows[k].body.chassisId == c;
    assert rows[key := row][k] == rows[k];
  }

  lemma PortStays(r: Rules, rows: Rows, key: Key, row: Row, p: Port)
    requires key !in rows && PortPasses(r, rows, p)
    ensures PortPasses(r, rows[key := row], p)
  {
    forall c | c in p.chassis && HasChassis(rows, c) ensures HasChassis(rows[key := row], c) {
      ChassisStays(rows, key, row, c);
    }
  }

  lemma AddressStays(r: Rules, rows: Rows, key: Key, row: Row, provider: string, address: string)
    requires key !in rows && ProviderHasAddress(r, rows, provider, address, "")
    ensures ProviderHasAddress(r, rows[key := row], provider, address, "")
  {
    var k :| k in rows && Offers(r, rows, k, provider, address) && k.id != "";
    assert Offers(r, rows[key := row], k, provider, address);
  }

  lemma PathStays(rows: Rows, key: Key, row: Row, routerId: string, p: Port, address: string)
    requires key !in rows && Reaches(rows, routerId, p, address)
    ensures Reaches(rows[key := row], routerId, p, address)
  {
    var k :| k in rows && k.kind == KindRouterInterface && rows[k].body.RouterInterface?
          && rows[k].body.routerId == routerId && HasFixedIP(p, rows[k].body.subnetId, address);
    assert rows[key := row][k] == rows[k];
  }

  lemma FloatingStays(r: Rules, rows: Rows, key: Key, row: Row, b: Body)
    requires key !in rows && b.FloatingIP? && FloatingPasses(r, rows, b)
    ensures FloatingPasses(r, rows[key := row], b)
  {
    AddressStays(r, rows, key, row, b.providerNetworkId, b.address);
    if b.portId != "" {
      PathStays(rows, key, row, b.routerId, rows[Key(KindPort, b.portId)].body.port, b.fixedIp);
    }
  }

  /** One more row invalidates no row but routers. */
  lemma RowStays(r: Rules, rows: Rows, key: Key, row: Row, id: string, b: Body)
    requires key !in rows && !b.Router? && Passes(r, rows, id, b)
    ensures Passes(r, rows[key := row], id, b)
  {
    match b
    case PortBody(p) => PortStays(r, rows, key, row, p);
    case FloatingIP(_, _, _, _, _, _) => FloatingStays(r, rows, key, row, b);
    case _ =>
  }

  // ---------------------------------------------------------------- static routes

  /** The new interface puts the route's next hop on its own link. */
  predicate AddsLink(r: Rules, rows: Rows, row: Row, routerId: string, route: StaticRoute) {
    && row.body.RouterInterface? && row.body.routerId == routerId && IsSubnet(rows, row.body.subnetId)
    && OnLink(r, SubnetAt(rows, row.body.subnetId).body, route.nextHop)
  }

  lemma CarrierStays(r: Rules, rows: Rows, key: Key, row: Row, routerId: string, k: Key, route: StaticRoute)
    requires Sound(r, rows) && Admitted(r, rows, key, row) && k != key
    ensures CarriesRoute(r, rows[key := row], routerId, k, route) <==> CarriesRoute(r, rows, routerId, k, route)
  {
    if k in rows && k.kind == KindRouterInterface && rows[k].body.RouterInterface? {
      assert Passes(r, rows, k.id, rows[k].body);
    }
  }

  lemma NewCarrier(r: Rules, rows: Rows, key: Key, row: Row, routerId: string, route: StaticRoute)
    requires Sound(r, rows) && Admitted(r, rows, key, row)
    ensures CarriesRoute(r, rows[key := row], routerId, key, route) <==> AddsLink(r, rows, row, routerId, route)
  {
    if row.body.RouterInterface? {
      var subnet := Key(KindSubnet, row.body.subnetId);
      assert References(row.body, subnet.kind, subnet.id);
    }
  }

  /** The carriers of a route after the create: those before, and the new interface if it adds a link. */
  lemma CarriersAfterCreate(r: Rules, rows: Rows, key: Key, row: Row, routerId: string, route: StaticRoute)
    requires Sound(r, rows) && Admitted(r, rows, key, row)
    ensures |Carriers(r, rows[key := row], routerId, route)| ==
              |Carriers(r, rows, routerId, route)| + if AddsLink(r, rows, row, routerId, route) then 1 else 0
  {
    var after := rows[key := row];
    NewCarrier(r, rows, key, row, routerId, route);
    forall k | k != key ensures k in Carriers(r, after, routerId, route) <==> k in Carriers(r, rows, routerId, route) {
      CarrierStays(r, rows, key, row, routerId, k, route);
    }
    if AddsLink(r, rows, row, routerId, route) {
      assert Carriers(r, after, routerId, route) == Carriers(r, rows, routerId, route) + {key};
    } else {
      assert Carriers(r, after, routerId, route) == Carriers(r, rows, routerId, route);
    }
  }

  lemma UplinkStays(r: Rules, rows: Rows, key: Key, row: Row, router: Body, route: StaticRoute)
    requires key !in rows && router.Router? && Shape(router)
    requires router.externalNetworkId != "" ==> IsSubnet(rows, router.externalSubnetId)
    ensures UplinkCarries(r, rows[key := row], router, route) <==> UplinkCarries(r, rows, router, route)
  {
  }

  /** No route of the router gets a second link. */
  predicate AddsNoLink(r: Rules, rows: Rows, row: Row, routerId: string, router: Body)
    requires router.Router?
  {
    forall i :: 0 <= i < |router.routes| ==> !AddsLink(r, rows, row, routerId, router.routes[i])
  }

  lemma RouterStaysIff(r: Rules, rows: Rows, key: Key, row: Row, id: string, router: Body)
    requires Sound(r, rows) && Admitted(r, rows, key, row) && router.Router? && Shape(router)
    requires RouterPasses(r, rows, id, router)
    ensures RouterPasses(r, rows[key := row], id, router) <==> AddsNoLink(r, rows, row, id, router)
  {
    forall i | 0 <= i < |router.routes|
      ensures UplinkCarries(r, rows[key := row], router, router.routes[i]) <==>
          UplinkCarries(r, rows, router, router.routes[i])
      ensures |Carriers(r, rows[key := row], id, router.routes[i])| ==
                |Carriers(r, rows, id, router.routes[i])|
                + if AddsLink(r, rows, row, id, router.routes[i]) then 1 else 0
    {
      UplinkStays(r, rows, key, row, router, router.routes[i]);
      CarriersAfterCreate(r, rows, key, row, id, router.routes[i]);
    }
  }

  // ---------------------------------------------------------------- main result

  /** The new row is no interface, or its subnet has no next hop of its router on link. */
  predicate KeepsRoutes(r: Rules, rows: Rows, row: Row) {
    row.body.RouterInterface? && IsRouter(rows, row.body.routerId) ==>
      AddsNoLink(r, rows, row, row.body.routerId, rows[Key(KindRouter, row.body.routerId)].body)
  }

  lemma RouterOfOtherId(r: Rules, rows: Rows, row: Row, k: Key)
    requires k in rows && rows[k].body.Router? && (row.body.RouterInterface? ==> row.body.routerId != k.id)
    ensures AddsNoLink(r, rows, row, k.id, rows[k].body)
  {
  }

  /** Main result: a create keeps every row of a valid graph valid if and only if it does not add a router
      interface on whose link a next hop of its router lies. */
  lemma CreateKeepsGraphIff(r: Rules, rows: Rows, key: Key, row: Row)
    requires Sound(r, rows) && Admitted(r, rows, key, row)
    ensures AllPass(r, rows[key := row]) <==> KeepsRoutes(r, rows, row)
  {
    var after := rows[key := row];
    forall k | k in rows
      ensures Passes(r, after, k.id, after[k].body) <==>
                (rows[k].body.Router? ==> AddsNoLink(r, rows, row, k.id, rows[k].body))
    {
      if rows[k].body.Router? {
        RouterStaysIff(r, rows, key, row, k.id, rows[k].body);
      } else {
        RowStays(r, rows, key, row, k.id, rows[k].body);
      }
    }
    NewRowPasses(r, rows, key, row);
    RoutesDecide(r, rows, row);
  }

  lemma NewRowPasses(r: Rules, rows: Rows, key: Key, row: Row)
    requires Sound(r, rows) && Admitted(r, rows, key, row)
    ensures Passes(r, rows[key := row], key.id, row.body)
  {
    if row.body.Router? {
      RouterStaysIff(r, rows, key, row, key.id, row.body);
    } else {
      RowStays(r, rows, key, row, key.id, row.body);
    }
  }

  /** Only the interface's own router can be affected. */
  lemma RoutesDecide(r: Rules, rows: Rows, row: Row)
    requires Typed(rows)
    ensures KeepsRoutes(r, rows, row) <==>
              forall k :: k in rows && rows[k].body.Router? ==> AddsNoLink(r, rows, row, k.id, rows[k].body)
  {
    forall k | k in rows && rows[k].body.Router?
      ensures KeepsRoutes(r, rows, row) ==>
        AddsNoLink(r, rows, row, k.id, rows[k].body)
    {
      assert k == Key(KindRouter, k.id);
      if !(row.body.RouterInterface? && row.body.routerId == k.id) {
        RouterOfOtherId(r, rows, row, k);
      }
    }
  }
}
