/** The delete guard and the graph validator agree: a row that the guard lets go
    can be marked and removed without invalidating any other row.  Nodes are the
    exception, because ports refer to them only weakly. */
module DeleteGuard {
  import opened Ports
  import opened Model
  import opened Graph

  /** What BeginDelete stores in place of a row. */
  function Tombstone(row: Row, now: int): Row {
    Row(row.meta.(revision := row.meta.revision + 1, state := Deleting, lastError := "", updatedAt := now),
        if row.body.FloatingIP? then row.body.(floating := Down) else row.body)
  }

  /** `after` is `before` with the row `key` marked for deletion or gone. */
  predicate Weakened(before: Rows, after: Rows, key: Key) {
    && key in before
    && (forall k :: k in before && k != key ==> k in after && after[k] == before[k])
    && (forall k :: k in after ==> k in before)
    && (key in after ==> after[key] == Tombstone(before[key], after[key].meta.updatedAt))
  }

  // ---------------------------------------------------------------- what the graph itself needs

  /** A live interface with a next hop of its router on its link: the route leaves through it. */
  ghost predicate CarriesSomeRoute(r: Rules, rows: Rows, key: Key) {
    && key in rows && key.kind == KindRouterInterface && rows[key].body.RouterInterface?
    && rows[key].meta.state != Deleting
    && IsRouter(rows, rows[key].body.routerId) && IsSubnet(rows, rows[key].body.subnetId)
    && exists i :: 0 <= i < |rows[Key(KindRouter, rows[key].body.routerId)].body.routes|
         && OnLink(r, SubnetAt(rows, rows[key].body.subnetId).body,
                   rows[Key(KindRouter, rows[key].body.routerId)].body.routes[i].nextHop)
  }

  /** The interface leads from the router of the floating IP to its fixed address. */
  predicate LeadsTo(rows: Rows, key: Key, fip: Key) {
    && key in rows && key.kind == KindRouterInterface && rows[key].body.RouterInterface?
    && fip in rows && fip.kind == KindFloatingIP && rows[fip].body.FloatingIP? && rows[fip].body.portId != ""
    && rows[key].body.routerId == rows[fip].body.routerId && IsPort(rows, rows[fip].body.portId)
    && HasFixedIP(rows[Key(KindPort, rows[fip].body.portId)].body.port, rows[key].body.subnetId,
                  rows[fip].body.fixedIp)
  }

  /** No other interface does. */
  ghost predicate IsOnlyPath(rows: Rows, key: Key, fip: Key) {
    LeadsTo(rows, key, fip) && forall k :: LeadsTo(rows, k, fip) ==> k == key
  }

  /** Some other row is valid only because of this one. */
  ghost predicate Needed(r: Rules, rows: Rows, key: Key) {
    || StronglyReferenced(rows, key)
    || SubnetInUse(r, rows, key)
    || CarriesSomeRoute(r, rows, key)
    || exists fip :: IsOnlyPath(rows, key, fip)
  }

  /** What the guard lets go is not needed. */
  lemma UnusedIsUnneeded(r: Rules, rows: Rows, key: Key)
    requires !InUse(r, rows, key)
    ensures !Needed(r, rows, key)
  {
    assert CarriesSomeRoute(r, rows, key) ==> InterfaceInUse(r, rows, key);
    forall fip ensures !IsOnlyPath(rows, key, fip) {
      assert LeadsTo(rows, key, fip) ==> InterfaceInUse(r, rows, key);
    }
  }

  // ---------------------------------------------------------------- removing what is not needed

  lemma OffersAfter(r: Rules, before: Rows, after: Rows, key: Key, k: Key, provider: string, address: string)
    requires Typed(before) && Weakened(before, after, key) && !StronglyReferenced(before, key)
    requires k != key && Offers(r, before, k, provider, address)
    ensures Offers(r, after, k, provider, address)
  {
    var network := Key(KindNetwork, before[k].body.networkId);
    assert References(before[k].body, network.kind, network.id);
    assert network != key;
  }

  lemma CarriesAfter(r: Rules, before: Rows, after: Rows, key: Key, routerId: string, k: Key, route: StaticRoute)
    requires Typed(before) && Weakened(before, after, key) && !StronglyReferenced(before, key)
    requires k != key
    ensures CarriesRoute(r, before, routerId, k, route) <==> CarriesRoute(r, after, routerId, k, route)
  {
    if k in before && k.kind == KindRouterInterface {
      var subnet := Key(KindSubnet, before[k].body.subnetId);
      assert References(before[k].body, subnet.kind, subnet.id);
      assert subnet != key;
    }
  }

  /** Deleting an interface that is not in use takes no carrier away from its router. */
  lemma RoutesAfter(r: Rules, before: Rows, after: Rows, key: Key, router: Key)
    requires Typed(before) && Weakened(before, after, key) && !StronglyReferenced(before, key)
      && !CarriesSomeRoute(r, before, key)
    requires router in before && router.kind == KindRouter
    requires before[router].body.Router? && RoutesOk(r, before, router.id, before[router].body)
    requires before[router].body.externalSubnetId == "" || IsSubnet(before, before[router].body.externalSubnetId)
    ensures RoutesOk(r, after, router.id, before[router].body)
  {
    var b := before[router].body;
    forall i | 0 <= i < |b.routes|
      ensures Carriers(r, before, router.id, b.routes[i]) == Carriers(r, after, router.id, b.routes[i])
      ensures UplinkCarries(r, before, b, b.routes[i]) == UplinkCarries(r, after, b, b.routes[i])
    {
      forall k | k != key
        ensures CarriesRoute(r, before, router.id, k, b.routes[i]) <==>
            CarriesRoute(r, after, router.id, k, b.routes[i])
      {
        CarriesAfter(r, before, after, key, router.id, k, b.routes[i]);
      }
      assert CarriesRoute(r, before, router.id, key, b.routes[i]) ==> CarriesSomeRoute(r, before, key);
      assert !CarriesRoute(r, after, router.id, key, b.routes[i]);
      if b.externalSubnetId != "" {
        var subnet := Key(KindSubnet, b.externalSubnetId);
        assert References(b, subnet.kind, subnet.id);
        assert subnet != key;
      }
    }
  }

  lemma RouterAfter(r: Rules, before: Rows, after: Rows, key: Key, router: Key)
    requires Typed(before) && Weakened(before, after, key) && !StronglyReferenced(before, key)
      && !CarriesSomeRoute(r, before, key)
    requires router in before && router.kind == KindRouter && before[router].body.Router?
    requires Shape(before[router].body)
    requires RouterPasses(r, before, router.id, before[router].body)
    ensures RouterPasses(r, after, router.id, before[router].body)
  {
    var b := before[router].body;
    RoutesAfter(r, before, after, key, router);
    if b.externalNetworkId != "" {
      var network := Key(KindNetwork, b.externalNetworkId);
      var subnet := Key(KindSubnet, b.externalSubnetId);
      var provider := Key(KindProviderNetwork, before[network].body.providerNetworkId);
      assert References(b, network.kind, network.id) && References(b, subnet.kind, subnet.id);
      assert References(before[network].body, provider.kind, provider.id);
      assert network != key && subnet != key;
      assert provider != key;
    }
  }

  lemma PortAfter(r: Rules, before: Rows, after: Rows, key: Key, port: Key)
    requires Typed(before) && Weakened(before, after, key) && !StronglyReferenced(before, key) && key.kind != KindNode
    requires port in before && before[port].body.PortBody?
    requires PortPasses(r, before, before[port].body.port)
    ensures PortPasses(r, after, before[port].body.port)
  {
    var p := before[port].body.port;
    assert References(before[port].body, KindNetwork, p.networkId);
    assert Key(KindNetwork, p.networkId) != key;
    forall i | 0 <= i < |p.fixedIPs| ensures Key(KindSubnet, p.fixedIPs[i].subnetId) != key {
      assert References(before[port].body, KindSubnet, p.fixedIPs[i].subnetId);
    }
    forall g | g in p.groups ensures Key(KindSecurityGroup, g) != key {
      assert References(before[port].body, KindSecurityGroup, g);
    }
    forall c | HasChassis(before, c) ensures HasChassis(after, c) {
      var k :| k in before && k.kind == KindNode && before[k].body.Node? && before[k].body.chassisId == c;
      assert k in after && after[k] == before[k];
    }
  }

  lemma RouterServesAfter(r: Rules, before: Rows, after: Rows, key: Key, routerId: string, provider: string,
                          address: string)
    requires Typed(before) && Weakened(before, after, key) && !StronglyReferenced(before, key)
    requires Key(KindRouter, routerId) != key && RouterServes(r, before, routerId, provider, address)
    ensures RouterServes(r, after, routerId, provider, address)
  {
    var router := before[Key(KindRouter, routerId)].body;
    assert References(router, KindNetwork, router.externalNetworkId);
    assert References(router, KindSubnet, router.externalSubnetId);
  }

  lemma FloatingAfter(r: Rules, before: Rows, after: Rows, key: Key, fip: Key)
    requires Typed(before) && Weakened(before, after, key) && !StronglyReferenced(before, key)
      && !SubnetInUse(r, before, key) && !IsOnlyPath(before, key, fip)
    requires fip in before && fip.kind == KindFloatingIP && before[fip].body.FloatingIP?
    requires FloatingPasses(r, before, before[fip].body)
    ensures FloatingPasses(r, after, before[fip].body)
  {
    var b := before[fip].body;
    assert References(b, KindProviderNetwork, b.providerNetworkId);
    FloatingAddressAfter(r, before, after, key, fip);
    if b.routerId != "" {
      var routerKey := Key(KindRouter, b.routerId);
      assert References(b, routerKey.kind, routerKey.id);
      RouterServesAfter(r, before, after, key, b.routerId, b.providerNetworkId, b.address);
    }
    if b.portId != "" {
      assert References(b, KindPort, b.portId);
      FloatingPathAfter(r, before, after, key, fip);
    }
  }

  /** Some subnet still serves the address: the guard looked for another one. */
  lemma FloatingAddressAfter(r: Rules, before: Rows, after: Rows, key: Key, fip: Key)
    requires Typed(before) && Weakened(before, after, key) && !StronglyReferenced(before, key)
      && !SubnetInUse(r, before, key)
    requires fip in before && fip.kind == KindFloatingIP && before[fip].body.FloatingIP?
    requires Key(KindProviderNetwork, before[fip].body.providerNetworkId) in before
    requires ProviderHasAddress(r, before, before[fip].body.providerNetworkId, before[fip].body.address, "")
    ensures ProviderHasAddress(r, after, before[fip].body.providerNetworkId, before[fip].body.address, "")
  {
    var b := before[fip].body;
    var k :| k in before && Offers(r, before, k, b.providerNetworkId, b.address) && k.id != "";
    if k == key {
      k :| k in before && Offers(r, before, k, b.providerNetworkId, b.address) && k.id != key.id;
    }
    OffersAfter(r, before, after, key, k, b.providerNetworkId, b.address);
  }

  /** Some interface still leads from the router to the port's address. */
  lemma FloatingPathAfter(r: Rules, before: Rows, after: Rows, key: Key, fip: Key)
    requires Typed(before) && Weakened(before, after, key) && !IsOnlyPath(before, key, fip)
    requires fip in before && fip.kind == KindFloatingIP && before[fip].body.FloatingIP?
    requires before[fip].body.portId != "" && IsPort(before, before[fip].body.portId)
    requires Reaches(before, before[fip].body.routerId, before[Key(KindPort, before[fip].body.portId)].body.port,
                     before[fip].body.fixedIp)
    ensures Reaches(after, before[fip].body.routerId, before[Key(KindPort, before[fip].body.portId)].body.port,
                    before[fip].body.fixedIp)
  {
    var b := before[fip].body;
    var p := before[Key(KindPort, b.portId)].body.port;
    var k :| k in before && k.kind == KindRouterInterface && before[k].body.RouterInterface?
          && before[k].body.routerId == b.routerId && HasFixedIP(p, before[k].body.subnetId, b.fixedIp);
    assert LeadsTo(before, k, fip);
    if k == key {
      k :| LeadsTo(before, k, fip) && k != key;
    }
    assert after[k] == before[k];
  }

  lemma PlainRowAfter(r: Rules, before: Rows, after: Rows, key: Key, k: Key)
    requires Typed(before) && Weakened(before, after, key) && !StronglyReferenced(before, key)
    requires k in before && Passes(r, before, k.id, before[k].body)
    requires !before[k].body.PortBody? && !before[k].body.Router? && !before[k].body.FloatingIP?
    ensures Passes(r, after, k.id, before[k].body)
  {
    var b := before[k].body;
    assert !References(b, key.kind, key.id);
    if b.RouterInterface? {
      var subnet := before[Key(KindSubnet, b.subnetId)].body;
      assert References(subnet, KindNetwork, subnet.networkId);
    }
  }

  lemma RowAfter(r: Rules, before: Rows, after: Rows, key: Key, k: Key)
    requires Typed(before) && Weakened(before, after, key) && !Needed(r, before, key)
    requires k in before && Shape(before[k].body) && Passes(r, before, k.id, before[k].body)
    requires key.kind != KindNode || !before[k].body.PortBody?
    ensures Passes(r, after, k.id, before[k].body)
  {
    match before[k].body
    case PortBody(_) => PortAfter(r, before, after, key, k);
    case Router(_, _, _, _, _) => RouterAfter(r, before, after, key, k);
    case FloatingIP(_, _, _, _, _, _) => FloatingAfter(r, before, after, key, k);
    case _ => PlainRowAfter(r, before, after, key, k);
  }

  /** Main result: whatever the guard lets go, of any kind but Node, can be marked
      (BeginDelete) and removed (Purge) with every row left standing still valid:
      references, static-route reachability, and floating-IP address and path. */
  lemma GuardedDeleteKeepsGraph(r: Rules, rows: Rows, key: Key, now: int)
    requires Typed(rows) && AllPass(r, rows) && (forall k :: k in rows ==> Shape(rows[k].body))
    requires key in rows && key.kind != KindNode && !InUse(r, rows, key)
    ensures AllPass(r, rows[key := Tombstone(rows[key], now)])
    ensures AllPass(r, rows - {key})
  {
    var marked, purged := rows[key := Tombstone(rows[key], now)], rows - {key};
    UnusedIsUnneeded(r, rows, key);
    forall k | k in rows
      ensures Passes(r, marked, k.id, marked[k].body)
      ensures k != key ==> Passes(r, purged, k.id, purged[k].body)
    {
      RowAfter(r, rows, marked, key, k);
      RowAfter(r, rows, purged, key, k);
      assert k == key && rows[k].body.FloatingIP? ==> FloatingPasses(r, marked, marked[k].body);
    }
  }

  /** A port holds on to a node through its node ID or through one of its chassis. */
  predicate Uses(p: Port, nodeId: string, chassis: string) {
    p.nodeId == nodeId || chassis in p.chassis
  }

  /** Chassis IDs are unique, so a chassis goes away with its node and no other does. */
  lemma ChassisWithoutNode(r: Rules, rows: Rows, key: Key, c: string)
    requires Typed(rows) && AllUnique(r, rows) && key in rows && key.kind == KindNode
    ensures HasChassis(rows - {key}, c) <==> HasChassis(rows, c) && c != rows[key].body.chassisId
  {
    if HasChassis(rows, c) {
      var k :| k in rows && k.kind == KindNode && rows[k].body.Node? && rows[k].body.chassisId == c;
      assert UniqueAt(r, rows, key, rows[key].body);
      if k != key {
        assert k in rows - {key};
      }
    }
  }

  lemma RowWithoutNode(r: Rules, rows: Rows, key: Key, k: Key)
    requires Typed(rows) && AllUnique(r, rows) && key in rows && key.kind == KindNode
    requires k in rows && k != key && Shape(rows[k].body) && Passes(r, rows, k.id, rows[k].body)
    ensures Passes(r, rows - {key}, k.id, rows[k].body) <==>
            (rows[k].body.PortBody? ==> !Uses(rows[k].body.port, key.id, rows[key].body.chassisId))
  {
    if rows[k].body.PortBody? {
      var p := rows[k].body.port;
      forall c ensures HasChassis(rows - {key}, c) <==> HasChassis(rows, c) && c != rows[key].body.chassisId {
        ChassisWithoutNode(r, rows, key, c);
      }
      PortWithoutNode(r, rows, key, p);
    } else {
      NodesAreUnreferenced(r, rows, key);
      UnusedIsUnneeded(r, rows, key);
      RowAfter(r, rows, rows - {key}, key, k);
    }
  }

  lemma PortWithoutNode(r: Rules, rows: Rows, key: Key, p: Port)
    requires Typed(rows) && key in rows && key.kind == KindNode && PortPasses(r, rows, p)
    requires forall c :: HasChassis(rows - {key}, c) <==> HasChassis(rows, c) && c != rows[key].body.chassisId
    ensures PortPasses(r, rows - {key}, p) <==> !Uses(p, key.id, rows[key].body.chassisId)
  {
  }

  /** References to nodes are weak: the guard finds no referrer of a node, ever. */
  lemma NodesAreUnreferenced(r: Rules, rows: Rows, key: Key)
    requires Typed(rows) && key.kind == KindNode
    ensures !InUse(r, rows, key)
  {
  }

  /** For a Node the guard is too weak.  Removing a node keeps the graph valid exactly
      when no port uses it, which the guard never asks. */
  lemma NodePurgeKeepsGraphIff(r: Rules, rows: Rows, key: Key)
    requires Typed(rows) && AllPass(r, rows) && AllUnique(r, rows) && (forall k :: k in rows ==> Shape(rows[k].body))
    requires key in rows && key.kind == KindNode
    ensures AllPass(r, rows - {key}) <==>
            forall k :: k in rows && rows[k].body.PortBody? ==>
                !Uses(rows[k].body.port, key.id, rows[key].body.chassisId)
  {
    var after := rows - {key};
    forall k | k in rows && k != key
      ensures Passes(r, after, k.id, after[k].body) <==>
              (rows[k].body.PortBody? ==> !Uses(rows[k].body.port, key.id, rows[key].body.chassisId))
    {
      RowWithoutNode(r, rows, key, k);
    }
  }
}
