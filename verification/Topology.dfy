/** What a valid graph and a unique table mean for the network they describe, without the validator's own terms. */
module Topology {
  import opened Ports
  import opened Model
  import opened Graph

  // ---------------------------------------------------------------- uniqueness

  lemma NoConflict(r: Rules, rows: Rows, k: Key, l: Key)
    requires Typed(rows) && AllUnique(r, rows) && k in rows && l in rows && k != l && k.kind == l.kind
    ensures !Conflicts(r, rows[k].body, rows[l].body)
  {
    assert UniqueAt(r, rows, k, rows[k].body);
  }

  /** No two ports share a MAC address, a logical switch port, a NIC of a VM on a node, or a fixed address. */
  lemma PortsAreDistinct(r: Rules, rows: Rows, k: Key, l: Key)
    requires Typed(rows) && AllUnique(r, rows) && k in rows && l in rows && k != l && k.kind == KindPort
      && l.kind == KindPort
    ensures var p, q := rows[k].body.port, rows[l].body.port;
            && (p.mac == q.mac ==> p.mac == "")
            && (p.lspName == q.lspName ==> p.lspName == "")
            && (p.nodeId == q.nodeId && p.vmid == q.vmid && p.nic == q.nic ==>
                p.nodeId == "" || p.vmid <= 0 || p.nic == "")
            && (forall i, j :: 0 <= i < |p.fixedIPs| && 0 <= j < |q.fixedIPs| && p.fixedIPs[i].address != "" ==>
                  p.fixedIPs[i].subnetId != q.fixedIPs[j].subnetId || p.fixedIPs[i].address != q.fixedIPs[j].address)
  {
    NoConflict(r, rows, k, l);
    var p, q := rows[k].body.port, rows[l].body.port;
    forall i, j | 0 <= i < |p.fixedIPs| && 0 <= j < |q.fixedIPs| && p.fixedIPs[i] == q.fixedIPs[j]
      ensures p.fixedIPs[i].address == ""
    {
      assert p.fixedIPs[i] in p.fixedIPs && p.fixedIPs[i] in q.fixedIPs;
    }
  }

  /** Names are unique where the API promises it: per kind, for subnets per network, for segments per provider. */
  lemma NamesAreUnique(r: Rules, rows: Rows, k: Key, l: Key)
    requires Typed(rows) && AllUnique(r, rows) && k in rows && l in rows && k != l && k.kind == l.kind
    ensures k.kind in {KindNetwork, KindRouter, KindProviderNetwork, KindSecurityGroup, KindNode} ==>
              rows[k].body.name != rows[l].body.name
    ensures k.kind == KindSubnet && rows[k].body.networkId == rows[l].body.networkId ==>
              && rows[k].body.name != rows[l].body.name
              && !r.contains(rows[k].body.cidr, rows[l].body.cidr) && !r.contains(rows[l].body.cidr, rows[k].body.cidr)
    ensures k.kind == KindProviderSegment && rows[k].body.providerNetworkId == rows[l].body.providerNetworkId ==>
              rows[k].body.name != rows[l].body.name
    ensures k.kind == KindNode ==> rows[k].body.chassisId != rows[l].body.chassisId
  {
    NoConflict(r, rows, k, l);
  }

  /** Allocations, interfaces, floating addresses, physical segments and operations are unique. */
  lemma AssignmentsAreUnique(r: Rules, rows: Rows, k: Key, l: Key)
    requires Typed(rows) && AllUnique(r, rows) && k in rows && l in rows && k != l && k.kind == l.kind
    ensures k.kind == KindIPAllocation && rows[k].body.subnetId == rows[l].body.subnetId ==>
              rows[k].body.address != rows[l].body.address
    ensures k.kind == KindRouterInterface && rows[k].body.routerId == rows[l].body.routerId ==>
              rows[k].body.subnetId != rows[l].body.subnetId
    ensures k.kind == KindFloatingIP && rows[k].body.providerNetworkId == rows[l].body.providerNetworkId ==>
              rows[k].body.address != rows[l].body.address
    ensures k.kind == KindProviderSegment ==>
              || rows[k].body.physicalNetwork != rows[l].body.physicalNetwork || rows[k].body.vlan != rows[l].body.vlan
              || rows[k].body.vlanId != rows[l].body.vlanId
    ensures k.kind == KindOperation ==>
              var o, p := rows[k].body.op, rows[l].body.op;
              && o.idempotencyKey != p.idempotencyKey
              && (o.targetKind != p.targetKind || o.targetId != p.targetId || o.targetRevision != p.targetRevision)
  {
    NoConflict(r, rows, k, l);
  }

  /** The provider network behind a network, or nothing. */
  predicate IsBehind(rows: Rows, networkId: string, provider: string) {
    && provider != "" && Key(KindNetwork, networkId) in rows && rows[Key(KindNetwork, networkId)].body.Network?
    && rows[Key(KindNetwork, networkId)].body.providerNetworkId == provider
  }

  /** The row occupies the address on the provider network: as the gateway of a subnet, the uplink of a router or a
      floating IP. */
  predicate Occupies(r: Rules, rows: Rows, k: Key, provider: string, address: string) {
    && k in rows && address != "" && provider != ""
    && match rows[k].body
       case Subnet(network, _, _, _, _) => IsBehind(rows, network, provider) && r.gateway(rows[k].body) == Some(address)
       case Router(_, network, _, ip, _) => IsBehind(rows, network, provider) && ip == address
       case FloatingIP(p, a, _, _, _, _) => p == provider && a == address
       case _ => false
  }

  /** Main result on addresses: no address of a provider network is occupied twice, across all kinds of row. */
  lemma ProviderAddressesAreDisjoint(r: Rules, rows: Rows, k: Key, l: Key, provider: string, address: string)
    requires Typed(rows) && AllUnique(r, rows) && Occupies(r, rows, k, provider, address)
      && Occupies(r, rows, l, provider, address)
    ensures k == l
  {
    OccupantsClaim(r, rows, k, provider, address);
    OccupantsClaim(r, rows, l, provider, address);
    assert UniqueAt(r, rows, k, rows[k].body);
  }

  lemma OccupantsClaim(r: Rules, rows: Rows, k: Key, provider: string, address: string)
    requires Occupies(r, rows, k, provider, address)
    ensures ClaimOf(r, rows, rows[k].body) == Some(AddressClaim(provider, address))
  {
  }

  // ---------------------------------------------------------------- connectivity

  /** A port in a valid graph: its network is a tenant network, its addresses come from subnets of that network, and
      its node, if any, is registered with one of its chassis. */
  lemma PortIsPlaced(r: Rules, rows: Rows, k: Key)
    requires Typed(rows) && AllPass(r, rows) && k in rows && k.kind == KindPort
    ensures var p := rows[k].body.port;
            && Key(KindNetwork, p.networkId) in rows
            && var network := rows[Key(KindNetwork, p.networkId)].body;
               && network.Network? && !network.external && network.providerNetworkId == ""
               && (forall i :: 0 <= i < |p.fixedIPs| ==>
                     && Key(KindSubnet, p.fixedIPs[i].subnetId) in rows
                     && var subnet := rows[Key(KindSubnet, p.fixedIPs[i].subnetId)].body;
                        && subnet.Subnet? && subnet.networkId == p.networkId
                        && (p.fixedIPs[i].address != "" ==> r.allocatable(subnet, p.fixedIPs[i].address)))
               && |p.groups| > 0 && (forall g :: g in p.groups ==> Key(KindSecurityGroup, g) in rows)
               && (p.nodeId == "" ==> p.chassis == [])
               && (p.nodeId != "" ==>
                     && Key(KindNode, p.nodeId) in rows && rows[Key(KindNode, p.nodeId)].body.Node?
                     && (p.chassis == [] || rows[Key(KindNode, p.nodeId)].body.chassisId in p.chassis)
                     && forall c :: c in p.chassis ==>
                          exists n :: n in rows && n.kind == KindNode && rows[n].body.Node?
                            && rows[n].body.chassisId == c)
  {
    assert Passes(r, rows, k.id, rows[k].body);
    var p := rows[k].body.port;
    forall c | p.nodeId != "" && c in p.chassis
      ensures exists n :: n in rows && n.kind == KindNode && rows[n].body.Node? && rows[n].body.chassisId == c
    {
      assert HasChassis(rows, c);
    }
  }

  /** An allocation in a valid graph: the address is one of its subnet, and the port it names has it, on that subnet, in
      the network of that subnet. */
  lemma AllocationIsUsed(r: Rules, rows: Rows, k: Key)
    requires Typed(rows) && AllPass(r, rows) && k in rows && k.kind == KindIPAllocation
    ensures var a := rows[k].body;
            && Key(KindSubnet, a.subnetId) in rows && rows[Key(KindSubnet, a.subnetId)].body.Subnet?
            && r.allocatable(rows[Key(KindSubnet, a.subnetId)].body, a.address)
            && (a.portId != "" ==>
                  && Key(KindPort, a.portId) in rows && rows[Key(KindPort, a.portId)].body.PortBody?
                  && var p := rows[Key(KindPort, a.portId)].body.port;
                     && p.networkId == rows[Key(KindSubnet, a.subnetId)].body.networkId
                     && exists i :: 0 <= i < |p.fixedIPs| && p.fixedIPs[i].subnetId == a.subnetId
                          && p.fixedIPs[i].address == a.address)
  {
    assert Passes(r, rows, k.id, rows[k].body);
    var a := rows[k].body;
    if a.portId != "" {
      var p := rows[Key(KindPort, a.portId)].body.port;
      assert FixedIP(a.subnetId, a.address) in p.fixedIPs;
      var i :| 0 <= i < |p.fixedIPs| && p.fixedIPs[i] == FixedIP(a.subnetId, a.address);
    }
  }

  /** An interface in a valid graph joins a router and a subnet of a network that is not external. */
  lemma InterfaceJoins(r: Rules, rows: Rows, k: Key)
    requires Typed(rows) && AllPass(r, rows) && k in rows && k.kind == KindRouterInterface
    ensures var i := rows[k].body;
            && Key(KindRouter, i.routerId) in rows && rows[Key(KindRouter, i.routerId)].body.Router?
            && Key(KindSubnet, i.subnetId) in rows && rows[Key(KindSubnet, i.subnetId)].body.Subnet?
            && var n := Key(KindNetwork, rows[Key(KindSubnet, i.subnetId)].body.networkId);
               && n in rows && rows[n].body.Network? && !rows[n].body.external
               && (i.portId != "" ==>
                     && Key(KindPort, i.portId) in rows && rows[Key(KindPort, i.portId)].body.PortBody?
                     && rows[Key(KindPort, i.portId)].body.port.networkId == n.id
                     && var p := rows[Key(KindPort, i.portId)].body.port;
                        exists j :: 0 <= j < |p.fixedIPs| && p.fixedIPs[j].subnetId == i.subnetId)
  {
    assert Passes(r, rows, k.id, rows[k].body);
  }

  /** The uplink of a router in a valid graph: an external network of a provider, one of its subnets, and an address
      that can be allocated there. */
  lemma UplinkIsExternal(r: Rules, rows: Rows, k: Key)
    requires Typed(rows) && AllPass(r, rows) && k in rows && k.kind == KindRouter && Shape(rows[k].body)
    requires rows[k].body.externalNetworkId != ""
    ensures var b := rows[k].body;
            && Key(KindNetwork, b.externalNetworkId) in rows
              && rows[Key(KindNetwork, b.externalNetworkId)].body.Network?
            && var n := rows[Key(KindNetwork, b.externalNetworkId)].body;
               && n.external && n.providerNetworkId != "" && Key(KindProviderNetwork, n.providerNetworkId) in rows
               && Key(KindSubnet, b.externalSubnetId) in rows && rows[Key(KindSubnet, b.externalSubnetId)].body.Subnet?
               && rows[Key(KindSubnet, b.externalSubnetId)].body.networkId == b.externalNetworkId
               && r.allocatable(rows[Key(KindSubnet, b.externalSubnetId)].body, b.externalIp)
  {
    assert Passes(r, rows, k.id, rows[k].body);
  }

  /** The row is a way out of the router towards the next hop: a live interface on whose link it lies. */
  predicate IsWayOut(r: Rules, rows: Rows, router: Key, route: StaticRoute, k: Key) {
    && k in rows && k.kind == KindRouterInterface && rows[k].body.RouterInterface? && rows[k].meta.state != Deleting
    && rows[k].body.routerId == router.id
    && var s := Key(KindSubnet, rows[k].body.subnetId);
       && s in rows && rows[s].body.Subnet? && rows[s].meta.state != Deleting
       && var gateway := r.gateway(rows[s].body);
          gateway.Some? && r.nextHop(rows[s].body, route.nextHop, gateway.value)
  }

  /** The uplink is a way out towards the next hop. */
  predicate IsWayUp(r: Rules, rows: Rows, router: Key, route: StaticRoute)
    requires router in rows && rows[router].body.Router?
  {
    var s := Key(KindSubnet, rows[router].body.externalSubnetId);
    && s.id != "" && s in rows && rows[s].body.Subnet? && rows[s].meta.state != Deleting
    && r.nextHop(rows[s].body, route.nextHop, rows[router].body.externalIp)
  }

  /** Main result on routes: every static route in a valid graph has exactly one way out of its router, and no default
      route competes with an uplink. */
  lemma RouteLeavesOnce(r: Rules, rows: Rows, router: Key, i: nat)
    requires Typed(rows) && AllPass(r, rows) && router in rows && router.kind == KindRouter
    requires i < |rows[router].body.routes|
    ensures var route := rows[router].body.routes[i];
            && (IsWayUp(r, rows, router, route) ==> forall k :: !IsWayOut(r, rows, router, route, k))
            && (!IsWayUp(r, rows, router, route) ==>
                  exists k :: IsWayOut(r, rows, router, route, k)
                    && forall l :: IsWayOut(r, rows, router, route, l) ==> l == k)
            && (rows[router].body.externalSubnetId != "" ==> route.destination != "0.0.0.0/0")
  {
    assert Passes(r, rows, router.id, rows[router].body);
    var route := rows[router].body.routes[i];
    var carriers := Carriers(r, rows, router.id, route);
    assert IsWayUp(r, rows, router, route) == UplinkCarries(r, rows, rows[router].body, route);
    forall k ensures IsWayOut(r, rows, router, route, k) <==> k in carriers {
      assert IsWayOut(r, rows, router, route, k) <==> CarriesRoute(r, rows, router.id, k, route);
    }
    if |carriers| == 1 {
      OnlyElement(carriers);
    } else {
      assert carriers == {};
    }
  }

  lemma OnlyElement(s: set<Key>)
    requires |s| == 1
    ensures exists k :: k in s && forall l :: l in s ==> l == k
  {
    var k :| k in s;
    assert |s - {k}| == 0;
    forall l | l in s ensures l == k {
      assert l !in s - {k};
    }
  }

  /** A live external subnet of the provider network that can serve the address. */
  predicate CanServe(r: Rules, rows: Rows, subnet: Key, provider: string, address: string) {
    && subnet in rows && subnet.kind == KindSubnet && rows[subnet].body.Subnet? && rows[subnet].meta.state != Deleting
    && var n := Key(KindNetwork, rows[subnet].body.networkId);
       && n in rows && rows[n].body.Network? && rows[n].meta.state != Deleting && rows[n].body.external
       && rows[n].body.providerNetworkId == provider && r.allocatable(rows[subnet].body, address)
  }

  /** The uplink of the floating IP's router is on the provider network and can carry the address. */
  ghost predicate HasUplink(r: Rules, rows: Rows, b: Body, uplink: Key)
    requires b.FloatingIP?
  {
    && uplink in rows && uplink.kind == KindSubnet && rows[uplink].body.Subnet?
    && Key(KindRouter, b.routerId) in rows && rows[Key(KindRouter, b.routerId)].body.Router?
    && rows[Key(KindRouter, b.routerId)].body.externalSubnetId == uplink.id
    && rows[Key(KindRouter, b.routerId)].body.externalNetworkId == rows[uplink].body.networkId
    && IsBehind(rows, rows[uplink].body.networkId, b.providerNetworkId)
    && rows[Key(KindNetwork, rows[uplink].body.networkId)].body.external
    && r.allocatable(rows[uplink].body, b.address)
  }

  /** The interface leads from the router to a subnet of the port's network, on which the fixed address is the port's
      and
      can be allocated. */
  ghost predicate Delivers(r: Rules, rows: Rows, b: Body, interface: Key, subnet: Key)
    requires b.FloatingIP?
  {
    && interface in rows && interface.kind == KindRouterInterface && rows[interface].body.RouterInterface?
    && rows[interface].body.routerId == b.routerId && rows[interface].body.subnetId == subnet.id
    && subnet in rows && subnet.kind == KindSubnet && rows[subnet].body.Subnet?
    && Key(KindPort, b.portId) in rows && rows[Key(KindPort, b.portId)].body.PortBody?
    && rows[subnet].body.networkId == rows[Key(KindPort, b.portId)].body.port.networkId
    && FixedIP(subnet.id, b.fixedIp) in rows[Key(KindPort, b.portId)].body.port.fixedIPs
    && r.allocatable(rows[subnet].body, b.fixedIp)
  }

  lemma FloatingUplink(r: Rules, rows: Rows, b: Body)
    requires Typed(rows) && b.FloatingIP? && FloatingPasses(r, rows, b) && b.routerId != ""
    ensures exists uplink :: HasUplink(r, rows, b, uplink)
  {
    assert HasUplink(r, rows, b, Key(KindSubnet, rows[Key(KindRouter, b.routerId)].body.externalSubnetId));
  }

  lemma FloatingDelivery(r: Rules, rows: Rows, b: Body)
    requires b.FloatingIP? && FloatingPasses(r, rows, b) && b.portId != ""
    requires PortPasses(r, rows, rows[Key(KindPort, b.portId)].body.port)
    ensures exists interface, subnet :: Delivers(r, rows, b, interface, subnet)
  {
    var p := rows[Key(KindPort, b.portId)].body.port;
    var k :| k in rows && k.kind == KindRouterInterface && rows[k].body.RouterInterface?
          && rows[k].body.routerId == b.routerId && HasFixedIP(p, rows[k].body.subnetId, b.fixedIp);
    var i :| 0 <= i < |p.fixedIPs| && p.fixedIPs[i] == FixedIP(rows[k].body.subnetId, b.fixedIp);
    assert Delivers(r, rows, b, k, Key(KindSubnet, rows[k].body.subnetId));
  }

  lemma AddressIsServed(r: Rules, rows: Rows, provider: string, address: string)
    requires ProviderHasAddress(r, rows, provider, address, "")
    ensures exists s :: CanServe(r, rows, s, provider, address)
  {
    var s :| s in rows && Offers(r, rows, s, provider, address) && s.id != "";
    assert CanServe(r, rows, s, provider, address);
  }

  /** Main result on floating IPs: in a valid graph a floating IP has its address from an external subnet of its
      provider
      network, and one that names a port has a whole path to it: uplink, router, interface, subnet, port. */
  lemma FloatingIpIsConnected(r: Rules, rows: Rows, fip: Key)
    requires Typed(rows) && AllPass(r, rows) && fip in rows && fip.kind == KindFloatingIP
    ensures var b := rows[fip].body;
            && Key(KindProviderNetwork, b.providerNetworkId) in rows
            && (exists s :: CanServe(r, rows, s, b.providerNetworkId, b.address))
            && (b.portId == "" <==> b.fixedIp == "")
            && (b.routerId != "" ==> exists uplink :: HasUplink(r, rows, b, uplink))
            && (b.portId != "" ==>
                  b.routerId != "" && exists interface, subnet :: Delivers(r, rows, b, interface, subnet))
  {
    var b := rows[fip].body;
    assert Passes(r, rows, fip.id, b);
    AddressIsServed(r, rows, b.providerNetworkId, b.address);
    if b.routerId != "" {
      FloatingUplink(r, rows, b);
    }
    if b.portId != "" {
      assert Passes(r, rows, b.portId, rows[Key(KindPort, b.portId)].body);
      FloatingDelivery(r, rows, b);
    }
  }
}
