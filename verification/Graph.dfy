/** Reference graph of the control store: who refers to whom, which rows pass the
    graph validator, which rows conflict, and when the delete guard lets a row go. */
module Graph {
  import opened Ports
  import opened Model

  // ---------------------------------------------------------------- strong references

  predicate References(b: Body, kind: Kind, id: string) {
    match b
    case ProviderNetwork(_, segment) => kind == KindProviderSegment && segment == id
    case Network(_, _, provider) => kind == KindProviderNetwork && provider == id
    case Subnet(network, _, _, _, _) => kind == KindNetwork && network == id
    case PortBody(p) =>
      || (kind == KindNetwork && p.networkId == id)
      || (kind == KindSubnet && exists i :: 0 <= i < |p.fixedIPs| && p.fixedIPs[i].subnetId == id)
      || (kind == KindSecurityGroup && id in p.groups)
    case IPAllocation(subnet, port, _, _) =>
      (kind == KindSubnet && subnet == id) || (kind == KindPort && port == id)
    case Router(_, network, subnet, _, _) =>
      (kind == KindNetwork && network == id) || (kind == KindSubnet && subnet == id)
    case RouterInterface(router, subnet, port) =>
      (kind == KindRouter && router == id) || (kind == KindSubnet && subnet == id) || (kind == KindPort && port == id)
    case FloatingIP(provider, _, port, _, router, _) =>
      || (kind == KindProviderNetwork && provider == id)
      || (kind == KindPort && port == id)
      || (kind == KindRouter && router == id)
    case ProviderSegment(provider, _, _, _, _) => kind == KindProviderNetwork && provider == id
    case SecurityGroupRule(group, remote) => kind == KindSecurityGroup && (group == id || remote == id)
    case _ => false
  }

  // ---------------------------------------------------------------- graph validator

  predicate IsNetwork(rows: Rows, id: string) {
    Key(KindNetwork, id) in rows && rows[Key(KindNetwork, id)].body.Network?
  }
  predicate IsSubnet(rows: Rows, id: string) {
    Key(KindSubnet, id) in rows && rows[Key(KindSubnet, id)].body.Subnet?
  }
  predicate IsPort(rows: Rows, id: string) {
    Key(KindPort, id) in rows && rows[Key(KindPort, id)].body.PortBody?
  }
  predicate IsRouter(rows: Rows, id: string) {
    Key(KindRouter, id) in rows && rows[Key(KindRouter, id)].body.Router?
  }
  predicate IsNode(rows: Rows, id: string) {
    Key(KindNode, id) in rows && rows[Key(KindNode, id)].body.Node?
  }
  predicate IsSegment(rows: Rows, id: string) {
    Key(KindProviderSegment, id) in rows && rows[Key(KindProviderSegment, id)].body.ProviderSegment?
  }

  function NetworkAt(rows: Rows, id: string): Row
    requires IsNetwork(rows, id)
  {
    rows[Key(KindNetwork, id)]
  }
  function SubnetAt(rows: Rows, id: string): Row
    requires IsSubnet(rows, id)
  {
    rows[Key(KindSubnet, id)]
  }

  predicate HasFixedIP(p: Port, subnetId: string, address: string) {
    FixedIP(subnetId, address) in p.fixedIPs
  }
  predicate HasSubnet(p: Port, subnetId: string) {
    exists i :: 0 <= i < |p.fixedIPs| && p.fixedIPs[i].subnetId == subnetId
  }
  predicate HasAddress(p: Port, address: string) {
    exists i :: 0 <= i < |p.fixedIPs| && p.fixedIPs[i].address == address
  }

  /** Some registered node carries this chassis. */
  predicate HasChassis(rows: Rows, chassis: string) {
    exists k :: k in rows && k.kind == KindNode && rows[k].body.Node? && rows[k].body.chassisId == chassis
  }

  /** Subnet row `k` can serve `address` to the provider network. */
  predicate Offers(r: Rules, rows: Rows, k: Key, provider: string, address: string) {
    && k in rows && k.kind == KindSubnet && rows[k].body.Subnet? && rows[k].meta.state != Deleting
    && var networkId := rows[k].body.networkId;
       && IsNetwork(rows, networkId)
       && NetworkAt(rows, networkId).meta.state != Deleting
       && NetworkAt(rows, networkId).body.external
       && NetworkAt(rows, networkId).body.providerNetworkId == provider
       && r.allocatable(rows[k].body, address)
  }

  predicate ProviderHasAddress(r: Rules, rows: Rows, provider: string, address: string, ignored: string) {
    exists k :: k in rows && Offers(r, rows, k, provider, address) && k.id != ignored
  }

  predicate Reaches(rows: Rows, routerId: string, p: Port, address: string) {
    exists k :: k in rows && k.kind == KindRouterInterface && rows[k].body.RouterInterface?
             && rows[k].body.routerId == routerId && HasFixedIP(p, rows[k].body.subnetId, address)
  }

  /** The next hop is on the link of subnet row `s`, seen from the subnet's own gateway. */
  predicate OnLink(r: Rules, s: Body, nextHop: string) {
    s.Subnet? && r.gateway(s).Some? && r.nextHop(s, nextHop, r.gateway(s).value)
  }

  /** Router interface `k` carries the route. */
  predicate CarriesRoute(r: Rules, rows: Rows, routerId: string, k: Key, route: StaticRoute) {
    && k in rows && k.kind == KindRouterInterface && rows[k].body.RouterInterface?
    && rows[k].body.routerId == routerId && rows[k].meta.state != Deleting
    && var subnetId := rows[k].body.subnetId;
       && IsSubnet(rows, subnetId) && SubnetAt(rows, subnetId).meta.state != Deleting
       && OnLink(r, SubnetAt(rows, subnetId).body, route.nextHop)
  }

  function Carriers(r: Rules, rows: Rows, routerId: string, route: StaticRoute): set<Key> {
    set k | k in rows && CarriesRoute(r, rows, routerId, k, route)
  }

  predicate UplinkCarries(r: Rules, rows: Rows, router: Body, route: StaticRoute) {
    && router.Router? && router.externalSubnetId != "" && IsSubnet(rows, router.externalSubnetId)
    && SubnetAt(rows, router.externalSubnetId).meta.state != Deleting
    && r.nextHop(SubnetAt(rows, router.externalSubnetId).body, route.nextHop, router.externalIp)
  }

  /** Every static route leaves through exactly one attachment of the router. */
  predicate RoutesOk(r: Rules, rows: Rows, id: string, router: Body) {
    router.Router? &&
    forall i :: 0 <= i < |router.routes| ==>
      && (router.externalSubnetId != "" ==> router.routes[i].destination != "0.0.0.0/0")
      && |Carriers(r, rows, id, router.routes[i])|
         + (if UplinkCarries(r, rows, router, router.routes[i]) then 1 else 0) == 1
  }

  predicate PortPasses(r: Rules, rows: Rows, p: Port) {
    && IsNetwork(rows, p.networkId)
    && !NetworkAt(rows, p.networkId).body.external && NetworkAt(rows, p.networkId).body.providerNetworkId == ""
    && (forall i :: 0 <= i < |p.fixedIPs| ==>
          && IsSubnet(rows, p.fixedIPs[i].subnetId)
          && SubnetAt(rows, p.fixedIPs[i].subnetId).body.networkId == p.networkId
          && (p.fixedIPs[i].address != "" ==>
                r.allocatable(SubnetAt(rows, p.fixedIPs[i].subnetId).body, p.fixedIPs[i].address)))
    && p.groups != []
    && (forall g :: g in p.groups ==> Key(KindSecurityGroup, g) in rows)
    && if p.nodeId != "" then
         && IsNode(rows, p.nodeId)
         && (p.chassis != [] ==> rows[Key(KindNode, p.nodeId)].body.chassisId in p.chassis)
         && (forall c :: c in p.chassis ==> HasChassis(rows, c))
       else
         p.chassis == []
  }

  predicate RouterPasses(r: Rules, rows: Rows, id: string, b: Body)
    requires b.Router?
  {
    && (b.externalNetworkId != "" ==>
          && IsNetwork(rows, b.externalNetworkId)
          && var network := NetworkAt(rows, b.externalNetworkId).body;
             && network.external && network.providerNetworkId != ""
             && Key(KindProviderNetwork, network.providerNetworkId) in rows
             && IsSubnet(rows, b.externalSubnetId)
             && SubnetAt(rows, b.externalSubnetId).body.networkId == b.externalNetworkId
             && r.allocatable(SubnetAt(rows, b.externalSubnetId).body, b.externalIp))
    && RoutesOk(r, rows, id, b)
  }

  /** The router's uplink belongs to the provider network and can carry the address. */
  predicate RouterServes(r: Rules, rows: Rows, routerId: string, provider: string, address: string) {
    && IsRouter(rows, routerId)
    && var router := rows[Key(KindRouter, routerId)].body;
       && router.externalNetworkId != "" && router.externalSubnetId != ""
       && IsNetwork(rows, router.externalNetworkId)
       && NetworkAt(rows, router.externalNetworkId).body.external
       && NetworkAt(rows, router.externalNetworkId).body.providerNetworkId == provider
       && IsSubnet(rows, router.externalSubnetId)
       && SubnetAt(rows, router.externalSubnetId).body.networkId == router.externalNetworkId
       && r.allocatable(SubnetAt(rows, router.externalSubnetId).body, address)
  }

  predicate FloatingPasses(r: Rules, rows: Rows, b: Body)
    requires b.FloatingIP?
  {
    && Key(KindProviderNetwork, b.providerNetworkId) in rows
    && ProviderHasAddress(r, rows, b.providerNetworkId, b.address, "")
    && (b.portId == "" <==> b.fixedIp == "")
    && (b.portId != "" ==> b.routerId != "")
    && (b.routerId != "" ==> RouterServes(r, rows, b.routerId, b.providerNetworkId, b.address))
    && (b.portId != "" ==>
          && IsPort(rows, b.portId)
          && var p := rows[Key(KindPort, b.portId)].body.port;
             && HasAddress(p, b.fixedIp)
             && Reaches(rows, b.routerId, p, b.fixedIp))
  }

  /** validateReferencesLocked for the row `id` holding `b`. */
  predicate Passes(r: Rules, rows: Rows, id: string, b: Body) {
    match b
    case ProviderNetwork(_, segment) =>
      segment != "" ==> IsSegment(rows, segment) && rows[Key(KindProviderSegment, segment)].body.providerNetworkId == id
    case Network(_, _, provider) => provider != "" ==> Key(KindProviderNetwork, provider) in rows
    case Subnet(network, _, _, _, _) => IsNetwork(rows, network)
    case PortBody(p) => PortPasses(r, rows, p)
    case IPAllocation(subnet, port, address, _) =>
      && IsSubnet(rows, subnet)
      && r.allocatable(SubnetAt(rows, subnet).body, address)
      && (port != "" ==>
            && IsPort(rows, port)
            && rows[Key(KindPort, port)].body.port.networkId == SubnetAt(rows, subnet).body.networkId
            && HasFixedIP(rows[Key(KindPort, port)].body.port, subnet, address))
    case Router(_, _, _, _, _) => RouterPasses(r, rows, id, b)
    case RouterInterface(router, subnet, port) =>
      && Key(KindRouter, router) in rows
      && IsSubnet(rows, subnet)
      && IsNetwork(rows, SubnetAt(rows, subnet).body.networkId)
      && !NetworkAt(rows, SubnetAt(rows, subnet).body.networkId).body.external
      && (port != "" ==>
            && IsPort(rows, port)
            && rows[Key(KindPort, port)].body.port.networkId == SubnetAt(rows, subnet).body.networkId
            && HasSubnet(rows[Key(KindPort, port)].body.port, subnet))
    case FloatingIP(_, _, _, _, _, _) => FloatingPasses(r, rows, b)
    case ProviderSegment(provider, _, _, _, _) => Key(KindProviderNetwork, provider) in rows
    case SecurityGroupRule(group, remote) =>
      && Key(KindSecurityGroup, group) in rows
      && (remote != "" ==> Key(KindSecurityGroup, remote) in rows)
    case _ => true
  }

  predicate AllPass(r: Rules, rows: Rows) {
    forall k :: k in rows ==> Passes(r, rows, k.id, rows[k].body)
  }

  /** A new reference must not lead to a row that is being cleaned up. */
  predicate NewReferencesUsable(rows: Rows, candidate: Body, previous: Option<Body>) {
    forall k :: (k in rows && References(candidate, k.kind, k.id)
                 && !(previous.Some? && References(previous.value, k.kind, k.id))) ==>
      rows[k].meta.state != Deleting && rows[k].meta.state != Error
  }

  // ---------------------------------------------------------------- uniqueness

  predicate Conflicts(r: Rules, a: Body, b: Body) {
    match (a, b)
    case (Network(n, _, _), Network(m, _, _)) => n == m
    case (Subnet(net1, n, c, _, _), Subnet(net2, m, d, _, _)) =>
      net1 == net2 && (r.contains(c, d) || r.contains(d, c) || n == m)
    case (PortBody(p), PortBody(q)) =>
      || (p.mac != "" && p.mac == q.mac)
      || (p.lspName != "" && p.lspName == q.lspName)
      || (p.nodeId != "" && p.vmid > 0 && p.nic != "" && p.nodeId == q.nodeId && p.vmid == q.vmid && p.nic == q.nic)
      || (exists f :: f in p.fixedIPs && f.address != "" && f in q.fixedIPs)
    case (IPAllocation(s, _, x, _), IPAllocation(t, _, y, _)) => s == t && x == y
    case (Router(n, _, _, _, _), Router(m, _, _, _, _)) => n == m
    case (RouterInterface(p, s, _), RouterInterface(q, t, _)) => p == q && s == t
    case (FloatingIP(p, x, _, _, _, _), FloatingIP(q, y, _, _, _, _)) => p == q && x == y
    case (ProviderNetwork(n, _), ProviderNetwork(m, _)) => n == m
    case (ProviderSegment(p, n, phys1, v1, id1), ProviderSegment(q, m, phys2, v2, id2)) =>
      (p == q && n == m) || (phys1 == phys2 && v1 == v2 && id1 == id2)
    case (SecurityGroup(n), SecurityGroup(m)) => n == m
    case (OperationBody(o), OperationBody(p)) =>
      || o.idempotencyKey == p.idempotencyKey
      || (o.targetKind == p.targetKind && o.targetId == p.targetId && o.targetRevision == p.targetRevision)
    case (Node(n, c, _, _), Node(m, d, _, _)) => n == m || c == d
    case _ => false
  }

  /** An address claimed on a provider network. */
  datatype AddressClaim = AddressClaim(provider: string, address: string)

  function ClaimOf(r: Rules, rows: Rows, b: Body): Option<AddressClaim> {
    var claim := match b
      case Subnet(network, _, _, _, _) =>
        if IsNetwork(rows, network) then
          AddressClaim(NetworkAt(rows, network).body.providerNetworkId,
                       if r.gateway(b).Some? then r.gateway(b).value else "")
        else AddressClaim("", "")
      case Router(_, network, _, ip, _) =>
        if IsNetwork(rows, network) then AddressClaim(NetworkAt(rows, network).body.providerNetworkId, ip)
        else AddressClaim("", "")
      case FloatingIP(provider, address, _, _, _, _) => AddressClaim(provider, address)
      case _ => AddressClaim("", "");
    if claim.provider == "" || claim.address == "" then None else Some(claim)
  }

  /** validateUniqueLocked of the candidate `b` that is or will be stored under `key`. */
  predicate UniqueAt(r: Rules, rows: Rows, key: Key, b: Body) {
    forall k :: k in rows && k != key ==>
      && !(k.kind == key.kind && Conflicts(r, b, rows[k].body))
      && !(ClaimOf(r, rows, b).Some? && ClaimOf(r, rows, b) == ClaimOf(r, rows, rows[k].body))
  }

  predicate AllUnique(r: Rules, rows: Rows) {
    forall k :: k in rows ==> UniqueAt(r, rows, k, rows[k].body)
  }

  // ---------------------------------------------------------------- delete guard

  predicate StronglyReferenced(rows: Rows, key: Key) {
    exists k :: k in rows && k != key && References(rows[k].body, key.kind, key.id)
  }

  /** The last segment of a provider network that names no default segment. */
  predicate LastSegmentInUse(rows: Rows, key: Key) {
    && key in rows && key.kind == KindProviderSegment && rows[key].body.ProviderSegment?
    && var provider := rows[key].body.providerNetworkId;
       && Key(KindProviderNetwork, provider) in rows
       && rows[Key(KindProviderNetwork, provider)].body.ProviderNetwork?
       && rows[Key(KindProviderNetwork, provider)].body.defaultSegmentId == ""
       && (forall k :: (k in rows && k.kind == KindProviderSegment && rows[k].body.ProviderSegment?
                        && rows[k].body.providerNetworkId == provider) ==> k == key)
       && (exists k :: k in rows && k.kind == KindNetwork && rows[k].body.Network?
                    && rows[k].body.providerNetworkId == provider)
  }

  /** The interface carries a static route of its router or the path of a floating IP. */
  predicate InterfaceInUse(r: Rules, rows: Rows, key: Key) {
    && key in rows && key.kind == KindRouterInterface && rows[key].body.RouterInterface?
    && var b := rows[key].body;
       || (&& IsRouter(rows, b.routerId) && IsSubnet(rows, b.subnetId)
           && exists i :: 0 <= i < |rows[Key(KindRouter, b.routerId)].body.routes|
                && OnLink(r, SubnetAt(rows, b.subnetId).body, rows[Key(KindRouter, b.routerId)].body.routes[i].nextHop))
       || (exists k :: k in rows && k.kind == KindFloatingIP && rows[k].body.FloatingIP?
                && rows[k].body.routerId == b.routerId && rows[k].body.portId != "" && IsPort(rows, rows[k].body.portId)
                && HasFixedIP(rows[Key(KindPort, rows[k].body.portId)].body.port, b.subnetId, rows[k].body.fixedIp))
  }

  /** The subnet is the only one that can serve the address of some floating IP. */
  predicate SubnetInUse(r: Rules, rows: Rows, key: Key) {
    && key in rows && key.kind == KindSubnet && rows[key].body.Subnet?
    && IsNetwork(rows, rows[key].body.networkId)
    && var network := NetworkAt(rows, rows[key].body.networkId).body;
       && network.external && network.providerNetworkId != ""
       && (exists k :: k in rows && k.kind == KindFloatingIP && rows[k].body.FloatingIP?
                && rows[k].body.providerNetworkId == network.providerNetworkId
                && r.allocatable(rows[key].body, rows[k].body.address)
                && !ProviderHasAddress(r, rows, network.providerNetworkId, rows[k].body.address, key.id))
  }

  /** firstReferenceLocked finds something. */
  predicate InUse(r: Rules, rows: Rows, key: Key) {
    || StronglyReferenced(rows, key)
    || LastSegmentInUse(rows, key)
    || InterfaceInUse(r, rows, key)
    || SubnetInUse(r, rows, key)
  }

  // ---------------------------------------------------------------- well-formed tables

  /** Rows sit under their own kind and a non-empty ID. */
  predicate Typed(rows: Rows) {
    forall k :: k in rows ==> KindOf(rows[k].body) == k.kind && k.id != "" && rows[k].meta.revision >= 1
  }
}
