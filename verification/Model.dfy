/** Resource rows of the control store. */
module Model {
  import opened Ports
  import Payloads

  datatype Kind =
    | KindNetwork | KindSubnet | KindPort | KindIPAllocation | KindRouter | KindRouterInterface | KindFloatingIP
    | KindProviderNetwork | KindProviderSegment | KindSecurityGroup | KindSecurityGroupRule | KindNode | KindOperation

  datatype ResourceState = Pending | Ready | Error | Deleting

  datatype IpRange = IpRange(start: string, end: string)
  datatype StaticRoute = StaticRoute(destination: string, nextHop: string)
  datatype AllocationState = StateUnset | Reserved | Allocated
  datatype FloatingStatus = Down | Active | FloatingError
  datatype OperationStatus = StatusUnset | Queued | Running | Succeeded | Failed

  datatype Operation = Operation(
    action: string, targetKind: Kind, targetId: string, targetRevision: int, status: OperationStatus,
    idempotencyKey: string, error: string, leaseOwner: string,
    startedAt: Option<int>, completedAt: Option<int>, payload: Payloads.Payload)

  datatype Body =
    | Network(name: string, external: bool, providerNetworkId: string)
    | Subnet(networkId: string, name: string, cidr: string, gatewayIp: string, pools: seq<IpRange>)
    | PortBody(port: Port)
    | IPAllocation(subnetId: string, portId: string, address: string, allocation: AllocationState)
    | Router(name: string, externalNetworkId: string, externalSubnetId: string, externalIp: string,
             routes: seq<StaticRoute>)
    | RouterInterface(routerId: string, subnetId: string, portId: string)
    | FloatingIP(providerNetworkId: string, address: string, portId: string, fixedIp: string, routerId: string,
                 floating: FloatingStatus)
    | ProviderNetwork(name: string, defaultSegmentId: string)
    | ProviderSegment(providerNetworkId: string, name: string, physicalNetwork: string, vlan: bool, vlanId: int)
    | SecurityGroup(name: string)
    | SecurityGroupRule(groupId: string, remoteGroupId: string)
    | Node(name: string, chassisId: string, enabled: bool, lastSeen: Option<int>)
    | OperationBody(op: Operation)

  datatype Meta = Meta(revision: int, applied: int, state: ResourceState, lastError: string, createdAt: int,
                       updatedAt: int)
  datatype Row = Row(meta: Meta, body: Body)
  datatype Key = Key(kind: Kind, id: string)
  type Rows = map<Key, Row>

  /** Text-level rules of the `model` package, kept uninterpreted: every theorem
      holds for all of them.  `contains(a, b)` says that prefix `a` contains the
      address of prefix `b`. */
  datatype Rules = Rules(
    valid: Body -> bool,
    allocatable: (Body, string) -> bool,
    nextHop: (Body, string, string) -> bool,
    gateway: Body -> Option<string>,
    contains: (string, string) -> bool)

  function KindOf(b: Body): Kind {
    match b
    case Network(_, _, _) => KindNetwork
    case Subnet(_, _, _, _, _) => KindSubnet
    case PortBody(_) => KindPort
    case IPAllocation(_, _, _, _) => KindIPAllocation
    case Router(_, _, _, _, _) => KindRouter
    case RouterInterface(_, _, _) => KindRouterInterface
    case FloatingIP(_, _, _, _, _, _) => KindFloatingIP
    case ProviderNetwork(_, _) => KindProviderNetwork
    case ProviderSegment(_, _, _, _, _) => KindProviderSegment
    case SecurityGroup(_) => KindSecurityGroup
    case SecurityGroupRule(_, _) => KindSecurityGroupRule
    case Node(_, _, _, _) => KindNode
    case OperationBody(_) => KindOperation
  }

  predicate LeaseProtected(action: string) {
    action == "reconcile" || action == "delete"
  }

  /** Shape facts of `Validate` that the store relies on. */
  predicate Shape(b: Body) {
    match b
    case Network(_, external, provider) => external ==> provider != ""
    case PortBody(p) => p.networkId != "" && p.name != "" && p.mac != "" && p.generation >= 0
    case Router(_, network, subnet, ip, _) =>
      if network == "" then subnet == "" && ip == "" else subnet != "" && ip != ""
    case IPAllocation(subnet, port, _, allocation) =>
      subnet != "" && allocation != StateUnset && (allocation == Allocated ==> port != "")
    case OperationBody(op) =>
      && op.idempotencyKey != "" && op.targetKind != KindOperation && op.targetId != ""
      && op.targetRevision >= 1 && op.status != StatusUnset
    case _ => true
  }

  predicate Validates(r: Rules, b: Body) {
    r.valid(b) && Shape(b)
  }

  /** API defaults that the rest of the store can observe. */
  function WithDefaults(id: string, b: Body): Body {
    match b
    case PortBody(p) =>
      PortBody(p.(status := if p.status == Unset then Unbound else p.status,
                  generation := if p.generation == 0 then 1 else p.generation,
                  lspName := if p.lspName == "" && id != "" then "pvn-" + id else p.lspName))
    case IPAllocation(_, _, _, allocation) => if allocation == StateUnset then b.(allocation := Reserved) else b
    case FloatingIP(_, _, _, _, _, _) => b.(floating := Down)
    case OperationBody(op) => if op.status == StatusUnset then OperationBody(op.(status := Queued)) else b
    case _ => b
  }
}
