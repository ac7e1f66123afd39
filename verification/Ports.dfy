/** Ports of virtual machines, as every layer of the control plane sees them.

    `RequestedChassis` is modelled by its parsed form: the list of chassis IDs
    (empty, one, or source and target).  Safe chassis IDs contain no comma, so
    the textual form and the list determine each other. */
module Ports {

  datatype Option<+T> = None | Some(value: T)

  datatype FixedIP = FixedIP(subnetId: string, address: string)

  datatype BindingStatus = Unset | Unbound | Binding | Bound | Detaching | BindingError

  datatype Port = Port(
    networkId: string, name: string, mac: string, fixedIPs: seq<FixedIP>, groups: seq<string>, adminUp: bool,
    lspName: string, nodeId: string, vmid: int, nic: string, chassis: seq<string>, status: BindingStatus,
    generation: int)

  /** The part of a port a lifecycle manifest pins.  Security groups are recorded
      as a sorted copy, which is the multiset of the groups. */
  datatype PortConfig = PortConfig(
    name: string, mac: string, networkId: string, fixedIPs: seq<FixedIP>, groups: multiset<string>,
    lspName: string, adminUp: bool)

  function ConfigOf(p: Port): PortConfig {
    PortConfig(p.name, p.mac, p.networkId, p.fixedIPs, multiset(p.groups), p.lspName, p.adminUp)
  }

  /** A stored port together with its desired-state revision. */
  datatype Versioned = Versioned(revision: int, port: Port)

  /** `binding` and `bound` are the states in which a lifecycle may move a port. */
  predicate BindingReady(status: BindingStatus) {
    status == Binding || status == Bound
  }

  /** The position a lifecycle puts a port in: which node, which chassis, which fence. */
  predicate At(p: Port, nodeId: string, chassis: seq<string>, generation: int) {
    p.nodeId == nodeId && p.chassis == chassis && p.generation == generation
  }

  /** A revision floor is met only by a port that is still binding or bound. */
  predicate RevisionMatches(v: Versioned, floor: int) {
    v.revision >= floor && BindingReady(v.port.status)
  }

  /** The desired port of a lifecycle move: a copy with a new position, back in `binding`. */
  function Moved(p: Port, nodeId: string, chassis: seq<string>, generation: int): Port {
    p.(nodeId := nodeId, chassis := chassis, status := Binding, generation := generation)
  }

  /** What an agent's `bound` report makes of a binding port. */
  function Reported(p: Port): Port {
    p.(status := Bound)
  }
}
