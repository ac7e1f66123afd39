/** HA takeover of a migration that is headed back to its source.

    The migration's own workers may outlive the takeover.  A prepare or abort worker lists the
    ports, checks ownership before each port, and writes what it listed.  A compensating worker
    checks ownership first and loads the port afterwards, so it may act on a port it has never
    seen while it still owned the migration.  That order is what decides which stale writes the
    promoted HA payload can account for. */
module Takeover {
  import opened Ports
  import opened Payloads
  import opened Migration
  import opened HaRebind
  import HaChain

  type Armed = HaChain.Armed

  // ---------------------------------------------------------------- before the promotion

  datatype State = State(
    phase: MigrationPhase,
    ports: map<string, Versioned>,
    listings: set<map<string, Versioned>>,   // port lists that workers hold
    armed: set<Armed>,
    loads: set<string>)                      // ports some compensator has checked but not yet loaded

  datatype Step =
    | List
    | ArmPrepare(listing: map<string, Versioned>, index: nat)
    | ArmAbort(listing: map<string, Versioned>, index: nat)
    | Check(index: nat)
    | Load(index: nat)
    | Settle(portId: string)     // the last compensator that could still load the port is gone
    | Fire(write: Armed)
    | Report(portId: string)
    | ClaimPhase(next: MigrationPhase)

  /** The claims of a migration that HA will send back to the source. */
  predicate SourceClaim(phase: MigrationPhase, next: MigrationPhase) {
    match next
    case Prepared => phase == Preparing
    case Compensating => phase == Preparing || phase == Prepared
    case Aborting => phase == Prepared
    case HaRecoveringSource => phase == Preparing || phase == Compensating || phase == Aborting
      || phase == HaRecoveringSource
    case _ => false
  }

  function PrepareWrite(plan: MigrationPlan, intent: MigrationPort, v: Versioned): Armed {
    HaChain.Armed(intent.portId, v.revision, v.port, PrepareMove(plan, intent, v.port))
  }
  function ReturnWrite(plan: MigrationPlan, intent: MigrationPort, v: Versioned): Armed {
    HaChain.Armed(intent.portId, v.revision, v.port, ReturnMove(plan, v.port))
  }

  function Do(plan: MigrationPlan, s: State, step: Step): State {
    match step
    case List => s.(listings := s.listings + {s.ports})
    case ArmPrepare(listing, i) =>
      if listing in s.listings && (s.phase == Preparing || s.phase == Prepared) && i < |plan.ports|
         && plan.ports[i].portId in listing && ConfigMatches(listing[plan.ports[i].portId], plan, plan.ports[i])
         && AtSource(plan, plan.ports[i], listing[plan.ports[i].portId])
      then s.(armed := s.armed + {PrepareWrite(plan, plan.ports[i], listing[plan.ports[i].portId])})
      else s
    case ArmAbort(listing, i) =>
      if listing in s.listings && s.phase == Aborting && i < |plan.ports|
         && plan.ports[i].portId in listing && ConfigMatches(listing[plan.ports[i].portId], plan, plan.ports[i])
         && AtPrepared(plan, plan.ports[i], listing[plan.ports[i].portId])
      then s.(armed := s.armed + {ReturnWrite(plan, plan.ports[i], listing[plan.ports[i].portId])})
      else s
    case Check(i) =>
      if (s.phase == Compensating || s.phase == HaRecoveringSource) && i < |plan.ports|
      then s.(loads := s.loads + {plan.ports[i].portId})
      else s
    case Load(i) =>
      if i < |plan.ports| && plan.ports[i].portId in s.loads then
        var id := plan.ports[i].portId;
        if id in s.ports && ConfigMatches(s.ports[id], plan, plan.ports[i])
          && AtPrepared(plan, plan.ports[i], s.ports[id])
        then s.(armed := s.armed + {ReturnWrite(plan, plan.ports[i], s.ports[id])})
        else s
      else s
    case Settle(id) => s.(loads := s.loads - {id})
    case Fire(write) =>
      if write in s.armed && HaChain.Lands(s.ports, write) then s.(ports := HaChain.Landed(s.ports, write)) else s
    case Report(id) =>
      if id in s.ports && s.ports[id].port.status == Binding
      then s.(ports := s.ports[id := Versioned(s.ports[id].revision + 1, Reported(s.ports[id].port))])
      else s
    case ClaimPhase(next) => if SourceClaim(s.phase, next) then s.(phase := next) else s
  }

  function Run(plan: MigrationPlan, s: State, steps: seq<Step>): State
    decreases |steps|
  {
    if steps == [] then s else Run(plan, Do(plan, s, steps[0]), steps[1..])
  }

  // ---------------------------------------------------------------- what a migrating state keeps

  predicate OnPath(plan: MigrationPlan, intent: MigrationPort, v: Versioned) {
    AtSource(plan, intent, v) || AtPrepared(plan, intent, v) || AtReturned(plan, intent, v)
  }

  /** A prepare write: from the untouched source position to the prepared one. */
  predicate IsPrepare(plan: MigrationPlan, intent: MigrationPort, a: Armed) {
    AtSource(plan, intent, Versioned(a.expected, a.cached)) && a.desired == PrepareMove(plan, intent, a.cached)
  }
  /** A return write: from the prepared position back to the source. */
  predicate IsReturn(plan: MigrationPlan, intent: MigrationPort, a: Armed) {
    AtPrepared(plan, intent, Versioned(a.expected, a.cached)) && a.desired == ReturnMove(plan, a.cached)
  }

  ghost predicate ArmedOk(plan: MigrationPlan, ports: map<string, Versioned>, a: Armed) {
    && HaChain.Remembers(ports, a.portId, a.expected, a.cached)
      && a.cached.generation <= ports[a.portId].port.generation
    && exists i :: 0 <= i < |plan.ports| && plan.ports[i].portId == a.portId
         && (IsPrepare(plan, plan.ports[i], a) || IsReturn(plan, plan.ports[i], a))
  }

  ghost predicate ListingOk(ports: map<string, Versioned>, listing: map<string, Versioned>) {
    forall id :: id in listing ==>
      && HaChain.Remembers(ports, id, listing[id].revision, listing[id].port)
      && listing[id].port.generation <= ports[id].port.generation
  }

  ghost predicate PortsOk(plan: MigrationPlan, ports: map<string, Versioned>) {
    forall i :: 0 <= i < |plan.ports| ==>
      && plan.ports[i].portId in ports
      && ConfigMatches(ports[plan.ports[i].portId], plan, plan.ports[i])
      && OnPath(plan, plan.ports[i], ports[plan.ports[i].portId])
  }

  ghost predicate Inv(plan: MigrationPlan, s: State) {
    && PortsOk(plan, s.ports)
    && (forall l :: l in s.listings ==> ListingOk(s.ports, l))
    && (forall a :: a in s.armed ==> ArmedOk(plan, s.ports, a))
  }

  /** A new revision of one port keeps the invariant as long as the port stays on the path. */
  lemma AdvanceKeepsInv(plan: MigrationPlan, s: State, after: map<string, Versioned>, id: string)
    requires Inv(plan, s) && HaChain.Advanced(s.ports, after, id)
    requires forall i :: 0 <= i < |plan.ports| && plan.ports[i].portId == id ==> OnPath(plan, plan.ports[i], after[id])
    requires ConfigOf(after[id].port) == ConfigOf(s.ports[id].port) && after[id].port.vmid == s.ports[id].port.vmid
    requires after[id].port.nic == s.ports[id].port.nic && s.ports[id].port.generation <= after[id].port.generation
    ensures Inv(plan, s.(ports := after))
  {
    forall l | l in s.listings ensures ListingOk(after, l) {
      assert ListingOk(s.ports, l);
    }
    forall a | a in s.armed ensures ArmedOk(plan, after, a) {
      assert ArmedOk(plan, s.ports, a);
    }
  }

  lemma FiredStaysOnPath(plan: MigrationPlan, intent: MigrationPort, a: Armed)
    requires EntryOk(intent) && (IsPrepare(plan, intent, a) || IsReturn(plan, intent, a))
    ensures OnPath(plan, intent, Versioned(a.expected + 1, a.desired))
    ensures HaChain.Faithful(a)
  {
  }

  lemma FireKeepsInv(plan: MigrationPlan, s: State, a: Armed)
    requires PlanOk(plan) && Inv(plan, s) && a in s.armed && HaChain.Lands(s.ports, a)
    ensures Inv(plan, s.(ports := HaChain.Landed(s.ports, a)))
  {
    assert ArmedOk(plan, s.ports, a);
    var n :| 0 <= n < |plan.ports| && plan.ports[n].portId == a.portId
          && (IsPrepare(plan, plan.ports[n], a) || IsReturn(plan, plan.ports[n], a));
    FiredStaysOnPath(plan, plan.ports[n], a);
    AdvanceKeepsInv(plan, s, HaChain.Landed(s.ports, a), a.portId);
  }

  lemma StepKeepsInv(plan: MigrationPlan, s: State, step: Step)
    requires PlanOk(plan) && Inv(plan, s)
    ensures Inv(plan, Do(plan, s, step))
  {
    if Do(plan, s, step) != s {
      match step
      case Fire(write) => FireKeepsInv(plan, s, write);
      case Report(id) => AdvanceKeepsInv(plan, s, Do(plan, s, step).ports, id);
      case ArmPrepare(listing, i) =>
        assert ListingOk(s.ports, listing);
        ArmKeepsInv(plan, s, PrepareWrite(plan, plan.ports[i], listing[plan.ports[i].portId]), i);
      case ArmAbort(listing, i) =>
        assert ListingOk(s.ports, listing);
        ArmKeepsInv(plan, s, ReturnWrite(plan, plan.ports[i], listing[plan.ports[i].portId]), i);
      case Load(i) => ArmKeepsInv(plan, s, ReturnWrite(plan, plan.ports[i], s.ports[plan.ports[i].portId]), i);
      case _ =>
    }
  }

  lemma ArmKeepsInv(plan: MigrationPlan, s: State, a: Armed, i: nat)
    requires Inv(plan, s) && i < |plan.ports| && plan.ports[i].portId == a.portId
    requires HaChain.Remembers(s.ports, a.portId, a.expected, a.cached)
      && a.cached.generation <= s.ports[a.portId].port.generation
    requires IsPrepare(plan, plan.ports[i], a) || IsReturn(plan, plan.ports[i], a)
    ensures Inv(plan, s.(armed := s.armed + {a}))
  {
    assert ArmedOk(plan, s.ports, a);
  }

  lemma {:induction false} RunKeepsInv(plan: MigrationPlan, s: State, steps: seq<Step>)
    requires PlanOk(plan) && Inv(plan, s)
    ensures Inv(plan, Run(plan, s, steps))
    decreases |steps|
  {
    if steps != [] {
      StepKeepsInv(plan, s, steps[0]);
      RunKeepsInv(plan, Do(plan, s, steps[0]), steps[1..]);
    }
  }

  // ---------------------------------------------------------------- the promotion

  function PreparedPosition(plan: MigrationPlan, intent: MigrationPort): Position {
    Position(PreparedNode(plan), if plan.online then plan.sourceNode else plan.targetNode, PreparedChassis(plan),
             intent.preparedRevision, intent.generation)
  }

  /** The recorded position accepts exactly the prepared ports, and names the node it is about. */
  lemma PreparedPositionFits(plan: MigrationPlan, intent: MigrationPort, v: Versioned)
    ensures MatchesPosition(v, PreparedPosition(plan, intent)) <==> AtPrepared(plan, intent, v)
    ensures var p := PreparedPosition(plan, intent);
            || (p.nodeId == plan.sourceNodeId && p.node == plan.sourceNode && plan.online)
            || (p.nodeId == plan.targetNodeId && p.node == plan.targetNode && !plan.online)
  {
  }

  /** addMigrationPreparedPredecessors: the prepared position goes on record, below a new fence. */
  function PromotedPort(found: HaPort, plan: MigrationPlan, intent: MigrationPort, target: NodeRef): Option<HaPort> {
    var positions := Normalized(found.predecessors + [PreparedPosition(plan, intent)]);
    var top := if MaxGeneration(positions) > found.priorGeneration then MaxGeneration(positions)
      else found.priorGeneration;
    if found.priorNodeId == target.id && found.priorChassis == [target.chassis]
      && AllAt(positions, target.id, target.chassis)
    then Some(found.(predecessors := positions))
    else if top == MAX_INT64 then None
    else Some(found.(predecessors := positions, targetGeneration := top + 1))
  }

  function PlanIds(plan: MigrationPlan): seq<string> {
    seq(|plan.ports|, i requires 0 <= i < |plan.ports| => plan.ports[i].portId)
  }

  /** validateRecoveredMigrationPorts for direction source, and newHAPayload on its result. */
  predicate CanPromote(plan: MigrationPlan, s: State, listing: map<string, Versioned>, start: HaStart,
                       nodes: map<string, NodeRef>) {
    && s.phase == HaRecoveringSource && listing in s.listings
    && AllAttachable(PlanIds(plan), listing, nodes, start.target)
    && forall i :: 0 <= i < |plan.ports| ==>
         && PlanIds(plan)[i] in listing
         && ConfigMatches(listing[PlanIds(plan)[i]], plan, plan.ports[i])
         && (AtSource(plan, plan.ports[i], listing[PlanIds(plan)[i]])
             || AtReturned(plan, plan.ports[i], listing[PlanIds(plan)[i]]))
         && PromotedPort(NewHaPort(PlanIds(plan)[i], listing[PlanIds(plan)[i]], nodes, start.target), plan,
                         plan.ports[i], start.target).Some?
  }

  function PromotedPayload(plan: MigrationPlan, s: State, listing: map<string, Versioned>, start: HaStart,
                           nodes: map<string, NodeRef>,
                           history: seq<HaProof>, audit: Option<HaAudit>): HaPayload
    requires CanPromote(plan, s, listing, start, nodes)
  {
    HaPayloadOf(start, history,
      seq(|plan.ports|, i requires 0 <= i < |plan.ports| =>
        PromotedPort(NewHaPort(PlanIds(plan)[i], listing[PlanIds(plan)[i]], nodes, start.target), plan, plan.ports[i],
                     start.target).value),
      audit)
  }

  /** The state right after the promotion: the HA chain inherits ports, armed writes and loads. */
  datatype Aftermath = Aftermath(world: HaChain.World, loads: set<string>)

  function Promote(s: State, payload: HaPayload): Aftermath {
    Aftermath(HaChain.World(payload, {payload}, s.ports, {}, s.armed), s.loads)
  }

  /** The promoted record: the recovered position and the prepared one, with the fence right above both. */
  lemma PromotedPortRecord(plan: MigrationPlan, intent: MigrationPort, v: Versioned, nodes: map<string, NodeRef>,
                           target: NodeRef)
    requires EntryOk(intent) && plan.sourceNodeId != plan.targetNodeId
    requires Attachable(v, nodes, target) && (forall id :: id in nodes ==> nodes[id].id == id)
    requires AtSource(plan, intent, v) || AtReturned(plan, intent, v)
    requires PromotedPort(NewHaPort(intent.portId, v, nodes, target), plan, intent, target).Some?
    ensures var p := PromotedPort(NewHaPort(intent.portId, v, nodes, target), plan, intent, target).value;
            && PredecessorsOf(p) == [PriorPosition(p), PreparedPosition(plan, intent)]
            && PriorPosition(p) == Position(plan.sourceNodeId, nodes[plan.sourceNodeId].name, [plan.source],
                                            v.revision, v.port.generation)
            && p.targetGeneration == intent.generation + 1
            && p.portId == intent.portId && p.priorRevision == v.revision && p.targetRevision <= v.revision + 1
  {
    var found := NewHaPort(intent.portId, v, nodes, target);
    var prepared := PreparedPosition(plan, intent);
    assert found.predecessors + [prepared] == [prepared];
    NormalizedSingle(prepared);
    var p := PromotedPort(found, plan, intent, target).value;
    assert p.predecessors == [prepared];
    assert MaxGeneration([prepared]) == prepared.generation;
    assert [prepared][1..] == [];
    assert !SameSpot(prepared, PriorPosition(p));
    assert WithoutRepeats([PriorPosition(p)] + [prepared], []) == [PriorPosition(p), prepared];
  }

  /** Main result on the fence: the promoted target generation is above every recorded predecessor. */
  lemma PromotedPortIsFenced(plan: MigrationPlan, intent: MigrationPort, v: Versioned, nodes: map<string, NodeRef>,
                             target: NodeRef, payload: HaPayload)
    requires EntryOk(intent) && plan.sourceNodeId != plan.targetNodeId
    requires Attachable(v, nodes, target) && (forall id :: id in nodes ==> nodes[id].id == id)
    requires AtSource(plan, intent, v) || AtReturned(plan, intent, v)
    requires PromotedPort(NewHaPort(intent.portId, v, nodes, target), plan, intent, target).Some?
    ensures var p := PromotedPort(NewHaPort(intent.portId, v, nodes, target), plan, intent, target).value;
            Fenced(payload, p) && forall q :: q in PredecessorsOf(p) ==> q.generation < p.targetGeneration
  {
    PromotedPortRecord(plan, intent, v, nodes, target);
  }

  /** The position a stale prepare worker leaves behind is on record after the promotion. */
  lemma PreparedIsRecorded(payload: HaPayload, p: HaPort, plan: MigrationPlan, intent: MigrationPort, v: Versioned)
    requires PredecessorsOf(p) == [PriorPosition(p), PreparedPosition(plan, intent)] && AtPrepared(plan, intent, v)
    ensures Recorded(payload, p, v)
  {
    assert MatchesPosition(v, PredecessorsOf(p)[1]);
  }

  /** The position a stale compensating worker leaves behind is on record exactly when the port had
      been recovered at the migration's generation; a port recovered untouched does not account for it. */
  lemma ReturnedIsRecordedIff(payload: HaPayload, p: HaPort, plan: MigrationPlan, intent: MigrationPort, v: Versioned,
                              at: Versioned, name: string)
    requires EntryOk(intent) && plan.sourceNodeId != plan.targetNodeId
    requires PredecessorsOf(p) == [PriorPosition(p), PreparedPosition(plan, intent)]
      && p.targetGeneration == intent.generation + 1
    requires PriorPosition(p) == Position(plan.sourceNodeId, name, [plan.source], at.revision, at.port.generation)
    requires AtSource(plan, intent, at) || AtReturned(plan, intent, at)
    requires AtReturned(plan, intent, v) && v.revision >= at.revision
    ensures Recorded(payload, p, v) <==> at.port.generation == intent.generation
  {
    if at.port.generation == intent.generation {
      assert MatchesPosition(v, PredecessorsOf(p)[0]);
    }
  }

  // ---------------------------------------------------------------- after the promotion

  datatype LateStep = Chain(step: HaChain.Step) | LateLoad(index: nat) | LateSettle(portId: string)

  function DoLate(plan: MigrationPlan, a: Aftermath, step: LateStep): Aftermath {
    match step
    case Chain(st) => a.(world := HaChain.Do(a.world, st))
    case LateLoad(i) =>
      if i < |plan.ports| && plan.ports[i].portId in a.loads && plan.ports[i].portId in a.world.ports
         && ConfigMatches(a.world.ports[plan.ports[i].portId], plan, plan.ports[i])
         && AtPrepared(plan, plan.ports[i], a.world.ports[plan.ports[i].portId])
      then a.(world := a.world.(armed :=
                                a.world.armed + {ReturnWrite(plan, plan.ports[i],
                                                             a.world.ports[plan.ports[i].portId])}))
      else a
    case LateSettle(id) => a.(loads := a.loads - {id})
  }

  function RunLate(plan: MigrationPlan, a: Aftermath, steps: seq<LateStep>): Aftermath
    decreases |steps|
  {
    if steps == [] then a else RunLate(plan, DoLate(plan, a, steps[0]), steps[1..])
  }

  predicate PreparedSpot(plan: MigrationPlan, intent: MigrationPort, p: Port) {
    At(p, PreparedNode(plan), PreparedChassis(plan), intent.generation)
  }

  /** Sending the port back to the source would leave it on record. */
  ghost predicate ReturnOnRecord(plan: MigrationPlan, w: HaChain.World, i: nat)
    requires i < |plan.ports| && i < |w.current.ports| && plan.ports[i].portId in w.ports
  {
    Covered(PredecessorsOf(w.current.ports[i]),
            Position(plan.sourceNodeId, "", [plan.source], w.ports[plan.ports[i].portId].revision + 1,
                     plan.ports[i].generation))
  }

  /** The port is not prepared and no write that can still land prepares it. */
  ghost predicate NeverPrepared(plan: MigrationPlan, w: HaChain.World, i: nat)
    requires i < |plan.ports| && i < |w.current.ports| && plan.ports[i].portId in w.ports
  {
    && !PreparedSpot(plan, plan.ports[i], w.ports[plan.ports[i].portId].port)
    && w.current.ports[i].targetGeneration > plan.ports[i].generation
    && forall a :: a in w.armed && a.portId == plan.ports[i].portId && PreparedSpot(plan, plan.ports[i], a.desired) ==>
         a.expected < w.ports[a.portId].revision
  }

  ghost predicate Aligned(plan: MigrationPlan, w: HaChain.World) {
    && |w.current.ports| == |plan.ports|
    && forall i :: 0 <= i < |plan.ports| ==>
        w.current.ports[i].portId == plan.ports[i].portId && plan.ports[i].portId in w.ports
  }

  ghost predicate LateInv(plan: MigrationPlan, a: Aftermath) {
    && HaChain.Inv(a.world) && Aligned(plan, a.world)
    && forall i :: 0 <= i < |plan.ports| && plan.ports[i].portId in a.loads ==>
         ReturnOnRecord(plan, a.world, i) || NeverPrepared(plan, a.world, i)
  }

  lemma CoverGrows(ps: seq<Position>, q: Position, floor: int)
    requires Covered(ps, q) && q.floor <= floor
    ensures Covered(ps, q.(floor := floor))
  {
    var i :| 0 <= i < |ps| && ps[i].nodeId == q.nodeId && ps[i].chassis == q.chassis
          && ps[i].generation == q.generation && ps[i].floor <= q.floor;
    assert ps[i].floor <= floor;
  }

  /** Supersession keeps the return position on record and never lowers the target generation. */
  lemma SupersessionKeepsLoadSafe(previous: HaPayload, earlier: HaPort, found: HaPort, target: NodeRef, q: Position)
    requires SupersedingPort(previous, earlier, found, target).Some?
    ensures Covered(PredecessorsOf(earlier), q) ==>
        Covered(PredecessorsOf(SupersedingPort(previous, earlier, found, target).value), q)
    ensures earlier.targetGeneration <= SupersedingPort(previous, earlier, found, target).value.targetGeneration
  {
    var next := SupersedingPort(previous, earlier, found, target).value;
    if Covered(PredecessorsOf(earlier), q) {
      forall p | p in PredecessorsOf(earlier) ensures Covered(PredecessorsOf(next), p) {
        SupersedingPortRecords(previous, earlier, found, target, p);
      }
      CoverIsTransitive(PredecessorsOf(earlier), PredecessorsOf(next), q);
    }
    var positions := InheritedPositions(previous, earlier, found);
    var t := TargetPosition(previous, earlier);
    NormalizedCovers(PredecessorsOf(earlier) + [t] + [PriorPosition(found)], t);
    var i :| 0 <= i < |positions| && positions[i].nodeId == t.nodeId && positions[i].chassis == t.chassis
          && positions[i].generation == t.generation && positions[i].floor <= t.floor;
    MaxGenerationBounds(positions, positions[i]);
  }

  lemma SupersedeKeepsLoadSafe(plan: MigrationPlan, w: HaChain.World, step: HaChain.Step, i: nat)
    requires step.Supersede? && HaChain.Do(w, step) != w && Aligned(plan, w) && i < |plan.ports|
    requires ReturnOnRecord(plan, w, i) || NeverPrepared(plan, w, i)
    requires i < |HaChain.Do(w, step).current.ports|
    ensures ReturnOnRecord(plan, HaChain.Do(w, step), i) || NeverPrepared(plan, HaChain.Do(w, step), i)
  {
    var ids := ManifestIds(w.current.ports);
    var found := NewHaPort(ids[i], step.reader.snapshot[ids[i]], step.nodes, step.start.target);
    var q := Position(plan.sourceNodeId, "", [plan.source], w.ports[plan.ports[i].portId].revision + 1,
                      plan.ports[i].generation);
    SupersessionKeepsLoadSafe(w.current, w.current.ports[i], found, step.start.target, q);
  }

  lemma ArmKeepsLoadSafe(plan: MigrationPlan, w: HaChain.World, step: HaChain.Step, i: nat)
    requires step.Arm? && HaChain.Do(w, step) != w && Aligned(plan, w) && i < |plan.ports|
    requires forall k, l :: 0 <= k < l < |w.current.ports| ==> w.current.ports[k].portId != w.current.ports[l].portId
    requires NeverPrepared(plan, w, i)
    ensures NeverPrepared(plan, HaChain.Do(w, step), i)
  {
    assert step.index != i ==> w.current.ports[step.index].portId != w.current.ports[i].portId;
  }

  lemma ChainKeepsLoadSafe(plan: MigrationPlan, w: HaChain.World, step: HaChain.Step, i: nat)
    requires HaChain.Inv(w) && Aligned(plan, w) && i < |plan.ports|
    requires ReturnOnRecord(plan, w, i) || NeverPrepared(plan, w, i)
    requires Aligned(plan, HaChain.Do(w, step))
    ensures ReturnOnRecord(plan, HaChain.Do(w, step), i) || NeverPrepared(plan, HaChain.Do(w, step), i)
  {
    var w' := HaChain.Do(w, step);
    if w' != w {
      match step
      case Supersede(_, _, _) => SupersedeKeepsLoadSafe(plan, w, step, i);
      case Fire(a) => LandingKeepsLoadSafe(plan, w, a, i);
      case Report(_) =>
        if ReturnOnRecord(plan, w, i) {
          var id := plan.ports[i].portId;
          CoverGrows(PredecessorsOf(w.current.ports[i]),
                     Position(plan.sourceNodeId, "", [plan.source], w.ports[id].revision + 1, plan.ports[i].generation),
                     w'.ports[id].revision + 1);
        }
      case Arm(_, _) =>
        if !ReturnOnRecord(plan, w, i) {
          assert HaChain.Grounded(w.current, w.ports);
          ArmKeepsLoadSafe(plan, w, step, i);
        }
      case _ =>
    }
  }

  lemma LandingKeepsLoadSafe(plan: MigrationPlan, w: HaChain.World, a: Armed, i: nat)
    requires HaChain.Inv(w) && Aligned(plan, w) && i < |plan.ports| && a in w.armed && HaChain.Lands(w.ports, a)
    requires ReturnOnRecord(plan, w, i) || NeverPrepared(plan, w, i)
    ensures var w' := w.(ports := HaChain.Landed(w.ports, a));
            Aligned(plan, w') && (ReturnOnRecord(plan, w', i) || NeverPrepared(plan, w', i))
  {
    var w' := w.(ports := HaChain.Landed(w.ports, a));
    var id := plan.ports[i].portId;
    if ReturnOnRecord(plan, w, i) {
      CoverGrows(PredecessorsOf(w.current.ports[i]),
                 Position(plan.sourceNodeId, "", [plan.source], w.ports[id].revision + 1, plan.ports[i].generation),
                 w'.ports[id].revision + 1);
    } else {
      forall b | b in w'.armed && b.portId == id && PreparedSpot(plan, plan.ports[i], b.desired)
        ensures b.expected < w'.ports[id].revision
      {
        assert HaChain.ArmedOk(w, b);
      }
    }
  }

  /** A late compensation of a port whose return position is on record is an expected write. */
  lemma LateReturnIsExpected(plan: MigrationPlan, w: HaChain.World, i: nat)
    requires HaChain.Inv(w) && Aligned(plan, w) && i < |plan.ports| && ReturnOnRecord(plan, w, i)
    requires AtPrepared(plan, plan.ports[i], w.ports[plan.ports[i].portId])
    ensures HaChain.ArmedOk(w, ReturnWrite(plan, plan.ports[i], w.ports[plan.ports[i].portId]))
  {
    var v := w.ports[plan.ports[i].portId];
    var write := ReturnWrite(plan, plan.ports[i], v);
    var returned := Versioned(write.expected + 1, write.desired);
    CoveredMatches(PredecessorsOf(w.current.ports[i]),
                   Position(plan.sourceNodeId, "", [plan.source], v.revision + 1, plan.ports[i].generation), returned);
    assert HaChain.Grounded(w.current, w.ports);
  }

  lemma LateLoadKeepsInv(plan: MigrationPlan, a: Aftermath, i: nat)
    requires PlanOk(plan) && LateInv(plan, a) && DoLate(plan, a, LateLoad(i)) != a
    ensures LateInv(plan, DoLate(plan, a, LateLoad(i)))
  {
    var w := a.world;
    var write := ReturnWrite(plan, plan.ports[i], w.ports[plan.ports[i].portId]);
    assert ReturnOnRecord(plan, w, i);
    LateReturnIsExpected(plan, w, i);
    HaChain.ExtraWriteKeepsInv(w, write);
    var w' := w.(armed := w.armed + {write});
    assert Aligned(plan, w');
    forall k | 0 <= k < |plan.ports| && plan.ports[k].portId in a.loads
      ensures ReturnOnRecord(plan, w', k) || NeverPrepared(plan, w', k)
    {
      ExtraReturnKeepsLoadSafe(plan, w, write, k);
    }
  }

  lemma ExtraReturnKeepsLoadSafe(plan: MigrationPlan, w: HaChain.World, write: Armed, k: nat)
    requires plan.sourceNodeId != plan.targetNodeId && Aligned(plan, w) && k < |plan.ports|
    requires write.desired == ReturnMove(plan, write.cached)
    requires ReturnOnRecord(plan, w, k) || NeverPrepared(plan, w, k)
    ensures var w' := w.(armed := w.armed + {write});
            ReturnOnRecord(plan, w', k) || NeverPrepared(plan, w', k)
  {
    ReturnPreparesNothing(plan, write.cached);
  }

  lemma ReturnPreparesNothing(plan: MigrationPlan, p: Port)
    requires plan.sourceNodeId != plan.targetNodeId
    ensures forall intent :: !PreparedSpot(plan, intent, ReturnMove(plan, p))
  {
  }

  lemma LateStepKeepsInv(plan: MigrationPlan, a: Aftermath, step: LateStep)
    requires PlanOk(plan) && LateInv(plan, a)
    ensures LateInv(plan, DoLate(plan, a, step))
  {
    match step
    case Chain(st) =>
      HaChain.StepKeepsInv(a.world, st);
      AlignedStep(plan, a.world, st);
      forall i | 0 <= i < |plan.ports| && plan.ports[i].portId in a.loads
        ensures ReturnOnRecord(plan, HaChain.Do(a.world, st), i) || NeverPrepared(plan, HaChain.Do(a.world, st), i)
      {
        ChainKeepsLoadSafe(plan, a.world, st, i);
      }
    case LateLoad(i) =>
      if DoLate(plan, a, step) != a {
        LateLoadKeepsInv(plan, a, i);
      }
    case LateSettle(_) =>
  }

  lemma AlignedStep(plan: MigrationPlan, w: HaChain.World, step: HaChain.Step)
    requires Aligned(plan, w)
    ensures Aligned(plan, HaChain.Do(w, step))
  {
    forall i | 0 <= i < |plan.ports|
      ensures |HaChain.Do(w, step).current.ports| == |plan.ports|
      ensures HaChain.Do(w, step).current.ports[i].portId == plan.ports[i].portId
        && plan.ports[i].portId in HaChain.Do(w, step).ports
    {
      HaChain.StepKeepsManifest(w, step, i);
    }
  }

  lemma {:induction false} LateRunKeepsInv(plan: MigrationPlan, a: Aftermath, steps: seq<LateStep>)
    requires PlanOk(plan) && LateInv(plan, a)
    ensures LateInv(plan, RunLate(plan, a, steps))
    decreases |steps|
  {
    if steps != [] {
      LateStepKeepsInv(plan, a, steps[0]);
      LateRunKeepsInv(plan, DoLate(plan, a, steps[0]), steps[1..]);
    }
  }

  // ---------------------------------------------------------------- when the takeover is safe

  /** Some write that can still land matches the given kind of move. */
  ghost predicate LivePrepare(plan: MigrationPlan, s: State, intent: MigrationPort) {
    exists a :: a in s.armed && a.portId == intent.portId && HaChain.Lands(s.ports, a) && IsPrepare(plan, intent, a)
  }
  ghost predicate LiveReturn(plan: MigrationPlan, s: State, intent: MigrationPort) {
    exists a :: a in s.armed && a.portId == intent.portId && HaChain.Lands(s.ports, a) && IsReturn(plan, intent, a)
  }

  /** A port recovered untouched, which a stale compensating worker has returned or still can return. */
  ghost predicate Hazard(plan: MigrationPlan, s: State, listing: map<string, Versioned>, i: nat)
    requires i < |plan.ports| && plan.ports[i].portId in listing && plan.ports[i].portId in s.ports
  {
    var intent := plan.ports[i];
    var v := s.ports[intent.portId];
    && listing[intent.portId].port.generation == intent.sourceGeneration
    && (|| AtReturned(plan, intent, v)
        || LiveReturn(plan, s, intent)
        || (intent.portId in s.loads && (AtPrepared(plan, intent, v) || LivePrepare(plan, s, intent))))
  }

  /** A promotion of a migrating state, with node rows found by their own ID. */
  ghost predicate Promotable(plan: MigrationPlan, s: State, listing: map<string, Versioned>, start: HaStart,
                             nodes: map<string, NodeRef>) {
    && PlanOk(plan) && Inv(plan, s) && CanPromote(plan, s, listing, start, nodes)
    && forall id :: id in nodes ==> nodes[id].id == id
  }

  /** What the promoted payload records of one port, next to what the port is doing. */
  ghost predicate PromotedEntry(plan: MigrationPlan, s: State, listing: map<string, Versioned>, payload: HaPayload,
                                i: nat)
    requires i < |plan.ports| && plan.ports[i].portId in listing && plan.ports[i].portId in s.ports
      && i < |payload.ports|
  {
    var intent, p := plan.ports[i], payload.ports[i];
    var at, v := listing[intent.portId], s.ports[intent.portId];
    && PredecessorsOf(p) == [PriorPosition(p), PreparedPosition(plan, intent)]
    && PriorPosition(p) == Position(plan.sourceNodeId, p.priorNode, [plan.source], at.revision, at.port.generation)
    && p.targetGeneration == intent.generation + 1 && p.portId == intent.portId && p.targetRevision <= at.revision + 1
    && (AtSource(plan, intent, at) || AtReturned(plan, intent, at))
    && EntryOk(intent) && plan.sourceNodeId != plan.targetNodeId
    && OnPath(plan, intent, v) && ConfigMatches(v, plan, intent)
    && at.revision <= v.revision && at.port.generation <= v.port.generation
  }

  lemma EntryIsPromoted(plan: MigrationPlan, s: State, listing: map<string, Versioned>, start: HaStart,
                        nodes: map<string, NodeRef>,
                        history: seq<HaProof>, audit: Option<HaAudit>, i: nat)
    requires Promotable(plan, s, listing, start, nodes) && i < |plan.ports|
    ensures plan.ports[i].portId in listing && plan.ports[i].portId in s.ports
    ensures PromotedEntry(plan, s, listing, PromotedPayload(plan, s, listing, start, nodes, history, audit), i)
    ensures Fenced(PromotedPayload(plan, s, listing, start, nodes, history, audit),
                   PromotedPayload(plan, s, listing, start, nodes, history, audit).ports[i])
  {
    var intent := plan.ports[i];
    assert PlanIds(plan)[i] == intent.portId;
    var at := listing[intent.portId];
    assert ListingOk(s.ports, listing);
    PromotedPortRecord(plan, intent, at, nodes, start.target);
    PromotedPortIsFenced(plan, intent, at, nodes, start.target,
                         PromotedPayload(plan, s, listing, start, nodes, history, audit));
  }

  /** Only a port recovered untouched and returned since is off the record. */
  lemma PromotedPortIsInPlaceIff(plan: MigrationPlan, s: State, listing: map<string, Versioned>, payload: HaPayload,
                                 i: nat, v: Versioned)
    requires i < |plan.ports| && plan.ports[i].portId in listing && plan.ports[i].portId in s.ports
      && i < |payload.ports|
    requires PromotedEntry(plan, s, listing, payload, i) && OnPath(plan, plan.ports[i], v)
    requires listing[plan.ports[i].portId].revision <= v.revision
    requires listing[plan.ports[i].portId].port.generation <= v.port.generation
    ensures Recorded(payload, payload.ports[i], v) <==>
              !(AtReturned(plan, plan.ports[i], v)
                && listing[plan.ports[i].portId].port.generation == plan.ports[i].sourceGeneration)
  {
    var p, intent := payload.ports[i], plan.ports[i];
    if AtPrepared(plan, intent, v) {
      PreparedIsRecorded(payload, p, plan, intent, v);
    } else if AtReturned(plan, intent, v) {
      ReturnedIsRecordedIff(payload, p, plan, intent, v, listing[intent.portId], p.priorNode);
    } else {
      assert MatchesPosition(v, PredecessorsOf(p)[0]);
    }
  }

  /** Without a hazard, whatever a worker of the migration still writes is on record. */
  lemma LeftoverWriteIsExpected(plan: MigrationPlan, s: State, listing: map<string, Versioned>, payload: HaPayload,
                                n: nat, a: Armed)
    requires n < |plan.ports| == |payload.ports| && plan.ports[n].portId in listing && plan.ports[n].portId in s.ports
    requires PromotedEntry(plan, s, listing, payload, n) && !Hazard(plan, s, listing, n)
    requires a in s.armed && a.portId == plan.ports[n].portId && HaChain.Lands(s.ports, a)
    requires IsPrepare(plan, plan.ports[n], a) || IsReturn(plan, plan.ports[n], a)
    requires a.cached == s.ports[a.portId].port
    ensures Recorded(payload, payload.ports[n], Versioned(a.expected + 1, a.desired))
  {
    FiredStaysOnPath(plan, plan.ports[n], a);
    PromotedPortIsInPlaceIff(plan, s, listing, payload, n, Versioned(a.expected + 1, a.desired));
  }

  lemma LeftoverIsOk(plan: MigrationPlan, s: State, listing: map<string, Versioned>, payload: HaPayload, a: Armed)
    requires PlanOk(plan) && Inv(plan, s) && a in s.armed && |plan.ports| == |payload.ports|
    requires forall i :: 0 <= i < |plan.ports| ==>
               && plan.ports[i].portId in listing && plan.ports[i].portId in s.ports
               && PromotedEntry(plan, s, listing, payload, i) && !Hazard(plan, s, listing, i)
    ensures HaChain.ArmedOk(Promote(s, payload).world, a)
  {
    assert ArmedOk(plan, s.ports, a);
    var n :| 0 <= n < |plan.ports| && plan.ports[n].portId == a.portId
          && (IsPrepare(plan, plan.ports[n], a) || IsReturn(plan, plan.ports[n], a));
    FiredStaysOnPath(plan, plan.ports[n], a);
    if a.expected == s.ports[a.portId].revision {
      LeftoverWriteIsExpected(plan, s, listing, payload, n, a);
      forall i | 0 <= i < |payload.ports| && payload.ports[i].portId == a.portId ensures i == n {
        assert PromotedEntry(plan, s, listing, payload, i);
      }
      assert HaChain.Expected(payload, a);
    }
  }

  /** Without a hazard, a compensator that may still load the port does no harm. */
  lemma LeftoverLoadIsSafe(plan: MigrationPlan, s: State, listing: map<string, Versioned>, payload: HaPayload, i: nat)
    requires PlanOk(plan) && Inv(plan, s) && i < |plan.ports| == |payload.ports|
    requires plan.ports[i].portId in listing && plan.ports[i].portId in s.ports && plan.ports[i].portId in s.loads
    requires PromotedEntry(plan, s, listing, payload, i) && !Hazard(plan, s, listing, i)
    ensures ReturnOnRecord(plan, Promote(s, payload).world, i) || NeverPrepared(plan, Promote(s, payload).world, i)
  {
    var w := Promote(s, payload).world;
    var intent := plan.ports[i];
    if listing[intent.portId].port.generation == intent.generation {
      var ps := PredecessorsOf(payload.ports[i]);
      assert ps[0].nodeId == plan.sourceNodeId && ps[0].chassis == [plan.source]
        && ps[0].generation == intent.generation;
      assert ReturnOnRecord(plan, w, i);
    } else {
      forall a | a in w.armed && a.portId == intent.portId && PreparedSpot(plan, intent, a.desired)
        ensures a.expected < w.ports[a.portId].revision
      {
        assert ArmedOk(plan, s.ports, a);
        var n :| 0 <= n < |plan.ports| && plan.ports[n].portId == a.portId
              && (IsPrepare(plan, plan.ports[n], a) || IsReturn(plan, plan.ports[n], a));
        assert n == i;
        ReturnPreparesNothing(plan, a.cached);
      }
    }
  }

  lemma PromotionEstablishesLateInv(plan: MigrationPlan, s: State, listing: map<string, Versioned>, start: HaStart,
                                    nodes: map<string, NodeRef>, history: seq<HaProof>, audit: Option<HaAudit>)
    requires Promotable(plan, s, listing, start, nodes)
    requires forall i :: 0 <= i < |plan.ports| && plan.ports[i].portId in listing && plan.ports[i].portId in s.ports ==>
               !Hazard(plan, s, listing, i)
    ensures LateInv(plan, Promote(s, PromotedPayload(plan, s, listing, start, nodes, history, audit)))
  {
    var payload := PromotedPayload(plan, s, listing, start, nodes, history, audit);
    var w := Promote(s, payload).world;
    forall i | 0 <= i < |plan.ports|
      ensures plan.ports[i].portId in listing && plan.ports[i].portId in s.ports
        && PromotedEntry(plan, s, listing, payload, i)
      ensures HaChain.GroundedPort(payload, payload.ports[i], s.ports)
      ensures Recorded(payload, payload.ports[i], s.ports[plan.ports[i].portId])
      ensures plan.ports[i].portId in s.loads ==> ReturnOnRecord(plan, w, i) || NeverPrepared(plan, w, i)
    {
      EntryIsPromoted(plan, s, listing, start, nodes, history, audit, i);
      PromotedPortIsInPlaceIff(plan, s, listing, payload, i, s.ports[plan.ports[i].portId]);
      if plan.ports[i].portId in s.loads {
        LeftoverLoadIsSafe(plan, s, listing, payload, i);
      }
    }
    forall a | a in w.armed ensures HaChain.ArmedOk(w, a) {
      LeftoverIsOk(plan, s, listing, payload, a);
    }
    assert HaChain.Grounded(payload, s.ports);
  }

  // ---------------------------------------------------------------- why the hazards matter

  /** A run in which the hazard strikes. */
  lemma HazardStrands(plan: MigrationPlan, s: State, listing: map<string, Versioned>, payload: HaPayload, i: nat)
    returns (steps: seq<LateStep>)
    requires PlanOk(plan) && Inv(plan, s) && i < |plan.ports| == |payload.ports|
    requires plan.ports[i].portId in listing && plan.ports[i].portId in s.ports
    requires PromotedEntry(plan, s, listing, payload, i) && Hazard(plan, s, listing, i)
    ensures var w := RunLate(plan, Promote(s, payload), steps).world;
            && w.current == payload && plan.ports[i].portId in w.ports
            && !Recorded(payload, payload.ports[i], w.ports[plan.ports[i].portId])
  {
    var start := Promote(s, payload);
    var intent := plan.ports[i];
    var id := intent.portId;
    if AtReturned(plan, intent, s.ports[id]) {
      steps := [];
      PromotedPortIsInPlaceIff(plan, s, listing, payload, i, s.ports[id]);
    } else if LiveReturn(plan, s, intent) {
      var a :| a in s.armed && a.portId == id && HaChain.Lands(s.ports, a) && IsReturn(plan, intent, a);
      steps := [Chain(HaChain.Fire(a))];
      OneStep(plan, start, steps[0]);
      ReturnStrands(plan, s, listing, payload, i, a);
    } else if AtPrepared(plan, intent, s.ports[id]) {
      steps := [LateLoad(i), Chain(HaChain.Fire(ReturnWrite(plan, intent, s.ports[id])))];
      LoadAndFire(plan, start, i);
      ReturnStrands(plan, s, listing, payload, i, ReturnWrite(plan, intent, s.ports[id]));
    } else {
      var a :| a in s.armed && a.portId == id && HaChain.Lands(s.ports, a) && IsPrepare(plan, intent, a);
      var prepared := DoLate(plan, start, Chain(HaChain.Fire(a)));
      assert ArmedOk(plan, s.ports, a);
      assert prepared.world.ports[id] == Versioned(a.expected + 1, a.desired);
      var back := ReturnWrite(plan, intent, prepared.world.ports[id]);
      steps := [Chain(HaChain.Fire(a)), LateLoad(i), Chain(HaChain.Fire(back))];
      assert steps[1..] == [LateLoad(i), Chain(HaChain.Fire(back))];
      LoadAndFire(plan, prepared, i);
      ReturnStrands(plan, s, listing, payload, i, back);
    }
  }

  lemma OneStep(plan: MigrationPlan, a: Aftermath, step: LateStep)
    ensures RunLate(plan, a, [step]) == DoLate(plan, a, step)
  {
    assert [step][1..] == [];
  }

  lemma LoadAndFire(plan: MigrationPlan, a: Aftermath, i: nat)
    requires i < |plan.ports| && plan.ports[i].portId in a.loads && plan.ports[i].portId in a.world.ports
    requires ConfigMatches(a.world.ports[plan.ports[i].portId], plan, plan.ports[i])
    requires AtPrepared(plan, plan.ports[i], a.world.ports[plan.ports[i].portId])
    ensures var write := ReturnWrite(plan, plan.ports[i], a.world.ports[plan.ports[i].portId]);
            var w := RunLate(plan, a, [LateLoad(i), Chain(HaChain.Fire(write))]).world;
            w.current == a.world.current && w.ports == HaChain.Landed(a.world.ports, write)
  {
    var write := ReturnWrite(plan, plan.ports[i], a.world.ports[plan.ports[i].portId]);
    var steps := [LateLoad(i), Chain(HaChain.Fire(write))];
    assert steps[1..] == [Chain(HaChain.Fire(write))];
    OneStep(plan, DoLate(plan, a, LateLoad(i)), Chain(HaChain.Fire(write)));
  }

  /** A return of a port that was recovered untouched lands off the record. */
  lemma ReturnStrands(plan: MigrationPlan, s: State, listing: map<string, Versioned>, payload: HaPayload, i: nat,
                      a: Armed)
    requires i < |plan.ports| && plan.ports[i].portId in listing && plan.ports[i].portId in s.ports
      && i < |payload.ports|
    requires PromotedEntry(plan, s, listing, payload, i) && IsReturn(plan, plan.ports[i], a)
    requires listing[plan.ports[i].portId].port.generation == plan.ports[i].sourceGeneration
    requires a.expected >= s.ports[plan.ports[i].portId].revision
    ensures !Recorded(payload, payload.ports[i], Versioned(a.expected + 1, a.desired))
  {
    FiredStaysOnPath(plan, plan.ports[i], a);
    PromotedPortIsInPlaceIff(plan, s, listing, payload, i, Versioned(a.expected + 1, a.desired));
  }

  // ---------------------------------------------------------------- main result

  /** Main result.  From any state a source-directed migration can reach, the promoted payload accounts
      for its ports in every later interleaving, including every write its stale workers still make, if
      and only if no port was recovered untouched while a compensating worker returned it or still can. */
  lemma TakeoverIsSafeIff(plan: MigrationPlan, s: State, listing: map<string, Versioned>, start: HaStart,
                          nodes: map<string, NodeRef>, history: seq<HaProof>, audit: Option<HaAudit>)
    requires Promotable(plan, s, listing, start, nodes)
    ensures (forall i :: 0 <= i < |plan.ports| && plan.ports[i].portId in listing && plan.ports[i].portId in s.ports ==>
               !Hazard(plan, s, listing, i))
            <==>
            (forall steps: seq<LateStep> ::
               var w := RunLate(plan, Promote(s, PromotedPayload(plan, s, listing, start, nodes, history, audit)),
                                steps).world;
               HaChain.InPlace(w.current, w.ports))
  {
    var payload := PromotedPayload(plan, s, listing, start, nodes, history, audit);
    if i :| (0 <= i < |plan.ports| && plan.ports[i].portId in listing && plan.ports[i].portId in s.ports
             && Hazard(plan, s, listing, i)) {
      EntryIsPromoted(plan, s, listing, start, nodes, history, audit, i);
      var steps := HazardStrands(plan, s, listing, payload, i);
      var w := RunLate(plan, Promote(s, payload), steps).world;
      assert payload.ports[i].portId == plan.ports[i].portId;
      assert !HaChain.InPlace(w.current, w.ports);
    } else {
      PromotionEstablishesLateInv(plan, s, listing, start, nodes, history, audit);
      forall steps: seq<LateStep>
        ensures HaChain.InPlace(RunLate(plan, Promote(s, payload), steps).world.current,
                                RunLate(plan, Promote(s, payload), steps).world.ports)
      {
        LateRunKeepsInv(plan, Promote(s, payload), steps);
      }
    }
  }

  /** A stale prepare worker alone never strands a port, also when its write or a report lands between the
      listing and the promotion: if no compensating worker is between its check and its load, no return is
      outstanding, and a port that has been returned was listed so, every later interleaving stays on record. */
  lemma StalePrepareIsHarmless(plan: MigrationPlan, s: State, listing: map<string, Versioned>, start: HaStart,
                               nodes: map<string, NodeRef>, history: seq<HaProof>, audit: Option<HaAudit>,
                               steps: seq<LateStep>)
    requires Promotable(plan, s, listing, start, nodes) && s.loads == {}
    requires forall i :: 0 <= i < |plan.ports| ==> !LiveReturn(plan, s, plan.ports[i])
    requires forall i :: (0 <= i < |plan.ports| && plan.ports[i].portId in s.ports && plan.ports[i].portId in listing
                          && AtReturned(plan, plan.ports[i], s.ports[plan.ports[i].portId])) ==>
               AtReturned(plan, plan.ports[i], listing[plan.ports[i].portId])
    ensures var w := RunLate(plan, Promote(s, PromotedPayload(plan, s, listing, start, nodes, history, audit)),
                             steps).world;
            HaChain.InPlace(w.current, w.ports)
  {
    forall i | 0 <= i < |plan.ports| && plan.ports[i].portId in listing && plan.ports[i].portId in s.ports
      ensures !Hazard(plan, s, listing, i)
    {
      assert EntryOk(plan.ports[i]);
    }
    TakeoverIsSafeIff(plan, s, listing, start, nodes, history, audit);
  }

  /** A migration that has just begun: every port untouched, no worker yet. */
  predicate Begun(plan: MigrationPlan, s: State) {
    && s.phase == Preparing && s.listings == {} && s.armed == {} && s.loads == {}
    && forall i :: 0 <= i < |plan.ports| ==>
         && plan.ports[i].portId in s.ports
         && ConfigMatches(s.ports[plan.ports[i].portId], plan, plan.ports[i])
         && AtSource(plan, plan.ports[i], s.ports[plan.ports[i].portId])
  }

  /** Whole runs: any interleaving of the migration, then the promotion, then any interleaving after it. */
  lemma MigrationThenTakeover(plan: MigrationPlan, begin: State, steps: seq<Step>, listing: map<string, Versioned>,
                              start: HaStart,
                              nodes: map<string, NodeRef>, history: seq<HaProof>, audit: Option<HaAudit>)
    requires PlanOk(plan) && Begun(plan, begin) && (forall id :: id in nodes ==> nodes[id].id == id)
    requires CanPromote(plan, Run(plan, begin, steps), listing, start, nodes)
    ensures Promotable(plan, Run(plan, begin, steps), listing, start, nodes)
  {
    RunKeepsInv(plan, begin, steps);
  }

  // ---------------------------------------------------------------- a hazard that is reached

  /** One port, prepared by a worker whose write is still under way; a compensator has checked that it
      owns the migration and has not loaded the port yet when HA takes over. */
  function HazardousSteps(ports: map<string, Versioned>): seq<Step> {
    [List, ArmPrepare(ports, 0), ClaimPhase(Compensating), Check(0), ClaimPhase(HaRecoveringSource)]
  }

  lemma {:induction false} HazardIsReached(plan: MigrationPlan, begin: State)
    requires PlanOk(plan) && Begun(plan, begin) && |plan.ports| > 0
    ensures var s := Run(plan, begin, HazardousSteps(begin.ports));
            && s.phase == HaRecoveringSource && begin.ports in s.listings && s.ports == begin.ports
            && Hazard(plan, s, begin.ports, 0)
  {
    var steps := HazardousSteps(begin.ports);
    var intent := plan.ports[0];
    var write := PrepareWrite(plan, intent, begin.ports[intent.portId]);
    var s1 := begin.(listings := {begin.ports});
    var s2 := s1.(armed := {write});
    var s3 := s2.(phase := Compensating);
    var s4 := s3.(loads := {intent.portId});
    var s5 := s4.(phase := HaRecoveringSource);
    assert Do(plan, begin, steps[0]) == s1;
    assert Do(plan, s1, steps[1]) == s2;
    assert Do(plan, s3, steps[3]) == s4;
    assert steps[1..][0] == steps[1] && steps[1..][1..] == steps[2..];
    assert steps[2..][1..] == steps[3..] && steps[3..][1..] == steps[4..] && steps[4..][1..] == [];
    assert Run(plan, begin, steps) == Run(plan, s2, steps[2..]);
    assert Run(plan, s2, steps[2..]) == Run(plan, s4, steps[4..]);
    assert Run(plan, s4, steps[4..]) == s5;
    assert write in s5.armed && HaChain.Lands(s5.ports, write) && IsPrepare(plan, intent, write);
    assert LivePrepare(plan, s5, intent);
  }

  lemma PromotionHasRoom(found: HaPort, plan: MigrationPlan, intent: MigrationPort, target: NodeRef)
    requires found.predecessors == [] && 0 <= found.priorGeneration <= intent.generation < MAX_INT64
    ensures PromotedPort(found, plan, intent, target).Some?
  {
    var prepared := PreparedPosition(plan, intent);
    assert [] + [prepared] == [prepared];
    NormalizedSingle(prepared);
    assert MaxGeneration([prepared]) == intent.generation by {
      assert [prepared][1..] == [];
    }
  }

  /** The ports of a begun migration can be promoted untouched as long as their nodes are known. */
  lemma UntouchedPortsPromote(plan: MigrationPlan, begin: State, s: State, start: HaStart, nodes: map<string, NodeRef>)
    requires PlanOk(plan) && Begun(plan, begin) && AllAttachable(PlanIds(plan), begin.ports, nodes, start.target)
    requires forall i :: 0 <= i < |plan.ports| ==> plan.ports[i].generation < MAX_INT64
    requires s.phase == HaRecoveringSource && begin.ports in s.listings
    ensures CanPromote(plan, s, begin.ports, start, nodes)
  {
    forall i | 0 <= i < |plan.ports|
      ensures PlanIds(plan)[i] in begin.ports
      ensures PromotedPort(NewHaPort(PlanIds(plan)[i], begin.ports[PlanIds(plan)[i]], nodes, start.target), plan,
                           plan.ports[i], start.target).Some?
    {
      var v := begin.ports[PlanIds(plan)[i]];
      assert AtSource(plan, plan.ports[i], v) && EntryOk(plan.ports[i]);
      PromotionHasRoom(NewHaPort(PlanIds(plan)[i], v, nodes, start.target), plan, plan.ports[i], start.target);
    }
  }

  /** The takeover is not safe in every interleaving: any migration with a port has a run in which HA takes
      over while a compensator is between its check and its load, and the port ends up off the record. */
  lemma StaleCompensatorStrandsAPort(plan: MigrationPlan, begin: State, start: HaStart, nodes: map<string, NodeRef>)
    returns (late: seq<LateStep>)
    requires PlanOk(plan) && Begun(plan, begin) && |plan.ports| > 0 && (forall id :: id in nodes ==> nodes[id].id == id)
    requires AllAttachable(PlanIds(plan), begin.ports, nodes, start.target)
    requires forall i :: 0 <= i < |plan.ports| ==> plan.ports[i].generation < MAX_INT64
    ensures var s := Run(plan, begin, HazardousSteps(begin.ports));
            && Promotable(plan, s, begin.ports, start, nodes)
            && var w := RunLate(plan, Promote(s, PromotedPayload(plan, s, begin.ports, start, nodes, [], None)),
                                late).world;
               !HaChain.InPlace(w.current, w.ports)
  {
    var s := Run(plan, begin, HazardousSteps(begin.ports));
    HazardIsReached(plan, begin);
    RunKeepsInv(plan, begin, HazardousSteps(begin.ports));
    UntouchedPortsPromote(plan, begin, s, start, nodes);
    EntryIsPromoted(plan, s, begin.ports, start, nodes, [], None, 0);
    var payload := PromotedPayload(plan, s, begin.ports, start, nodes, [], None);
    late := HazardStrands(plan, s, begin.ports, payload, 0);
    assert payload.ports[0].portId == plan.ports[0].portId;
  }
}
