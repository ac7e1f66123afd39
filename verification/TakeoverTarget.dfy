/** HA takeover of a migration that is headed to its target.

    Here the promoted payload records nothing but the positions it found, and that is enough: a port
    that has reached the target alone is out of reach of every write of the migration. */
module TakeoverTarget {
  import opened Ports
  import opened Payloads
  import opened Migration
  import opened HaRebind
  import HaChain
  import Takeover

  type Armed = HaChain.Armed

  datatype State = State(phase: MigrationPhase, ports: map<string, Versioned>, listings: set<map<string, Versioned>>,
                         armed: set<Armed>)

  datatype Step =
    | List
    | ArmPrepare(listing: map<string, Versioned>, index: nat)
    | ArmFinish(listing: map<string, Versioned>, index: nat)
    | Fire(write: Armed)
    | Report(portId: string)
    | ClaimPhase(next: MigrationPhase)

  predicate TargetClaim(phase: MigrationPhase, next: MigrationPhase) {
    match next
    case Prepared => phase == Preparing
    case Committing => phase == Prepared
    case HaRecoveringTarget => phase == Prepared || phase == Committing || phase == HaRecoveringTarget
    case _ => false
  }

  function FinishWrite(plan: MigrationPlan, intent: MigrationPort, v: Versioned): Armed {
    HaChain.Armed(intent.portId, v.revision, v.port, FinishMove(plan, v.port))
  }

  function Do(plan: MigrationPlan, s: State, step: Step): State {
    match step
    case List => s.(listings := s.listings + {s.ports})
    case ArmPrepare(listing, i) =>
      if listing in s.listings && (s.phase == Preparing || s.phase == Prepared) && i < |plan.ports|
        && plan.ports[i].portId in listing
         && ConfigMatches(listing[plan.ports[i].portId], plan, plan.ports[i])
           && AtSource(plan, plan.ports[i], listing[plan.ports[i].portId])
      then s.(armed := s.armed + {Takeover.PrepareWrite(plan, plan.ports[i], listing[plan.ports[i].portId])})
      else s
    case ArmFinish(listing, i) =>
      if listing in s.listings && (s.phase == Committing || s.phase == HaRecoveringTarget) && plan.online
        && i < |plan.ports|
         && plan.ports[i].portId in listing
         && ConfigMatches(listing[plan.ports[i].portId], plan, plan.ports[i])
           && AtPrepared(plan, plan.ports[i], listing[plan.ports[i].portId])
      then s.(armed := s.armed + {FinishWrite(plan, plan.ports[i], listing[plan.ports[i].portId])})
      else s
    case Fire(write) =>
      if write in s.armed && HaChain.Lands(s.ports, write) then s.(ports := HaChain.Landed(s.ports, write)) else s
    case Report(id) =>
      if id in s.ports && s.ports[id].port.status == Binding
      then s.(ports := s.ports[id := Versioned(s.ports[id].revision + 1, Reported(s.ports[id].port))])
      else s
    case ClaimPhase(next) => if TargetClaim(s.phase, next) then s.(phase := next) else s
  }

  function Run(plan: MigrationPlan, s: State, steps: seq<Step>): State
    decreases |steps|
  {
    if steps == [] then s else Run(plan, Do(plan, s, steps[0]), steps[1..])
  }

  // ---------------------------------------------------------------- what a migrating state keeps

  /** A write of the migration: prepares an untouched port, or finishes a prepared one. */
  predicate IsMove(plan: MigrationPlan, intent: MigrationPort, a: Armed) {
    || Takeover.IsPrepare(plan, intent, a)
    || (plan.online && AtPrepared(plan, intent, Versioned(a.expected, a.cached))
        && a.desired == FinishMove(plan, a.cached))
  }

  ghost predicate ArmedOk(plan: MigrationPlan, ports: map<string, Versioned>, a: Armed) {
    && HaChain.Remembers(ports, a.portId, a.expected, a.cached)
    && exists i :: 0 <= i < |plan.ports| && plan.ports[i].portId == a.portId && IsMove(plan, plan.ports[i], a)
  }

  /** What was listed at the target alone still is. */
  ghost predicate ListingOk(plan: MigrationPlan, ports: map<string, Versioned>, listing: map<string, Versioned>) {
    && (forall id :: id in listing ==> HaChain.Remembers(ports, id, listing[id].revision, listing[id].port))
    && forall i :: (0 <= i < |plan.ports| && plan.ports[i].portId in listing
                    && AtFinal(plan, plan.ports[i], listing[plan.ports[i].portId])) ==>
         plan.ports[i].portId in ports && AtFinal(plan, plan.ports[i], ports[plan.ports[i].portId])
  }

  ghost predicate Inv(plan: MigrationPlan, s: State) {
    && (forall l :: l in s.listings ==> ListingOk(plan, s.ports, l))
    && (forall a :: a in s.armed ==> ArmedOk(plan, s.ports, a))
  }

  /** No write of the migration can land on a port that is at the target alone. */
  lemma FinalIsOutOfReach(plan: MigrationPlan, intent: MigrationPort, a: Armed, v: Versioned)
    requires EntryOk(intent) && plan.sourceNodeId != plan.targetNodeId && IsMove(plan, intent, a)
    ensures AtFinal(plan, intent, v) ==> !(a.expected == v.revision && a.cached == v.port)
  {
  }

  /** A new revision of one port keeps the invariant if it leaves ports at the target there. */
  lemma AdvanceKeepsInv(plan: MigrationPlan, s: State, after: map<string, Versioned>, id: string)
    requires Inv(plan, s) && HaChain.Advanced(s.ports, after, id)
    requires forall i :: (0 <= i < |plan.ports| && plan.ports[i].portId == id
                          && AtFinal(plan, plan.ports[i], s.ports[id])) ==>
               AtFinal(plan, plan.ports[i], after[id])
    ensures Inv(plan, s.(ports := after))
  {
    forall l | l in s.listings ensures ListingOk(plan, after, l) {
      assert ListingOk(plan, s.ports, l);
    }
    forall a | a in s.armed ensures ArmedOk(plan, after, a) {
      assert ArmedOk(plan, s.ports, a);
    }
  }

  lemma FireKeepsInv(plan: MigrationPlan, s: State, a: Armed)
    requires PlanOk(plan) && Inv(plan, s) && a in s.armed && HaChain.Lands(s.ports, a)
    ensures Inv(plan, s.(ports := HaChain.Landed(s.ports, a)))
  {
    assert ArmedOk(plan, s.ports, a);
    var n :| 0 <= n < |plan.ports| && plan.ports[n].portId == a.portId && IsMove(plan, plan.ports[n], a);
    FinalIsOutOfReach(plan, plan.ports[n], a, s.ports[a.portId]);
    AdvanceKeepsInv(plan, s, HaChain.Landed(s.ports, a), a.portId);
  }

  lemma ArmKeepsInv(plan: MigrationPlan, s: State, listing: map<string, Versioned>, a: Armed, i: nat)
    requires Inv(plan, s) && listing in s.listings && i < |plan.ports| && a.portId == plan.ports[i].portId
      && a.portId in listing
    requires a.expected == listing[a.portId].revision && a.cached == listing[a.portId].port
      && IsMove(plan, plan.ports[i], a)
    ensures Inv(plan, s.(armed := s.armed + {a}))
  {
    assert ListingOk(plan, s.ports, listing);
    assert ArmedOk(plan, s.ports, a);
  }

  lemma StepKeepsInv(plan: MigrationPlan, s: State, step: Step)
    requires PlanOk(plan) && Inv(plan, s)
    ensures Inv(plan, Do(plan, s, step))
  {
    if Do(plan, s, step) != s {
      match step
      case Fire(write) => FireKeepsInv(plan, s, write);
      case Report(id) => AdvanceKeepsInv(plan, s, Do(plan, s, step).ports, id);
      case ArmPrepare(listing, i) =>
        ArmKeepsInv(plan, s, listing, Takeover.PrepareWrite(plan, plan.ports[i], listing[plan.ports[i].portId]), i);
      case ArmFinish(listing, i) => ArmKeepsInv(plan, s, listing,
                                                FinishWrite(plan, plan.ports[i], listing[plan.ports[i].portId]), i);
      case _ =>
    }
  }

  lemma {:induction false} RunKeepsInv(plan: MigrationPlan, s: State, steps: seq<Step>)
    requires PlanOk(plan) && Inv(plan, s)
    ensures Inv(plan, Run(plan, s, steps))
    decreases |steps|
  {
    if steps != [] {
      StepKeepsInv(plan, s, steps[0]);
      RunKeepsInv(plan, Do(plan, s, steps[0]), steps[1..]);
    }
  }

  // ---------------------------------------------------------------- the promotion

  /** validateRecoveredMigrationPorts for direction target, and newHAPayload on its result. */
  predicate CanPromote(plan: MigrationPlan, s: State, listing: map<string, Versioned>, start: HaStart,
                       nodes: map<string, NodeRef>) {
    && s.phase == HaRecoveringTarget && listing in s.listings
    && AllAttachable(Takeover.PlanIds(plan), listing, nodes, start.target)
    && forall i :: 0 <= i < |plan.ports| ==>
         && plan.ports[i].portId in listing && ConfigMatches(listing[plan.ports[i].portId], plan, plan.ports[i])
         && AtFinal(plan, plan.ports[i], listing[plan.ports[i].portId])
  }

  function Promote(plan: MigrationPlan, s: State, listing: map<string, Versioned>, start: HaStart,
                   nodes: map<string, NodeRef>,
                   history: seq<HaProof>, audit: Option<HaAudit>): HaChain.World
    requires CanPromote(plan, s, listing, start, nodes)
  {
    var payload := HaPayloadOf(start, history, NewHaPorts(Takeover.PlanIds(plan), listing, nodes, start.target), audit);
    HaChain.World(payload, {payload}, s.ports, {}, s.armed)
  }

  lemma MoveIsFaithful(plan: MigrationPlan, intent: MigrationPort, a: Armed)
    requires EntryOk(intent) && IsMove(plan, intent, a)
    ensures HaChain.Faithful(a)
  {
  }

  /** Every write the migration left behind is dead. */
  lemma LeftoverIsDead(plan: MigrationPlan, s: State, listing: map<string, Versioned>, start: HaStart,
                       nodes: map<string, NodeRef>, a: Armed)
    requires PlanOk(plan) && Inv(plan, s) && CanPromote(plan, s, listing, start, nodes) && a in s.armed
    ensures HaChain.Remembers(s.ports, a.portId, a.expected, a.cached) && HaChain.Faithful(a)
      && a.expected < s.ports[a.portId].revision
  {
    assert ArmedOk(plan, s.ports, a);
    var n :| 0 <= n < |plan.ports| && plan.ports[n].portId == a.portId && IsMove(plan, plan.ports[n], a);
    assert EntryOk(plan.ports[n]) && ListingOk(plan, s.ports, listing);
    MoveIsFaithful(plan, plan.ports[n], a);
    FinalIsOutOfReach(plan, plan.ports[n], a, s.ports[a.portId]);
  }

  lemma PromotionEstablishesInv(plan: MigrationPlan, s: State, listing: map<string, Versioned>, start: HaStart,
                                nodes: map<string, NodeRef>,
                                history: seq<HaProof>, audit: Option<HaAudit>)
    requires PlanOk(plan) && Inv(plan, s) && CanPromote(plan, s, listing, start, nodes)
    requires HaChain.NodesAgree(nodes, start.target) && forall id :: id in nodes ==> nodes[id].id == id
    ensures HaChain.Inv(Promote(plan, s, listing, start, nodes, history, audit))
  {
    var w := Promote(plan, s, listing, start, nodes, history, audit);
    var ids := Takeover.PlanIds(plan);
    assert ListingOk(plan, s.ports, listing);
    forall i | 0 <= i < |ids|
      ensures w.current.ports[i].portId == plan.ports[i].portId
        && HaChain.GroundedPort(w.current, w.current.ports[i], s.ports)
      ensures Recorded(w.current, w.current.ports[i], s.ports[ids[i]])
    {
      assert ids[i] == plan.ports[i].portId;
      NewPortIsFenced(w.current, ids[i], listing[ids[i]], nodes, start.target);
      assert PredecessorsOf(w.current.ports[i]) == [PriorPosition(w.current.ports[i])];
      assert MatchesPosition(s.ports[ids[i]], PredecessorsOf(w.current.ports[i])[0]);
    }
    forall a | a in w.armed ensures HaChain.ArmedOk(w, a) {
      LeftoverIsDead(plan, s, listing, start, nodes, a);
    }
    assert HaChain.Grounded(w.current, w.ports);
  }

  /** Main result: after a target-directed takeover of any run of the migration, every interleaving of HA workers,
      superseding assignments, reports and writes of stale migration workers keeps every port on record. */
  lemma TargetTakeoverIsSafe(plan: MigrationPlan, begin: map<string, Versioned>, before: seq<Step>,
                             listing: map<string, Versioned>,
                             start: HaStart, nodes: map<string, NodeRef>, history: seq<HaProof>, audit: Option<HaAudit>,
                             after: seq<HaChain.Step>)
    requires PlanOk(plan) && CanPromote(plan, Run(plan, State(Preparing, begin, {}, {}), before), listing, start, nodes)
    requires HaChain.NodesAgree(nodes, start.target) && forall id :: id in nodes ==> nodes[id].id == id
    ensures var s := Run(plan, State(Preparing, begin, {}, {}), before);
            var w := HaChain.Run(Promote(plan, s, listing, start, nodes, history, audit), after);
            HaChain.InPlace(w.current, w.ports)
  {
    var s := Run(plan, State(Preparing, begin, {}, {}), before);
    RunKeepsInv(plan, State(Preparing, begin, {}, {}), before);
    PromotionEstablishesInv(plan, s, listing, start, nodes, history, audit);
    HaChain.RunKeepsInv(Promote(plan, s, listing, start, nodes, history, audit), after);
  }
}
