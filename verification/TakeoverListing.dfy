/** What a manager that takes a migration over can tell from its own listing of the ports.

    It cannot see the writes and checks that other managers have in flight.  It does see the generation
    of every listed port, and that decides: a port listed at the migration's generation is safe whatever is
    in flight, a port listed untouched may be stranded. */
module TakeoverListing {
  import opened Ports
  import opened Payloads
  import opened Migration
  import opened HaRebind
  import opened Takeover
  import HaChain
  import MigrationPorts

  // ---------------------------------------------------------------- recovered listings are safe

  predicate Recovered(plan: MigrationPlan, listing: map<string, Versioned>) {
    forall i :: 0 <= i < |plan.ports| && plan.ports[i].portId in listing ==>
      listing[plan.ports[i].portId].port.generation == plan.ports[i].generation
  }

  /** If every port is listed at the migration's generation, the takeover is safe in every later interleaving,
      whatever workers of the migration are in flight. */
  lemma RecoveredListingIsSafe(plan: MigrationPlan, s: State, listing: map<string, Versioned>, start: HaStart,
                               nodes: map<string, NodeRef>, history: seq<HaProof>, audit: Option<HaAudit>,
                               late: seq<LateStep>)
    requires Promotable(plan, s, listing, start, nodes) && Recovered(plan, listing)
    ensures var payload := PromotedPayload(plan, s, listing, start, nodes, history, audit);
            var w := RunLate(plan, Promote(s, payload), late).world;
            HaChain.InPlace(w.current, w.ports)
  {
    forall i | 0 <= i < |plan.ports| && plan.ports[i].portId in listing && plan.ports[i].portId in s.ports
      ensures !Hazard(plan, s, listing, i)
    {
      assert EntryOk(plan.ports[i]);
    }
    TakeoverIsSafeIff(plan, s, listing, start, nodes, history, audit);
  }

  // ---------------------------------------------------------------- untouched means at most reported

  /** Port `id` is at most one report away from the begin as long as it has the generation it began with. */
  ghost predicate Fresh(plan: MigrationPlan, j: nat, first: Versioned, v: Versioned)
    requires j < |plan.ports|
  {
    v.port.generation == plan.ports[j].sourceGeneration ==> MigrationPorts.Swept(first, v)
  }

  ghost predicate AllFresh(plan: MigrationPlan, j: nat, first: Versioned, s: State)
    requires j < |plan.ports|
  {
    var id := plan.ports[j].portId;
    && id in s.ports && Fresh(plan, j, first, s.ports[id])
    && forall l :: l in s.listings ==> id in l && Fresh(plan, j, first, l[id])
  }

  lemma StepKeepsFresh(plan: MigrationPlan, j: nat, first: Versioned, s: State, step: Step)
    requires PlanOk(plan) && Inv(plan, s) && j < |plan.ports| && AllFresh(plan, j, first, s)
    ensures AllFresh(plan, j, first, Do(plan, s, step))
  {
    if step.Fire? && step.write in s.armed && HaChain.Lands(s.ports, step.write)
      && step.write.portId == plan.ports[j].portId {
      var a := step.write;
      assert ArmedOk(plan, s.ports, a);
      var n :| 0 <= n < |plan.ports| && plan.ports[n].portId == a.portId
            && (IsPrepare(plan, plan.ports[n], a) || IsReturn(plan, plan.ports[n], a));
      assert n == j && EntryOk(plan.ports[j]);
    }
  }

  lemma {:induction false} RunKeepsFresh(plan: MigrationPlan, j: nat, first: Versioned, s: State, steps: seq<Step>)
    requires PlanOk(plan) && Inv(plan, s) && j < |plan.ports| && AllFresh(plan, j, first, s)
    ensures AllFresh(plan, j, first, Run(plan, s, steps))
    decreases |steps|
  {
    if steps != [] {
      StepKeepsFresh(plan, j, first, s, steps[0]);
      StepKeepsInv(plan, s, steps[0]);
      RunKeepsFresh(plan, j, first, Do(plan, s, steps[0]), steps[1..]);
    }
  }

  // ---------------------------------------------------------------- the same run with one port held still

  /** The run next to the given one in which port `id` stays at `u` while a prepare write for it is under way. */
  ghost predicate Beside(s: State, still: State, id: string, u: Versioned, write: Armed) {
    && still.phase == s.phase && id in s.ports && still.ports == s.ports[id := u]
    && (forall l :: l in s.listings ==> id in l && l[id := u] in still.listings)
    && (forall a :: a in s.armed && a.portId != id ==> a in still.armed)
    && (forall k :: k in s.loads && k != id ==> k in still.loads)
    && write in still.armed
  }

  /** A claim that is always refused. */
  const Pause: Step := ClaimPhase(Preparing)

  /** The step beside a step that changes something: steps on port `id` are left out. */
  function Stilled(plan: MigrationPlan, step: Step, id: string, u: Versioned): Step {
    match step
    case List => List
    case ArmPrepare(l, i) => if i < |plan.ports| && plan.ports[i].portId == id then Pause else ArmPrepare(l[id := u], i)
    case ArmAbort(l, i) => if i < |plan.ports| && plan.ports[i].portId == id then Pause else ArmAbort(l[id := u], i)
    case Check(i) => if i < |plan.ports| && plan.ports[i].portId == id then Pause else step
    case Load(i) => if i < |plan.ports| && plan.ports[i].portId == id then Pause else step
    case Settle(_) => Pause
    case Fire(w) => if w.portId == id then Pause else step
    case Report(k) => if k == id then Pause else step
    case ClaimPhase(_) => step
  }

  function StilledStep(plan: MigrationPlan, s: State, step: Step, id: string, u: Versioned): Step {
    if Do(plan, s, step) == s then Pause else Stilled(plan, step, id, u)
  }

  function StilledRun(plan: MigrationPlan, s: State, steps: seq<Step>, id: string, u: Versioned): seq<Step>
    decreases |steps|
  {
    if steps == [] then []
    else [StilledStep(plan, s, steps[0], id, u)] + StilledRun(plan, Do(plan, s, steps[0]), steps[1..], id, u)
  }

  lemma ArmBeside(plan: MigrationPlan, s: State, still: State, step: Step, id: string, u: Versioned, write: Armed)
    requires (step.ArmPrepare? || step.ArmAbort?) && Beside(s, still, id, u, write) && Do(plan, s, step) != s
    ensures Beside(Do(plan, s, step), Do(plan, still, Stilled(plan, step, id, u)), id, u, write)
  {
    assert step.listing in s.listings;
    assert id in step.listing && step.listing[id := u] in still.listings;
  }

  lemma MoveBeside(plan: MigrationPlan, s: State, still: State, step: Step, id: string, u: Versioned, write: Armed)
    requires (step.Fire? || step.Report?) && Beside(s, still, id, u, write) && Do(plan, s, step) != s
    ensures Beside(Do(plan, s, step), Do(plan, still, Stilled(plan, step, id, u)), id, u, write)
  {
    assert Do(plan, still, Stilled(plan, step, id, u)).ports == Do(plan, s, step).ports[id := u];
  }

  lemma OtherBeside(plan: MigrationPlan, s: State, still: State, step: Step, id: string, u: Versioned, write: Armed)
    requires !step.ArmPrepare? && !step.ArmAbort? && !step.Fire? && !step.Report?
    requires Beside(s, still, id, u, write) && Do(plan, s, step) != s
    ensures Beside(Do(plan, s, step), Do(plan, still, Stilled(plan, step, id, u)), id, u, write)
  {
  }

  lemma StepBeside(plan: MigrationPlan, s: State, still: State, step: Step, id: string, u: Versioned, write: Armed)
    requires Beside(s, still, id, u, write)
    ensures Beside(Do(plan, s, step), Do(plan, still, StilledStep(plan, s, step, id, u)), id, u, write)
  {
    if Do(plan, s, step) != s {
      if step.ArmPrepare? || step.ArmAbort? {
        ArmBeside(plan, s, still, step, id, u, write);
      } else if step.Fire? || step.Report? {
        MoveBeside(plan, s, still, step, id, u, write);
      } else {
        OtherBeside(plan, s, still, step, id, u, write);
      }
    }
  }

  lemma {:induction false} RunBeside(plan: MigrationPlan, s: State, still: State, steps: seq<Step>, id: string,
                                     u: Versioned, write: Armed)
    requires Beside(s, still, id, u, write)
    ensures Beside(Run(plan, s, steps), Run(plan, still, StilledRun(plan, s, steps, id, u)), id, u, write)
    decreases |steps|
  {
    if steps != [] {
      var next := StilledStep(plan, s, steps[0], id, u);
      StepBeside(plan, s, still, steps[0], id, u, write);
      assert StilledRun(plan, s, steps, id, u)[0] == next;
      assert StilledRun(plan, s, steps, id, u)[1..] == StilledRun(plan, Do(plan, s, steps[0]), steps[1..], id, u);
      RunBeside(plan, Do(plan, s, steps[0]), Do(plan, still, next), steps[1..], id, u, write);
    }
  }

  // ---------------------------------------------------------------- untouched listings are not safe

  /** A worker lists the port as it will be listed later and gets a prepare write under way. */
  function Opening(begin: State, id: string, u: Versioned, j: nat): seq<Step> {
    [if id in begin.ports && begin.ports[id] == u then Pause else Report(id), List, ArmPrepare(begin.ports[id := u], j)]
  }

  lemma OpeningRun(plan: MigrationPlan, begin: State, u: Versioned, j: nat)
    requires Begun(plan, begin) && j < |plan.ports|
    requires MigrationPorts.Swept(begin.ports[plan.ports[j].portId], u)
    requires ConfigMatches(u, plan, plan.ports[j]) && AtSource(plan, plan.ports[j], u)
    ensures var id := plan.ports[j].portId;
            Beside(begin, Run(plan, begin, Opening(begin, id, u, j)), id, u, PrepareWrite(plan, plan.ports[j], u))
  {
    var id := plan.ports[j].portId;
    var ports := begin.ports[id := u];
    var steps := Opening(begin, id, u, j);
    var s1 := begin.(ports := ports);
    var s2 := s1.(listings := {ports});
    assert Do(plan, begin, steps[0]) == s1 by {
      assert begin.ports[id] == u ==> ports == begin.ports;
    }
    assert Do(plan, s1, steps[1]) == s2;
    assert steps[1..][0] == steps[1] && steps[1..][1..] == steps[2..] && steps[2..][0] == steps[2]
      && steps[2..][1..] == [];
    assert Run(plan, begin, steps) == Run(plan, s1, steps[1..]);
    assert Run(plan, s1, steps[1..]) == Run(plan, s2, steps[2..]);
    assert Run(plan, s2, steps[2..]) == Do(plan, s2, steps[2]);
  }

  lemma {:induction false} RunAppends(plan: MigrationPlan, s: State, steps: seq<Step>, more: seq<Step>)
    ensures Run(plan, s, steps + more) == Run(plan, Run(plan, s, steps), more)
    decreases |steps|
  {
    if steps == [] {
      assert steps + more == more;
    } else {
      assert (steps + more)[1..] == steps[1..] + more;
      RunAppends(plan, Do(plan, s, steps[0]), steps[1..], more);
    }
  }

  lemma ReportedIsStillAtSource(plan: MigrationPlan, j: nat, first: Versioned, u: Versioned)
    requires j < |plan.ports| && MigrationPorts.Swept(first, u)
    requires ConfigMatches(first, plan, plan.ports[j]) && AtSource(plan, plan.ports[j], first)
    ensures ConfigMatches(u, plan, plan.ports[j]) && AtSource(plan, plan.ports[j], u)
  {
  }

  /** The steps of a run that ends with the same listing and a hazard on its untouched port. */
  function HazardousRun(plan: MigrationPlan, begin: State, steps: seq<Step>, u: Versioned, j: nat): seq<Step>
    requires j < |plan.ports|
  {
    var id := plan.ports[j].portId;
    Opening(begin, id, u, j) + (StilledRun(plan, begin, steps, id, u) + [Check(j)])
  }

  lemma UntouchedListingIsHazardous(plan: MigrationPlan, begin: State, steps: seq<Step>,
                                    listing: map<string, Versioned>, j: nat)
    requires PlanOk(plan) && Begun(plan, begin) && j < |plan.ports|
    requires Run(plan, begin, steps).phase == HaRecoveringSource && listing in Run(plan, begin, steps).listings
    requires plan.ports[j].portId in listing
    requires listing[plan.ports[j].portId].port.generation == plan.ports[j].sourceGeneration
    ensures var s := Run(plan, begin, HazardousRun(plan, begin, steps, listing[plan.ports[j].portId], j));
            && s.phase == HaRecoveringSource && listing in s.listings
            && plan.ports[j].portId in s.ports && Hazard(plan, s, listing, j)
  {
    var intent := plan.ports[j];
    var id := intent.portId;
    var u := listing[id];
    var write := PrepareWrite(plan, intent, u);
    var ready := Run(plan, begin, Opening(begin, id, u, j));
    var stilled := Run(plan, ready, StilledRun(plan, begin, steps, id, u));
    RunKeepsFresh(plan, j, begin.ports[id], begin, steps);
    assert Fresh(plan, j, begin.ports[id], u);
    ReportedIsStillAtSource(plan, j, begin.ports[id], u);
    OpeningRun(plan, begin, u, j);
    RunBeside(plan, begin, ready, steps, id, u, write);
    RunAppends(plan, begin, Opening(begin, id, u, j), StilledRun(plan, begin, steps, id, u) + [Check(j)]);
    RunAppends(plan, ready, StilledRun(plan, begin, steps, id, u), [Check(j)]);
    assert [Check(j)][1..] == [];
    assert listing[id := u] == listing;
    var s := Do(plan, stilled, Check(j));
    assert write in s.armed && HaChain.Lands(s.ports, write) && IsPrepare(plan, intent, write);
    assert LivePrepare(plan, s, intent);
  }

  /** The ports are on record after the given run, promotion and continuation, if the promotion is possible. */
  ghost predicate Survives(plan: MigrationPlan, begin: State, steps: seq<Step>, listing: map<string, Versioned>,
                           start: HaStart,
                           nodes: map<string, NodeRef>, history: seq<HaProof>, audit: Option<HaAudit>,
                           late: seq<LateStep>) {
    CanPromote(plan, Run(plan, begin, steps), listing, start, nodes) ==>
      var s := Run(plan, begin, steps);
      var payload := PromotedPayload(plan, s, listing, start, nodes, history, audit);
      var w := RunLate(plan, Promote(s, payload), late).world;
      HaChain.InPlace(w.current, w.ports)
  }

  /** Some run that shows the same listing strands the very port that is listed untouched. */
  lemma UntouchedListingStrands(plan: MigrationPlan, begin: State, steps: seq<Step>, listing: map<string, Versioned>,
                                start: HaStart,
                                nodes: map<string, NodeRef>, history: seq<HaProof>, audit: Option<HaAudit>, j: nat)
    returns (other: seq<Step>, late: seq<LateStep>)
    requires PlanOk(plan) && Begun(plan, begin) && (forall id :: id in nodes ==> nodes[id].id == id)
    requires CanPromote(plan, Run(plan, begin, steps), listing, start, nodes) && j < |plan.ports|
    requires plan.ports[j].portId in listing
    requires listing[plan.ports[j].portId].port.generation == plan.ports[j].sourceGeneration
    ensures CanPromote(plan, Run(plan, begin, other), listing, start, nodes)
    ensures var s := Run(plan, begin, other);
            var payload := PromotedPayload(plan, s, listing, start, nodes, history, audit);
            var w := RunLate(plan, Promote(s, payload), late).world;
            && w.current == payload && plan.ports[j].portId in w.ports
            && !Recorded(payload, payload.ports[j], w.ports[plan.ports[j].portId])
    ensures !Survives(plan, begin, other, listing, start, nodes, history, audit, late)
  {
    other := HazardousRun(plan, begin, steps, listing[plan.ports[j].portId], j);
    UntouchedListingIsHazardous(plan, begin, steps, listing, j);
    var s := Run(plan, begin, other);
    RunKeepsInv(plan, begin, other);
    EntryIsPromoted(plan, s, listing, start, nodes, history, audit, j);
    var payload := PromotedPayload(plan, s, listing, start, nodes, history, audit);
    late := HazardStrands(plan, s, listing, payload, j);
    assert payload.ports[j].portId == plan.ports[j].portId;
  }

  /** Main result: the listing decides.  For every listing with which a migration can be taken over, all
      interleavings before and after the takeover keep the ports on record if and only if every port is listed at
      the migration's generation; and for every port that is listed untouched, some interleaving strands it. */
  lemma ListingDecides(plan: MigrationPlan, begin: State, steps: seq<Step>, listing: map<string, Versioned>,
                       start: HaStart,
                       nodes: map<string, NodeRef>, history: seq<HaProof>, audit: Option<HaAudit>)
    requires PlanOk(plan) && Begun(plan, begin) && (forall id :: id in nodes ==> nodes[id].id == id)
    requires CanPromote(plan, Run(plan, begin, steps), listing, start, nodes)
    ensures Recovered(plan, listing) <==>
              forall other: seq<Step>, late: seq<LateStep> ::
                Survives(plan, begin, other, listing, start, nodes, history, audit, late)
  {
    if Recovered(plan, listing) {
      forall other: seq<Step>, late: seq<LateStep>
        ensures Survives(plan, begin, other, listing, start, nodes, history, audit, late)
      {
        if CanPromote(plan, Run(plan, begin, other), listing, start, nodes) {
          RunKeepsInv(plan, begin, other);
          RecoveredListingIsSafe(plan, Run(plan, begin, other), listing, start, nodes, history, audit, late);
        }
      }
    } else {
      var j :| 0 <= j < |plan.ports| && plan.ports[j].portId in listing
            && listing[plan.ports[j].portId].port.generation != plan.ports[j].generation;
      assert PlanIds(plan)[j] == plan.ports[j].portId;
      assert AtSource(plan, plan.ports[j], listing[plan.ports[j].portId]);
      var other, late := UntouchedListingStrands(plan, begin, steps, listing, start, nodes, history, audit, j);
    }
  }
}
