/** Migration is all-or-nothing over its ports.

    Handlers of one VM are serialized.  Each may fail or crash after any port, may or may not get to
    record its phase, and may be retried any number of times; agents report at any moment. */
module MigrationAtomicity {
  import opened Ports
  import opened Payloads
  import opened Migration
  import opened MigrationPorts

  datatype State = State(phase: MigrationPhase, ports: Fleet)

  /** `recorded` is false when the manager dies before it writes the next phase. */
  datatype Step =
    | RunPrepare(after: Fleet, ok: bool, recorded: bool)
    | RunCompensate(after: Fleet, ok: bool, recorded: bool)
    | ClaimFinish(abort: bool)
    | RunFinish(after: Fleet, ok: bool, recorded: bool)
    | HaTakesOver
    | AgentsReport(reports: set<string>)

  function HaPhaseOf(phase: MigrationPhase): MigrationPhase {
    match phase
    case Preparing => HaRecoveringSource
    case Compensating => HaRecoveringSource
    case Aborting => HaRecoveringSource
    case Prepared => HaRecoveringTarget
    case Committing => HaRecoveringTarget
    case _ => phase
  }

  /** The outcome of a handler is what its method promises. */
  ghost predicate Ran(plan: MigrationPlan, work: Work, before: Fleet, after: Fleet, ok: bool) {
    Outcome(plan, work, before, after) && (ok ==> DoneUpTo(plan, work, after, |plan.ports|))
  }

  ghost function Do(plan: MigrationPlan, s: State, step: Step): State {
    match step
    case RunPrepare(after, ok, recorded) =>
      if (s.phase == Preparing || s.phase == Prepared) && Ran(plan, Prepare, s.ports, after, ok)
      then State(if !recorded then s.phase else if ok then Prepared else Compensating, after)
      else s
    case RunCompensate(after, ok, recorded) =>
      if (s.phase == Compensating || s.phase == HaRecoveringSource) && Ran(plan, Compensate, s.ports, after, ok)
      then State(if recorded && ok && s.phase == Compensating then Compensated else s.phase, after)
      else s
    case ClaimFinish(abort) => if s.phase == Prepared then s.(phase := if abort then Aborting else Committing) else s
    case RunFinish(after, ok, recorded) =>
      if s.phase == Aborting && Ran(plan, Abort, s.ports, after, ok)
        then State(if recorded && ok then Aborted else Aborting, after)
      else if s.phase == Committing && Ran(plan, Finalize, s.ports, after, ok)
        then State(if recorded && ok then Finalized else Committing, after)
      else if s.phase == HaRecoveringTarget && Ran(plan, Finalize, s.ports, after, ok) then s.(ports := after)
      else s
    case HaTakesOver => s.(phase := HaPhaseOf(s.phase))
    case AgentsReport(reports) => s.(ports := Sweep(s.ports, reports))
  }

  ghost function Run(plan: MigrationPlan, s: State, steps: seq<Step>): State
    decreases |steps|
  {
    if steps == [] then s else Run(plan, Do(plan, s, steps[0]), steps[1..])
  }

  // ---------------------------------------------------------------- positions per phase

  predicate Allowed(plan: MigrationPlan, phase: MigrationPhase, intent: MigrationPort, v: Versioned) {
    match phase
    case Preparing => AtSource(plan, intent, v) || AtPrepared(plan, intent, v)
    case Prepared => AtPrepared(plan, intent, v)
    case Compensating => AtSource(plan, intent, v) || AtPrepared(plan, intent, v) || AtReturned(plan, intent, v)
    case HaRecoveringSource => AtSource(plan, intent, v) || AtPrepared(plan, intent, v) || AtReturned(plan, intent, v)
    case Compensated => AtSource(plan, intent, v) || AtReturned(plan, intent, v)
    case Committing => AtPrepared(plan, intent, v) || AtFinal(plan, intent, v)
    case HaRecoveringTarget => AtPrepared(plan, intent, v) || AtFinal(plan, intent, v)
    case Finalized => AtFinal(plan, intent, v)
    case Aborting => AtPrepared(plan, intent, v) || AtReturned(plan, intent, v)
    case Aborted => AtReturned(plan, intent, v)
  }

  ghost predicate Inv(plan: MigrationPlan, s: State) {
    forall i :: 0 <= i < |plan.ports| ==>
      && plan.ports[i].portId in s.ports && ConfigMatches(s.ports[plan.ports[i].portId], plan, plan.ports[i])
      && Allowed(plan, s.phase, plan.ports[i], s.ports[plan.ports[i].portId])
  }

  /** The handler that a phase runs. */
  predicate Runs(phase: MigrationPhase, work: Work) {
    match work
    case Prepare => phase == Preparing || phase == Prepared
    case Compensate => phase == Compensating || phase == HaRecoveringSource
    case Finalize => phase == Committing || phase == HaRecoveringTarget
    case Abort => phase == Aborting
  }

  lemma SweepKeepsPosition(plan: MigrationPlan, phase: MigrationPhase, intent: MigrationPort, v: Versioned)
    requires ConfigMatches(v, plan, intent) && Allowed(plan, phase, intent, v)
    ensures ConfigMatches(SweepOne(v), plan, intent) && Allowed(plan, phase, intent, SweepOne(v))
  {
  }

  lemma MoveKeepsPosition(plan: MigrationPlan, phase: MigrationPhase, work: Work, intent: MigrationPort, v: Versioned,
                          after: Versioned)
    requires EntryOk(intent) && Runs(phase, work) && ConfigMatches(v, plan, intent) && Allowed(plan, phase, intent, v)
    requires plan.sourceNodeId != plan.targetNodeId && Moves(plan, work, intent, v, after)
    ensures ConfigMatches(after, plan, intent) && Allowed(plan, phase, intent, after)
  {
  }

  lemma StepKeepsPosition(plan: MigrationPlan, phase: MigrationPhase, work: Work, intent: MigrationPort, v: Versioned,
                          after: Versioned)
    requires EntryOk(intent) && Runs(phase, work) && ConfigMatches(v, plan, intent) && Allowed(plan, phase, intent, v)
    requires plan.sourceNodeId != plan.targetNodeId && WorkStep(plan, work, intent, v, after)
    ensures ConfigMatches(after, plan, intent) && Allowed(plan, phase, intent, after)
  {
    SweepKeepsPosition(plan, phase, intent, v);
    if Moves(plan, work, intent, v, after) {
      MoveKeepsPosition(plan, phase, work, intent, v, after);
    } else if Moves(plan, work, intent, SweepOne(v), after) {
      MoveKeepsPosition(plan, phase, work, intent, SweepOne(v), after);
    }
  }

  lemma HandlerKeepsInv(plan: MigrationPlan, s: State, work: Work, after: Fleet)
    requires PlanOk(plan) && Inv(plan, s) && Runs(s.phase, work) && Outcome(plan, work, s.ports, after)
    ensures Inv(plan, s.(ports := after))
  {
    forall i | 0 <= i < |plan.ports|
      ensures plan.ports[i].portId in after && ConfigMatches(after[plan.ports[i].portId], plan, plan.ports[i])
      ensures Allowed(plan, s.phase, plan.ports[i], after[plan.ports[i].portId])
    {
      StepKeepsPosition(plan, s.phase, work, plan.ports[i], s.ports[plan.ports[i].portId], after[plan.ports[i].portId]);
    }
  }

  /** Phases that allow at least what an earlier one allows. */
  predicate Widens(phase: MigrationPhase, next: MigrationPhase) {
    || next == phase || next == HaPhaseOf(phase)
    || (phase == Preparing && next == Compensating)
    || (phase == Prepared && (next == Compensating || next == Committing || next == Aborting))
  }

  lemma WidenedPhase(plan: MigrationPlan, s: State, next: MigrationPhase)
    requires Inv(plan, s) && Widens(s.phase, next)
    ensures Inv(plan, s.(phase := next))
  {
    forall i | 0 <= i < |plan.ports| ensures Allowed(plan, next, plan.ports[i], s.ports[plan.ports[i].portId]) {
      assert Allowed(plan, s.phase, plan.ports[i], s.ports[plan.ports[i].portId]);
    }
  }

  /** The phase recorded by a handler that finished all ports. */
  function CompletePhase(work: Work): MigrationPhase {
    match work
    case Prepare => Prepared
    case Compensate => Compensated
    case Finalize => Finalized
    case Abort => Aborted
  }

  lemma CompletedPhase(plan: MigrationPlan, s: State, work: Work)
    requires Inv(plan, s) && DoneUpTo(plan, work, s.ports, |plan.ports|)
    ensures Inv(plan, s.(phase := CompletePhase(work)))
  {
  }

  lemma HandlerStepKeepsInv(plan: MigrationPlan, s: State, work: Work, after: Fleet, ok: bool, next: MigrationPhase)
    requires PlanOk(plan) && Inv(plan, s) && Runs(s.phase, work) && Ran(plan, work, s.ports, after, ok)
    requires Widens(s.phase, next) || (ok && next == CompletePhase(work))
    ensures Inv(plan, State(next, after))
  {
    HandlerKeepsInv(plan, s, work, after);
    if Widens(s.phase, next) {
      WidenedPhase(plan, s.(ports := after), next);
    } else {
      CompletedPhase(plan, s.(ports := after), work);
    }
  }

  lemma ReportKeepsInv(plan: MigrationPlan, s: State, reports: set<string>)
    requires Inv(plan, s)
    ensures Inv(plan, s.(ports := Sweep(s.ports, reports)))
  {
    var after := Sweep(s.ports, reports);
    forall i | 0 <= i < |plan.ports|
      ensures ConfigMatches(after[plan.ports[i].portId], plan, plan.ports[i])
        && Allowed(plan, s.phase, plan.ports[i], after[plan.ports[i].portId])
    {
      SweepKeepsPosition(plan, s.phase, plan.ports[i], s.ports[plan.ports[i].portId]);
    }
  }

  lemma StepKeepsInv(plan: MigrationPlan, s: State, step: Step)
    requires PlanOk(plan) && Inv(plan, s)
    ensures Inv(plan, Do(plan, s, step))
  {
    var s' := Do(plan, s, step);
    if s' != s {
      match step
      case RunPrepare(after, ok, _) => HandlerStepKeepsInv(plan, s, Prepare, after, ok, s'.phase);
      case RunCompensate(after, ok, _) => HandlerStepKeepsInv(plan, s, Compensate, after, ok, s'.phase);
      case RunFinish(after, ok, _) =>
        HandlerStepKeepsInv(plan, s, if s.phase == Aborting then Abort else Finalize, after, ok, s'.phase);
      case AgentsReport(reports) => ReportKeepsInv(plan, s, reports);
      case _ => WidenedPhase(plan, s, s'.phase);
    }
  }

  lemma {:induction false} RunKeepsInv(plan: MigrationPlan, s: State, steps: seq<Step>)
    requires PlanOk(plan) && Inv(plan, s)
    ensures Inv(plan, Run(plan, s, steps))
    decreases |steps|
  {
    if steps != [] {
      StepKeepsInv(plan, s, steps[0]);
      RunKeepsInv(plan, Do(plan, s, steps[0]), steps[1..]);
    }
  }

  // ---------------------------------------------------------------- main results

  ghost predicate Begun(plan: MigrationPlan, s: State) {
    s.phase == Preparing && forall i :: 0 <= i < |plan.ports| ==>
      && plan.ports[i].portId in s.ports && ConfigMatches(s.ports[plan.ports[i].portId], plan, plan.ports[i])
      && AtSource(plan, plan.ports[i], s.ports[plan.ports[i].portId])
  }

  /** Main result: from any crash point of any run, every port is at a manifest position with its
      configuration intact; and a terminal phase means that all of them are on one side, each on
      one chassis. */
  lemma MigrationIsAllOrNothing(plan: MigrationPlan, begin: State, steps: seq<Step>, i: nat)
    requires PlanOk(plan) && Begun(plan, begin) && i < |plan.ports|
    ensures var s := Run(plan, begin, steps);
            var id := plan.ports[i].portId;
            && id in s.ports && ConfigMatches(s.ports[id], plan, plan.ports[i])
            && (|| AtSource(plan, plan.ports[i], s.ports[id]) || AtPrepared(plan, plan.ports[i], s.ports[id])
                || AtReturned(plan, plan.ports[i], s.ports[id]) || AtFinal(plan, plan.ports[i], s.ports[id]))
            && (s.phase == Finalized ==>
                s.ports[id].port.nodeId == plan.targetNodeId && s.ports[id].port.chassis == [plan.target])
            && (s.phase == Compensated || s.phase == Aborted ==>
                  s.ports[id].port.nodeId == plan.sourceNodeId && s.ports[id].port.chassis == [plan.source])
  {
    RunKeepsInv(plan, begin, steps);
  }

  /** The port is bound or binding to one or both of the two chassis.  An online migration keeps the source chassis, and
      the port on its node, until it is committed; a prepared port has both, offline the target alone; on the way to the
      target the target chassis is always there; and the generation is the old one only on the untouched source. */
  predicate Connected(plan: MigrationPlan, phase: MigrationPhase, intent: MigrationPort, p: Port) {
    && (p.status == Binding || p.status == Bound)
    && (p.chassis == [plan.source] || p.chassis == [plan.source, plan.target] || p.chassis == [plan.target])
    && (plan.online && phase !in {Committing, HaRecoveringTarget, Finalized} ==>
          p.nodeId == plan.sourceNodeId && p.chassis[0] == plan.source)
    && (phase in {Prepared, Committing, HaRecoveringTarget, Finalized} ==>
          p.chassis[|p.chassis| - 1] == plan.target && p.generation == intent.sourceGeneration + 1)
    && (phase == Prepared && plan.online ==>
          p.nodeId == plan.sourceNodeId && p.chassis == [plan.source, plan.target])
    && (phase == Prepared && !plan.online ==> p.nodeId == plan.targetNodeId && p.chassis == [plan.target])
    && (p.generation == intent.sourceGeneration || p.generation == intent.sourceGeneration + 1)
    && (p.generation == intent.sourceGeneration ==> p.nodeId == plan.sourceNodeId && p.chassis == [plan.source])
  }

  lemma AllowedIsConnected(plan: MigrationPlan, phase: MigrationPhase, intent: MigrationPort, v: Versioned)
    requires EntryOk(intent) && Allowed(plan, phase, intent, v)
    ensures Connected(plan, phase, intent, v.port)
  {
  }

  /** Main result on connectivity: this holds of every port at every moment of every run. */
  lemma MigrationKeepsConnectivity(plan: MigrationPlan, begin: State, steps: seq<Step>, i: nat)
    requires PlanOk(plan) && Begun(plan, begin) && i < |plan.ports|
    ensures var s, intent := Run(plan, begin, steps), plan.ports[i];
            intent.portId in s.ports && Connected(plan, s.phase, intent, s.ports[intent.portId].port)
  {
    RunKeepsInv(plan, begin, steps);
    var s := Run(plan, begin, steps);
    AllowedIsConnected(plan, s.phase, plan.ports[i], s.ports[plan.ports[i].portId]);
  }

  /** Whatever a crash left, the handler of the phase can resume on every port; run again undisturbed,
      its method completes. */
  lemma CrashedHandlerResumes(plan: MigrationPlan, begin: State, steps: seq<Step>, work: Work)
    requires PlanOk(plan) && Begun(plan, begin) && Runs(Run(plan, begin, steps).phase, work)
    ensures Resumable(plan, work, Run(plan, begin, steps).ports)
  {
    RunKeepsInv(plan, begin, steps);
  }

  /** Ports outside the manifest are never moved: only agents touch them. */
  lemma StepSparesOthers(plan: MigrationPlan, s: State, step: Step, id: string)
    requires id in s.ports && !InManifest(plan, id)
    ensures id in Do(plan, s, step).ports && Swept(s.ports[id], Do(plan, s, step).ports[id])
  {
  }

  lemma {:induction false} RunSparesOthers(plan: MigrationPlan, s: State, steps: seq<Step>, id: string)
    requires id in s.ports && !InManifest(plan, id)
    ensures id in Run(plan, s, steps).ports && Swept(s.ports[id], Run(plan, s, steps).ports[id])
    decreases |steps|
  {
    if steps != [] {
      StepSparesOthers(plan, s, steps[0], id);
      RunSparesOthers(plan, Do(plan, s, steps[0]), steps[1..], id);
    }
  }
}
