/** The durable operation and the ports of a migration together.

    `Lifecycle.Edited` says which phase a manager may write; `MigrationAtomicity` says where the ports may be in a
    phase.  Here the one is shown to respect the other, so that what holds of the port machine holds of the stored
    operation. */
module DurableMigration {
  import opened Ports
  import opened Payloads
  import opened Model
  import opened Migration
  import opened HaRebind
  import opened Lifecycle
  import Atomicity = MigrationAtomicity
  import Handlers = MigrationPorts
  import MigrationPhases
  import HaChain
  import Takeover
  import TakeoverTarget
  import Text

  // ---------------------------------------------------------------- what each edit accepts and writes

  predicate IsMigration(op: Operation) {
    op.action == MIGRATION && op.payload.Migration? && MigrationAccepted(op.payload.migration)
  }

  function InPhase(op: Operation, phase: MigrationPhase): Operation
    requires op.payload.Migration?
  {
    op.(payload := Migration(op.payload.migration.(phase := phase)))
  }

  /** The operation moved to its history target in a final phase. */
  function Ended(id: string, op: Operation, phase: MigrationPhase, status: OperationStatus, failure: string,
                 now: int): Operation
    requires op.payload.Migration?
  {
    InPhase(op, phase).(status := status, error := failure, completedAt := Some(now),
                        targetId := Text.HistoryTarget(op.targetId, id), targetRevision := 1)
  }

  /** The claims of a migration, phase by phase: what each accepts, and what it writes. */
  lemma ClaimsAreExact(id: string, op: Operation, archive: map<string, Operation>, now: int)
    requires IsMigration(op)
    ensures var running, phase := op.status == Running, op.payload.migration.phase;
            && Edited(id, op, archive, MarkPrepared, now)
               == (if running && phase == Preparing then Some(InPhase(op, Prepared)) else None)
            && Edited(id, op, archive, Compensate, now)
               == (if running && (phase == Preparing || phase == Prepared) then Some(InPhase(op, Compensating))
                   else None)
            && Edited(id, op, archive, Commit, now)
               == (if running && phase == Prepared then Some(InPhase(op, Committing)) else None)
            && Edited(id, op, archive, Abort, now)
               == (if running && phase == Prepared then Some(InPhase(op, Aborting)) else None)
  {
  }

  /** The final writes: each from its own claim, with the status that fits. */
  lemma EndingsAreExact(id: string, op: Operation, archive: map<string, Operation>, failure: string, now: int)
    requires IsMigration(op)
    ensures var running, phase := op.status == Running, op.payload.migration.phase;
            && Edited(id, op, archive, FinishCompensation(failure), now)
               == (if running && phase == Compensating then Some(Ended(id, op, Compensated, Failed, failure, now))
                   else None)
            && Edited(id, op, archive, FinishCommit, now)
               == (if running && phase == Committing then Some(Ended(id, op, Finalized, Succeeded, "", now)) else None)
            && Edited(id, op, archive, FinishAbort, now)
               == (if running && phase == Aborting then Some(Ended(id, op, Aborted, Succeeded, "", now)) else None)
  {
  }

  /** The HA manager may claim: the migration runs in its VM's slot and the proof names this VM. */
  predicate MayTakeOver(op: Operation, start: HaStart) {
    && IsMigration(op) && op.status == Running && op.targetId == Text.Slot(op.payload.migration.plan.vmid)
    && Authorized(start) && start.vmid == op.payload.migration.plan.vmid
  }

  /** The first HA claim: a migration that is preparing, compensating or aborting goes back to its source, one that is
      prepared or committing goes on to its target, and no other direction is accepted. */
  lemma FirstTakeoverIff(op: Operation, start: HaStart, direction: Direction)
    requires MayTakeOver(op, start) && op.payload.migration.recovery.None?
    ensures var phase := op.payload.migration.phase;
            TakenOver(op, start, direction).Some? <==>
              || (direction == ToSource && (phase == Preparing || phase == Compensating || phase == Aborting))
              || (direction == ToTarget && (phase == Prepared || phase == Committing))
    ensures TakenOver(op, start, direction).Some? ==>
              var m := TakenOver(op, start, direction).value.payload.migration;
              && m.phase == (if direction == ToSource then HaRecoveringSource else HaRecoveringTarget)
              && m.plan == op.payload.migration.plan
              && m.recovery == Some(HaRecovery(direction, op.payload.migration.phase, Digest(m.plan, None),
                                               start.proof, []))
  {
  }

  /** No epoch of the proof is below the recorded one, and equal epochs come with the same proof. */
  predicate NotOlder(next: HaProof, last: HaProof) {
    && last.managerEpoch <= next.managerEpoch && last.lrmEpoch <= next.lrmEpoch
      && last.agentLockEpoch <= next.agentLockEpoch
    && (next != last ==> last.managerEpoch < next.managerEpoch || last.lrmEpoch < next.lrmEpoch
                         || last.agentLockEpoch < next.agentLockEpoch)
  }

  /** A further HA claim keeps the direction.  The same service renews its proof on the same node; another one needs a
      higher manager epoch and room in the history, where the overtaken proof is kept. */
  lemma FurtherTakeoverIff(op: Operation, start: HaStart, direction: Direction)
    requires MayTakeOver(op, start) && op.payload.migration.recovery.Some?
    requires op.payload.migration.phase
             == (if op.payload.migration.recovery.value.direction == ToSource then HaRecoveringSource
                 else HaRecoveringTarget)
    ensures var r := op.payload.migration.recovery.value;
            var same := r.proof.serviceUid == start.proof.serviceUid;
            && (TakenOver(op, start, direction).Some? <==>
                  && direction == r.direction
                  && (same ==>
                      && r.proof.serviceId == start.proof.serviceId && r.proof.serviceNode == start.proof.serviceNode
                               && r.proof.lrmNode == start.proof.lrmNode && NotOlder(start.proof, r.proof))
                  && (!same ==> start.proof.managerEpoch > r.proof.managerEpoch && |r.history| < 32))
            && (TakenOver(op, start, direction).Some? ==>
                  var m := TakenOver(op, start, direction).value.payload.migration;
                  && m.plan == op.payload.migration.plan && m.phase == op.payload.migration.phase
                  && m.recovery == Some(r.(proof := start.proof,
                                           history := if same then r.history else r.history + [r.proof])))
  {
  }

  /** The phase claims of the takeover machine are the durable ones: every edit that leaves a migration on its way to
      the
      source, or to be prepared, is such a claim or keeps the phase... */
  lemma EditIsSourceClaim(id: string, op: Operation, archive: map<string, Operation>, edit: Edit, now: int)
    requires IsMigration(op) && Edited(id, op, archive, edit, now).Some?
    ensures var next := Edited(id, op, archive, edit, now).value;
            next.payload.Migration? && next.payload.migration.phase in {Prepared, Compensating, Aborting,
                                                                        HaRecoveringSource} ==>
              || next.payload.migration.phase == op.payload.migration.phase
              || Takeover.SourceClaim(op.payload.migration.phase, next.payload.migration.phase)
  {
  }

  /** ...and every such claim is the effect of an edit. */
  lemma SourceClaimIsEdit(id: string, op: Operation, archive: map<string, Operation>, start: HaStart,
                          next: MigrationPhase, now: int)
    requires MayTakeOver(op, start) && op.payload.migration.recovery.None?
    requires Takeover.SourceClaim(op.payload.migration.phase, next) && next != op.payload.migration.phase
    ensures exists edit :: Edited(id, op, archive, edit, now).Some?
              && Edited(id, op, archive, edit, now).value.payload.Migration?
              && Edited(id, op, archive, edit, now).value.payload.migration.phase == next
  {
    ClaimsAreExact(id, op, archive, now);
    FirstTakeoverIff(op, start, ToSource);
    var edit := match next
      case Prepared => MarkPrepared
      case Compensating => Compensate
      case Aborting => Abort
      case _ => HaTakeOver(start, ToSource);
    assert Edited(id, op, archive, edit, now).Some?;
  }

  /** The same for the way to the target. */
  lemma EditIsTargetClaim(id: string, op: Operation, archive: map<string, Operation>, edit: Edit, now: int)
    requires IsMigration(op) && Edited(id, op, archive, edit, now).Some?
    ensures var next := Edited(id, op, archive, edit, now).value;
            next.payload.Migration? && next.payload.migration.phase in {Prepared, Committing, HaRecoveringTarget} ==>
              || next.payload.migration.phase == op.payload.migration.phase
              || TakeoverTarget.TargetClaim(op.payload.migration.phase, next.payload.migration.phase)
  {
  }

  lemma TargetClaimIsEdit(id: string, op: Operation, archive: map<string, Operation>, start: HaStart,
                          next: MigrationPhase, now: int)
    requires MayTakeOver(op, start) && op.payload.migration.recovery.None?
    requires TakeoverTarget.TargetClaim(op.payload.migration.phase, next) && next != op.payload.migration.phase
    ensures exists edit :: Edited(id, op, archive, edit, now).Some?
              && Edited(id, op, archive, edit, now).value.payload.Migration?
              && Edited(id, op, archive, edit, now).value.payload.migration.phase == next
  {
    ClaimsAreExact(id, op, archive, now);
    FirstTakeoverIff(op, start, ToTarget);
    var edit := match next
      case Prepared => MarkPrepared
      case Committing => Commit
      case _ => HaTakeOver(start, ToTarget);
    assert Edited(id, op, archive, edit, now).Some?;
  }

  predicate IsRelocation(id: string, op: Operation, archive: map<string, Operation>) {
    op.action == HA && op.payload.HaRebind? && HaAccepted(id, op.payload.ha) && AuditHolds(archive, op.payload.ha)
  }

  /** The request is for the very assignment the operation is about. */
  predicate SameAssignment(h: HaPayload, start: HaStart) {
    && h.lifecycleId == start.lifecycleId && h.vmid == start.vmid
    && h.targetNodeId == start.target.id && h.targetNode == start.target.name && h.target == start.target.chassis
    && h.proof.serviceUid == start.proof.serviceUid && h.proof.serviceId == start.proof.serviceId
  }

  /** Re-claiming a relocation: by the same assignment with a proof that is not older, while it is rebinding or after
      it was ready; it runs again in its slot with nothing but the proof changed. */
  lemma ReclaimIff(id: string, op: Operation, archive: map<string, Operation>, start: HaStart, now: int)
    requires IsRelocation(id, op, archive) && Authorized(start)
    ensures var h := op.payload.ha;
            Edited(id, op, archive, HaReclaim(start), now) ==
              if SameAssignment(h, start) && NotOlder(start.proof, h.proof)
                 && ((op.status == Running && h.phase == Rebinding) || (op.status == Succeeded && h.phase == HaReady))
              then Some(op.(payload := HaRebind(h.(proof := start.proof, phase := Rebinding)), status := Running,
                            targetId := Text.Slot(h.vmid), targetRevision := 1, error := "", completedAt := None))
              else None
  {
  }

  /** Superseding a relocation: another service of the same VM with a higher manager epoch takes the running operation
      over in place; the overtaken proof goes into the history, and the manifest names the same ports. */
  lemma SupersedeIff(id: string, op: Operation, archive: map<string, Operation>, start: HaStart, ports: map<string,
                     Versioned>,
                     nodes: map<string, NodeRef>, now: int)
    requires IsRelocation(id, op, archive) && Authorized(start) && NodesNamed(nodes)
    requires HaChain.SnapshotInPlace(op.payload.ha, ports) && CanSupersede(op.payload.ha, start, ports, nodes)
    ensures var h := op.payload.ha;
            var next := Edited(id, op, archive, HaSupersede(start, ports, nodes), now);
            && (next.Some? <==> op.status == Running && h.vmid == start.vmid
                                && h.proof.managerEpoch < start.proof.managerEpoch
                                  && h.proof.serviceUid != start.proof.serviceUid)
            && (next.Some? ==>
                  && next.value.payload.HaRebind? && next.value.status == Running
                    && next.value.targetId == Text.Slot(h.vmid)
                  && var g := next.value.payload.ha;
                     && g.proof == start.proof && g.history == h.history + [h.proof] && g.phase == Rebinding
                     && g.vmid == h.vmid && g.audit == h.audit && |g.ports| == |h.ports|
                     && forall i :: 0 <= i < |g.ports| ==> g.ports[i].portId == h.ports[i].portId)
  {
  }

  /** Every port is back: on the source, untouched or returned, or on the target alone. */
  ghost predicate IsRecovered(plan: MigrationPlan, direction: Direction, ports: map<string, Versioned>) {
    forall i :: 0 <= i < |plan.ports| ==>
      && plan.ports[i].portId in ports && ConfigMatches(ports[plan.ports[i].portId], plan, plan.ports[i])
      && var p, e := ports[plan.ports[i].portId], plan.ports[i];
         && (p.port.status == Binding || p.port.status == Bound)
         && (direction == ToSource ==>
               && p.port.nodeId == plan.sourceNodeId && p.port.chassis == [plan.source]
               && ((p.port.generation == e.sourceGeneration && p.revision >= e.sourceRevision)
                   || (p.port.generation == e.generation && p.revision >= e.finalRevision)))
         && (direction == ToTarget ==>
               && p.port.nodeId == plan.targetNodeId && p.port.chassis == [plan.target]
               && p.port.generation == e.generation
               && p.revision >= if plan.online then e.finalRevision else e.preparedRevision)
  }

  lemma RecoveredIff(plan: MigrationPlan, direction: Direction, ports: map<string, Versioned>)
    ensures Recovered(plan, direction, ports) <==> IsRecovered(plan, direction, ports)
  {
  }

  /** Promotion: only a running, claimed migration in its slot, by the claimer's own proof, with the original archived
      and
      every port recovered in the direction of the claim; it goes on as a relocation of the same ports that remembers
      the
      history of proofs and where it came from. */
  lemma PromotionNeeds(id: string, op: Operation, archive: map<string, Operation>, start: HaStart, historyId: string,
                       ports: map<string, Versioned>, nodes: map<string, NodeRef>, now: int)
    requires IsMigration(op)
    requires Edited(id, op, archive, HaPromote(start, historyId, ports, nodes), now).Some?
    ensures var m := op.payload.migration;
            && op.status == Running && op.targetId == Text.Slot(m.plan.vmid) && start.vmid == m.plan.vmid
            && m.recovery.Some? && m.recovery.value.proof == start.proof
            && m.phase == (if m.recovery.value.direction == ToSource then HaRecoveringSource else HaRecoveringTarget)
            && historyId in archive && archive[historyId].status == Failed
            && archive[historyId].payload == Migration(MigrationPayload(m.plan, m.recovery.value.originalPhase, None))
            && IsRecovered(m.plan, m.recovery.value.direction, ports)
    ensures var m, next := op.payload.migration,
              Edited(id, op, archive, HaPromote(start, historyId, ports, nodes), now).value;
            && next.action == HA && next.status == Running && next.targetId == op.targetId && next.payload.HaRebind?
            && var h, r := next.payload.ha, m.recovery.value;
               && h.vmid == m.plan.vmid && h.proof == start.proof && h.history == r.history && h.phase == Rebinding
               && h.targetNodeId == start.target.id && h.target == start.target.chassis
               && h.audit.Some? && h.audit.value.operationId == id && h.audit.value.historyId == historyId
               && h.audit.value.direction == r.direction && h.audit.value.originalPhase == r.originalPhase
               && |h.ports| == |m.plan.ports|
  {
    RecoveredIff(op.payload.migration.plan, op.payload.migration.recovery.value.direction, ports);
  }

  /** Noting an error changes the error and nothing else. */
  lemma NotesAre(id: string, op: Operation, archive: map<string, Operation>, phase: MigrationPhase, failure: string,
                 now: int)
    ensures IsMigration(op) ==>
              Edited(id, op, archive, NoteError(phase, failure), now) ==
                if op.status == Running && op.payload.migration.phase == phase then Some(op.(error := failure))
                  else None
    ensures IsRelocation(id, op, archive) ==>
              Edited(id, op, archive, HaNoteError(failure), now) ==
                if op.status == Running && op.targetId == Text.Slot(op.payload.ha.vmid) then Some(op.(error := failure))
                else None
  {
  }

  /** Finishing a relocation: only a running one in its slot; it succeeds as ready at its history target. */
  lemma RelocationEndIff(id: string, op: Operation, archive: map<string, Operation>, now: int)
    requires IsRelocation(id, op, archive)
    ensures var h := op.payload.ha;
            Edited(id, op, archive, HaFinish, now) ==
              if op.status == Running && op.targetId == Text.Slot(h.vmid) && op.targetRevision == 1
              then Some(op.(payload := HaRebind(h.(phase := HaReady)), status := Succeeded, error := "",
                            completedAt := Some(now), targetId := Text.HistoryTarget(Text.Slot(h.vmid), id)))
              else None
  {
  }

  // ---------------------------------------------------------------- edits respect the ports

  /** The handler whose completion an edit records. */
  function Owed(edit: Edit): Option<Handlers.Work> {
    match edit
    case MarkPrepared => Some(Handlers.Prepare)
    case FinishCompensation(_) => Some(Handlers.Compensate)
    case FinishCommit => Some(Handlers.Finalize)
    case FinishAbort => Some(Handlers.Abort)
    case _ => None
  }

  /** The handler that a manager runs in a phase. */
  function WorkOf(phase: MigrationPhase): Option<Handlers.Work> {
    match phase
    case Preparing => Some(Handlers.Prepare)
    case Prepared => Some(Handlers.Prepare)
    case Compensating => Some(Handlers.Compensate)
    case HaRecoveringSource => Some(Handlers.Compensate)
    case Committing => Some(Handlers.Finalize)
    case HaRecoveringTarget => Some(Handlers.Finalize)
    case Aborting => Some(Handlers.Abort)
    case _ => None
  }

  ghost predicate InPlace(op: Operation, ports: Handlers.Fleet)
    requires op.payload.Migration?
  {
    Atomicity.Inv(op.payload.migration.plan, Atomicity.State(op.payload.migration.phase, ports))
  }

  ghost predicate Completed(op: Operation, work: Handlers.Work, ports: Handlers.Fleet)
    requires op.payload.Migration?
  {
    Handlers.DoneUpTo(op.payload.migration.plan, work, ports, |op.payload.migration.plan.ports|)
  }

  lemma ClaimKeepsPlace(id: string, op: Operation, archive: map<string, Operation>, edit: Edit, now: int,
                        ports: Handlers.Fleet)
    requires op.payload.Migration? && InPlace(op, ports) && Owed(edit).None? && !edit.HaPromote? && !edit.HaTakeOver?
    requires Edited(id, op, archive, edit, now).Some?
    ensures var next := Edited(id, op, archive, edit, now).value;
            && next.payload.Migration? && next.payload.migration.plan == op.payload.migration.plan
              && InPlace(next, ports)
  {
    var next := Edited(id, op, archive, edit, now).value;
    var plan := op.payload.migration.plan;
    forall i | 0 <= i < |plan.ports|
      ensures Atomicity.Allowed(plan, next.payload.migration.phase, plan.ports[i], ports[plan.ports[i].portId])
    {
      assert Atomicity.Allowed(plan, op.payload.migration.phase, plan.ports[i], ports[plan.ports[i].portId]);
    }
  }

  lemma TakeoverKeepsPlace(op: Operation, start: HaStart, direction: Direction, ports: Handlers.Fleet)
    requires op.payload.Migration? && InPlace(op, ports) && TakenOver(op, start, direction).Some?
    ensures var next := TakenOver(op, start, direction).value;
            && next.payload.Migration? && next.payload.migration.plan == op.payload.migration.plan
              && InPlace(next, ports)
  {
    var next := TakenOver(op, start, direction).value;
    var plan := op.payload.migration.plan;
    forall i | 0 <= i < |plan.ports|
      ensures Atomicity.Allowed(plan, next.payload.migration.phase, plan.ports[i], ports[plan.ports[i].portId])
    {
      assert Atomicity.Allowed(plan, op.payload.migration.phase, plan.ports[i], ports[plan.ports[i].portId]);
    }
  }

  lemma EndingKeepsPlace(id: string, op: Operation, archive: map<string, Operation>, edit: Edit, now: int,
                         ports: Handlers.Fleet)
    requires op.payload.Migration? && InPlace(op, ports) && Owed(edit).Some? && Completed(op, Owed(edit).value, ports)
    requires Edited(id, op, archive, edit, now).Some?
    ensures var next := Edited(id, op, archive, edit, now).value;
            && next.payload.Migration? && next.payload.migration.plan == op.payload.migration.plan
              && InPlace(next, ports)
  {
    Atomicity.CompletedPhase(op.payload.migration.plan, Atomicity.State(op.payload.migration.phase, ports),
                             Owed(edit).value);
  }

  /** Main result: every phase a manager may write fits the ports.  If they are where the read phase allows, and the
      handler whose completion the edit records is done, they are where the written phase allows. */
  lemma EditFitsPorts(id: string, op: Operation, archive: map<string, Operation>, edit: Edit, now: int,
                      ports: Handlers.Fleet)
    requires op.payload.Migration? && InPlace(op, ports) && !edit.HaPromote?
    requires Owed(edit).Some? ==> Completed(op, Owed(edit).value, ports)
    requires Edited(id, op, archive, edit, now).Some?
    ensures var next := Edited(id, op, archive, edit, now).value;
            && next.payload.Migration? && next.payload.migration.plan == op.payload.migration.plan
              && InPlace(next, ports)
  {
    if Owed(edit).Some? {
      EndingKeepsPlace(id, op, archive, edit, now, ports);
    } else if edit.HaTakeOver? {
      TakeoverKeepsPlace(op, edit.start, edit.direction, ports);
    } else {
      ClaimKeepsPlace(id, op, archive, edit, now, ports);
    }
  }

  // ---------------------------------------------------------------- statuses

  /** The status that goes with a phase. */
  function StatusOf(phase: MigrationPhase): OperationStatus {
    match phase
    case Finalized => Succeeded
    case Aborted => Succeeded
    case Compensated => Failed
    case _ => Running
  }

  predicate StatusFits(op: Operation) {
    match op.payload
    case Migration(m) => op.status == StatusOf(m.phase)
    case HaRebind(h) => op.status == if h.phase == HaReady then Succeeded else Running
    case _ => true
  }

  lemma EditKeepsStatus(id: string, op: Operation, archive: map<string, Operation>, edit: Edit, now: int)
    requires StatusFits(op) && Edited(id, op, archive, edit, now).Some?
    ensures StatusFits(Edited(id, op, archive, edit, now).value)
  {
  }

  lemma {:induction false} RunKeepsStatuses(id: string, w: MigrationPhases.World, steps: seq<MigrationPhases.Step>)
    requires MigrationPhases.Sound(w) && forall i :: 0 <= i < |w.written| ==> StatusFits(w.written[i])
    ensures var after := MigrationPhases.Run(id, w, steps);
            MigrationPhases.Sound(after) && forall i :: 0 <= i < |after.written| ==> StatusFits(after.written[i])
    decreases |steps|
  {
    if steps != [] {
      MigrationPhases.StepIsOneEdit(id, w, steps[0]);
      var next := MigrationPhases.Do(id, w, steps[0]);
      if next.written != w.written {
        var edit, now :| Edited(id, w.current.op, w.archive, edit, now) == Some(next.current.op)
              && next.written == w.written + [next.current.op];
        EditKeepsStatus(id, w.current.op, w.archive, edit, now);
      }
      RunKeepsStatuses(id, next, steps[1..]);
    }
  }

  /** Over every value a migration ever has, whatever the managers do: finalized and aborted have succeeded,
      compensated has failed, every other phase is running. */
  lemma StatusesFit(id: string, op: Operation, revision: int, steps: seq<MigrationPhases.Step>, i: nat)
    requires op.payload.Migration? && op.payload.migration.phase == Preparing && op.status == Running
    requires i < |MigrationPhases.Run(id, MigrationPhases.Begin(op, revision), steps).written|
    ensures StatusFits(MigrationPhases.Run(id, MigrationPhases.Begin(op, revision), steps).written[i])
  {
    RunKeepsStatuses(id, MigrationPhases.Begin(op, revision), steps);
  }

  // ---------------------------------------------------------------- the stored operation and its ports

  datatype State = State(op: Operation, ports: Handlers.Fleet)

  datatype Step =
    | Work(after: Handlers.Fleet, ok: bool, record: Option<Edit>, now: int)   // run the phase's handler, record an edit
    | Claim(edit: Edit, now: int)
    | AgentsReport(reports: set<string>)

  /** A manager records the completion of a handler only after that handler succeeded. */
  predicate MayRecord(work: Handlers.Work, ok: bool, edit: Edit) {
    Owed(edit).Some? ==> ok && Owed(edit) == Some(work)
  }

  function Recorded(id: string, op: Operation, archive: map<string, Operation>, edit: Option<Edit>,
                    now: int): Operation {
    if edit.Some? && Edited(id, op, archive, edit.value, now).Some?
      then Edited(id, op, archive, edit.value, now).value else op
  }

  ghost function Do(id: string, archive: map<string, Operation>, s: State, step: Step): State {
    match step
    case Work(after, ok, record, now) =>
      if && s.op.payload.Migration? && s.op.status == Running && WorkOf(s.op.payload.migration.phase).Some?
         && Atomicity.Ran(s.op.payload.migration.plan, WorkOf(s.op.payload.migration.phase).value, s.ports, after, ok)
         && (record.Some? ==> MayRecord(WorkOf(s.op.payload.migration.phase).value, ok, record.value))
      then State(Recorded(id, s.op, archive, record, now), after)
      else s
    case Claim(edit, now) =>
      if Owed(edit).None? then s.(op := Recorded(id, s.op, archive, Some(edit), now)) else s
    case AgentsReport(reports) => s.(ports := Handlers.Sweep(s.ports, reports))
  }

  ghost function Run(id: string, archive: map<string, Operation>, s: State, steps: seq<Step>): State
    decreases |steps|
  {
    if steps == [] then s else Run(id, archive, Do(id, archive, s, steps[0]), steps[1..])
  }

  ghost predicate Inv(plan: MigrationPlan, s: State) {
    && StatusFits(s.op)
    && (s.op.payload.Migration? ==> s.op.payload.migration.plan == plan && InPlace(s.op, s.ports))
  }

  lemma RecordKeepsInv(id: string, archive: map<string, Operation>, plan: MigrationPlan, s: State, edit: Edit, now: int)
    requires Inv(plan, s)
    requires s.op.payload.Migration? && Owed(edit).Some? ==> Completed(s.op, Owed(edit).value, s.ports)
    ensures Inv(plan, s.(op := Recorded(id, s.op, archive, Some(edit), now)))
  {
    if Edited(id, s.op, archive, edit, now).Some? {
      EditKeepsStatus(id, s.op, archive, edit, now);
      if s.op.payload.Migration? {
        if !edit.HaPromote? {
          EditFitsPorts(id, s.op, archive, edit, now, s.ports);
        }
      } else {
        RelocationStays(id, s.op, archive, edit, now);
      }
    }
  }

  lemma RelocationStays(id: string, op: Operation, archive: map<string, Operation>, edit: Edit, now: int)
    requires !op.payload.Migration? && Edited(id, op, archive, edit, now).Some?
    ensures !Edited(id, op, archive, edit, now).value.payload.Migration?
  {
  }

  lemma WorkKeepsInv(id: string, archive: map<string, Operation>, plan: MigrationPlan, s: State, step: Step)
    requires PlanOk(plan) && Inv(plan, s) && step.Work? && Do(id, archive, s, step) != s
    ensures Inv(plan, Do(id, archive, s, step))
  {
    var phase := s.op.payload.migration.phase;
    var work := WorkOf(phase).value;
    Atomicity.HandlerKeepsInv(plan, Atomicity.State(phase, s.ports), work, step.after);
    if step.record.Some? {
      RecordKeepsInv(id, archive, plan, s.(ports := step.after), step.record.value, step.now);
    }
  }

  lemma StepKeepsInv(id: string, archive: map<string, Operation>, plan: MigrationPlan, s: State, step: Step)
    requires PlanOk(plan) && Inv(plan, s)
    ensures Inv(plan, Do(id, archive, s, step))
  {
    if Do(id, archive, s, step) != s {
      match step
      case Work(_, _, _, _) => WorkKeepsInv(id, archive, plan, s, step);
      case Claim(edit, now) => RecordKeepsInv(id, archive, plan, s, edit, now);
      case AgentsReport(reports) =>
        if s.op.payload.Migration? {
          Atomicity.ReportKeepsInv(plan, Atomicity.State(s.op.payload.migration.phase, s.ports), reports);
        }
    }
  }

  lemma {:induction false} RunKeepsInv(id: string, archive: map<string, Operation>, plan: MigrationPlan, s: State,
                                       steps: seq<Step>)
    requires PlanOk(plan) && Inv(plan, s)
    ensures Inv(plan, Run(id, archive, s, steps))
    decreases |steps|
  {
    if steps != [] {
      StepKeepsInv(id, archive, plan, s, steps[0]);
      RunKeepsInv(id, archive, plan, Do(id, archive, s, steps[0]), steps[1..]);
    }
  }

  ghost predicate Begun(s: State) {
    && s.op.payload.Migration? && s.op.status == Running
    && Atomicity.Begun(s.op.payload.migration.plan, Atomicity.State(s.op.payload.migration.phase, s.ports))
  }

  /** Main result: what the stored operation says is what the ports are.  Over every run of serialized handlers with
      crashes, retries, claims and takeovers, a migration that is finalized has succeeded and has every port on its
      target alone; one that is aborted has succeeded, one that is compensated has failed, and both have every port
      on the source alone; and in every other phase the handler of the phase can resume on every port. */
  lemma OperationTellsThePorts(id: string, archive: map<string, Operation>, begin: State, steps: seq<Step>, i: nat)
    requires Begun(begin) && PlanOk(begin.op.payload.migration.plan) && i < |begin.op.payload.migration.plan.ports|
    requires Run(id, archive, begin, steps).op.payload.Migration?
    ensures var plan := begin.op.payload.migration.plan;
            var s := Run(id, archive, begin, steps);
            var port := plan.ports[i].portId;
            var phase := s.op.payload.migration.phase;
            && s.op.payload.migration.plan == plan && port in s.ports
              && ConfigMatches(s.ports[port], plan, plan.ports[i])
            && (phase == Finalized ==>
                  && s.op.status == Succeeded
                  && s.ports[port].port.nodeId == plan.targetNodeId && s.ports[port].port.chassis == [plan.target])
            && (phase == Aborted || phase == Compensated ==>
                  && s.op.status == (if phase == Aborted then Succeeded else Failed)
                  && s.ports[port].port.nodeId == plan.sourceNodeId && s.ports[port].port.chassis == [plan.source])
            && (phase != Finalized && phase != Aborted && phase != Compensated ==>
                  && s.op.status == Running && WorkOf(phase).Some?
                  && Handlers.Resumable(plan, WorkOf(phase).value, s.ports))
  {
    RunKeepsInv(id, archive, begin.op.payload.migration.plan, begin, steps);
  }
}
