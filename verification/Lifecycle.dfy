/** The durable operation of a migration and of the HA relocation that may take it over.

    Every change of such an operation is a read of the stored row followed by one conditional
    write.  An `Edit` names the change; `Edited` is the row it would write from the row it read,
    or None when the change is refused or needs no write. */
module Lifecycle {
  import opened Ports
  import opened Payloads
  import opened Model
  import opened Migration
  import opened HaRebind
  import HaChain
  import Takeover
  import Text

  // ---------------------------------------------------------------- decoding a migration

  /** The hash of a payload with its phase erased. */
  function HashOf(m: MigrationPayload): Digest {
    Digest(m.plan, m.recovery)
  }

  /** The direction in which HA completes a migration found in this phase. */
  function RecoveryDirection(phase: MigrationPhase): Option<Direction> {
    match phase
    case Preparing => Some(ToSource)
    case Compensating => Some(ToSource)
    case Aborting => Some(ToSource)
    case HaRecoveringSource => Some(ToSource)
    case Prepared => Some(ToTarget)
    case Committing => Some(ToTarget)
    case HaRecoveringTarget => Some(ToTarget)
    case _ => None
  }

  function RecoveryPhase(direction: Direction): MigrationPhase {
    if direction == ToSource then HaRecoveringSource else HaRecoveringTarget
  }

  predicate PlanNamed(plan: MigrationPlan) {
    && plan.version == PAYLOAD_VERSION && plan.lifecycleId != "" && plan.vmid >= 1
    && plan.sourceNodeId != "" && plan.sourceNode != "" && plan.source != ""
    && plan.targetNodeId != "" && plan.targetNode != "" && plan.target != ""
  }

  predicate EntryAccepted(e: MigrationPort) {
    && e.portId != "" && e.nic != "" && e.config.name != "" && e.config.mac != "" && e.config.networkId != ""
    && e.config.lspName != "" && EntryOk(e) && BindingReady(e.sourceStatus)
  }

  predicate PlanAccepted(plan: MigrationPlan) {
    && PlanNamed(plan) && |plan.ports| > 0
    && (forall i :: 0 <= i < |plan.ports| ==> EntryAccepted(plan.ports[i]))
    && forall i, j :: 0 <= i < j < |plan.ports| ==>
         plan.ports[i].portId != plan.ports[j].portId && plan.ports[i].nic != plan.ports[j].nic
  }

  function ServiceId(vmid: int): string {
    "vm:" + Text.Number(vmid)
  }

  predicate RecoveryAccepted(m: MigrationPayload) {
    match m.recovery
    case None => m.phase != HaRecoveringSource && m.phase != HaRecoveringTarget
    case Some(r) =>
      && (m.phase == HaRecoveringSource || m.phase == HaRecoveringTarget)
      && RecoveryDirection(r.originalPhase) == Some(r.direction) && r.hash == Digest(m.plan, None)
      && r.proof.serviceId == ServiceId(m.plan.vmid) && r.proof.serviceUid != ""
  }

  /** decodeMigrationPayload accepts the payload. */
  predicate MigrationAccepted(m: MigrationPayload) {
    PlanAccepted(m.plan) && RecoveryAccepted(m)
  }

  // ---------------------------------------------------------------- decoding a relocation

  predicate ValidUid(uid: string) {
    8 <= |uid| <= 128 &&
    forall i :: 0 <= i < |uid| ==>
      'a' <= uid[i] <= 'z' || 'A' <= uid[i] <= 'Z' || '0' <= uid[i] <= '9' || uid[i] in {'+', '/', '_', '-'}
  }

  predicate ProofAccepted(vmid: int, p: HaProof) {
    && p.serviceId == ServiceId(vmid) && ValidUid(p.serviceUid) && p.serviceNode != "" && p.lrmNode != ""
    && p.managerEpoch >= 1 && p.lrmEpoch >= 1 && p.agentLockEpoch >= 1
  }

  /** The chassis text is not empty. */
  predicate ChassisNamed(chassis: seq<string>) {
    chassis != [] && chassis != [""]
  }

  predicate PositionAccepted(p: Position) {
    p.nodeId != "" && p.node != "" && ChassisNamed(p.chassis) && p.floor >= 1 && p.generation >= 1
  }

  predicate HaPortAccepted(p: HaPort) {
    && p.portId != "" && p.nic != "" && p.config.networkId != "" && PositionAccepted(PriorPosition(p))
    && p.targetRevision >= 1 && p.targetGeneration >= 1
    && forall i :: 0 <= i < |p.predecessors| ==> PositionAccepted(p.predecessors[i])
  }

  predicate AuditShape(id: string, ports: seq<HaPort>, audit: HaAudit) {
    && audit.operationId == id && audit.historyId != "" && PlanNamed(audit.hash.plan)
    && |audit.portIds| == |ports| && forall i :: 0 <= i < |ports| ==> ports[i].portId in audit.portIds
  }

  /** decodeHAPayload accepts the payload of operation `id`. */
  predicate HaAccepted(id: string, h: HaPayload) {
    && h.version == PAYLOAD_VERSION && h.lifecycleId != "" && h.vmid >= 1
    && h.targetNodeId != "" && h.targetNode != "" && h.target != "" && |h.ports| > 0 && ValidUid(h.proof.serviceUid)
    && (forall i :: 0 <= i < |h.ports| ==> HaPortAccepted(h.ports[i]))
    && (forall i, j :: 0 <= i < j < |h.ports| ==> h.ports[i].portId != h.ports[j].portId)
    && |h.history| <= MAX_AUTHORITY_HISTORY
    && (forall i :: 0 <= i < |h.history| ==> ProofAccepted(h.vmid, h.history[i]))
    && (h.audit.Some? ==> AuditShape(id, h.ports, h.audit.value))
  }

  // ---------------------------------------------------------------- the archived original

  /** The migration as it was before HA took it over. */
  function Original(m: MigrationPayload): MigrationPayload
    requires m.recovery.Some?
  {
    MigrationPayload(m.plan, m.recovery.value.originalPhase, None)
  }

  function ArchiveRow(op: Operation, historyId: string, original: MigrationPayload, error: string,
                      now: int): Operation {
    Operation(MIGRATION, KindNode, Text.HistoryTarget(Text.Slot(original.plan.vmid), historyId), 1, Failed,
              "compute-migration-ha-history:" + historyId, error, "compute-lifecycle",
              if op.startedAt.Some? then op.startedAt else Some(now), Some(now), Migration(original))
  }

  predicate Archives(row: Operation, historyId: string, original: MigrationPayload) {
    && row.action == MIGRATION && row.status == Failed && row.payload == Migration(original)
    && row.targetId == Text.HistoryTarget(Text.Slot(original.plan.vmid), historyId)
  }

  /** validateHAMigrationAudit: the referenced archive row is the immutable original. */
  predicate AuditHolds(archive: map<string, Operation>, h: HaPayload) {
    h.audit.Some? ==>
      var audit := h.audit.value;
      && audit.historyId in archive
      && archive[audit.historyId].payload.Migration?
      && var original := archive[audit.historyId].payload.migration;
         && MigrationAccepted(original) && Archives(archive[audit.historyId], audit.historyId, original)
         && original.recovery.None? && original.phase == audit.originalPhase && original.plan.vmid == h.vmid
         && HashOf(original) == audit.hash && RecoveryDirection(original.phase) == Some(audit.direction)
         && |original.plan.ports| == |audit.portIds|
         && forall i :: 0 <= i < |original.plan.ports| ==> original.plan.ports[i].portId in audit.portIds
  }

  // ---------------------------------------------------------------- requests

  predicate NodeNamed(n: NodeRef) {
    n.id != "" && n.name != "" && n.chassis != ""
  }

  /** validateHAProofIdentity, without the freshness of the epochs: the proof names this VM and this target. */
  predicate Authorized(start: HaStart) {
    && ProofAccepted(start.vmid, start.proof) && start.vmid >= 1 && start.lifecycleId != "" && NodeNamed(start.target)
    && start.proof.serviceNode == start.target.name && start.proof.lrmNode == start.target.name
  }

  predicate NodesNamed(nodes: map<string, NodeRef>) {
    forall id :: id in nodes ==> NodeNamed(nodes[id])
  }

  /** No epoch of `next` is below `last`, and equal epochs come with an equal proof. */
  predicate Renews(next: HaProof, last: HaProof) {
    && next.managerEpoch >= last.managerEpoch && next.lrmEpoch >= last.lrmEpoch
      && next.agentLockEpoch >= last.agentLockEpoch
    && (next.managerEpoch == last.managerEpoch && next.lrmEpoch == last.lrmEpoch
        && next.agentLockEpoch == last.agentLockEpoch ==>
          next == last)
  }

  // ---------------------------------------------------------------- edits of a migration

  datatype Edit =
    | MarkPrepared | Compensate | Commit | Abort
    | FinishCompensation(failure: string) | FinishCommit | FinishAbort
    | NoteError(phase: MigrationPhase, failure: string)
    | HaTakeOver(start: HaStart, direction: Direction)
    | HaPromote(start: HaStart, historyId: string, ports: map<string, Versioned>, nodes: map<string, NodeRef>)
    | HaReclaim(start: HaStart)
    | HaSupersede(start: HaStart, ports: map<string, Versioned>, nodes: map<string, NodeRef>)
    | HaFinish
    | HaNoteError(failure: string)

  /** claimComputeOperation for a migration. */
  function Claimed(op: Operation, from: set<MigrationPhase>, to: MigrationPhase): Option<Operation> {
    if op.action == MIGRATION && op.payload.Migration? && MigrationAccepted(op.payload.migration)
       && op.status == Running && op.payload.migration.phase in from
    then Some(op.(payload := Migration(op.payload.migration.(phase := to))))
    else None
  }

  /** terminalizeClaimedComputeOperation for a migration. */
  function Terminalized(id: string, op: Operation, from: MigrationPhase, to: MigrationPhase, status: OperationStatus,
                        failure: string, now: int): Option<Operation> {
    if Claimed(op, {from}, to).None? then None
    else Some(Claimed(op, {from}, to).value.(status := status, error := failure, completedAt := Some(now),
                                             targetId := Text.HistoryTarget(op.targetId, id), targetRevision := 1))
  }

  /** The recovery record after one more HA claim. */
  function RecoveryAfter(m: MigrationPayload, direction: Direction, proof: HaProof): Option<HaRecovery> {
    if RecoveryDirection(m.phase) != Some(direction) then None
    else match m.recovery
      case None => Some(HaRecovery(direction, m.phase, HashOf(m), proof, []))
      case Some(r) =>
        if r.direction != direction then None
        else if r.proof.serviceUid == proof.serviceUid then
          if r.proof.serviceId == proof.serviceId && r.proof.serviceNode == proof.serviceNode
            && r.proof.lrmNode == proof.lrmNode
             && Renews(proof, r.proof)
          then Some(r.(proof := proof)) else None
        else if proof.managerEpoch <= r.proof.managerEpoch || |r.history| >= MAX_AUTHORITY_HISTORY then None
        else Some(r.(proof := proof, history := r.history + [r.proof]))
  }

  /** claimHAMigrationRecovery. */
  function TakenOver(op: Operation, start: HaStart, direction: Direction): Option<Operation> {
    if op.action == MIGRATION && op.payload.Migration? && MigrationAccepted(op.payload.migration)
       && op.status == Running && op.targetId == Text.Slot(op.payload.migration.plan.vmid)
       && Authorized(start) && start.vmid == op.payload.migration.plan.vmid
       && RecoveryAfter(op.payload.migration, direction, start.proof).Some?
    then Some(op.(error := "", payload := Migration(op.payload.migration.(
           phase := RecoveryPhase(direction), recovery :=
             RecoveryAfter(op.payload.migration, direction, start.proof)))))
    else None
  }

  /** validateRecoveredMigrationPorts. */
  predicate Recovered(plan: MigrationPlan, direction: Direction, ports: map<string, Versioned>) {
    forall i :: 0 <= i < |plan.ports| ==>
      && plan.ports[i].portId in ports && ConfigMatches(ports[plan.ports[i].portId], plan, plan.ports[i])
      && var v := ports[plan.ports[i].portId];
         if direction == ToSource then AtSource(plan, plan.ports[i], v) || AtReturned(plan, plan.ports[i], v)
         else AtFinal(plan, plan.ports[i], v)
  }

  /** One port of the promoted payload. */
  function PromotedEntry(plan: MigrationPlan, direction: Direction, i: nat, v: Versioned, nodes: map<string, NodeRef>,
                         target: NodeRef): Option<HaPort>
    requires i < |plan.ports| && Attachable(v, nodes, target)
  {
    var found := NewHaPort(plan.ports[i].portId, v, nodes, target);
    if direction == ToSource then Takeover.PromotedPort(found, plan, plan.ports[i], target) else Some(found)
  }

  predicate CanPromote(id: string, op: Operation, archive: map<string, Operation>, start: HaStart, historyId: string,
                       ports: map<string, Versioned>, nodes: map<string, NodeRef>) {
    && op.action == MIGRATION && op.payload.Migration? && MigrationAccepted(op.payload.migration)
    && op.status == Running && op.payload.migration.recovery.Some?
    && var m := op.payload.migration;
       var r := m.recovery.value;
       && op.targetId == Text.Slot(m.plan.vmid) && m.phase == RecoveryPhase(r.direction) && r.proof == start.proof
       && HashOf(Original(m)) == r.hash && historyId != ""
       && historyId in archive && Archives(archive[historyId], historyId, Original(m))
       && Authorized(start) && start.vmid == m.plan.vmid && NodesNamed(nodes)
       && Recovered(m.plan, r.direction, ports)
       && forall i :: 0 <= i < |m.plan.ports| ==>
            && Attachable(ports[m.plan.ports[i].portId], nodes, start.target)
            && PromotedEntry(m.plan, r.direction, i, ports[m.plan.ports[i].portId], nodes, start.target).Some?
  }

  /** promoteMigrationRecoveryToHA. */
  function PromotedPayload(id: string, op: Operation, archive: map<string, Operation>, start: HaStart,
                           historyId: string,
                           ports: map<string, Versioned>, nodes: map<string, NodeRef>): HaPayload
    requires CanPromote(id, op, archive, start, historyId, ports, nodes)
  {
    var m := op.payload.migration;
    var r := m.recovery.value;
    HaPayloadOf(start, r.history,
      seq(|m.plan.ports|, i requires 0 <= i < |m.plan.ports| =>
        PromotedEntry(m.plan, r.direction, i, ports[m.plan.ports[i].portId], nodes, start.target).value),
      Some(HaAudit(id, historyId, r.direction, r.originalPhase, r.hash, multiset(Takeover.PlanIds(m.plan)))))
  }

  // ---------------------------------------------------------------- edits of a relocation

  /** claimHAStartOperation: the same assignment comes back with a newer proof. */
  predicate CanReclaim(id: string, op: Operation, archive: map<string, Operation>, start: HaStart) {
    && op.action == HA && op.payload.HaRebind? && HaAccepted(id, op.payload.ha) && AuditHolds(archive, op.payload.ha)
    && var h := op.payload.ha;
       && Authorized(start)
       && h.lifecycleId == start.lifecycleId && h.vmid == start.vmid && h.targetNodeId == start.target.id
       && h.targetNode == start.target.name && h.target == start.target.chassis
       && h.proof.serviceUid == start.proof.serviceUid && h.proof.serviceId == start.proof.serviceId
       && Renews(start.proof, h.proof)
       && ((op.status == Running && h.phase == Rebinding) || (op.status == Succeeded && h.phase == HaReady))
  }

  function Reclaimed(op: Operation, start: HaStart): Operation
    requires op.payload.HaRebind?
  {
    op.(payload := HaRebind(op.payload.ha.(proof := start.proof, phase := Rebinding)), status := Running,
        targetId := Text.Slot(start.vmid), targetRevision := 1, error := "", completedAt := None)
  }

  /** supersedeHAOperation: another assignment with a higher manager epoch takes the slot over. */
  predicate CanTakeSlot(id: string, op: Operation, archive: map<string, Operation>, start: HaStart,
                        ports: map<string, Versioned>, nodes: map<string, NodeRef>) {
    && op.action == HA && op.payload.HaRebind? && HaAccepted(id, op.payload.ha) && AuditHolds(archive, op.payload.ha)
    && var h := op.payload.ha;
       && op.status == Running && h.vmid == start.vmid && Authorized(start) && NodesNamed(nodes)
       && start.proof.managerEpoch > h.proof.managerEpoch && start.proof.serviceUid != h.proof.serviceUid
       && HaChain.SnapshotInPlace(h, ports) && CanSupersede(h, start, ports, nodes)
  }

  // ---------------------------------------------------------------- one conditional write

  function Edited(id: string, op: Operation, archive: map<string, Operation>, edit: Edit, now: int): Option<Operation> {
    match edit
    case MarkPrepared => Claimed(op, {Preparing}, Prepared)
    case Compensate => Claimed(op, {Preparing, Prepared}, Compensating)
    case Commit => Claimed(op, {Prepared}, Committing)
    case Abort => Claimed(op, {Prepared}, Aborting)
    case FinishCompensation(failure) => Terminalized(id, op, Compensating, Compensated, Failed, failure, now)
    case FinishCommit => Terminalized(id, op, Committing, Finalized, Succeeded, "", now)
    case FinishAbort => Terminalized(id, op, Aborting, Aborted, Succeeded, "", now)
    case NoteError(phase, failure) =>
      if op.action == MIGRATION && op.payload.Migration? && op.status == Running && op.payload.migration.phase == phase
      then Some(op.(error := failure)) else None
    case HaTakeOver(start, direction) => TakenOver(op, start, direction)
    case HaPromote(start, historyId, ports, nodes) =>
      if CanPromote(id, op, archive, start, historyId, ports, nodes)
      then Some(op.(action := HA,
                    payload := HaRebind(PromotedPayload(id, op, archive, start, historyId, ports, nodes)), error := "",
                    status := Running, completedAt := None))
      else None
    case HaReclaim(start) => if CanReclaim(id, op, archive, start) then Some(Reclaimed(op, start)) else None
    case HaSupersede(start, ports, nodes) =>
      if CanTakeSlot(id, op, archive, start, ports, nodes)
      then Some(op.(payload := HaRebind(SupersessionPayload(op.payload.ha, start, ports, nodes)), error := "",
                    status := Running, completedAt := None, targetId := Text.Slot(start.vmid), targetRevision := 1))
      else None
    case HaFinish =>
      if op.action == HA && op.payload.HaRebind? && HaAccepted(id, op.payload.ha) && AuditHolds(archive, op.payload.ha)
         && op.status == Running && op.targetId == Text.Slot(op.payload.ha.vmid) && op.targetRevision == 1
      then Some(op.(payload := HaRebind(op.payload.ha.(phase := HaReady)), status := Succeeded, error := "",
                    completedAt := Some(now),
                    targetId := Text.HistoryTarget(Text.Slot(op.payload.ha.vmid), id)))
      else None
    case HaNoteError(failure) =>
      if op.action == HA && op.payload.HaRebind? && HaAccepted(id, op.payload.ha) && op.status == Running
         && op.targetId == Text.Slot(op.payload.ha.vmid)
      then Some(op.(error := failure)) else None
  }
}
