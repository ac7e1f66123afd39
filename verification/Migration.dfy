/** The exact positions a migration moves its ports between. */
module Migration {
  import opened Ports
  import opened Payloads

  /** Node ID and chassis list of a prepared port: both chassis while online, the target alone offline. */
  function PreparedNode(plan: MigrationPlan): string {
    if plan.online then plan.sourceNodeId else plan.targetNodeId
  }
  function PreparedChassis(plan: MigrationPlan): seq<string> {
    if plan.online then [plan.source, plan.target] else [plan.target]
  }

  predicate ConfigMatches(v: Versioned, plan: MigrationPlan, intent: MigrationPort) {
    v.port.vmid == plan.vmid && v.port.nic == intent.nic && ConfigOf(v.port) == intent.config
  }

  /** Untouched: on the source, at the generation the migration started from. */
  predicate AtSource(plan: MigrationPlan, intent: MigrationPort, v: Versioned) {
    At(v.port, plan.sourceNodeId, [plan.source], intent.sourceGeneration) && RevisionMatches(v, intent.sourceRevision)
  }
  predicate AtPrepared(plan: MigrationPlan, intent: MigrationPort, v: Versioned) {
    At(v.port, PreparedNode(plan), PreparedChassis(plan), intent.generation)
      && RevisionMatches(v, intent.preparedRevision)
  }
  /** Back on the source, keeping the raised generation as a fence. */
  predicate AtReturned(plan: MigrationPlan, intent: MigrationPort, v: Versioned) {
    At(v.port, plan.sourceNodeId, [plan.source], intent.generation) && RevisionMatches(v, intent.finalRevision)
  }
  /** On the target alone.  Offline, the prepared position already is the final one. */
  predicate AtFinal(plan: MigrationPlan, intent: MigrationPort, v: Versioned) {
    && At(v.port, plan.targetNodeId, [plan.target], intent.generation)
    && RevisionMatches(v, if plan.online then intent.finalRevision else intent.preparedRevision)
  }

  function PrepareMove(plan: MigrationPlan, intent: MigrationPort, p: Port): Port {
    Moved(p, PreparedNode(plan), PreparedChassis(plan), intent.generation)
  }
  /** Compensating and aborting keep the generation the port has. */
  function ReturnMove(plan: MigrationPlan, p: Port): Port {
    Moved(p, plan.sourceNodeId, [plan.source], p.generation)
  }
  function FinishMove(plan: MigrationPlan, p: Port): Port {
    Moved(p, plan.targetNodeId, [plan.target], p.generation)
  }

  /** What decodeMigrationPayload demands of every manifest entry, and begin of the two nodes. */
  ghost predicate PlanOk(plan: MigrationPlan) {
    && plan.sourceNodeId != plan.targetNodeId
    && (forall i, j :: 0 <= i < j < |plan.ports| ==> plan.ports[i].portId != plan.ports[j].portId)
    && forall i :: 0 <= i < |plan.ports| ==> EntryOk(plan.ports[i])
  }

  predicate EntryOk(intent: MigrationPort) {
    && intent.sourceRevision >= 1
    && intent.preparedRevision == intent.sourceRevision + 1
    && intent.finalRevision == intent.preparedRevision + 1
    && intent.sourceGeneration >= 1
    && intent.generation == intent.sourceGeneration + 1
  }
}
