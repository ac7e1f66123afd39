/** Durable payloads of compute lifecycle operations.

    JSON encoding is taken as injective, so an operation carries the decoded
    value.  A payload hash is likewise injective: it is the hashed value itself. */
module Payloads {
  import opened Ports

  // Actions of the operations that carry them.
  const MIGRATION := "compute-migration"
  const HA := "compute-ha-rebind"
  const SNAPSHOT := "compute-snapshot"

  // ---------------------------------------------------------------- migration

  datatype MigrationPhase =
    | Preparing | Prepared | Compensating | Compensated | Committing | Finalized | Aborting | Aborted
    | HaRecoveringSource | HaRecoveringTarget

  datatype Direction = ToSource | ToTarget

  datatype MigrationPort = MigrationPort(
    portId: string, nic: string, config: PortConfig, sourceStatus: BindingStatus,
    sourceRevision: int, preparedRevision: int, finalRevision: int,
    sourceGeneration: int, generation: int)

  /** Everything a migration fixes when it begins. */
  datatype MigrationPlan = MigrationPlan(
    version: int, lifecycleId: string, vmid: int, online: bool,
    sourceNodeId: string, sourceNode: string, source: string,
    targetNodeId: string, targetNode: string, target: string,
    ports: seq<MigrationPort>)

  /** Hash of a migration payload with its phase erased. */
  datatype Digest = Digest(plan: MigrationPlan, recovery: Option<HaRecovery>)

  datatype HaRecovery = HaRecovery(
    direction: Direction, originalPhase: MigrationPhase, hash: Digest, proof: HaProof, history: seq<HaProof>)

  datatype MigrationPayload = MigrationPayload(
    plan: MigrationPlan, phase: MigrationPhase, recovery: Option<HaRecovery>)

  // ---------------------------------------------------------------- HA

  /** Authority proof of the PVE CRM and LRM.  `nodeStates` holds the CRM's view of the nodes. */
  datatype HaProof = HaProof(
    serviceId: string, managerEpoch: int, serviceUid: string, serviceNode: string,
    nodeStates: map<string, string>, lrmNode: string, lrmEpoch: int, agentLockEpoch: int)

  /** A recorded place where a port may still be found. */
  datatype Position = Position(nodeId: string, node: string, chassis: seq<string>, floor: int, generation: int)

  datatype HaPort = HaPort(
    portId: string, nic: string, config: PortConfig,
    priorNodeId: string, priorNode: string, priorChassis: seq<string>,
    priorRevision: int, priorGeneration: int,
    targetRevision: int, targetGeneration: int, predecessors: seq<Position>)

  datatype HaAudit = HaAudit(
    operationId: string, historyId: string, direction: Direction, originalPhase: MigrationPhase,
    hash: Digest, portIds: multiset<string>)

  datatype HaPhase = Rebinding | HaReady | Superseded

  datatype HaPayload = HaPayload(
    version: int, lifecycleId: string, phase: HaPhase, vmid: int,
    targetNodeId: string, targetNode: string, target: string,
    proof: HaProof, history: seq<HaProof>, ports: seq<HaPort>, audit: Option<HaAudit>)

  // ---------------------------------------------------------------- template and destroy

  datatype SourcePort = SourcePort(
    portId: string, nic: string, mac: string, networkId: string, fixedIPs: seq<FixedIP>, groups: multiset<string>,
    lspName: string, allocations: map<string, int>,
    sourceNodeId: string, sourceChassis: seq<string>, sourceStatus: BindingStatus,
    sourceRevision: int, sourceGeneration: int)

  datatype Payload =
    | NoPayload
    | Migration(migration: MigrationPayload)
    | HaRebind(ha: HaPayload)
    | Lifecycle(vmid: int, phase: string, ports: seq<SourcePort>)
}
