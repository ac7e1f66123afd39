/** Durable payloads are closed under their transitions: what one manager writes, the decoder and
    the audit of the next one accept. */
module PayloadClosure {
  import opened Ports
  import opened Payloads
  import opened Model
  import opened Migration
  import opened HaRebind
  import opened Lifecycle
  import opened MigrationPhases
  import HaChain
  import Takeover

  // ---------------------------------------------------------------- beginning a migration

  datatype MigrationRequest = MigrationRequest(lifecycleId: string, vmid: int, online: bool, source: NodeRef,
                                               target: NodeRef)

  /** A port listed for a VM, with its ID. */
  datatype Listed = Listed(id: string, stored: Versioned)

  /** newMigrationPayload accepts the port. */
  predicate CanMigrate(source: NodeRef, v: Versioned) {
    && 1 <= v.port.generation < MAX_INT64 && 1 <= v.revision <= MAX_INT64 - 2
    && v.port.nodeId == source.id && v.port.chassis == [source.chassis] && BindingReady(v.port.status) && v.port.adminUp
  }

  function NewEntry(l: Listed): MigrationPort {
    MigrationPort(l.id, l.stored.port.nic, ConfigOf(l.stored.port), l.stored.port.status, l.stored.revision,
                  l.stored.revision + 1,
                  l.stored.revision + 2, l.stored.port.generation, l.stored.port.generation + 1)
  }

  function NewMigration(req: MigrationRequest, ports: seq<Listed>): Option<MigrationPayload> {
    if forall i :: 0 <= i < |ports| ==> CanMigrate(req.source, ports[i].stored) then
      Some(MigrationPayload(
        MigrationPlan(PAYLOAD_VERSION, req.lifecycleId, req.vmid, req.online, req.source.id, req.source.name,
                      req.source.chassis,
                      req.target.id, req.target.name, req.target.chassis,
                      seq(|ports|, i requires 0 <= i < |ports| => NewEntry(ports[i]))),
        Preparing, None))
    else None
  }

  /** What validation guarantees of a request and of the stored rows it names. */
  predicate RequestOk(req: MigrationRequest) {
    req.lifecycleId != "" && req.vmid >= 1 && NodeNamed(req.source) && NodeNamed(req.target)
      && req.source.id != req.target.id
  }

  predicate ListingOk(vmid: int, ports: seq<Listed>) {
    && |ports| > 0
    && (forall i :: 0 <= i < |ports| ==>
          && ports[i].id != "" && ports[i].stored.port.vmid == vmid && ports[i].stored.port.nic != ""
          && ports[i].stored.port.name != "" && ports[i].stored.port.mac != "" && ports[i].stored.port.networkId != ""
          && ports[i].stored.port.lspName != "")
    && forall i, j :: 0 <= i < j < |ports| ==>
        ports[i].id != ports[j].id && ports[i].stored.port.nic != ports[j].stored.port.nic
  }

  /** A migration begins exactly when every port is bound to the source alone, up and with room for the moves. */
  lemma BeginIff(req: MigrationRequest, ports: seq<Listed>)
    ensures NewMigration(req, ports).Some? <==>
              forall i :: 0 <= i < |ports| ==>
                var p := ports[i].stored.port;
                && p.nodeId == req.source.id && p.chassis == [req.source.chassis] && p.adminUp
                && (p.status == Binding || p.status == Bound)
                && p.generation >= 1 && p.generation + 1 <= MAX_INT64
                && ports[i].stored.revision >= 1 && ports[i].stored.revision + 2 <= MAX_INT64
  {
    if NewMigration(req, ports).Some? {
      forall i | 0 <= i < |ports| ensures CanMigrate(req.source, ports[i].stored) {
      }
    }
  }

  /** A new migration is accepted by its own decoder, goes from the requested source to the requested target, and finds
      every port at its source position, with the next generation and the next two revisions to come. */
  lemma BeginIsAccepted(req: MigrationRequest, ports: seq<Listed>)
    requires RequestOk(req) && ListingOk(req.vmid, ports) && NewMigration(req, ports).Some?
    ensures var m := NewMigration(req, ports).value;
            && MigrationAccepted(m) && PlanOk(m.plan) && |m.plan.ports| == |ports|
            && m.phase == Preparing && m.recovery.None?
            && m.plan.lifecycleId == req.lifecycleId && m.plan.vmid == req.vmid && m.plan.online == req.online
            && m.plan.sourceNodeId == req.source.id && m.plan.source == req.source.chassis
            && m.plan.targetNodeId == req.target.id && m.plan.target == req.target.chassis
            && m.plan.sourceNode == req.source.name && m.plan.targetNode == req.target.name
            && forall i :: 0 <= i < |ports| ==>
                 && m.plan.ports[i].portId == ports[i].id
                 && ConfigMatches(ports[i].stored, m.plan, m.plan.ports[i])
                 && AtSource(m.plan, m.plan.ports[i], ports[i].stored)
                 && m.plan.ports[i].sourceRevision == ports[i].stored.revision
                 && m.plan.ports[i].sourceGeneration == ports[i].stored.port.generation
  {
    var m := NewMigration(req, ports).value;
    forall i | 0 <= i < |ports|
      ensures EntryAccepted(m.plan.ports[i]) && ConfigMatches(ports[i].stored, m.plan, m.plan.ports[i])
      ensures AtSource(m.plan, m.plan.ports[i], ports[i].stored)
    {
      assert CanMigrate(req.source, ports[i].stored);
    }
  }

  /** The later port has the configuration, the VM and the NIC of the earlier one; groups in any order. */
  predicate SameConfig(p: Port, q: Port) {
    && p.vmid == q.vmid && p.nic == q.nic && p.name == q.name && p.mac == q.mac && p.networkId == q.networkId
    && p.fixedIPs == q.fixedIPs && multiset(p.groups) == multiset(q.groups) && p.lspName == q.lspName
    && p.adminUp == q.adminUp
  }

  /** The manifest sees every drift of the configuration and nothing else, for a migration and for a relocation. */
  lemma DriftIsSeen(req: MigrationRequest, ports: seq<Listed>, i: nat, v: Versioned, vmid: int,
                    nodes: map<string, NodeRef>, target: NodeRef)
    requires NewMigration(req, ports).Some? && i < |ports| && ports[i].stored.port.vmid == req.vmid == vmid
    ensures var m := NewMigration(req, ports).value;
            ConfigMatches(v, m.plan, m.plan.ports[i]) <==> SameConfig(v.port, ports[i].stored.port)
    ensures Attachable(ports[i].stored, nodes, target) ==>
              var intent := NewHaPort(ports[i].id, ports[i].stored, nodes, target);
              HaChain.ConfigMatches(v, vmid, intent) <==> SameConfig(v.port, ports[i].stored.port)
  {
  }

  /** What the decoders accept, the handlers can work with: distinct ports, each with consecutive revisions and
      generations. */
  lemma AcceptedIsWorkable(m: MigrationPayload, id: string, h: HaPayload)
    ensures MigrationAccepted(m) && m.plan.sourceNodeId != m.plan.targetNodeId ==> PlanOk(m.plan)
    ensures HaAccepted(id, h) ==> forall i, j :: 0 <= i < j < |h.ports| ==> h.ports[i].portId != h.ports[j].portId
  {
    if MigrationAccepted(m) {
      forall i | 0 <= i < |m.plan.ports| ensures EntryOk(m.plan.ports[i]) {
        assert EntryAccepted(m.plan.ports[i]);
      }
    }
  }

  // ---------------------------------------------------------------- what every written value satisfies

  /** Facts about a recovery record that its decoder leaves to its writers. */
  predicate RecoveryBounded(m: MigrationPayload) {
    m.recovery.Some? ==>
      var r := m.recovery.value;
      && |r.history| <= MAX_AUTHORITY_HISTORY && ProofAccepted(m.plan.vmid, r.proof)
      && r.originalPhase != HaRecoveringSource && r.originalPhase != HaRecoveringTarget
      && m.phase == RecoveryPhase(r.direction)
      && forall i :: 0 <= i < |r.history| ==> ProofAccepted(m.plan.vmid, r.history[i])
  }

  /** The next load accepts the operation: its decoder and, for a promoted one, its audit. */
  predicate Loads(id: string, op: Operation, archive: map<string, Operation>) {
    match op.payload
    case Migration(m) => op.action == MIGRATION && MigrationAccepted(m)
    case HaRebind(h) => op.action == HA && HaAccepted(id, h) && AuditHolds(archive, h)
    case _ => false
  }

  predicate Closed(id: string, op: Operation, archive: map<string, Operation>) {
    && Loads(id, op, archive)
    && (op.payload.Migration? ==> RecoveryBounded(op.payload.migration))
    && (op.payload.HaRebind? ==> ProofAccepted(op.payload.ha.vmid, op.payload.ha.proof))
  }

  lemma ClaimKeepsClosed(id: string, op: Operation, archive: map<string, Operation>, edit: Edit, now: int)
    requires Closed(id, op, archive) && op.payload.Migration? && !edit.HaTakeOver? && !edit.HaPromote?
    requires Edited(id, op, archive, edit, now).Some?
    ensures Closed(id, Edited(id, op, archive, edit, now).value, archive)
    ensures var next := Edited(id, op, archive, edit, now).value;
            next.payload.Migration? && HashOf(next.payload.migration) == HashOf(op.payload.migration)
  {
  }

  lemma TakeoverKeepsClosed(id: string, op: Operation, archive: map<string, Operation>, start: HaStart,
                            direction: Direction)
    requires Closed(id, op, archive) && TakenOver(op, start, direction).Some?
    ensures Closed(id, TakenOver(op, start, direction).value, archive)
    ensures var m := TakenOver(op, start, direction).value.payload.migration;
            m.plan == op.payload.migration.plan && m.recovery.Some? && m.recovery.value.hash == Digest(m.plan, None)
  {
    var m := op.payload.migration;
    var r := RecoveryAfter(m, direction, start.proof).value;
    assert forall i :: 0 <= i < |r.history| ==> ProofAccepted(m.plan.vmid, r.history[i]);
  }

  // ---------------------------------------------------------------- promotion

  lemma NewPortAccepted(portId: string, v: Versioned, nodes: map<string, NodeRef>, target: NodeRef)
    requires Attachable(v, nodes, target) && NodesNamed(nodes) && portId != "" && v.port.nic != ""
      && v.port.networkId != ""
    ensures HaPortAccepted(NewHaPort(portId, v, nodes, target))
  {
  }

  lemma PromotedEntryAccepted(plan: MigrationPlan, direction: Direction, i: nat, v: Versioned,
                              nodes: map<string, NodeRef>, target: NodeRef)
    requires PlanAccepted(plan) && i < |plan.ports| && ConfigMatches(v, plan, plan.ports[i])
    requires Attachable(v, nodes, target) && NodesNamed(nodes)
      && PromotedEntry(plan, direction, i, v, nodes, target).Some?
    ensures var p := PromotedEntry(plan, direction, i, v, nodes, target).value;
            HaPortAccepted(p) && p.portId == plan.ports[i].portId
  {
    var intent := plan.ports[i];
    assert EntryAccepted(intent) && ConfigOf(v.port).networkId == intent.config.networkId;
    NewPortAccepted(intent.portId, v, nodes, target);
    if direction == ToSource {
      PreparedPositionAccepted(plan, i);
      FencedPortAccepted(NewHaPort(intent.portId, v, nodes, target), plan, intent, target);
    }
  }

  lemma PreparedPositionAccepted(plan: MigrationPlan, i: nat)
    requires PlanAccepted(plan) && i < |plan.ports|
    ensures PositionAccepted(Takeover.PreparedPosition(plan, plan.ports[i]))
  {
    assert EntryAccepted(plan.ports[i]);
  }

  lemma FencedPortAccepted(found: HaPort, plan: MigrationPlan, intent: MigrationPort, target: NodeRef)
    requires HaPortAccepted(found) && found.predecessors == []
      && PositionAccepted(Takeover.PreparedPosition(plan, intent))
    requires Takeover.PromotedPort(found, plan, intent, target).Some?
    ensures var p := Takeover.PromotedPort(found, plan, intent, target).value;
      HaPortAccepted(p) && p.portId == found.portId
  {
    var prepared := Takeover.PreparedPosition(plan, intent);
    assert [] + [prepared] == [prepared];
    NormalizedSingle(prepared);
  }

  lemma PromotedPortsAccepted(id: string, op: Operation, archive: map<string, Operation>, start: HaStart,
                              historyId: string,
                              ports: map<string, Versioned>, nodes: map<string, NodeRef>)
    requires CanPromote(id, op, archive, start, historyId, ports, nodes)
    ensures var h := PromotedPayload(id, op, archive, start, historyId, ports, nodes);
            && |h.ports| == |op.payload.migration.plan.ports|
            && forall i :: 0 <= i < |h.ports| ==>
                 HaPortAccepted(h.ports[i]) && h.ports[i].portId == op.payload.migration.plan.ports[i].portId
  {
    var plan := op.payload.migration.plan;
    var direction := op.payload.migration.recovery.value.direction;
    forall i | 0 <= i < |plan.ports|
      ensures plan.ports[i].portId in ports && Attachable(ports[plan.ports[i].portId], nodes, start.target)
      ensures PromotedEntry(plan, direction, i, ports[plan.ports[i].portId], nodes, start.target).Some?
      ensures var p := PromotedEntry(plan, direction, i, ports[plan.ports[i].portId], nodes, start.target).value;
              HaPortAccepted(p) && p.portId == plan.ports[i].portId
    {
      PromotedEntryAccepted(plan, direction, i, ports[plan.ports[i].portId], nodes, start.target);
    }
  }

  /** The promoted payload is accepted, and its audit names the archived original. */
  lemma PromotionIsAccepted(id: string, op: Operation, archive: map<string, Operation>, start: HaStart,
                            historyId: string,
                            ports: map<string, Versioned>, nodes: map<string, NodeRef>)
    requires Closed(id, op, archive) && CanPromote(id, op, archive, start, historyId, ports, nodes)
    ensures var h := PromotedPayload(id, op, archive, start, historyId, ports, nodes);
            HaAccepted(id, h) && AuditHolds(archive, h) && ProofAccepted(h.vmid, h.proof)
  {
    var h := PromotedPayload(id, op, archive, start, historyId, ports, nodes);
    var plan := op.payload.migration.plan;
    PromotedPortsAccepted(id, op, archive, start, historyId, ports, nodes);
    var ids := Takeover.PlanIds(plan);
    assert forall i :: 0 <= i < |ids| ==> ids[i] in multiset(ids) && ids[i] == plan.ports[i].portId;
  }

  // ---------------------------------------------------------------- supersession

  lemma SupersedingPortAccepted(previous: HaPayload, earlier: HaPort, found: HaPort, target: NodeRef)
    requires HaPortAccepted(earlier) && HaPortAccepted(found) && PositionAccepted(TargetPosition(previous, earlier))
    requires SupersedingPort(previous, earlier, found, target).Some?
    ensures HaPortAccepted(SupersedingPort(previous, earlier, found, target).value)
  {
    var all := PredecessorsOf(earlier) + [TargetPosition(previous, earlier)] + [PriorPosition(found)];
    var positions := InheritedPositions(previous, earlier, found);
    RepeatsAreRedundant([PriorPosition(earlier)], earlier.predecessors);
    assert forall k :: 0 <= k < |all| ==> PositionAccepted(all[k]) by {
      forall k | 0 <= k < |all| ensures PositionAccepted(all[k]) {
        if k < |PredecessorsOf(earlier)| {
          assert all[k] in PredecessorsOf(earlier);
        }
      }
    }
    forall i | 0 <= i < |positions| ensures PositionAccepted(positions[i]) {
      NormalizedDraws(all, positions[i]);
      var k :| 0 <= k < |all| && SameSite(all[k], positions[i]) && all[k].floor == positions[i].floor;
      assert PositionAccepted(all[k]);
    }
    NormalizedCovers(all, PriorPosition(found));
    var n :| 0 <= n < |positions| && positions[n].generation == found.priorGeneration;
    MaxGenerationBounds(positions, positions[n]);
  }

  lemma SupersessionPortsAccepted(id: string, op: Operation, archive: map<string, Operation>, start: HaStart,
                                  ports: map<string, Versioned>, nodes: map<string, NodeRef>)
    requires CanTakeSlot(id, op, archive, start, ports, nodes)
    ensures var h := SupersessionPayload(op.payload.ha, start, ports, nodes);
            && |h.ports| == |op.payload.ha.ports|
            && forall i :: 0 <= i < |h.ports| ==>
                HaPortAccepted(h.ports[i]) && h.ports[i].portId == op.payload.ha.ports[i].portId
  {
    var previous := op.payload.ha;
    var h := SupersessionPayload(previous, start, ports, nodes);
    forall i | 0 <= i < |h.ports| ensures HaPortAccepted(h.ports[i]) && h.ports[i].portId == previous.ports[i].portId {
      var portId := ManifestIds(previous.ports)[i];
      var v := ports[portId];
      assert HaPortAccepted(previous.ports[i]) && HaChain.ConfigMatches(v, previous.vmid, previous.ports[i]);
      assert ConfigOf(v.port).networkId == previous.ports[i].config.networkId;
      NewPortAccepted(portId, v, nodes, start.target);
      SupersedingPortAccepted(previous, previous.ports[i], NewHaPort(portId, v, nodes, start.target), start.target);
    }
  }

  lemma SupersessionIsAccepted(id: string, op: Operation, archive: map<string, Operation>, start: HaStart,
                               ports: map<string, Versioned>, nodes: map<string, NodeRef>)
    requires Closed(id, op, archive) && CanTakeSlot(id, op, archive, start, ports, nodes)
    ensures var h := SupersessionPayload(op.payload.ha, start, ports, nodes);
            HaAccepted(id, h) && AuditHolds(archive, h) && ProofAccepted(h.vmid, h.proof)
  {
    var previous := op.payload.ha;
    SupersessionPortsAccepted(id, op, archive, start, ports, nodes);
    var h := SupersessionPayload(previous, start, ports, nodes);
    assert forall i :: 0 <= i < |h.history| ==>
        h.history[i] == if i < |previous.history| then previous.history[i] else previous.proof;
    if h.audit.Some? {
      assert AuditShape(id, previous.ports, h.audit.value);
      assert forall i :: 0 <= i < |h.ports| ==> previous.ports[i].portId in h.audit.value.portIds;
    }
  }

  lemma RelocationEditKeepsClosed(id: string, op: Operation, archive: map<string, Operation>, edit: Edit, now: int)
    requires Closed(id, op, archive) && op.payload.HaRebind? && !edit.HaSupersede?
    requires Edited(id, op, archive, edit, now).Some?
    ensures Closed(id, Edited(id, op, archive, edit, now).value, archive)
  {
  }

  /** One edit of an accepted operation writes an accepted operation. */
  lemma EditKeepsClosed(id: string, op: Operation, archive: map<string, Operation>, edit: Edit, now: int)
    requires Closed(id, op, archive) && Edited(id, op, archive, edit, now).Some?
    ensures Closed(id, Edited(id, op, archive, edit, now).value, archive)
  {
    match edit
    case HaTakeOver(start, direction) => TakeoverKeepsClosed(id, op, archive, start, direction);
    case HaPromote(start, historyId, ports, nodes) =>
      PromotionIsAccepted(id, op, archive, start, historyId, ports, nodes);
    case HaSupersede(start, ports, nodes) => SupersessionIsAccepted(id, op, archive, start, ports, nodes);
    case _ =>
      if op.payload.Migration? {
        ClaimKeepsClosed(id, op, archive, edit, now);
      } else {
        RelocationEditKeepsClosed(id, op, archive, edit, now);
      }
  }

  // ---------------------------------------------------------------- runs

  /** Audit rows are never overwritten, so what was accepted stays accepted. */
  lemma ArchiveGrows(id: string, op: Operation, before: map<string, Operation>, after: map<string, Operation>)
    requires Closed(id, op, before) && forall k :: k in before ==> k in after && after[k] == before[k]
    ensures Closed(id, op, after)
  {
  }

  ghost predicate AllClosed(id: string, w: World) {
    Sound(w) && forall i :: 0 <= i < |w.written| ==> Closed(id, w.written[i], w.archive)
  }

  lemma StepKeepsClosed(id: string, w: World, step: Step)
    requires AllClosed(id, w)
    ensures AllClosed(id, Do(id, w, step))
  {
    StepIsOneEdit(id, w, step);
    var w' := Do(id, w, step);
    if w'.written != w.written {
      var edit, now :| Edited(id, w.current.op, w.archive, edit, now) == Some(w'.current.op)
                    && w'.written == w.written + [w'.current.op];
      EditKeepsClosed(id, w.current.op, w.archive, edit, now);
    } else {
      forall i | 0 <= i < |w.written| ensures Closed(id, w.written[i], w'.archive) {
        ArchiveGrows(id, w.written[i], w.archive, w'.archive);
      }
    }
  }

  lemma {:induction false} RunKeepsClosed(id: string, w: World, steps: seq<Step>)
    requires AllClosed(id, w)
    ensures AllClosed(id, Run(id, w, steps))
    decreases |steps|
  {
    if steps != [] {
      StepKeepsClosed(id, w, steps[0]);
      RunKeepsClosed(id, Do(id, w, steps[0]), steps[1..]);
    }
  }

  /** Main result: every value an operation ever has, from the begin of its migration through claims,
      HA claims, promotion and any number of supersessions, is accepted by its own decoder and audit,
      and no authority history exceeds 32 proofs. */
  lemma EveryPayloadLoads(id: string, op: Operation, revision: int, req: MigrationRequest, ports: seq<Listed>,
                          steps: seq<Step>, i: nat)
    requires RequestOk(req) && ListingOk(req.vmid, ports) && NewMigration(req, ports).Some?
    requires op.action == MIGRATION && op.payload == Migration(NewMigration(req, ports).value)
    requires i < |Run(id, Begin(op, revision), steps).written|
    ensures var w := Run(id, Begin(op, revision), steps);
            && Loads(id, w.written[i], w.archive)
            && (w.written[i].payload.HaRebind? ==> |w.written[i].payload.ha.history| <= MAX_AUTHORITY_HISTORY)
            && (w.written[i].payload.Migration? && w.written[i].payload.migration.recovery.Some? ==>
                  |w.written[i].payload.migration.recovery.value.history| <= MAX_AUTHORITY_HISTORY)
  {
    BeginIsAccepted(req, ports);
    RunKeepsClosed(id, Begin(op, revision), steps);
    assert Closed(id, Run(id, Begin(op, revision), steps).written[i], Run(id, Begin(op, revision), steps).archive);
  }

  /** The same for an operation that begins as a relocation. */
  lemma EveryRelocationLoads(id: string, op: Operation, revision: int, start: HaStart, ports: seq<Listed>,
                             found: map<string, Versioned>,
                             nodes: map<string, NodeRef>, steps: seq<Step>, i: nat)
    requires Authorized(start) && ListingOk(start.vmid, ports) && NodesNamed(nodes)
    requires forall k :: 0 <= k < |ports| ==> ports[k].id in found && found[ports[k].id] == ports[k].stored
    requires AllAttachable(IdsOf(ports), found, nodes, start.target)
    requires op.action == HA
      && op.payload == HaRebind(HaPayloadOf(start, [], NewHaPorts(IdsOf(ports), found, nodes, start.target), None))
    requires i < |Run(id, Begin(op, revision), steps).written|
    ensures var w := Run(id, Begin(op, revision), steps);
            && w.written[i].payload.HaRebind? && Loads(id, w.written[i], w.archive)
            && |w.written[i].payload.ha.history| <= MAX_AUTHORITY_HISTORY
  {
    var h := op.payload.ha;
    forall k | 0 <= k < |h.ports| ensures HaPortAccepted(h.ports[k]) && h.ports[k].portId == ports[k].id {
      assert IdsOf(ports)[k] == ports[k].id && found[ports[k].id] == ports[k].stored;
      NewPortAccepted(ports[k].id, ports[k].stored, nodes, start.target);
    }
    assert Closed(id, op, map[]);
    RunKeepsClosed(id, Begin(op, revision), steps);
    HistoryIsMigrationThenHa(id, Begin(op, revision), steps);
    RunStartsAt(id, Begin(op, revision), steps);
    assert Closed(id, Run(id, Begin(op, revision), steps).written[i], Run(id, Begin(op, revision), steps).archive);
  }

  function IdsOf(ports: seq<Listed>): seq<string> {
    seq(|ports|, i requires 0 <= i < |ports| => ports[i].id)
  }

  /** The history only grows. */
  lemma {:induction false} RunStartsAt(id: string, w: World, steps: seq<Step>)
    ensures w.written <= Run(id, w, steps).written
    decreases |steps|
  {
    if steps != [] {
      RunStartsAt(id, Do(id, w, steps[0]), steps[1..]);
    }
  }

  // ---------------------------------------------------------------- the phase-erased hash

  /** The migration keeps the plan it began with; without a recovery its hash is the one it began with,
      and a recovery record carries exactly that hash. */
  predicate KeepsHash(plan: MigrationPlan, op: Operation) {
    op.payload.Migration? ==>
      && op.payload.migration.plan == plan
      && (op.payload.migration.recovery.None? ==> HashOf(op.payload.migration) == Digest(plan, None))
      && (op.payload.migration.recovery.Some? ==> op.payload.migration.recovery.value.hash == Digest(plan, None))
  }

  lemma EditKeepsHash(plan: MigrationPlan, id: string, op: Operation, archive: map<string, Operation>, edit: Edit,
                      now: int)
    requires Closed(id, op, archive) && KeepsHash(plan, op) && Edited(id, op, archive, edit, now).Some?
    ensures KeepsHash(plan, Edited(id, op, archive, edit, now).value)
  {
    if op.payload.Migration? {
      match edit
      case HaTakeOver(start, direction) => TakeoverKeepsClosed(id, op, archive, start, direction);
      case HaPromote(_, _, _, _) =>
      case _ => ClaimKeepsClosed(id, op, archive, edit, now);
    } else {
      HaEditKeepsSide(id, op, archive, edit, now);
    }
  }

  lemma {:induction false} HashNeverChanges(plan: MigrationPlan, id: string, w: World, steps: seq<Step>)
    requires AllClosed(id, w) && forall i :: 0 <= i < |w.written| ==> KeepsHash(plan, w.written[i])
    ensures forall i :: 0 <= i < |Run(id, w, steps).written| ==> KeepsHash(plan, Run(id, w, steps).written[i])
    decreases |steps|
  {
    if steps != [] {
      StepIsOneEdit(id, w, steps[0]);
      StepKeepsClosed(id, w, steps[0]);
      var w' := Do(id, w, steps[0]);
      if w'.written != w.written {
        var edit, now :| Edited(id, w.current.op, w.archive, edit, now) == Some(w'.current.op)
                      && w'.written == w.written + [w'.current.op];
        EditKeepsHash(plan, id, w.current.op, w.archive, edit, now);
      }
      HashNeverChanges(plan, id, w', steps[1..]);
    }
  }
}
