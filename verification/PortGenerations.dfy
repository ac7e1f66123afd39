/** All the writers of a port at once.

    Every handler loads a port, computes the port it wants, and writes it by compare-and-swap some
    time later.  A rebind acts for a relocation payload that some manager has issued: at the begin of
    a relocation, at the promotion of a migration, by superseding an issued payload or by re-claiming
    one.  `landed` is the history of the writes that took effect. */
module PortGenerations {
  import opened Ports
  import opened Payloads
  import opened Migration
  import opened HaRebind
  import Model
  import HaChain
  import SourcePorts
  import MigrationPorts
  import PortLifecycle
  import Takeover

  datatype Write =
    | Attach(req: PortLifecycle.AttachRequest)
    | Detach(expected: int, generation: int)
    | Report(reported: int, bound: bool)
    | PrepareMigration(plan: MigrationPlan, intent: MigrationPort)
    | ReturnMigration(plan: MigrationPlan, intent: MigrationPort)
    | FinishMigration(plan: MigrationPlan, intent: MigrationPort)
    | RebindHa(payload: HaPayload, port: HaPort)
    | DetachSource(vmid: int, manifest: SourcePort)
    | RestoreSource(vmid: int, manifest: SourcePort)

  function AsRow(v: Versioned): Model.Row {
    Model.Row(Model.Meta(v.revision, 0, Model.Pending, "", 0, 0), Model.PortBody(v.port))
  }

  /** The port the handler writes, if it accepts the port it loaded. */
  function Desired(w: Write, v: Versioned): Option<Port> {
    match w
    case Attach(req) =>
      if PortLifecycle.AttachFresh(req, v) then Some(PortLifecycle.AttachDesired(req, v.port)) else None
    case Detach(expected, generation) =>
      if PortLifecycle.DetachFresh(expected, generation, v) then Some(PortLifecycle.DetachDesired(v.port)) else None
    case Report(generation, bound) => PortLifecycle.ReportDesired(generation, bound, v.port)
    case PrepareMigration(plan, intent) =>
      if EntryOk(intent) && ConfigMatches(v, plan, intent) && AtSource(plan, intent, v)
      then Some(PrepareMove(plan, intent, v.port)) else None
    case ReturnMigration(plan, intent) =>
      if ConfigMatches(v, plan, intent) && AtPrepared(plan, intent, v) then Some(ReturnMove(plan, v.port)) else None
    case FinishMigration(plan, intent) =>
      if ConfigMatches(v, plan, intent) && AtPrepared(plan, intent, v) then Some(FinishMove(plan, v.port)) else None
    case RebindHa(payload, port) =>
      if HaChain.MustMove(payload, port, v) then Some(HaChain.RebindWrite(payload, port, v).desired) else None
    case DetachSource(vmid, e) =>
      if SourcePorts.Attached(AsRow(v), vmid, e, false) then Some(SourcePorts.DetachedPort(e, v.port)) else None
    case RestoreSource(vmid, e) =>
      if SourcePorts.Detached(AsRow(v), e) then Some(SourcePorts.RestoredPort(e, vmid, v.port)) else None
  }

  /** The machine has every write of the handlers: what attach, detach and report leave... */
  lemma PortActionsAreWrites(req: PortLifecycle.AttachRequest, expected: int, generation: int, bound: bool,
                             v: Versioned,
                             after: Versioned)
    ensures PortLifecycle.AttachLanded(req, v, after) ==> Desired(Attach(req), v) == Some(after.port)
    ensures PortLifecycle.DetachLanded(expected, generation, v, after) ==>
              Desired(Detach(expected, generation), v) == Some(after.port)
    ensures PortLifecycle.ReportLanded(generation, bound, v, after) ==>
              Desired(Report(generation, bound), v) == Some(after.port)
  {
  }

  /** ...what the handlers of a migration and of a relocation write... */
  lemma LifecycleMovesAreWrites(plan: MigrationPlan, intent: MigrationPort, payload: HaPayload, port: HaPort,
                                v: Versioned)
    ensures (&& EntryOk(intent) && ConfigMatches(v, plan, intent)
             && MigrationPorts.Ready(plan, MigrationPorts.Prepare, intent, v)) ==>
              Desired(PrepareMigration(plan, intent), v) ==
              Some(MigrationPorts.Desired(plan, MigrationPorts.Prepare, intent, v.port))
    ensures ConfigMatches(v, plan, intent) && MigrationPorts.Ready(plan, MigrationPorts.Compensate, intent, v) ==>
              Desired(ReturnMigration(plan, intent), v) ==
              Some(MigrationPorts.Desired(plan, MigrationPorts.Compensate, intent, v.port))
    ensures ConfigMatches(v, plan, intent) && MigrationPorts.Ready(plan, MigrationPorts.Abort, intent, v) ==>
              Desired(ReturnMigration(plan, intent), v) ==
              Some(MigrationPorts.Desired(plan, MigrationPorts.Abort, intent, v.port))
    ensures ConfigMatches(v, plan, intent) && MigrationPorts.Ready(plan, MigrationPorts.Finalize, intent, v) ==>
              Desired(FinishMigration(plan, intent), v) ==
              Some(MigrationPorts.Desired(plan, MigrationPorts.Finalize, intent, v.port))
    ensures HaChain.Resumable(payload, port, v) && !AtTarget(payload, port, v) ==>
              Desired(RebindHa(payload, port), v) ==
              Some(v.port.(nodeId := payload.targetNodeId, chassis := [payload.target], status := Binding,
                           generation := port.targetGeneration))
  {
  }

  /** ...and what template and destroy do to a port that their manifest describes. */
  lemma SourceMovesAreWrites(vmid: int, e: SourcePort, row: Model.Row)
    requires row.body.PortBody?
    ensures SourcePorts.Attached(row, vmid, e, false) ==>
              Desired(DetachSource(vmid, e), Versioned(row.meta.revision, row.body.port)) ==
              Some(SourcePorts.DetachedPort(e, row.body.port))
    ensures SourcePorts.Detached(row, e) ==>
              Desired(RestoreSource(vmid, e), Versioned(row.meta.revision, row.body.port)) ==
              Some(SourcePorts.RestoredPort(e, vmid, row.body.port))
  {
  }

  // ---------------------------------------------------------------- issuing payloads

  datatype Issue =
    | Begin(start: HaStart, ids: seq<string>, ports: map<string, Versioned>, nodes: map<string, NodeRef>,
            history: seq<HaProof>, audit: Option<HaAudit>)      // also a target-directed promotion
    | Promote(plan: MigrationPlan, state: Takeover.State, listing: map<string, Versioned>, start: HaStart,
              nodes: map<string, NodeRef>, history: seq<HaProof>, audit: Option<HaAudit>)
    | Supersede(previous: HaPayload, start: HaStart, ports: map<string, Versioned>, nodes: map<string, NodeRef>)
    | Reclaim(previous: HaPayload, proof: HaProof)

  /** Node rows are found by their own ID, and the target is one of them. */
  predicate NodesOk(nodes: map<string, NodeRef>, target: NodeRef) {
    HaChain.NodesAgree(nodes, target) && forall id :: id in nodes ==> nodes[id].id == id
  }

  /** The payload a manager writes, if it gets that far; any listing of the ports will do. */
  ghost function Issued(issued: set<HaPayload>, issue: Issue): Option<HaPayload> {
    match issue
    case Begin(start, ids, ports, nodes, history, audit) =>
      if AllAttachable(ids, ports, nodes, start.target) && NodesOk(nodes, start.target)
      then Some(HaPayloadOf(start, history, NewHaPorts(ids, ports, nodes, start.target), audit)) else None
    case Promote(plan, s, listing, start, nodes, history, audit) =>
      if PlanOk(plan) && Takeover.CanPromote(plan, s, listing, start, nodes) && NodesOk(nodes, start.target)
      then Some(Takeover.PromotedPayload(plan, s, listing, start, nodes, history, audit)) else None
    case Supersede(previous, start, ports, nodes) =>
      if previous in issued && CanSupersede(previous, start, ports, nodes)
      then Some(SupersessionPayload(previous, start, ports, nodes)) else None
    case Reclaim(previous, proof) =>
      if previous in issued then Some(previous.(proof := proof, phase := Rebinding)) else None
  }

  ghost predicate PayloadFenced(payload: HaPayload) {
    forall i :: 0 <= i < |payload.ports| ==> Fenced(payload, payload.ports[i])
  }

  lemma BeginIsFenced(issue: Issue)
    requires issue.Begin? && Issued({}, issue).Some?
    ensures PayloadFenced(Issued({}, issue).value)
  {
    var payload := Issued({}, issue).value;
    forall i | 0 <= i < |payload.ports| ensures Fenced(payload, payload.ports[i]) {
      NewPortIsFenced(payload, issue.ids[i], issue.ports[issue.ids[i]], issue.nodes, issue.start.target);
    }
  }

  lemma PromotionIsFenced(issue: Issue)
    requires issue.Promote? && Issued({}, issue).Some?
    ensures PayloadFenced(Issued({}, issue).value)
  {
    var payload := Issued({}, issue).value;
    forall i | 0 <= i < |payload.ports| ensures Fenced(payload, payload.ports[i]) {
      var intent := issue.plan.ports[i];
      assert Takeover.PlanIds(issue.plan)[i] == intent.portId && EntryOk(intent);
      Takeover.PromotedPortIsFenced(issue.plan, intent, issue.listing[intent.portId], issue.nodes, issue.start.target,
                                    payload);
    }
  }

  lemma SupersessionIsFenced(previous: HaPayload, start: HaStart, ports: map<string, Versioned>,
                             nodes: map<string, NodeRef>)
    requires CanSupersede(previous, start, ports, nodes)
    ensures PayloadFenced(SupersessionPayload(previous, start, ports, nodes))
  {
    var payload := SupersessionPayload(previous, start, ports, nodes);
    forall i | 0 <= i < |payload.ports| ensures Fenced(payload, payload.ports[i]) {
      var id := ManifestIds(previous.ports)[i];
      SupersedingPortIsFenced(previous, previous.ports[i], NewHaPort(id, ports[id], nodes, start.target), start,
                              payload);
    }
  }

  /** Whatever managers issue is fenced: the code never compares generations when it rebinds, because every
      builder already has. */
  lemma IssuedIsFenced(issued: set<HaPayload>, issue: Issue)
    requires (forall p :: p in issued ==> PayloadFenced(p)) && Issued(issued, issue).Some?
    ensures PayloadFenced(Issued(issued, issue).value)
  {
    match issue
    case Begin(_, _, _, _, _, _) => BeginIsFenced(issue);
    case Promote(_, _, _, _, _, _, _) => PromotionIsFenced(issue);
    case Supersede(previous, start, ports, nodes) => SupersessionIsFenced(previous, start, ports, nodes);
    case Reclaim(previous, _) =>
      var next := Issued(issued, issue).value;
      forall i | 0 <= i < |next.ports| ensures Fenced(next, next.ports[i]) {
        assert Fenced(previous, previous.ports[i]);
      }
  }

  // ---------------------------------------------------------------- interleavings

  datatype Armed = Armed(id: string, write: Write, seen: Versioned)

  /** A write that took effect, with the stored port right before and right after it. */
  datatype Landing = Landing(id: string, write: Write, before: Versioned, after: Versioned)

  datatype World = World(
    ports: map<string, Versioned>,
    issued: set<HaPayload>,
    armed: set<Armed>,
    landed: seq<Landing>)

  datatype Step = Load(id: string, write: Write) | Fire(armed: Armed) | Publish(issue: Issue)

  /** A rebind works on an entry of an issued payload. */
  predicate MayRun(issued: set<HaPayload>, write: Write) {
    write.RebindHa? ==> write.payload in issued && write.port in write.payload.ports
  }

  ghost function Do(w: World, step: Step): World {
    match step
    case Load(id, write) =>
      if id in w.ports && MayRun(w.issued, write) && Desired(write, w.ports[id]).Some?
      then w.(armed := w.armed + {Armed(id, write, w.ports[id])}) else w
    case Fire(a) =>
      if a in w.armed && a.id in w.ports && w.ports[a.id].revision == a.seen.revision
        && Desired(a.write, a.seen).Some? then
        var after := Versioned(a.seen.revision + 1, Desired(a.write, a.seen).value);
        w.(ports := w.ports[a.id := after], landed := w.landed + [Landing(a.id, a.write, w.ports[a.id], after)])
      else w
    case Publish(issue) =>
      if Issued(w.issued, issue).Some? then w.(issued := w.issued + {Issued(w.issued, issue).value}) else w
  }

  ghost function Run(w: World, steps: seq<Step>): World
    decreases |steps|
  {
    if steps == [] then w else Run(Do(w, steps[0]), steps[1..])
  }

  predicate Remembers(ports: map<string, Versioned>, a: Armed) {
    && a.id in ports && a.seen.revision <= ports[a.id].revision
    && (a.seen.revision == ports[a.id].revision ==> a.seen == ports[a.id])
  }

  /** A landed write is what its handler wants of the port that was stored then, one revision later, and still
      in the port's past. */
  ghost predicate Genuine(w: World, l: Landing) {
    && MayRun(w.issued, l.write)
    && Desired(l.write, l.before) == Some(l.after.port) && l.after.revision == l.before.revision + 1
    && l.id in w.ports && l.after.revision <= w.ports[l.id].revision
  }

  ghost predicate Inv(w: World) {
    && (forall p :: p in w.issued ==> PayloadFenced(p))
    && (forall a :: a in w.armed ==> Remembers(w.ports, a) && MayRun(w.issued, a.write))
    && (forall i :: 0 <= i < |w.landed| ==> Genuine(w, w.landed[i]))
    && forall i, j :: 0 <= i < j < |w.landed| && w.landed[i].id == w.landed[j].id ==>
         w.landed[i].after.revision <= w.landed[j].before.revision
  }

  lemma FireKeepsInv(w: World, a: Armed)
    requires Inv(w) && Do(w, Fire(a)) != w
    ensures Inv(Do(w, Fire(a)))
  {
    var w' := Do(w, Fire(a));
    assert Remembers(w.ports, a);
    forall i | 0 <= i < |w'.landed| ensures Genuine(w', w'.landed[i]) {
      if i < |w.landed| {
        assert Genuine(w, w.landed[i]);
      }
    }
    forall i | 0 <= i < |w.landed| && w.landed[i].id == a.id ensures w.landed[i].after.revision <= a.seen.revision {
      assert Genuine(w, w.landed[i]);
    }
    forall b | b in w'.armed ensures Remembers(w'.ports, b) {
      assert Remembers(w.ports, b);
    }
  }

  lemma IssueKeepsInv(w: World, issue: Issue)
    requires Inv(w) && Issued(w.issued, issue).Some?
    ensures Inv(Do(w, Publish(issue)))
  {
    IssuedIsFenced(w.issued, issue);
    var w' := Do(w, Publish(issue));
    forall i | 0 <= i < |w'.landed| ensures Genuine(w', w'.landed[i]) {
      assert Genuine(w, w.landed[i]);
    }
  }

  lemma StepKeepsInv(w: World, step: Step)
    requires Inv(w)
    ensures Inv(Do(w, step))
  {
    match step
    case Load(_, _) =>
      var w' := Do(w, step);
      forall i | 0 <= i < |w'.landed| ensures Genuine(w', w'.landed[i]) {
        assert Genuine(w, w.landed[i]);
      }
    case Fire(a) =>
      if Do(w, step) != w {
        FireKeepsInv(w, a);
      }
    case Publish(issue) =>
      if Issued(w.issued, issue).Some? {
        IssueKeepsInv(w, issue);
      }
  }

  lemma {:induction false} RunKeepsInv(w: World, steps: seq<Step>)
    requires Inv(w)
    ensures Inv(Run(w, steps))
    decreases |steps|
  {
    if steps != [] {
      StepKeepsInv(w, steps[0]);
      RunKeepsInv(Do(w, steps[0]), steps[1..]);
    }
  }

  /** Ports as they are, before any payload was issued and any handler started. */
  function Quiet(ports: map<string, Versioned>): World {
    World(ports, {}, {}, [])
  }

  // ---------------------------------------------------------------- main results

  /** No write lowers the generation. */
  lemma WriteKeepsGeneration(issued: set<HaPayload>, w: Write, v: Versioned)
    requires (forall p :: p in issued ==> PayloadFenced(p)) && MayRun(issued, w) && Desired(w, v).Some?
    ensures v.port.generation <= Desired(w, v).value.generation
  {
    if w.RebindHa? {
      var i :| 0 <= i < |w.payload.ports| && w.payload.ports[i] == w.port;
      assert Fenced(w.payload, w.payload.ports[i]);
      var n :| 0 <= n < |PredecessorsOf(w.port)| && MatchesPosition(v, PredecessorsOf(w.port)[n]);
      assert PredecessorsOf(w.port)[n] in PredecessorsOf(w.port);
    }
  }

  lemma StepNeverLowersGeneration(w: World, step: Step, id: string)
    requires Inv(w) && id in w.ports
    ensures id in Do(w, step).ports && w.ports[id].port.generation <= Do(w, step).ports[id].port.generation
  {
    if step.Fire? && Do(w, step) != w {
      assert Remembers(w.ports, step.armed);
      WriteKeepsGeneration(w.issued, step.armed.write, step.armed.seen);
    }
  }

  lemma {:induction false} GenerationRises(w: World, steps: seq<Step>, id: string)
    requires Inv(w) && id in w.ports
    ensures id in Run(w, steps).ports && w.ports[id].port.generation <= Run(w, steps).ports[id].port.generation
    decreases |steps|
  {
    if steps != [] {
      StepKeepsInv(w, steps[0]);
      StepNeverLowersGeneration(w, steps[0], id);
      GenerationRises(Do(w, steps[0]), steps[1..], id);
    }
  }

  lemma {:induction false} RunAppends(w: World, steps: seq<Step>, more: seq<Step>)
    ensures Run(w, steps + more) == Run(Run(w, steps), more)
    decreases |steps|
  {
    if steps == [] {
      assert steps + more == more;
    } else {
      assert (steps + more)[1..] == steps[1..] + more;
      RunAppends(Do(w, steps[0]), steps[1..], more);
    }
  }

  /** Main result: over any interleaving of attach, detach, report, migration, HA rebind, supersession,
      template and destroy writes, however stale, a port's generation never decreases: not from the start, and
      not from any moment of the run to any later one. */
  lemma GenerationNeverFalls(ports: map<string, Versioned>, steps: seq<Step>, more: seq<Step>, id: string)
    requires id in ports
    ensures id in Run(Quiet(ports), steps).ports && id in Run(Quiet(ports), steps + more).ports
    ensures Run(Quiet(ports), steps).ports[id].port.generation
         <= Run(Quiet(ports), steps + more).ports[id].port.generation
  {
    RunKeepsInv(Quiet(ports), steps);
    GenerationRises(Quiet(ports), steps, id);
    RunAppends(Quiet(ports), steps, more);
    GenerationRises(Run(Quiet(ports), steps), more, id);
  }

  /** Main result on attach: over any interleaving one request lands at most once, and when it lands it
      raises the generation of the stored port by exactly one, from the one it named. */
  lemma AttachLandsOnce(ports: map<string, Versioned>, steps: seq<Step>, i: nat, j: nat)
    requires i < |Run(Quiet(ports), steps).landed| && j < |Run(Quiet(ports), steps).landed|
    requires Run(Quiet(ports), steps).landed[i].write.Attach?
    ensures var l := Run(Quiet(ports), steps).landed;
            && l[i].before.port.generation == l[i].write.req.generation
            && l[i].after.port.generation == l[i].before.port.generation + 1
            && (l[i].id == l[j].id && l[i].write == l[j].write ==> i == j)
  {
    RunKeepsInv(Quiet(ports), steps);
    var w := Run(Quiet(ports), steps);
    assert Genuine(w, w.landed[i]) && Genuine(w, w.landed[j]);
  }

  /** Main result on reports: one that took effect found the very generation it names in the store, so
      reports of an older generation never change the port; and it kept the generation. */
  lemma StaleReportsAreVoid(ports: map<string, Versioned>, steps: seq<Step>, i: nat)
    requires i < |Run(Quiet(ports), steps).landed| && Run(Quiet(ports), steps).landed[i].write.Report?
    ensures var l := Run(Quiet(ports), steps).landed[i];
            l.before.port.generation == l.write.reported && l.after.port.generation == l.write.reported
  {
    RunKeepsInv(Quiet(ports), steps);
    assert Genuine(Run(Quiet(ports), steps), Run(Quiet(ports), steps).landed[i]);
  }

  /** Main result on HA: a rebind that took effect from another node, for whatever chain of begun, promoted,
      superseding and re-claimed payloads, raised the generation above every recorded predecessor. */
  lemma LandedRebindIsFenced(ports: map<string, Versioned>, steps: seq<Step>, i: nat, p: Position)
    requires i < |Run(Quiet(ports), steps).landed| && Run(Quiet(ports), steps).landed[i].write.RebindHa?
    requires p in PredecessorsOf(Run(Quiet(ports), steps).landed[i].write.port)
    requires var l := Run(Quiet(ports), steps).landed[i];
             !(l.before.port.nodeId == l.write.payload.targetNodeId
               && l.before.port.chassis == [l.write.payload.target])
    ensures var l := Run(Quiet(ports), steps).landed[i];
            p.generation < l.after.port.generation && l.before.port.generation < l.after.port.generation
  {
    RunKeepsInv(Quiet(ports), steps);
    var w := Run(Quiet(ports), steps);
    var l := w.landed[i];
    assert Genuine(w, l) && PayloadFenced(l.write.payload);
    var n :| 0 <= n < |l.write.payload.ports| && l.write.payload.ports[n] == l.write.port;
    assert Fenced(l.write.payload, l.write.payload.ports[n]);
    HaChain.RebindRaisesGeneration(l.write.payload, l.write.port, l.before, p);
  }
}
