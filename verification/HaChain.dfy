/** Every interleaving of HA workers, superseding assignments, stale workers of earlier
    assignments and agent reports.

    A worker reads the ports, checks that its payload is still the durable one before each
    port, and then writes the port by compare-and-swap on the revision it read.  Between check
    and write anything may happen, so a checked write stays armed for ever: a crash is a write
    that is never fired, a stale worker is one that is fired late. */
module HaChain {
  import opened Ports
  import opened Payloads
  import opened HaRebind

  datatype Armed = Armed(portId: string, expected: int, cached: Port, desired: Port)
  datatype Reader = Reader(payload: HaPayload, snapshot: map<string, Versioned>)

  datatype World = World(
    current: HaPayload,                // the durable payload of the running operation
    known: set<HaPayload>,             // every payload that ever was the durable one
    ports: map<string, Versioned>,
    readers: set<Reader>,              // workers that have listed the ports
    armed: set<Armed>)                 // writes past their ownership check

  datatype Step =
    | Read(payload: HaPayload)
    | Arm(reader: Reader, index: nat)
    | Fire(write: Armed)
    | Report(portId: string)
    | Supersede(reader: Reader, start: HaStart, nodes: map<string, NodeRef>)
    | Reclaim(proof: HaProof)

  predicate ConfigMatches(v: Versioned, vmid: int, intent: HaPort) {
    v.port.vmid == vmid && v.port.nic == intent.nic && ConfigOf(v.port) == intent.config
  }

  /** applyHAPorts goes on to write this port. */
  predicate MustMove(payload: HaPayload, intent: HaPort, v: Versioned) {
    ConfigMatches(v, payload.vmid, intent) && !AtTarget(payload, intent, v) && AtPredecessor(intent, v)
  }

  function RebindWrite(payload: HaPayload, intent: HaPort, v: Versioned): Armed {
    Armed(intent.portId, v.revision, v.port,
          Moved(v.port, payload.targetNodeId, [payload.target], intent.targetGeneration))
  }

  /** A compare-and-swap lands only on the revision it was read at. */
  predicate Lands(ports: map<string, Versioned>, w: Armed) {
    w.portId in ports && ports[w.portId].revision == w.expected
  }

  function Landed(ports: map<string, Versioned>, w: Armed): map<string, Versioned> {
    ports[w.portId := Versioned(w.expected + 1, w.desired)]
  }

  /** loadHAOperationPortStates accepts the snapshot. */
  predicate SnapshotInPlace(payload: HaPayload, snapshot: map<string, Versioned>) {
    forall i :: 0 <= i < |payload.ports| ==>
      && payload.ports[i].portId in snapshot
      && ConfigMatches(snapshot[payload.ports[i].portId], payload.vmid, payload.ports[i])
      && Recorded(payload, payload.ports[i], snapshot[payload.ports[i].portId])
  }

  /** One step; a step whose guard fails changes nothing. */
  function Do(w: World, step: Step): World {
    match step
    case Read(payload) =>
      if payload in w.known then w.(readers := w.readers + {Reader(payload, w.ports)}) else w
    case Arm(reader, i) =>
      if reader in w.readers && reader.payload == w.current && i < |w.current.ports|
         && w.current.ports[i].portId in reader.snapshot
         && MustMove(w.current, w.current.ports[i], reader.snapshot[w.current.ports[i].portId])
      then w.(armed := w.armed + {RebindWrite(w.current, w.current.ports[i],
                                              reader.snapshot[w.current.ports[i].portId])})
      else w
    case Fire(write) =>
      if write in w.armed && Lands(w.ports, write) then w.(ports := Landed(w.ports, write)) else w
    case Report(id) =>
      if id in w.ports && w.ports[id].port.status == Binding
      then w.(ports := w.ports[id := Versioned(w.ports[id].revision + 1, Reported(w.ports[id].port))])
      else w
    case Supersede(reader, start, nodes) =>
      if reader in w.readers && reader.payload == w.current && start.vmid == w.current.vmid
         && SnapshotInPlace(w.current, reader.snapshot) && CanSupersede(w.current, start, reader.snapshot, nodes)
      then var next := SupersessionPayload(w.current, start, reader.snapshot, nodes);
           w.(current := next, known := w.known + {next})
      else w
    case Reclaim(proof) =>
      var next := w.current.(proof := proof);
      w.(current := next, known := w.known + {next})
  }

  function Run(w: World, steps: seq<Step>): World
    decreases |steps|
  {
    if steps == [] then w else Run(Do(w, steps[0]), steps[1..])
  }

  /** A worker leaves a port alone that it listed at the target. */
  lemma SettledPortIsLeftAlone(w: World, reader: Reader, i: nat)
    requires i < |w.current.ports| && w.current.ports[i].portId in reader.snapshot
    requires AtTarget(w.current, w.current.ports[i], reader.snapshot[w.current.ports[i].portId])
    ensures Do(w, Arm(reader, i)) == w
  {
  }

  // ---------------------------------------------------------------- the invariant

  /** The manifest and the ports agree on revisions, and the fence is above the record. */
  ghost predicate Grounded(payload: HaPayload, ports: map<string, Versioned>) {
    && (forall i, j :: 0 <= i < j < |payload.ports| ==> payload.ports[i].portId != payload.ports[j].portId)
    && forall i :: 0 <= i < |payload.ports| ==> GroundedPort(payload, payload.ports[i], ports)
  }

  ghost predicate GroundedPort(payload: HaPayload, intent: HaPort, ports: map<string, Versioned>) {
    && intent.portId in ports
    && intent.priorRevision <= ports[intent.portId].revision
    && intent.targetRevision <= intent.priorRevision + 1
    && Fenced(payload, intent)
  }

  /** What a reader or a writer remembers of a port is its past or its present. */
  predicate Remembers(ports: map<string, Versioned>, portId: string, revision: int, port: Port) {
    && portId in ports
    && revision <= ports[portId].revision
    && (revision == ports[portId].revision ==> port == ports[portId].port)
  }

  /** Wherever the write would put the port, the payload has that position on record. */
  ghost predicate Expected(payload: HaPayload, w: Armed) {
    forall i :: 0 <= i < |payload.ports| && payload.ports[i].portId == w.portId ==>
      Recorded(payload, payload.ports[i], Versioned(w.expected + 1, w.desired))
  }

  /** The write keeps the port's configuration and does not lower its generation. */
  predicate Faithful(w: Armed) {
    && ConfigOf(w.desired) == ConfigOf(w.cached) && w.desired.vmid == w.cached.vmid && w.desired.nic == w.cached.nic
    && w.cached.generation <= w.desired.generation
  }

  ghost predicate InPlace(payload: HaPayload, ports: map<string, Versioned>) {
    forall i :: 0 <= i < |payload.ports| ==>
      payload.ports[i].portId in ports && Recorded(payload, payload.ports[i], ports[payload.ports[i].portId])
  }

  ghost predicate ReaderOk(w: World, r: Reader) {
    && r.payload in w.known && Grounded(r.payload, r.snapshot)
    && forall id :: id in r.snapshot ==> Remembers(w.ports, id, r.snapshot[id].revision, r.snapshot[id].port)
  }

  ghost predicate ArmedOk(w: World, a: Armed) {
    && Remembers(w.ports, a.portId, a.expected, a.cached)
    && Faithful(a)
    && (Expected(w.current, a) || a.expected < w.ports[a.portId].revision)
  }

  ghost predicate Inv(w: World) {
    && w.current in w.known
    && (forall p :: p in w.known ==> Grounded(p, w.ports))
    && (forall r :: r in w.readers ==> ReaderOk(w, r))
    && (forall a :: a in w.armed ==> ArmedOk(w, a))
    && InPlace(w.current, w.ports)
  }

  // ---------------------------------------------------------------- steps that change ports

  /** Port `id` got a new revision and kept its configuration; nothing else changed. */
  predicate Advanced(before: map<string, Versioned>, after: map<string, Versioned>, id: string) {
    id in before && id in after && after == before[id := after[id]] && after[id].revision == before[id].revision + 1
  }

  lemma AdvanceKeepsGround(payload: HaPayload, before: map<string, Versioned>, after: map<string, Versioned>,
                           id: string)
    requires Grounded(payload, before) && Advanced(before, after, id)
    ensures Grounded(payload, after)
  {
    forall i | 0 <= i < |payload.ports| ensures GroundedPort(payload, payload.ports[i], after) {
      assert GroundedPort(payload, payload.ports[i], before);
    }
  }

  lemma AdvanceKeepsInv(w: World, after: map<string, Versioned>, id: string)
    requires Inv(w) && Advanced(w.ports, after, id)
    requires forall i :: 0 <= i < |w.current.ports| && w.current.ports[i].portId == id ==>
               Recorded(w.current, w.current.ports[i], after[id])
    ensures Inv(w.(ports := after))
  {
    var w' := w.(ports := after);
    forall p | p in w'.known ensures Grounded(p, after) {
      AdvanceKeepsGround(p, w.ports, after, id);
    }
    forall r | r in w'.readers ensures ReaderOk(w', r) {
      assert ReaderOk(w, r);
    }
    forall a | a in w'.armed ensures ArmedOk(w', a) {
      assert ArmedOk(w, a);
    }
  }

  /** A fired write puts the port where the durable payload expects it. */
  lemma FireKeepsInv(w: World, a: Armed)
    requires Inv(w) && a in w.armed && Lands(w.ports, a)
    ensures Inv(w.(ports := Landed(w.ports, a)))
    ensures w.ports[a.portId].port.generation <= a.desired.generation
  {
    assert ArmedOk(w, a);
    AdvanceKeepsInv(w, Landed(w.ports, a), a.portId);
  }

  lemma ReportKeepsInv(w: World, id: string)
    requires Inv(w) && id in w.ports && w.ports[id].port.status == Binding
    ensures Inv(Do(w, Report(id)))
  {
    var v := Versioned(w.ports[id].revision + 1, Reported(w.ports[id].port));
    forall i | 0 <= i < |w.current.ports| && w.current.ports[i].portId == id
      ensures Recorded(w.current, w.current.ports[i], v)
    {
      ReportKeepsRecord(w.current, w.current.ports[i], w.ports[id]);
    }
    AdvanceKeepsInv(w, w.ports[id := v], id);
  }

  lemma ReportKeepsRecord(payload: HaPayload, intent: HaPort, v: Versioned)
    requires Recorded(payload, intent, v)
    ensures Recorded(payload, intent, Versioned(v.revision + 1, Reported(v.port)))
  {
    var v' := Versioned(v.revision + 1, Reported(v.port));
    if !AtTarget(payload, intent, v) {
      var i :| 0 <= i < |PredecessorsOf(intent)| && MatchesPosition(v, PredecessorsOf(intent)[i]);
      assert MatchesPosition(v', PredecessorsOf(intent)[i]);
    }
  }

  // ---------------------------------------------------------------- steps that change workers

  /** A rebind write aims at the target of its own payload and obeys its fence. */
  lemma RebindWriteIsSafe(payload: HaPayload, i: nat, v: Versioned)
    requires i < |payload.ports| && MustMove(payload, payload.ports[i], v)
    requires payload.ports[i].priorRevision <= v.revision
      && payload.ports[i].targetRevision <= payload.ports[i].priorRevision + 1
    requires Fenced(payload, payload.ports[i])
    requires forall k, l :: 0 <= k < l < |payload.ports| ==> payload.ports[k].portId != payload.ports[l].portId
    ensures Faithful(RebindWrite(payload, payload.ports[i], v))
    ensures Expected(payload, RebindWrite(payload, payload.ports[i], v))
  {
    var intent := payload.ports[i];
    var n :| 0 <= n < |PredecessorsOf(intent)| && MatchesPosition(v, PredecessorsOf(intent)[n]);
    assert PredecessorsOf(intent)[n] in PredecessorsOf(intent);
    var a := RebindWrite(payload, intent, v);
    forall j | 0 <= j < |payload.ports| && payload.ports[j].portId == a.portId
      ensures Recorded(payload, payload.ports[j], Versioned(a.expected + 1, a.desired))
    {
      assert j == i;
      assert AtTarget(payload, intent, Versioned(a.expected + 1, a.desired));
    }
  }

  lemma ExtraWriteKeepsInv(w: World, a: Armed)
    requires Inv(w) && ArmedOk(w, a)
    ensures Inv(w.(armed := w.armed + {a}))
  {
    var w' := w.(armed := w.armed + {a});
    forall b | b in w'.armed ensures ArmedOk(w', b) {
      assert ArmedOk(w, b);
    }
    forall r | r in w'.readers ensures ReaderOk(w', r) {
      assert ReaderOk(w, r);
    }
  }

  lemma ArmKeepsInv(w: World, reader: Reader, i: nat)
    requires Inv(w) && Do(w, Arm(reader, i)) != w
    ensures Inv(Do(w, Arm(reader, i)))
  {
    var intent := w.current.ports[i];
    assert ReaderOk(w, reader);
    assert GroundedPort(w.current, intent, reader.snapshot);
    RebindWriteIsSafe(w.current, i, reader.snapshot[intent.portId]);
    ExtraWriteKeepsInv(w, RebindWrite(w.current, intent, reader.snapshot[intent.portId]));
  }

  lemma ReadKeepsInv(w: World, payload: HaPayload)
    requires Inv(w) && payload in w.known
    ensures Inv(Do(w, Read(payload)))
  {
    var w' := Do(w, Read(payload));
    forall r | r in w'.readers ensures ReaderOk(w', r) {
      if r in w.readers {
        assert ReaderOk(w, r);
      }
    }
    forall a | a in w'.armed ensures ArmedOk(w', a) {
      assert ArmedOk(w, a);
    }
  }

  // ---------------------------------------------------------------- steps that change the payload

  /** The durable payload may be replaced by one that keeps the whole record. */
  lemma ReplaceKeepsInv(w: World, next: HaPayload)
    requires Inv(w) && Grounded(next, w.ports) && |next.ports| == |w.current.ports|
    requires forall i :: 0 <= i < |next.ports| ==> next.ports[i].portId == w.current.ports[i].portId
    requires forall i, v :: 0 <= i < |next.ports| && Recorded(w.current, w.current.ports[i], v) ==>
        Recorded(next, next.ports[i], v)
    ensures Inv(w.(current := next, known := w.known + {next}))
  {
    var w' := w.(current := next, known := w.known + {next});
    forall r | r in w'.readers ensures ReaderOk(w', r) {
      assert ReaderOk(w, r);
    }
    forall a | a in w'.armed ensures ArmedOk(w', a) {
      assert ArmedOk(w, a);
    }
  }

  lemma SupersedeKeepsInv(w: World, reader: Reader, start: HaStart, nodes: map<string, NodeRef>)
    requires Inv(w) && reader in w.readers && reader.payload == w.current
    requires CanSupersede(w.current, start, reader.snapshot, nodes)
    ensures Inv(Do(w, Supersede(reader, start, nodes)))
  {
    var next := SupersessionPayload(w.current, start, reader.snapshot, nodes);
    var ids := ManifestIds(w.current.ports);
    assert ReaderOk(w, reader);
    forall i | 0 <= i < |next.ports|
      ensures next.ports[i].portId == w.current.ports[i].portId && GroundedPort(next, next.ports[i], w.ports)
      ensures forall v :: Recorded(w.current, w.current.ports[i], v) ==> Recorded(next, next.ports[i], v)
    {
      var found := NewHaPort(ids[i], reader.snapshot[ids[i]], nodes, start.target);
      assert next.ports[i] == SupersedingPort(w.current, w.current.ports[i], found, start.target).value;
      SupersedingPortIsFenced(w.current, w.current.ports[i], found, start, next);
      assert Remembers(w.ports, ids[i], reader.snapshot[ids[i]].revision, reader.snapshot[ids[i]].port);
      forall v | Recorded(w.current, w.current.ports[i], v) ensures Recorded(next, next.ports[i], v) {
        RecordedSurvivesSupersession(w.current, w.current.ports[i], found, start.target, v);
      }
    }
    ReplaceKeepsInv(w, next);
  }

  lemma ReclaimKeepsInv(w: World, proof: HaProof)
    requires Inv(w)
    ensures Inv(Do(w, Reclaim(proof)))
  {
    var next := w.current.(proof := proof);
    forall i | 0 <= i < |next.ports| ensures GroundedPort(next, next.ports[i], w.ports) {
      assert GroundedPort(w.current, w.current.ports[i], w.ports);
    }
    ReplaceKeepsInv(w, next);
  }

  lemma StepKeepsInv(w: World, step: Step)
    requires Inv(w)
    ensures Inv(Do(w, step))
  {
    if Do(w, step) != w {
      match step
      case Read(payload) => ReadKeepsInv(w, payload);
      case Arm(reader, i) => ArmKeepsInv(w, reader, i);
      case Fire(write) => FireKeepsInv(w, write);
      case Report(id) => ReportKeepsInv(w, id);
      case Supersede(reader, start, nodes) => SupersedeKeepsInv(w, reader, start, nodes);
      case Reclaim(proof) => ReclaimKeepsInv(w, proof);
    }
  }

  /** The manifest names the same ports for ever, and no port goes away. */
  lemma StepKeepsManifest(w: World, step: Step, i: nat)
    requires i < |w.current.ports| && w.current.ports[i].portId in w.ports
    ensures |Do(w, step).current.ports| == |w.current.ports|
    ensures Do(w, step).current.ports[i].portId == w.current.ports[i].portId
    ensures w.current.ports[i].portId in Do(w, step).ports
  {
  }

  lemma {:induction false} RunKeepsInv(w: World, steps: seq<Step>)
    requires Inv(w)
    ensures Inv(Run(w, steps))
    decreases |steps|
  {
    if steps != [] {
      StepKeepsInv(w, steps[0]);
      RunKeepsInv(Do(w, steps[0]), steps[1..]);
    }
  }

  // ---------------------------------------------------------------- main results

  /** Node rows are found by their own ID, and the target's row carries the target's chassis. */
  predicate NodesAgree(nodes: map<string, NodeRef>, target: NodeRef) {
    forall id :: id in nodes && nodes[id].id == target.id ==> nodes[id].chassis == target.chassis
  }

  /** A relocation that starts from the ports as they are. */
  function Begin(start: HaStart, ids: seq<string>, ports: map<string, Versioned>, nodes: map<string, NodeRef>): World
    requires AllAttachable(ids, ports, nodes, start.target)
  {
    var payload := HaPayloadOf(start, [], NewHaPorts(ids, ports, nodes, start.target), None);
    World(payload, {payload}, ports, {}, {})
  }

  lemma BeginEstablishesInv(start: HaStart, ids: seq<string>, ports: map<string, Versioned>,
                            nodes: map<string, NodeRef>)
    requires AllAttachable(ids, ports, nodes, start.target) && NodesAgree(nodes, start.target)
    requires forall i, j :: 0 <= i < j < |ids| ==> ids[i] != ids[j]
    requires forall id :: id in nodes ==> nodes[id].id == id
    ensures Inv(Begin(start, ids, ports, nodes))
  {
    var w := Begin(start, ids, ports, nodes);
    forall i | 0 <= i < |ids|
      ensures GroundedPort(w.current, w.current.ports[i], ports)
        && Recorded(w.current, w.current.ports[i], ports[ids[i]])
    {
      NewPortIsFenced(w.current, ids[i], ports[ids[i]], nodes, start.target);
      assert PredecessorsOf(w.current.ports[i]) == [PriorPosition(w.current.ports[i])];
      assert MatchesPosition(ports[ids[i]], PredecessorsOf(w.current.ports[i])[0]);
    }
  }

  /** Main result.  In every interleaving of workers, superseding assignments, stale workers of any
      earlier assignment and agent reports, each manifest port is at the target of the durable
      payload or at a position that payload has on record, and the target generation is above every
      recorded one as soon as one of them lies elsewhere. */
  lemma NoPortIsStranded(start: HaStart, ids: seq<string>, ports: map<string, Versioned>, nodes: map<string, NodeRef>,
                         steps: seq<Step>, i: nat)
    requires AllAttachable(ids, ports, nodes, start.target) && NodesAgree(nodes, start.target)
    requires forall k, l :: 0 <= k < l < |ids| ==> ids[k] != ids[l]
    requires forall id :: id in nodes ==> nodes[id].id == id
    requires i < |Run(Begin(start, ids, ports, nodes), steps).current.ports|
    ensures var w := Run(Begin(start, ids, ports, nodes), steps);
            var intent := w.current.ports[i];
            && intent.portId in w.ports
            && (AtTarget(w.current, intent, w.ports[intent.portId]) || AtPredecessor(intent, w.ports[intent.portId]))
            && Fenced(w.current, intent)
  {
    BeginEstablishesInv(start, ids, ports, nodes);
    RunKeepsInv(Begin(start, ids, ports, nodes), steps);
    var w := Run(Begin(start, ids, ports, nodes), steps);
    assert GroundedPort(w.current, w.current.ports[i], w.ports);
  }

  /** A step keeps every port, never lowers its generation and never touches its configuration. */
  lemma StepKeepsPorts(w: World, step: Step, id: string)
    requires Inv(w) && id in w.ports
    ensures id in Do(w, step).ports
    ensures w.ports[id].port.generation <= Do(w, step).ports[id].port.generation
    ensures w.ports[id].revision <= Do(w, step).ports[id].revision
    ensures ConfigOf(w.ports[id].port) == ConfigOf(Do(w, step).ports[id].port)
    ensures w.ports[id].port.vmid == Do(w, step).ports[id].port.vmid
      && w.ports[id].port.nic == Do(w, step).ports[id].port.nic
  {
    if step.Fire? && step.write in w.armed {
      assert ArmedOk(w, step.write);
    }
  }

  lemma {:induction false} RunKeepsPorts(w: World, steps: seq<Step>, id: string)
    requires Inv(w) && id in w.ports
    ensures id in Run(w, steps).ports
    ensures w.ports[id].port.generation <= Run(w, steps).ports[id].port.generation
    ensures ConfigOf(w.ports[id].port) == ConfigOf(Run(w, steps).ports[id].port)
    decreases |steps|
  {
    if steps != [] {
      StepKeepsInv(w, steps[0]);
      StepKeepsPorts(w, steps[0], id);
      RunKeepsPorts(Do(w, steps[0]), steps[1..], id);
    }
  }

  /** Rebinding a port that is not at the target node raises its generation above every position on record. */
  lemma RebindRaisesGeneration(payload: HaPayload, intent: HaPort, v: Versioned, p: Position)
    requires Fenced(payload, intent) && MustMove(payload, intent, v) && p in PredecessorsOf(intent)
    requires !(v.port.nodeId == payload.targetNodeId && v.port.chassis == [payload.target])
    ensures p.generation < RebindWrite(payload, intent, v).desired.generation
    ensures v.port.generation < RebindWrite(payload, intent, v).desired.generation
  {
    var n :| 0 <= n < |PredecessorsOf(intent)| && MatchesPosition(v, PredecessorsOf(intent)[n]);
    assert PredecessorsOf(intent)[n] in PredecessorsOf(intent);
  }

  // ---------------------------------------------------------------- every crash can be resumed

  /** Every manifest port still has the configuration the durable payload pins. */
  ghost predicate Configured(w: World) {
    forall i :: 0 <= i < |w.current.ports| ==>
      && w.current.ports[i].portId in w.ports
      && ConfigMatches(w.ports[w.current.ports[i].portId], w.current.vmid, w.current.ports[i])
  }

  lemma SupersedeKeepsConfigured(w: World, step: Step)
    requires step.Supersede? && Configured(w) && Do(w, step) != w
    ensures Configured(Do(w, step))
  {
    var next := Do(w, step).current;
    forall i | 0 <= i < |next.ports|
      ensures next.ports[i].portId in w.ports
      ensures ConfigMatches(w.ports[next.ports[i].portId], next.vmid, next.ports[i])
    {
      var id := ManifestIds(w.current.ports)[i];
      assert ConfigMatches(step.reader.snapshot[id], w.current.vmid, w.current.ports[i]);
    }
  }

  lemma StepKeepsConfigured(w: World, step: Step)
    requires Inv(w) && Configured(w)
    ensures Configured(Do(w, step))
  {
    if Do(w, step) != w {
      match step
      case Fire(a) => assert ArmedOk(w, a);
      case Supersede(_, _, _) => SupersedeKeepsConfigured(w, step);
      case _ =>
    }
  }

  lemma {:induction false} RunKeepsConfigured(w: World, steps: seq<Step>)
    requires Inv(w) && Configured(w)
    ensures Inv(Run(w, steps)) && Configured(Run(w, steps))
    decreases |steps|
  {
    if steps != [] {
      StepKeepsInv(w, steps[0]);
      StepKeepsConfigured(w, steps[0]);
      RunKeepsConfigured(Do(w, steps[0]), steps[1..]);
    }
  }

  /** A worker can take the port on: it has its configuration, is at the target or at a recorded predecessor, and
      the next revision meets the target's floor. */
  predicate Resumable(payload: HaPayload, intent: HaPort, v: Versioned) {
    ConfigMatches(v, payload.vmid, intent) && Recorded(payload, intent, v) && intent.targetRevision <= v.revision + 1
  }

  /** Whatever interleaving and whatever crashes came before, a worker of the durable payload can take every port on. */
  lemma CrashedRelocationResumes(start: HaStart, ids: seq<string>, ports: map<string, Versioned>,
                                 nodes: map<string, NodeRef>, steps: seq<Step>, i: nat)
    requires AllAttachable(ids, ports, nodes, start.target) && NodesAgree(nodes, start.target)
    requires forall k, l :: 0 <= k < l < |ids| ==> ids[k] != ids[l]
    requires forall id :: id in nodes ==> nodes[id].id == id
    requires forall k :: 0 <= k < |ids| ==> ports[ids[k]].port.vmid == start.vmid
    requires i < |Run(Begin(start, ids, ports, nodes), steps).current.ports|
    ensures var w := Run(Begin(start, ids, ports, nodes), steps);
            var intent := w.current.ports[i];
            intent.portId in w.ports && Resumable(w.current, intent, w.ports[intent.portId])
  {
    var begin := Begin(start, ids, ports, nodes);
    BeginEstablishesInv(start, ids, ports, nodes);
    forall k | 0 <= k < |begin.current.ports|
      ensures begin.current.ports[k].portId in ports
      ensures ConfigMatches(ports[begin.current.ports[k].portId], start.vmid, begin.current.ports[k])
    {
      assert begin.current.ports[k].portId == ids[k];
    }
    assert Configured(begin);
    RunKeepsConfigured(begin, steps);
    var w := Run(begin, steps);
    assert GroundedPort(w.current, w.current.ports[i], w.ports);
  }
}
