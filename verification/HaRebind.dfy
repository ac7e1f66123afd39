/** HA rebind payloads: where a port may be found, where it goes, and the generation that
    fences it there. */
module HaRebind {
  import opened Ports
  import opened Payloads
  import Text

  const MAX_INT64 := 0x7fff_ffff_ffff_ffff
  const PAYLOAD_VERSION := 1
  const MAX_AUTHORITY_HISTORY := 32

  /** A registered compute node. */
  datatype NodeRef = NodeRef(id: string, name: string, chassis: string)

  // ---------------------------------------------------------------- recorded positions

  function PriorPosition(intent: HaPort): Position {
    Position(intent.priorNodeId, intent.priorNode, intent.priorChassis, intent.priorRevision, intent.priorGeneration)
  }

  function TargetPosition(payload: HaPayload, intent: HaPort): Position {
    Position(payload.targetNodeId, payload.targetNode, [payload.target], intent.targetRevision, intent.targetGeneration)
  }

  predicate SameSpot(a: Position, b: Position) {
    a.nodeId == b.nodeId && a.chassis == b.chassis && a.generation == b.generation && a.floor == b.floor
  }

  function WithoutRepeats(known: seq<Position>, more: seq<Position>): seq<Position>
    decreases |more|
  {
    if more == [] then known
    else if exists i :: 0 <= i < |known| && SameSpot(more[0], known[i]) then WithoutRepeats(known, more[1..])
    else WithoutRepeats(known + [more[0]], more[1..])
  }

  /** haPortPredecessors: the prior position, then every recorded predecessor. */
  function PredecessorsOf(intent: HaPort): seq<Position> {
    WithoutRepeats([PriorPosition(intent)], intent.predecessors)
  }

  predicate MatchesPosition(v: Versioned, position: Position) {
    At(v.port, position.nodeId, position.chassis, position.generation) && RevisionMatches(v, position.floor)
  }

  predicate AtPredecessor(intent: HaPort, v: Versioned) {
    exists i :: 0 <= i < |PredecessorsOf(intent)| && MatchesPosition(v, PredecessorsOf(intent)[i])
  }

  predicate AtTarget(payload: HaPayload, intent: HaPort, v: Versioned) {
    MatchesPosition(v, TargetPosition(payload, intent))
  }

  /** The port is where the payload expects it: at its target or at a recorded predecessor. */
  predicate Recorded(payload: HaPayload, intent: HaPort, v: Versioned) {
    AtTarget(payload, intent, v) || AtPredecessor(intent, v)
  }

  /** Some position of `ps` accepts every port that `q` accepts. */
  predicate Covered(ps: seq<Position>, q: Position) {
    exists i :: 0 <= i < |ps| && ps[i].nodeId == q.nodeId && ps[i].chassis == q.chassis
             && ps[i].generation == q.generation && ps[i].floor <= q.floor
  }

  lemma CoveredMatches(ps: seq<Position>, q: Position, v: Versioned)
    requires Covered(ps, q) && MatchesPosition(v, q)
    ensures exists i :: 0 <= i < |ps| && MatchesPosition(v, ps[i])
  {
    var i :| 0 <= i < |ps| && ps[i].nodeId == q.nodeId && ps[i].chassis == q.chassis
          && ps[i].generation == q.generation && ps[i].floor <= q.floor;
    assert MatchesPosition(v, ps[i]);
  }

  /** Leaving out repeats loses no position and invents none. */
  lemma {:induction false} RepeatsAreRedundant(known: seq<Position>, more: seq<Position>)
    ensures known <= WithoutRepeats(known, more)
    ensures forall q :: q in known || q in more ==> Covered(WithoutRepeats(known, more), q)
    ensures forall q :: q in WithoutRepeats(known, more) ==> q in known || q in more
    decreases |more|
  {
    if more == [] {
      forall q | q in known ensures Covered(known, q) {
        var i :| 0 <= i < |known| && known[i] == q;
      }
    } else if i :| 0 <= i < |known| && SameSpot(more[0], known[i]) {
      RepeatsAreRedundant(known, more[1..]);
      forall q | q in known || q in more ensures Covered(WithoutRepeats(known, more), q) {
        if q == more[0] {
          assert known[i] in known;
          assert Covered(WithoutRepeats(known, more), known[i]);
        }
      }
    } else {
      RepeatsAreRedundant(known + [more[0]], more[1..]);
    }
  }

  // ---------------------------------------------------------------- normalization

  predicate SameSite(a: Position, b: Position) {
    a.nodeId == b.nodeId && a.node == b.node && a.chassis == b.chassis && a.generation == b.generation
  }

  /** Merges one position into a list: the same site keeps the lower floor. */
  function Merge(result: seq<Position>, candidate: Position): seq<Position> {
    if result == [] then [candidate]
    else if SameSite(candidate, result[0]) then
      [if candidate.floor < result[0].floor then result[0].(floor := candidate.floor) else result[0]] + result[1..]
    else [result[0]] + Merge(result[1..], candidate)
  }

  function Merged(positions: seq<Position>): seq<Position> {
    if positions == [] then [] else Merge(Merged(positions[..|positions| - 1]), positions[|positions| - 1])
  }

  /** The order of recorded positions: node ID, generation, floor. */
  predicate PositionLess(a: Position, b: Position) {
    if a.nodeId != b.nodeId then Text.NameLess(a.nodeId, b.nodeId)
    else a.generation < b.generation || (a.generation == b.generation && a.floor < b.floor)
  }

  function Insert(p: Position, s: seq<Position>): seq<Position> {
    if s == [] || PositionLess(p, s[0]) then [p] + s else [s[0]] + Insert(p, s[1..])
  }

  function Ordered(s: seq<Position>): seq<Position> {
    if s == [] then [] else Insert(s[0], Ordered(s[1..]))
  }

  /** normalizeHAPortPositions: one position per site, in order. */
  function Normalized(positions: seq<Position>): seq<Position> {
    Ordered(Merged(positions))
  }

  lemma {:induction false} InsertMembers(p: Position, s: seq<Position>, q: Position)
    ensures q in Insert(p, s) <==> q == p || q in s
  {
    if s != [] && !PositionLess(p, s[0]) {
      InsertMembers(p, s[1..], q);
    }
  }

  /** Ordering keeps the positions. */
  lemma {:induction false} OrderedMembers(s: seq<Position>, q: Position)
    ensures q in Ordered(s) <==> q in s
  {
    if s != [] {
      OrderedMembers(s[1..], q);
      InsertMembers(s[0], Ordered(s[1..]), q);
    }
  }

  lemma PositionsAreTransitive(a: Position, b: Position, c: Position)
    requires PositionLess(a, b) && PositionLess(b, c)
    ensures PositionLess(a, c)
  {
    if a.nodeId != b.nodeId && b.nodeId != c.nodeId {
      Text.NamesAreTransitive(a.nodeId, b.nodeId, c.nodeId);
      Text.NamesAreTotal(a.nodeId, b.nodeId);
    }
  }

  predicate InOrder(s: seq<Position>) {
    forall i, j :: 0 <= i < j < |s| ==> !PositionLess(s[j], s[i])
  }

  lemma {:induction false} InsertKeepsOrder(p: Position, s: seq<Position>)
    requires InOrder(s)
    ensures InOrder(Insert(p, s))
  {
    if s != [] {
      if PositionLess(p, s[0]) {
        forall i | 0 <= i < |s| ensures !PositionLess(s[i], p) {
          if PositionLess(s[i], p) {
            PositionsAreTransitive(s[i], p, s[0]);
            PositionsAreAsymmetric(s[i], s[0]);
            PositionsAreAsymmetric(p, s[0]);
          }
        }
      } else {
        InsertKeepsOrder(p, s[1..]);
        var rest := Insert(p, s[1..]);
        forall i | 0 <= i < |rest| ensures !PositionLess(rest[i], s[0]) {
          InsertMembers(p, s[1..], rest[i]);
        }
      }
    }
  }

  lemma PositionsAreAsymmetric(a: Position, b: Position)
    ensures !(PositionLess(a, b) && PositionLess(b, a))
  {
    Text.NamesAreTotal(a.nodeId, b.nodeId);
  }

  /** The recorded positions are in order. */
  lemma {:induction false} OrderedIsInOrder(s: seq<Position>)
    ensures InOrder(Ordered(s))
  {
    if s != [] {
      OrderedIsInOrder(s[1..]);
      InsertKeepsOrder(s[0], Ordered(s[1..]));
    }
  }

  lemma CoverIgnoresOrder(s: seq<Position>, q: Position)
    requires Covered(s, q)
    ensures Covered(Ordered(s), q)
  {
    var i :| 0 <= i < |s| && s[i].nodeId == q.nodeId && s[i].chassis == q.chassis
          && s[i].generation == q.generation && s[i].floor <= q.floor;
    OrderedMembers(s, s[i]);
    var k :| 0 <= k < |Ordered(s)| && Ordered(s)[k] == s[i];
  }

  lemma NormalizedSingle(p: Position)
    ensures Normalized([p]) == [p]
  {
    assert [p][..0] == [] && [p][1..] == [];
    assert Merged([p]) == [p] && Ordered([]) == [] && Insert(p, []) == [p];
  }

  function Lowered(p: Position, floor: int): Position {
    if floor < p.floor then p.(floor := floor) else p
  }

  lemma {:induction false} MergeAt(result: seq<Position>, candidate: Position, index: nat)
    requires index < |result| && SameSite(candidate, result[index])
    requires forall i :: 0 <= i < index ==> !SameSite(candidate, result[i])
    ensures Merge(result, candidate) == result[index := Lowered(result[index], candidate.floor)]
    decreases |result|
  {
    if index > 0 {
      MergeAt(result[1..], candidate, index - 1);
    }
  }

  lemma {:induction false} MergeNew(result: seq<Position>, candidate: Position)
    requires forall i :: 0 <= i < |result| ==> !SameSite(candidate, result[i])
    ensures Merge(result, candidate) == result + [candidate]
    decreases |result|
  {
    if result != [] {
      MergeNew(result[1..], candidate);
    }
  }

  /** normalizeHAPortPositions; the final sort is a library call. */
  method Normalize(positions: seq<Position>) returns (result: seq<Position>)
    ensures result == Normalized(positions) && InOrder(result)
  {
    result := [];
    for n := 0 to |positions|
      invariant result == Merged(positions[..n])
    {
      var candidate := positions[n];
      var index := 0;
      while index < |result| && !SameSite(candidate, result[index])
        invariant 0 <= index <= |result|
        invariant forall i :: 0 <= i < index ==> !SameSite(candidate, result[i])
      {
        index := index + 1;
      }
      assert positions[..n + 1][..n] == positions[..n];
      if index < |result| {
        MergeAt(result, candidate, index);
        result := result[index := Lowered(result[index], candidate.floor)];
      } else {
        MergeNew(result, candidate);
        result := result + [candidate];
      }
    }
    assert positions[..|positions|] == positions;
    OrderedIsInOrder(result);
    result := Ordered(result);
  }

  /** `q` is one of `ps` up to nothing but its name in the list. */
  predicate DrawnFrom(ps: seq<Position>, q: Position) {
    exists i :: 0 <= i < |ps| && SameSite(ps[i], q) && ps[i].floor == q.floor
  }

  lemma CoverOfTail(ps: seq<Position>, q: Position)
    requires ps != [] && Covered(ps[1..], q)
    ensures Covered(ps, q)
  {
    var i :| 0 <= i < |ps[1..]| && ps[1..][i].nodeId == q.nodeId && ps[1..][i].chassis == q.chassis
          && ps[1..][i].generation == q.generation && ps[1..][i].floor <= q.floor;
    assert ps[i + 1] == ps[1..][i];
  }

  lemma {:induction false} MergeCovers(result: seq<Position>, candidate: Position, q: Position)
    requires Covered(result, q) || q == candidate
    ensures Covered(Merge(result, candidate), q)
    decreases |result|
  {
    var merged := Merge(result, candidate);
    if result == [] {
      assert Covered([candidate], candidate);
    } else if SameSite(candidate, result[0]) {
      assert merged[0].floor <= candidate.floor && merged[0].floor <= result[0].floor;
      if Covered(result, q) {
        var i :| 0 <= i < |result| && result[i].nodeId == q.nodeId && result[i].chassis == q.chassis
              && result[i].generation == q.generation && result[i].floor <= q.floor;
        assert merged[i].floor <= q.floor;
      }
    } else if q == candidate || Covered(result[1..], q) {
      MergeCovers(result[1..], candidate, q);
      assert merged[1..] == Merge(result[1..], candidate);
      CoverOfTail(merged, q);
    } else {
      var i :| 0 <= i < |result| && result[i].nodeId == q.nodeId && result[i].chassis == q.chassis
            && result[i].generation == q.generation && result[i].floor <= q.floor;
      assert merged[0] == result[0];
    }
  }

  lemma {:induction false} MergeDraws(result: seq<Position>, candidate: Position, q: Position)
    requires q in Merge(result, candidate)
    ensures DrawnFrom(result + [candidate], q)
    decreases |result|
  {
    var all := result + [candidate];
    if result == [] {
      assert all[0] == q;
    } else if SameSite(candidate, result[0]) {
      var i :| 0 <= i < |result| && Merge(result, candidate)[i] == q;
      assert all[i] == result[i] && all[|result|] == candidate;
    } else if q == result[0] {
      assert all[0] == q;
    } else {
      assert q in Merge(result[1..], candidate);
      MergeDraws(result[1..], candidate, q);
      var i :| 0 <= i < |result[1..] + [candidate]| && SameSite((result[1..] + [candidate])[i], q)
            && (result[1..] + [candidate])[i].floor == q.floor;
      assert all[i + 1] == (result[1..] + [candidate])[i];
    }
  }

  lemma {:induction false} MergedCovers(positions: seq<Position>, q: Position)
    requires q in positions
    ensures Covered(Merged(positions), q)
    decreases |positions|
  {
    var front, last := positions[..|positions| - 1], positions[|positions| - 1];
    assert positions == front + [last];
    if q != last {
      MergedCovers(front, q);
    }
    MergeCovers(Merged(front), last, q);
  }

  lemma {:induction false} MergedDraws(positions: seq<Position>, q: Position)
    requires q in Merged(positions)
    ensures DrawnFrom(positions, q)
    decreases |positions|
  {
    var front, last := positions[..|positions| - 1], positions[|positions| - 1];
    MergeDraws(Merged(front), last, q);
    var merged := Merged(front) + [last];
    var i :| 0 <= i < |merged| && SameSite(merged[i], q) && merged[i].floor == q.floor;
    if i < |Merged(front)| {
      MergedDraws(front, merged[i]);
      var j :| 0 <= j < |front| && SameSite(front[j], merged[i]) && front[j].floor == merged[i].floor;
      assert positions[j] == front[j];
    } else {
      assert positions[|positions| - 1] == merged[i];
    }
  }

  /** Normalizing keeps every position covered... */
  lemma NormalizedCovers(positions: seq<Position>, q: Position)
    requires q in positions
    ensures Covered(Normalized(positions), q)
  {
    MergedCovers(positions, q);
    CoverIgnoresOrder(Merged(positions), q);
  }

  /** ...and adds no position that was not there. */
  lemma NormalizedDraws(positions: seq<Position>, q: Position)
    requires q in Normalized(positions)
    ensures DrawnFrom(positions, q)
  {
    OrderedMembers(Merged(positions), q);
    MergedDraws(positions, q);
  }

  // ---------------------------------------------------------------- payload builders

  /** newHAPayload accepts the port: one exact attached chassis state, with room for a fence. */
  predicate Attachable(v: Versioned, nodes: map<string, NodeRef>, target: NodeRef) {
    && |v.port.chassis| == 1 && v.port.nodeId != "" && v.port.nodeId in nodes
    && BindingReady(v.port.status) && v.port.adminUp && v.port.generation >= 1 && v.revision >= 1
    && nodes[v.port.nodeId].chassis == v.port.chassis[0]
    && (nodes[v.port.nodeId].id != target.id ==> v.port.generation < MAX_INT64 && v.revision < MAX_INT64)
  }

  function NewHaPort(portId: string, v: Versioned, nodes: map<string, NodeRef>, target: NodeRef): HaPort
    requires Attachable(v, nodes, target)
  {
    var prior := nodes[v.port.nodeId];
    var step := if prior.id != target.id then 1 else 0;
    HaPort(portId, v.port.nic, ConfigOf(v.port), prior.id, prior.name, [prior.chassis], v.revision, v.port.generation,
           v.revision + step, v.port.generation + step, [])
  }

  /** The request that starts or supersedes a relocation. */
  datatype HaStart = HaStart(lifecycleId: string, vmid: int, target: NodeRef, proof: HaProof)

  function HaPayloadOf(start: HaStart, history: seq<HaProof>, ports: seq<HaPort>, audit: Option<HaAudit>): HaPayload {
    HaPayload(PAYLOAD_VERSION, start.lifecycleId, Rebinding, start.vmid, start.target.id, start.target.name,
              start.target.chassis, start.proof, history, ports, audit)
  }

  predicate AllAttachable(ids: seq<string>, ports: map<string, Versioned>, nodes: map<string, NodeRef>,
                          target: NodeRef) {
    forall i :: 0 <= i < |ids| ==> ids[i] in ports && Attachable(ports[ids[i]], nodes, target)
  }

  function NewHaPorts(ids: seq<string>, ports: map<string, Versioned>, nodes: map<string, NodeRef>,
                      target: NodeRef): seq<HaPort>
    requires AllAttachable(ids, ports, nodes, target)
  {
    seq(|ids|, i requires 0 <= i < |ids| => NewHaPort(ids[i], ports[ids[i]], nodes, target))
  }

  function MaxGeneration(ps: seq<Position>): int {
    if ps == [] then 0
    else var rest := MaxGeneration(ps[1..]); if ps[0].generation > rest then ps[0].generation else rest
  }

  predicate AllAt(ps: seq<Position>, nodeId: string, chassis: string) {
    forall i :: 0 <= i < |ps| ==> ps[i].nodeId == nodeId && ps[i].chassis == [chassis]
  }

  /** Everything a superseding assignment must still expect of a port. */
  function InheritedPositions(previous: HaPayload, earlier: HaPort, found: HaPort): seq<Position> {
    Normalized(PredecessorsOf(earlier) + [TargetPosition(previous, earlier)] + [PriorPosition(found)])
  }

  function SupersedingPort(previous: HaPayload, earlier: HaPort, found: HaPort, target: NodeRef): Option<HaPort> {
    var positions := InheritedPositions(previous, earlier, found);
    var top := MaxGeneration(positions);
    if AllAt(positions, target.id, target.chassis) then
      Some(found.(predecessors := positions, targetGeneration := top))
    else if top == MAX_INT64 then None
    else Some(found.(predecessors := positions, targetGeneration := top + 1))
  }

  function ManifestIds(ports: seq<HaPort>): seq<string> {
    seq(|ports|, i requires 0 <= i < |ports| => ports[i].portId)
  }

  predicate CanSupersede(previous: HaPayload, start: HaStart, ports: map<string, Versioned>,
                         nodes: map<string, NodeRef>) {
    && AllAttachable(ManifestIds(previous.ports), ports, nodes, start.target)
    && |previous.history| < MAX_AUTHORITY_HISTORY
    && forall i :: 0 <= i < |previous.ports| ==>
         ManifestIds(previous.ports)[i] in ports &&
         SupersedingPort(previous, previous.ports[i],
           NewHaPort(previous.ports[i].portId, ports[previous.ports[i].portId], nodes,
                     start.target), start.target).Some?
  }

  /** newHASupersessionPayload. */
  function SupersessionPayload(previous: HaPayload, start: HaStart, ports: map<string, Versioned>,
                               nodes: map<string, NodeRef>): HaPayload
    requires CanSupersede(previous, start, ports, nodes)
  {
    HaPayloadOf(start, previous.history + [previous.proof],
      seq(|previous.ports|, i requires 0 <= i < |previous.ports| =>
        SupersedingPort(previous, previous.ports[i],
          NewHaPort(ManifestIds(previous.ports)[i], ports[ManifestIds(previous.ports)[i]], nodes,
                    start.target), start.target).value),
      previous.audit)
  }

  // ---------------------------------------------------------------- the generation fence

  /** Every recorded predecessor is at or below the target generation, and strictly below it as soon
      as one of them lies anywhere but at the target. */
  ghost predicate Fenced(payload: HaPayload, intent: HaPort) {
    var ps := PredecessorsOf(intent);
    && (forall p :: p in ps ==> p.generation <= intent.targetGeneration)
    && ((exists p :: p in ps && !(p.nodeId == payload.targetNodeId && p.chassis == [payload.target])) ==>
          forall p :: p in ps ==> p.generation < intent.targetGeneration)
  }

  lemma {:induction false} MaxGenerationBounds(ps: seq<Position>, p: Position)
    requires p in ps
    ensures p.generation <= MaxGeneration(ps)
    decreases |ps|
  {
    if p != ps[0] {
      MaxGenerationBounds(ps[1..], p);
    }
  }

  lemma NewPortIsFenced(payload: HaPayload, portId: string, v: Versioned, nodes: map<string, NodeRef>, target: NodeRef)
    requires Attachable(v, nodes, target) && payload.targetNodeId == target.id && payload.target == target.chassis
    requires nodes[v.port.nodeId].id == target.id ==> nodes[v.port.nodeId].chassis == target.chassis
    ensures Fenced(payload, NewHaPort(portId, v, nodes, target))
  {
    var intent := NewHaPort(portId, v, nodes, target);
    assert PredecessorsOf(intent) == [PriorPosition(intent)];
  }

  /** What supersession puts on record: all of the earlier record, the earlier target, and the position just read. */
  lemma SupersedingPortRecords(previous: HaPayload, earlier: HaPort, found: HaPort, target: NodeRef, q: Position)
    requires SupersedingPort(previous, earlier, found, target).Some?
    requires q in PredecessorsOf(earlier) || q == TargetPosition(previous, earlier)
    ensures Covered(PredecessorsOf(SupersedingPort(previous, earlier, found, target).value), q)
  {
    var intent := SupersedingPort(previous, earlier, found, target).value;
    NormalizedCovers(PredecessorsOf(earlier) + [TargetPosition(previous, earlier)] + [PriorPosition(found)], q);
    RepeatsAreRedundant([PriorPosition(intent)], intent.predecessors);
    CoverIsTransitive(intent.predecessors, PredecessorsOf(intent), q);
  }

  lemma CoverIsTransitive(ps: seq<Position>, qs: seq<Position>, q: Position)
    requires Covered(ps, q) && forall p :: p in ps ==> Covered(qs, p)
    ensures Covered(qs, q)
  {
    var i :| 0 <= i < |ps| && ps[i].nodeId == q.nodeId && ps[i].chassis == q.chassis
          && ps[i].generation == q.generation && ps[i].floor <= q.floor;
    assert ps[i] in ps && Covered(qs, ps[i]);
    var j :| 0 <= j < |qs| && qs[j].nodeId == ps[i].nodeId && qs[j].chassis == ps[i].chassis
          && qs[j].generation == ps[i].generation && qs[j].floor <= ps[i].floor;
    assert qs[j].floor <= q.floor;
  }

  /** The superseding target generation is above everything on record, or everything is at the target. */
  lemma SupersedingPortIsFenced(previous: HaPayload, earlier: HaPort, found: HaPort, start: HaStart, payload: HaPayload)
    requires SupersedingPort(previous, earlier, found, start.target).Some?
    requires payload.targetNodeId == start.target.id && payload.target == start.target.chassis
    ensures Fenced(payload, SupersedingPort(previous, earlier, found, start.target).value)
  {
    var intent := SupersedingPort(previous, earlier, found, start.target).value;
    var positions := InheritedPositions(previous, earlier, found);
    var ps := PredecessorsOf(intent);
    RepeatsAreRedundant([PriorPosition(intent)], intent.predecessors);
    NormalizedCovers(PredecessorsOf(earlier) + [TargetPosition(previous, earlier)] + [PriorPosition(found)],
                     PriorPosition(found));
    forall p | p in ps
      ensures p.generation <= MaxGeneration(positions)
      ensures AllAt(positions, start.target.id, start.target.chassis) ==>
                p.nodeId == start.target.id && p.chassis == [start.target.chassis]
    {
      if p in positions {
        MaxGenerationBounds(positions, p);
      } else {
        assert p == PriorPosition(found);
        var i :| 0 <= i < |positions| && positions[i].nodeId == p.nodeId && positions[i].chassis == p.chassis
              && positions[i].generation == p.generation && positions[i].floor <= p.floor;
        MaxGenerationBounds(positions, positions[i]);
      }
    }
  }

  /** A port recorded by an assignment is recorded, as a predecessor, by the one that supersedes it. */
  lemma RecordedSurvivesSupersession(previous: HaPayload, earlier: HaPort, found: HaPort, target: NodeRef, v: Versioned)
    requires SupersedingPort(previous, earlier, found, target).Some? && Recorded(previous, earlier, v)
    ensures AtPredecessor(SupersedingPort(previous, earlier, found, target).value, v)
  {
    var q: Position;
    if AtTarget(previous, earlier, v) {
      q := TargetPosition(previous, earlier);
    } else {
      var i :| 0 <= i < |PredecessorsOf(earlier)| && MatchesPosition(v, PredecessorsOf(earlier)[i]);
      q := PredecessorsOf(earlier)[i];
    }
    SupersedingPortRecords(previous, earlier, found, target, q);
    CoveredMatches(PredecessorsOf(SupersedingPort(previous, earlier, found, target).value), q, v);
  }
}
