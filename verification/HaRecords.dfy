/** How tight the record of a relocation is: nothing is on it twice, nothing is invented, and the fence lies right above
    it. */
module HaRecords {
  import opened Ports
  import opened Payloads
  import opened HaRebind

  // ---------------------------------------------------------------- one position per site

  /** No two positions are of the same site. */
  predicate SitesDistinct(s: seq<Position>) {
    forall i, j :: 0 <= i < j < |s| ==> !SameSite(s[i], s[j])
  }

  predicate Avoids(s: seq<Position>, q: Position) {
    forall i :: 0 <= i < |s| ==> !SameSite(q, s[i])
  }

  /** The sites after merging one position: the same ones, and its own if it is new. */
  lemma {:induction false} MergeAvoids(result: seq<Position>, candidate: Position, q: Position)
    requires Avoids(result, q) && !SameSite(q, candidate)
    ensures Avoids(Merge(result, candidate), q)
    decreases |result|
  {
    if result != [] && !SameSite(candidate, result[0]) {
      MergeAvoids(result[1..], candidate, q);
    }
  }

  lemma {:induction false} MergeKeepsSites(result: seq<Position>, candidate: Position)
    requires SitesDistinct(result)
    ensures SitesDistinct(Merge(result, candidate))
    decreases |result|
  {
    if result != [] && !SameSite(candidate, result[0]) {
      MergeKeepsSites(result[1..], candidate);
      MergeAvoids(result[1..], candidate, result[0]);
      assert Avoids(Merge(result[1..], candidate), result[0]);
    }
  }

  lemma {:induction false} MergedSites(positions: seq<Position>)
    ensures SitesDistinct(Merged(positions))
    decreases |positions|
  {
    if positions != [] {
      MergedSites(positions[..|positions| - 1]);
      MergeKeepsSites(Merged(positions[..|positions| - 1]), positions[|positions| - 1]);
    }
  }

  lemma {:induction false} InsertKeepsSites(p: Position, s: seq<Position>)
    requires SitesDistinct(s) && forall i :: 0 <= i < |s| ==> !SameSite(p, s[i])
    ensures SitesDistinct(Insert(p, s))
    decreases |s|
  {
    if s != [] && !PositionLess(p, s[0]) {
      InsertKeepsSites(p, s[1..]);
      var rest := Insert(p, s[1..]);
      forall i | 0 <= i < |rest| ensures !SameSite(s[0], rest[i]) {
        InsertMembers(p, s[1..], rest[i]);
      }
    }
  }

  lemma {:induction false} OrderedKeepsSites(s: seq<Position>)
    requires SitesDistinct(s)
    ensures SitesDistinct(Ordered(s))
  {
    if s != [] {
      OrderedKeepsSites(s[1..]);
      forall i | 0 <= i < |Ordered(s[1..])| ensures !SameSite(s[0], Ordered(s[1..])[i]) {
        OrderedMembers(s[1..], Ordered(s[1..])[i]);
      }
      InsertKeepsSites(s[0], Ordered(s[1..]));
    }
  }

  /** Main result on normalization: each site is recorded once, at the lowest of its floors. */
  lemma NormalizedIsMinimal(positions: seq<Position>, q: Position)
    ensures SitesDistinct(Normalized(positions))
    ensures q in Normalized(positions) ==>
              && (exists i :: 0 <= i < |positions| && SameSite(positions[i], q) && positions[i].floor == q.floor)
              && forall i :: 0 <= i < |positions| && SameSite(positions[i], q) ==> q.floor <= positions[i].floor
  {
    MergedSites(positions);
    OrderedKeepsSites(Merged(positions));
    if q in Normalized(positions) {
      NormalizedDraws(positions, q);
      OrderedMembers(Merged(positions), q);
      forall i | 0 <= i < |positions| && SameSite(positions[i], q) ensures q.floor <= positions[i].floor {
        MergedIsLowest(positions, i);
        var k :| 0 <= k < |Merged(positions)| && SameSite(Merged(positions)[k], positions[i])
              && Merged(positions)[k].floor <= positions[i].floor;
        var l :| 0 <= l < |Merged(positions)| && Merged(positions)[l] == q;
        assert k == l;
      }
    }
  }

  /** The list has the site, at or below the floor. */
  predicate HasSite(s: seq<Position>, p: Position) {
    exists k :: 0 <= k < |s| && SameSite(s[k], p) && s[k].floor <= p.floor
  }

  lemma {:induction false} MergeHasSite(result: seq<Position>, candidate: Position, p: Position)
    requires HasSite(result, p) || p == candidate
    ensures HasSite(Merge(result, candidate), p)
    decreases |result|
  {
    var merged := Merge(result, candidate);
    if result == [] {
      assert SameSite(merged[0], p);
    } else if SameSite(candidate, result[0]) {
      assert p == candidate ==> SameSite(merged[0], p) && merged[0].floor <= p.floor;
      if HasSite(result, p) {
        var k :| 0 <= k < |result| && SameSite(result[k], p) && result[k].floor <= p.floor;
        assert SameSite(merged[k], p) && merged[k].floor <= p.floor;
      }
    } else if SameSite(result[0], p) && result[0].floor <= p.floor {
      assert merged[0] == result[0];
    } else {
      if p != candidate {
        var k :| 0 <= k < |result| && SameSite(result[k], p) && result[k].floor <= p.floor;
        assert result[1..][k - 1] == result[k];
      }
      MergeHasSite(result[1..], candidate, p);
      var k :| 0 <= k < |merged[1..]| && SameSite(merged[1..][k], p) && merged[1..][k].floor <= p.floor;
      assert merged[k + 1] == merged[1..][k];
    }
  }

  lemma {:induction false} MergedIsLowest(positions: seq<Position>, i: nat)
    requires i < |positions|
    ensures HasSite(Merged(positions), positions[i])
    decreases |positions|
  {
    var front, last := positions[..|positions| - 1], positions[|positions| - 1];
    if i < |front| {
      MergedIsLowest(front, i);
      assert front[i] == positions[i];
    }
    MergeHasSite(Merged(front), last, positions[i]);
  }

  // ---------------------------------------------------------------- predecessors

  predicate SpotsDistinct(s: seq<Position>) {
    forall i, j :: 0 <= i < j < |s| ==> !SameSpot(s[j], s[i])
  }

  /** Leaving out repeats leaves no repeat. */
  lemma {:induction false} RepeatsAreLeftOut(known: seq<Position>, more: seq<Position>)
    requires SpotsDistinct(known)
    ensures SpotsDistinct(WithoutRepeats(known, more))
    decreases |more|
  {
    if more != [] {
      if i :| 0 <= i < |known| && SameSpot(more[0], known[i]) {
        RepeatsAreLeftOut(known, more[1..]);
      } else {
        RepeatsAreLeftOut(known + [more[0]], more[1..]);
      }
    }
  }

  /** A relocation takes up exactly the ports that are up and bound to the one chassis of a registered node, with room
      for
      one more revision and generation where they have to move. */
  lemma AttachableIff(v: Versioned, nodes: map<string, NodeRef>, target: NodeRef)
    ensures Attachable(v, nodes, target) <==>
              && v.port.adminUp && (v.port.status == Binding || v.port.status == Bound)
              && v.port.nodeId != "" && v.port.nodeId in nodes && v.port.chassis == [nodes[v.port.nodeId].chassis]
              && v.port.generation >= 1 && v.revision >= 1
              && (nodes[v.port.nodeId].id == target.id
                  || (v.port.generation + 1 <= MAX_INT64 && v.revision + 1 <= MAX_INT64))
  {
  }

  /** A new relocation aims right: a port that is on the target already is at its target, and any other one has to move
      by one revision and one generation. */
  lemma NewPortAims(payload: HaPayload, portId: string, v: Versioned, nodes: map<string, NodeRef>, target: NodeRef)
    requires Attachable(v, nodes, target) && nodes[v.port.nodeId].id == v.port.nodeId
    requires payload.targetNodeId == target.id && payload.target == target.chassis
    requires v.port.nodeId == target.id ==> nodes[v.port.nodeId].chassis == target.chassis
    ensures var intent := NewHaPort(portId, v, nodes, target);
            && intent.portId == portId && intent.nic == v.port.nic && intent.config == ConfigOf(v.port)
            && PredecessorsOf(intent) == [PriorPosition(intent)] && MatchesPosition(v, PriorPosition(intent))
            && (v.port.nodeId == target.id ==> AtTarget(payload, intent, v))
            && (v.port.nodeId != target.id ==>
                  && !AtTarget(payload, intent, v)
                  && intent.targetRevision == v.revision + 1 && intent.targetGeneration == v.port.generation + 1)
  {
  }

  // ---------------------------------------------------------------- supersession

  lemma {:induction false} MaxGenerationIsReached(ps: seq<Position>)
    requires ps != [] && forall i :: 0 <= i < |ps| ==> ps[i].generation >= 1
    ensures exists i :: 0 <= i < |ps| && ps[i].generation == MaxGeneration(ps)
  {
    if |ps| == 1 {
      assert MaxGeneration(ps[1..]) == 0 && ps[0].generation == MaxGeneration(ps);
    } else {
      MaxGenerationIsReached(ps[1..]);
      var i :| 0 <= i < |ps[1..]| && ps[1..][i].generation == MaxGeneration(ps[1..]);
      assert ps[i + 1] == ps[1..][i];
      assert ps[0].generation == MaxGeneration(ps) || ps[i + 1].generation == MaxGeneration(ps);
    }
  }

  /** Main result on supersession: the new record holds nothing but the earlier record, the earlier target and the
      position just read; the rest of the entry is what was just read; and the fence is the highest recorded
      generation where every recorded position is on the new target, and the next one otherwise. */
  lemma SupersedingPortIsTight(previous: HaPayload, earlier: HaPort, found: HaPort, target: NodeRef, q: Position)
    requires SupersedingPort(previous, earlier, found, target).Some?
    requires forall p :: p in InheritedPositions(previous, earlier, found) ==> p.generation >= 1
    ensures var intent := SupersedingPort(previous, earlier, found, target).value;
            var all := PredecessorsOf(earlier) + [TargetPosition(previous, earlier)] + [PriorPosition(found)];
            && intent == found.(predecessors := intent.predecessors, targetGeneration := intent.targetGeneration)
            && (q in intent.predecessors ==> DrawnFrom(all, q)) && SitesDistinct(intent.predecessors)
            && exists p :: p in intent.predecessors
                 && (forall o :: o in intent.predecessors ==> o.generation <= p.generation)
                 && intent.targetGeneration ==
                    p.generation + if AllAt(intent.predecessors, target.id, target.chassis) then 0 else 1
  {
    var all := PredecessorsOf(earlier) + [TargetPosition(previous, earlier)] + [PriorPosition(found)];
    var positions := InheritedPositions(previous, earlier, found);
    NormalizedIsMinimal(all, q);
    NormalizedCovers(all, PriorPosition(found));
    MaxGenerationIsReached(positions);
    var i :| 0 <= i < |positions| && positions[i].generation == MaxGeneration(positions);
    forall o | o in positions ensures o.generation <= positions[i].generation {
      MaxGenerationBounds(positions, o);
    }
    assert positions[i] in positions;
  }
}
