/** A relocation can always go on: from every reachable state a worker can finish it, and a newer assignment can
    take it over. */
module HaProgress {
  import opened Ports
  import opened Payloads
  import opened HaRebind
  import opened HaChain

  lemma {:induction false} RunAppends(w: World, steps: seq<Step>, more: seq<Step>)
    ensures Run(w, steps + more) == Run(Run(w, steps), more)
    decreases |steps|
  {
    if steps == [] {
      assert steps + more == more;
    } else {
      assert (steps + more)[1..] == steps[1..] + more;
      RunAppends(Do(w, steps[0]), steps[1..], more);
    }
  }

  lemma RunOne(w: World, a: Step)
    ensures Run(w, [a]) == Do(w, a)
  {
    assert [a][1..] == [];
  }

  lemma RunTwo(w: World, a: Step, b: Step)
    ensures Run(w, [a, b]) == Do(Do(w, a), b)
  {
    assert [a, b][1..] == [b];
    RunOne(Do(w, a), b);
  }

  lemma RunThree(w: World, a: Step, b: Step, c: Step)
    ensures Run(w, [a, b, c]) == Do(Do(Do(w, a), b), c)
  {
    assert [a, b, c][1..] == [b, c];
    RunTwo(Do(w, a), b, c);
  }

  // ---------------------------------------------------------------- finishing

  predicate PortAtTarget(w: World, i: nat)
    requires i < |w.current.ports|
  {
    w.current.ports[i].portId in w.ports && AtTarget(w.current, w.current.ports[i], w.ports[w.current.ports[i].portId])
  }

  /** List the ports, check the i-th one, rebind it. */
  function RebindSteps(w: World, i: nat): seq<Step>
    requires i < |w.current.ports| && w.current.ports[i].portId in w.ports
  {
    [Read(w.current), Arm(Reader(w.current, w.ports), i),
     Fire(RebindWrite(w.current, w.current.ports[i], w.ports[w.current.ports[i].portId]))]
  }

  lemma ArmStep(w: World, reader: Reader, i: nat)
    requires reader in w.readers && reader.payload == w.current && i < |w.current.ports|
    requires w.current.ports[i].portId in reader.snapshot
    requires MustMove(w.current, w.current.ports[i], reader.snapshot[w.current.ports[i].portId])
    ensures Do(w, Arm(reader, i)) == w.(armed := w.armed +
              {RebindWrite(w.current, w.current.ports[i], reader.snapshot[w.current.ports[i].portId])})
  {
  }

  lemma FireStep(w: World, write: Armed)
    requires write in w.armed && Lands(w.ports, write)
    ensures Do(w, Fire(write)) == w.(ports := Landed(w.ports, write))
  {
  }

  lemma RebindRun(w: World, i: nat)
    requires i < |w.current.ports| && w.current in w.known && w.current.ports[i].portId in w.ports
    requires MustMove(w.current, w.current.ports[i], w.ports[w.current.ports[i].portId])
    ensures var write := RebindWrite(w.current, w.current.ports[i], w.ports[w.current.ports[i].portId]);
            var after := Run(w, RebindSteps(w, i));
            after.current == w.current && after.ports == Landed(w.ports, write)
  {
    var reader := Reader(w.current, w.ports);
    var write := RebindWrite(w.current, w.current.ports[i], w.ports[w.current.ports[i].portId]);
    RunThree(w, Read(w.current), Arm(reader, i), Fire(write));
    var read := Do(w, Read(w.current));
    ArmStep(read, reader, i);
    FireStep(Do(read, Arm(reader, i)), write);
  }

  lemma ReboundIsAtTarget(w: World, i: nat)
    requires Inv(w) && Configured(w) && i < |w.current.ports| && !PortAtTarget(w, i)
    ensures w.current.ports[i].portId in w.ports
    ensures var intent := w.current.ports[i];
            var v := w.ports[intent.portId];
            && MustMove(w.current, intent, v)
            && AtTarget(w.current, intent, Versioned(v.revision + 1, RebindWrite(w.current, intent, v).desired))
  {
    assert GroundedPort(w.current, w.current.ports[i], w.ports);
  }

  /** Main result: from every reachable state, whatever writes are still in flight, a worker of the durable payload can
      bring every manifest port to the target. */
  lemma {:induction false} RelocationCanFinish(w: World, n: nat) returns (steps: seq<Step>)
    requires Inv(w) && Configured(w) && n <= |w.current.ports|
    requires forall i :: 0 <= i < n ==> PortAtTarget(w, i)
    ensures var after := Run(w, steps);
            after.current == w.current && forall i :: 0 <= i < |w.current.ports| ==> PortAtTarget(after, i)
    decreases |w.current.ports| - n
  {
    if n == |w.current.ports| {
      steps := [];
    } else if PortAtTarget(w, n) {
      steps := RelocationCanFinish(w, n + 1);
    } else {
      ReboundIsAtTarget(w, n);
      RebindRun(w, n);
      var next := Run(w, RebindSteps(w, n));
      RunKeepsConfigured(w, RebindSteps(w, n));
      assert Grounded(w.current, w.ports);
      forall i | 0 <= i < n + 1 ensures PortAtTarget(next, i) {
        assert i != n ==> w.current.ports[i].portId != w.current.ports[n].portId;
        assert i != n ==> PortAtTarget(w, i);
      }
      var rest := RelocationCanFinish(next, n + 1);
      RunAppends(w, RebindSteps(w, n), rest);
      steps := RebindSteps(w, n) + rest;
    }
  }

  // ---------------------------------------------------------------- superseding

  lemma {:induction false} MaxGenerationAtMost(ps: seq<Position>, bound: int)
    requires bound >= 0 && forall p :: p in ps ==> p.generation <= bound
    ensures MaxGeneration(ps) <= bound
    decreases |ps|
  {
    if ps != [] {
      assert ps[0] in ps;
      MaxGenerationAtMost(ps[1..], bound);
    }
  }

  /** The fence of the earlier assignment bounds everything the next one inherits. */
  lemma InheritedAreBounded(previous: HaPayload, earlier: HaPort, found: HaPort)
    requires Fenced(previous, earlier) && found.priorGeneration <= earlier.targetGeneration
      && earlier.targetGeneration >= 0
    ensures MaxGeneration(InheritedPositions(previous, earlier, found)) <= earlier.targetGeneration
  {
    var all := PredecessorsOf(earlier) + [TargetPosition(previous, earlier)] + [PriorPosition(found)];
    var positions := InheritedPositions(previous, earlier, found);
    forall p | p in positions ensures p.generation <= earlier.targetGeneration {
      NormalizedDraws(all, p);
      var k :| 0 <= k < |all| && SameSite(all[k], p) && all[k].floor == p.floor;
      assert k < |PredecessorsOf(earlier)| ==> all[k] in PredecessorsOf(earlier);
    }
    MaxGenerationAtMost(positions, earlier.targetGeneration);
  }

  lemma RecordedIsBelowFence(payload: HaPayload, intent: HaPort, v: Versioned)
    requires Fenced(payload, intent) && Recorded(payload, intent, v)
    ensures v.port.generation <= intent.targetGeneration
  {
    if !AtTarget(payload, intent, v) {
      var n :| 0 <= n < |PredecessorsOf(intent)| && MatchesPosition(v, PredecessorsOf(intent)[n]);
      assert PredecessorsOf(intent)[n] in PredecessorsOf(intent);
    }
  }

  lemma SupersedingPortExists(w: World, start: HaStart, nodes: map<string, NodeRef>, i: nat)
    requires Inv(w) && i < |w.current.ports| && w.current.ports[i].portId in w.ports
    requires Attachable(w.ports[w.current.ports[i].portId], nodes, start.target)
    requires 0 <= w.current.ports[i].targetGeneration < MAX_INT64
    ensures SupersedingPort(w.current, w.current.ports[i],
              NewHaPort(w.current.ports[i].portId, w.ports[w.current.ports[i].portId], nodes, start.target),
              start.target).Some?
  {
    var intent := w.current.ports[i];
    assert GroundedPort(w.current, intent, w.ports);
    RecordedIsBelowFence(w.current, intent, w.ports[intent.portId]);
    InheritedAreBounded(w.current, intent, NewHaPort(intent.portId, w.ports[intent.portId], nodes, start.target));
  }

  /** What a newer assignment needs: attachable ports, fences that are not exhausted, and room in the history. */
  predicate Superseding(w: World, start: HaStart, nodes: map<string, NodeRef>) {
    && start.vmid == w.current.vmid && |w.current.history| < MAX_AUTHORITY_HISTORY
    && AllAttachable(ManifestIds(w.current.ports), w.ports, nodes, start.target)
    && forall i :: 0 <= i < |w.current.ports| ==> 0 <= w.current.ports[i].targetGeneration < MAX_INT64
  }

  lemma CanAlwaysSupersede(w: World, start: HaStart, nodes: map<string, NodeRef>)
    requires Inv(w) && Superseding(w, start, nodes)
    ensures CanSupersede(w.current, start, w.ports, nodes)
  {
    forall i | 0 <= i < |w.current.ports|
      ensures ManifestIds(w.current.ports)[i] in w.ports
      ensures SupersedingPort(w.current, w.current.ports[i],
                NewHaPort(w.current.ports[i].portId, w.ports[w.current.ports[i].portId], nodes, start.target),
                start.target).Some?
    {
      assert ManifestIds(w.current.ports)[i] == w.current.ports[i].portId;
      SupersedingPortExists(w, start, nodes, i);
    }
  }

  /** Main result on supersession: in every reachable state a newer assignment of the VM can take the relocation over,
      unless a port is not attachable, a fence is exhausted, or 32 assignments were superseded already. */
  lemma SupersessionIsPossible(w: World, start: HaStart, nodes: map<string, NodeRef>)
    requires Inv(w) && Configured(w) && Superseding(w, start, nodes)
    ensures var after := Run(w, [Read(w.current), Supersede(Reader(w.current, w.ports), start, nodes)]);
            && after.current.targetNodeId == start.target.id && after.current.target == start.target.chassis
            && after.current.proof == start.proof && after.current.history == w.current.history + [w.current.proof]
            && after.ports == w.ports
  {
    var reader := Reader(w.current, w.ports);
    CanAlwaysSupersede(w, start, nodes);
    SnapshotIsInPlace(w);
    RunTwo(w, Read(w.current), Supersede(reader, start, nodes));
    assert Do(w, Read(w.current)) == w.(readers := w.readers + {reader});
  }

  lemma SnapshotIsInPlace(w: World)
    requires Inv(w) && Configured(w)
    ensures SnapshotInPlace(w.current, w.ports)
  {
  }
}
