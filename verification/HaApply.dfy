/** Rebinding the ports of a relocation: the loop of applyHAPorts, one compare-and-swap per port. */
module HaApply {
  import opened Ports
  import opened Payloads
  import opened HaRebind
  import opened MigrationPorts
  import HaChain

  /** The port was left alone, or rebound from a recorded position exactly as its payload says. */
  predicate RebindStep(payload: HaPayload, intent: HaPort, v: Versioned, after: Versioned) {
    || Swept(v, after)
    || (HaChain.MustMove(payload, intent, v) && MovedTo(v, after, HaChain.RebindWrite(payload, intent, v).desired))
  }

  predicate Rebound(payload: HaPayload, intent: HaPort, v: Versioned) {
    HaChain.ConfigMatches(v, payload.vmid, intent) && AtTarget(payload, intent, v)
  }

  predicate Listed(payload: HaPayload, id: string) {
    exists i :: 0 <= i < |payload.ports| && payload.ports[i].portId == id
  }

  predicate DistinctPorts(payload: HaPayload) {
    forall i, j :: 0 <= i < j < |payload.ports| ==> payload.ports[i].portId != payload.ports[j].portId
  }

  ghost predicate Outcome(payload: HaPayload, before: Fleet, after: Fleet) {
    && before.Keys == after.Keys
    && (forall i :: 0 <= i < |payload.ports| && payload.ports[i].portId in before ==>
          RebindStep(payload, payload.ports[i], before[payload.ports[i].portId], after[payload.ports[i].portId]))
    && forall id :: id in before && !Listed(payload, id) ==> Swept(before[id], after[id])
  }

  ghost predicate ReboundUpTo(payload: HaPayload, ports: Fleet, n: nat) {
    forall i :: 0 <= i < n && i < |payload.ports| ==>
      payload.ports[i].portId in ports && Rebound(payload, payload.ports[i], ports[payload.ports[i].portId])
  }

  ghost predicate UntouchedFrom(payload: HaPayload, before: Fleet, after: Fleet, n: nat) {
    forall i :: n <= i < |payload.ports| && payload.ports[i].portId in before && payload.ports[i].portId in after ==>
      Swept(before[payload.ports[i].portId], after[payload.ports[i].portId])
  }

  lemma SweepOneKeeps(payload: HaPayload, intent: HaPort, v: Versioned, after: Versioned)
    requires RebindStep(payload, intent, v, after)
    ensures RebindStep(payload, intent, v, SweepOne(after))
    ensures Swept(v, after) ==> Swept(v, SweepOne(after))
    ensures Rebound(payload, intent, after) ==> Rebound(payload, intent, SweepOne(after))
  {
  }

  lemma SweepKeeps(payload: HaPayload, before: Fleet, ports: Fleet, reports: set<string>, n: nat)
    requires Outcome(payload, before, ports) && UntouchedFrom(payload, before, ports, n)
      && ReboundUpTo(payload, ports, n)
    ensures var after := Sweep(ports, reports);
            Outcome(payload, before, after) && UntouchedFrom(payload, before, after, n)
              && ReboundUpTo(payload, after, n)
  {
    var after := Sweep(ports, reports);
    forall i | 0 <= i < |payload.ports| && payload.ports[i].portId in before
      ensures RebindStep(payload, payload.ports[i], before[payload.ports[i].portId], after[payload.ports[i].portId])
      ensures Rebound(payload, payload.ports[i], ports[payload.ports[i].portId]) ==>
          Rebound(payload, payload.ports[i], after[payload.ports[i].portId])
      ensures n <= i ==> Swept(before[payload.ports[i].portId], after[payload.ports[i].portId])
    {
      SweepOneKeeps(payload, payload.ports[i], before[payload.ports[i].portId], ports[payload.ports[i].portId]);
    }
  }

  lemma RebindKeeps(payload: HaPayload, before: Fleet, ports: Fleet, n: nat, v: Versioned)
    requires DistinctPorts(payload) && n < |payload.ports| && payload.ports[n].portId in before
    requires Outcome(payload, before, ports) && UntouchedFrom(payload, before, ports, n)
      && ReboundUpTo(payload, ports, n)
    requires RebindStep(payload, payload.ports[n], before[payload.ports[n].portId], v)
    ensures var after := ports[payload.ports[n].portId := v];
            && Outcome(payload, before, after) && UntouchedFrom(payload, before, after, n + 1)
            && (Rebound(payload, payload.ports[n], v) ==> ReboundUpTo(payload, after, n + 1))
  {
    var after := ports[payload.ports[n].portId := v];
    forall i | 0 <= i < |payload.ports| && i != n && payload.ports[i].portId in before
      ensures after[payload.ports[i].portId] == ports[payload.ports[i].portId]
    {
      assert payload.ports[i].portId != payload.ports[n].portId;
    }
    forall k | k in before && !Listed(payload, k) ensures after[k] == ports[k] {
      assert Listed(payload, payload.ports[n].portId);
    }
  }

  /** Nothing happened, or the n-th port was rebound from what was listed. */
  predicate Handled(payload: HaPayload, n: nat, listed: Versioned, before: Fleet, after: Fleet)
    requires n < |payload.ports|
  {
    var intent := payload.ports[n];
    || after == before
    || (HaChain.MustMove(payload, intent, listed) && intent.portId in before && before[intent.portId] == listed
        && after == before[intent.portId :=
                           Versioned(listed.revision + 1, HaChain.RebindWrite(payload, intent, listed).desired)])
  }

  lemma HandledKeeps(payload: HaPayload, before: Fleet, was: Fleet, ports: Fleet, n: nat)
    requires DistinctPorts(payload) && n < |payload.ports| && payload.ports[n].portId in before
    requires Outcome(payload, before, was) && UntouchedFrom(payload, before, was, n) && ReboundUpTo(payload, was, n)
    requires Handled(payload, n, before[payload.ports[n].portId], was, ports)
    ensures Outcome(payload, before, ports) && UntouchedFrom(payload, before, ports, n + 1)
      && payload.ports[n].portId in ports
    ensures Rebound(payload, payload.ports[n], ports[payload.ports[n].portId]) ==> ReboundUpTo(payload, ports, n + 1)
    ensures UnchangedFrom(payload, before, was, n) ==> UnchangedFrom(payload, before, ports, n + 1)
  {
    if ports != was {
      assert forall i :: n < i < |payload.ports| ==> payload.ports[i].portId != payload.ports[n].portId;
      RebindKeeps(payload, before, was, n, ports[payload.ports[n].portId]);
    }
  }

  /** The body of applyHAPorts' loop, on the port as it was listed. */
  method RebindOne(server: Server, payload: HaPayload, n: nat, current: Versioned, env: Env) returns (ok: bool)
    requires n < |payload.ports| && payload.ports[n].portId in server.ports
      && Swept(current, server.ports[payload.ports[n].portId])
    modifies server
    ensures Handled(payload, n, current, old(server.ports), server.ports)
    ensures AtTarget(payload, payload.ports[n], current) ==> server.ports == old(server.ports)
    ensures server.ports != old(server.ports) ==>
              server.ports == old(server.ports)[payload.ports[n].portId :=
                Versioned(current.revision + 1,
                          current.port.(nodeId := payload.targetNodeId, chassis := [payload.target], status := Binding,
                                        generation := payload.ports[n].targetGeneration))]
    ensures ok ==>
        payload.ports[n].portId in server.ports
          && Rebound(payload, payload.ports[n], server.ports[payload.ports[n].portId])
    ensures (&& env == Calm && old(server.ports)[payload.ports[n].portId] == current
             && HaChain.Resumable(payload, payload.ports[n], current)) ==> ok
  {
    var intent := payload.ports[n];
    if !env.owns || !HaChain.ConfigMatches(current, payload.vmid, intent) {
      return false;
    }
    if AtTarget(payload, intent, current) {
      return env.realizes;
    }
    if !AtPredecessor(intent, current) {
      return false;
    }
    var updated := server.Update(intent.portId, current.revision,
                                 HaChain.RebindWrite(payload, intent, current).desired, env.accepts);
    return updated.Some? && updated.value.revision >= intent.targetRevision && env.realizes;
  }

  ghost predicate AllResumable(payload: HaPayload, ports: Fleet) {
    forall i :: 0 <= i < |payload.ports| ==>
      && payload.ports[i].portId in ports
      && HaChain.Resumable(payload, payload.ports[i], ports[payload.ports[i].portId])
  }

  ghost predicate UnchangedFrom(payload: HaPayload, before: Fleet, after: Fleet, n: nat) {
    forall i :: n <= i < |payload.ports| && payload.ports[i].portId in before && payload.ports[i].portId in after ==>
      before[payload.ports[i].portId] == after[payload.ports[i].portId]
  }

  /** applyHAPorts: a success leaves every port of the manifest at the target with its configuration; a failure
      anywhere leaves each one where it was or rebound from a recorded position.  Undisturbed it succeeds on every
      state it can resume. */
  method ApplyPorts(server: Server, payload: HaPayload, env: nat -> Env) returns (ok: bool)
    requires DistinctPorts(payload)
    modifies server
    ensures Outcome(payload, old(server.ports), server.ports)
    ensures ok ==> ReboundUpTo(payload, server.ports, |payload.ports|)
    ensures (&& Benign(env) && |VmPorts(old(server.ports), payload.vmid)| == |payload.ports|
             && AllResumable(payload, old(server.ports))) ==> ok
  {
    var listing := server.ports;
    if |VmPorts(listing, payload.vmid)| != |payload.ports| {
      return false;
    }
    for n := 0 to |payload.ports|
      invariant Outcome(payload, listing, server.ports) && UntouchedFrom(payload, listing, server.ports, n)
      invariant ReboundUpTo(payload, server.ports, n)
      invariant Benign(env) ==> UnchangedFrom(payload, listing, server.ports, n)
    {
      var id := payload.ports[n].portId;
      SweepKeeps(payload, listing, server.ports, env(n).reports, n);
      NoReports(server.ports);
      server.ports := Sweep(server.ports, env(n).reports);
      if id !in listing {
        return false;
      }
      ghost var was := server.ports;
      ok := RebindOne(server, payload, n, listing[id], env(n));
      HandledKeeps(payload, listing, was, server.ports, n);
      if !ok {
        return;
      }
    }
    return true;
  }
}
