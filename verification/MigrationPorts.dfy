/** Moving the ports of a migration, one compare-and-swap at a time, and what every crash leaves.

    Ownership checks, store refusals and OVN realization come from outside: at every port an
    `Env` says how they turn out and which agents report just before. */
module MigrationPorts {
  import opened Ports
  import opened Payloads
  import opened Migration

  datatype Env = Env(reports: set<string>, owns: bool, accepts: bool, realizes: bool)

  type Fleet = map<string, Versioned>

  datatype Work = Prepare | Compensate | Finalize | Abort

  // ---------------------------------------------------------------- one port

  /** The position a handler moves a port from. */
  predicate Ready(plan: MigrationPlan, work: Work, intent: MigrationPort, v: Versioned) {
    match work
    case Prepare => AtSource(plan, intent, v)
    case Compensate => AtPrepared(plan, intent, v)
    case Finalize => plan.online && AtPrepared(plan, intent, v)
    case Abort => AtPrepared(plan, intent, v)
  }

  /** The position a handler leaves alone. */
  predicate Done(plan: MigrationPlan, work: Work, intent: MigrationPort, v: Versioned) {
    match work
    case Prepare => AtPrepared(plan, intent, v)
    case Compensate => AtSource(plan, intent, v) || AtReturned(plan, intent, v)
    case Finalize => AtFinal(plan, intent, v)
    case Abort => AtReturned(plan, intent, v)
  }

  function Desired(plan: MigrationPlan, work: Work, intent: MigrationPort, p: Port): Port {
    match work
    case Prepare => PrepareMove(plan, intent, p)
    case Compensate => ReturnMove(plan, p)
    case Finalize => FinishMove(plan, p)
    case Abort => ReturnMove(plan, p)
  }

  /** At most one agent report has arrived in between. */
  predicate Swept(v: Versioned, after: Versioned) {
    after == v || (v.port.status == Binding && after == Versioned(v.revision + 1, Reported(v.port)))
  }

  /** The port was moved from where it was, and possibly reported since. */
  predicate MovedTo(v: Versioned, after: Versioned, desired: Port) {
    after.revision > v.revision && (after.port == desired || after.port == Reported(desired))
  }

  function SweepOne(v: Versioned): Versioned {
    if v.port.status == Binding then Versioned(v.revision + 1, Reported(v.port)) else v
  }

  predicate Moves(plan: MigrationPlan, work: Work, intent: MigrationPort, v: Versioned, after: Versioned) {
    ConfigMatches(v, plan, intent) && Ready(plan, work, intent, v)
      && MovedTo(v, after, Desired(plan, work, intent, v.port))
  }

  /** A handler does nothing to a port, or moves it from the exact position it expects. */
  predicate WorkStep(plan: MigrationPlan, work: Work, intent: MigrationPort, v: Versioned, after: Versioned) {
    Swept(v, after) || Moves(plan, work, intent, v, after) || Moves(plan, work, intent, SweepOne(v), after)
  }

  function Sweep(ports: Fleet, reports: set<string>): Fleet {
    map id | id in ports :: if id in reports then SweepOne(ports[id]) else ports[id]
  }

  lemma SweepOneKeeps(plan: MigrationPlan, work: Work, intent: MigrationPort, v: Versioned, after: Versioned)
    requires WorkStep(plan, work, intent, v, after)
    ensures WorkStep(plan, work, intent, v, SweepOne(after))
    ensures Swept(v, after) ==> Swept(v, SweepOne(after))
    ensures Done(plan, work, intent, after) ==> Done(plan, work, intent, SweepOne(after))
    ensures ConfigMatches(after, plan, intent) ==> ConfigMatches(SweepOne(after), plan, intent)
  {
  }

  /** The move lands at the position the handler is done with. */
  lemma MoveIsDone(plan: MigrationPlan, work: Work, intent: MigrationPort, v: Versioned)
    requires EntryOk(intent) && ConfigMatches(v, plan, intent) && Ready(plan, work, intent, v)
    ensures var after := Versioned(v.revision + 1, Desired(plan, work, intent, v.port));
            && Done(plan, work, intent, after) && ConfigMatches(after, plan, intent)
              && WorkStep(plan, work, intent, v, after)
  {
  }

  // ---------------------------------------------------------------- the whole manifest

  predicate InManifest(plan: MigrationPlan, id: string) {
    exists i :: 0 <= i < |plan.ports| && plan.ports[i].portId == id
  }

  /** Every manifest port did its step or nothing; every other port was at most reported. */
  ghost predicate Outcome(plan: MigrationPlan, work: Work, before: Fleet, after: Fleet) {
    && before.Keys == after.Keys
    && (forall i :: 0 <= i < |plan.ports| && plan.ports[i].portId in before ==>
          WorkStep(plan, work, plan.ports[i], before[plan.ports[i].portId], after[plan.ports[i].portId]))
    && forall id :: id in before && !InManifest(plan, id) ==> Swept(before[id], after[id])
  }

  ghost predicate DoneUpTo(plan: MigrationPlan, work: Work, ports: Fleet, n: nat) {
    forall i :: 0 <= i < n && i < |plan.ports| ==>
      && plan.ports[i].portId in ports && ConfigMatches(ports[plan.ports[i].portId], plan, plan.ports[i])
      && Done(plan, work, plan.ports[i], ports[plan.ports[i].portId])
  }

  ghost predicate UntouchedFrom(plan: MigrationPlan, before: Fleet, after: Fleet, n: nat) {
    forall i :: n <= i < |plan.ports| && plan.ports[i].portId in before && plan.ports[i].portId in after ==>
      Swept(before[plan.ports[i].portId], after[plan.ports[i].portId])
  }

  lemma SweepKeeps(plan: MigrationPlan, work: Work, before: Fleet, ports: Fleet, reports: set<string>, n: nat)
    requires Outcome(plan, work, before, ports) && UntouchedFrom(plan, before, ports, n)
    ensures var after := Sweep(ports, reports);
            && Outcome(plan, work, before, after) && UntouchedFrom(plan, before, after, n)
            && (DoneUpTo(plan, work, ports, n) ==> DoneUpTo(plan, work, after, n))
  {
    var after := Sweep(ports, reports);
    forall i | 0 <= i < |plan.ports| && plan.ports[i].portId in before
      ensures WorkStep(plan, work, plan.ports[i], before[plan.ports[i].portId], after[plan.ports[i].portId])
      ensures ConfigMatches(ports[plan.ports[i].portId], plan, plan.ports[i]) ==>
          ConfigMatches(after[plan.ports[i].portId], plan, plan.ports[i])
      ensures Done(plan, work, plan.ports[i], ports[plan.ports[i].portId]) ==>
          Done(plan, work, plan.ports[i], after[plan.ports[i].portId])
      ensures n <= i ==> Swept(before[plan.ports[i].portId], after[plan.ports[i].portId])
    {
      var id := plan.ports[i].portId;
      SweepOneKeeps(plan, work, plan.ports[i], before[id], ports[id]);
    }
  }

  lemma ReplaceKeeps(plan: MigrationPlan, work: Work, before: Fleet, ports: Fleet, n: nat, v: Versioned)
    requires PlanOk(plan) && n < |plan.ports| && plan.ports[n].portId in before
    requires Outcome(plan, work, before, ports) && UntouchedFrom(plan, before, ports, n)
    requires WorkStep(plan, work, plan.ports[n], before[plan.ports[n].portId], v)
    ensures var after := ports[plan.ports[n].portId := v];
            && Outcome(plan, work, before, after) && UntouchedFrom(plan, before, after, n + 1)
            && forall i :: 0 <= i < |plan.ports| && i != n && plan.ports[i].portId in before ==>
                 after[plan.ports[i].portId] == ports[plan.ports[i].portId]
  {
    var after := ports[plan.ports[n].portId := v];
    forall i | 0 <= i < |plan.ports| && i != n && plan.ports[i].portId in before
      ensures after[plan.ports[i].portId] == ports[plan.ports[i].portId]
    {
      assert plan.ports[i].portId != plan.ports[n].portId;
    }
    forall k | k in before && !InManifest(plan, k) ensures after[k] == ports[k] {
      assert InManifest(plan, plan.ports[n].portId);
    }
  }

  /** Moving the n-th port from what was listed is its step, and finishes it. */
  lemma MoveKeeps(plan: MigrationPlan, work: Work, before: Fleet, ports: Fleet, n: nat)
    requires PlanOk(plan) && n < |plan.ports|
    requires Outcome(plan, work, before, ports) && UntouchedFrom(plan, before, ports, n)
    requires var id := plan.ports[n].portId;
             id in ports && ConfigMatches(ports[id], plan, plan.ports[n]) && Ready(plan, work, plan.ports[n], ports[id])
    ensures var id := plan.ports[n].portId;
            var after := ports[id :=
                               Versioned(ports[id].revision + 1, Desired(plan, work, plan.ports[n], ports[id].port))];
            && Outcome(plan, work, before, after) && UntouchedFrom(plan, before, after, n + 1)
            && (DoneUpTo(plan, work, ports, n) ==> DoneUpTo(plan, work, after, n + 1))
  {
    var id := plan.ports[n].portId;
    assert EntryOk(plan.ports[n]) && id in before;
    MoveIsDone(plan, work, plan.ports[n], ports[id]);
    MoveFollowsReport(plan, work, plan.ports[n], before[id], ports[id]);
    ReplaceKeeps(plan, work, before, ports, n,
                 Versioned(ports[id].revision + 1, Desired(plan, work, plan.ports[n], ports[id].port)));
  }

  /** A move of a port that was reported since it was listed is still one step from the listing. */
  lemma MoveFollowsReport(plan: MigrationPlan, work: Work, intent: MigrationPort, v: Versioned, now: Versioned)
    requires Swept(v, now) && EntryOk(intent) && ConfigMatches(now, plan, intent) && Ready(plan, work, intent, now)
    ensures WorkStep(plan, work, intent, v, Versioned(now.revision + 1, Desired(plan, work, intent, now.port)))
  {
  }

  // ---------------------------------------------------------------- handlers

  function VmPorts(ports: Fleet, vmid: int): set<string> {
    set id | id in ports && ports[id].port.vmid == vmid
  }

  /** loadExactPayloadPorts: the VM has exactly the ports of the manifest. */
  predicate ExactListing(plan: MigrationPlan, ports: Fleet) {
    && |VmPorts(ports, plan.vmid)| == |plan.ports|
    && forall i :: 0 <= i < |plan.ports| ==>
         && plan.ports[i].portId in VmPorts(ports, plan.vmid) && plan.ports[i].portId in ports
         && ports[plan.ports[i].portId].port.nic == plan.ports[i].nic
           && ports[plan.ports[i].portId].port.mac == plan.ports[i].config.mac
  }

  /** Nothing goes wrong from outside. */
  ghost predicate Benign(env: nat -> Env) {
    forall n: nat :: env(n) == Env({}, true, true, true)
  }

  /** Every port is where the handler expects it, moved already or not yet. */
  ghost predicate Resumable(plan: MigrationPlan, work: Work, ports: Fleet) {
    forall i :: 0 <= i < |plan.ports| ==>
      && plan.ports[i].portId in ports && ConfigMatches(ports[plan.ports[i].portId], plan, plan.ports[i])
      && (Ready(plan, work, plan.ports[i], ports[plan.ports[i].portId])
          || Done(plan, work, plan.ports[i], ports[plan.ports[i].portId]))
  }

  ghost predicate UnchangedFrom(plan: MigrationPlan, before: Fleet, after: Fleet, n: nat) {
    forall i :: n <= i < |plan.ports| && plan.ports[i].portId in before && plan.ports[i].portId in after ==>
      before[plan.ports[i].portId] == after[plan.ports[i].portId]
  }

  lemma NoReports(ports: Fleet)
    ensures Sweep(ports, {}) == ports
  {
  }

  /** The handler did nothing to the n-th port, or moved it and nothing else. */
  predicate Handled(plan: MigrationPlan, work: Work, n: nat, before: Fleet, after: Fleet)
    requires n < |plan.ports|
  {
    var intent := plan.ports[n];
    || after == before
    || (&& intent.portId in before && ConfigMatches(before[intent.portId], plan, intent)
        && Ready(plan, work, intent, before[intent.portId])
        && after == before[intent.portId :=
                           Versioned(before[intent.portId].revision + 1,
                                     Desired(plan, work, intent, before[intent.portId].port))])
  }

  predicate PortDone(plan: MigrationPlan, work: Work, n: nat, ports: Fleet)
    requires n < |plan.ports|
  {
    var intent := plan.ports[n];
    intent.portId in ports && ConfigMatches(ports[intent.portId], plan, intent)
      && Done(plan, work, intent, ports[intent.portId])
  }

  predicate PortResumable(plan: MigrationPlan, work: Work, n: nat, v: Versioned)
    requires n < |plan.ports|
  {
    ConfigMatches(v, plan, plan.ports[n]) && (Ready(plan, work, plan.ports[n], v) || Done(plan, work, plan.ports[n], v))
  }

  const Calm := Env({}, true, true, true)

  lemma HandledKeeps(plan: MigrationPlan, work: Work, before: Fleet, was: Fleet, ports: Fleet, n: nat)
    requires PlanOk(plan) && n < |plan.ports| && Handled(plan, work, n, was, ports)
    requires Outcome(plan, work, before, was) && UntouchedFrom(plan, before, was, n)
    ensures Outcome(plan, work, before, ports) && UntouchedFrom(plan, before, ports, n + 1)
    ensures DoneUpTo(plan, work, was, n) && PortDone(plan, work, n, ports) ==> DoneUpTo(plan, work, ports, n + 1)
    ensures UnchangedFrom(plan, before, was, n) ==> UnchangedFrom(plan, before, ports, n + 1)
  {
    if ports != was {
      MoveKeeps(plan, work, before, was, n);
      assert forall i :: n < i < |plan.ports| ==> plan.ports[i].portId != plan.ports[n].portId;
    }
  }

  class Server {
    var ports: Fleet

    method Update(id: string, expected: int, desired: Port, accepts: bool) returns (updated: Option<Versioned>)
      modifies this
      ensures updated.Some? <==> accepts && id in old(ports) && old(ports)[id].revision == expected
      ensures updated.Some? ==>
          updated.value == Versioned(expected + 1, desired) && ports == old(ports)[id := updated.value]
      ensures updated.None? ==> ports == old(ports)
    {
      if accepts && id in ports && ports[id].revision == expected {
        updated := Some(Versioned(expected + 1, desired));
        ports := ports[id := updated.value];
      } else {
        updated := None;
      }
    }

    /** The body of prepareMigrationPorts' loop, on the port as it was listed. */
    method PrepareOne(plan: MigrationPlan, n: nat, current: Versioned, env: Env) returns (ok: bool)
      requires PlanOk(plan) && n < |plan.ports| && plan.ports[n].portId in ports
        && Swept(current, ports[plan.ports[n].portId])
      modifies this
      ensures Handled(plan, Prepare, n, old(ports), ports)
      ensures ok ==> PortDone(plan, Prepare, n, ports)
      ensures (&& env == Calm && PortResumable(plan, Prepare, n, current)
               && old(ports)[plan.ports[n].portId] == current) ==> ok
    {
      var intent := plan.ports[n];
      assert EntryOk(intent);
      if !env.owns || !ConfigMatches(current, plan, intent) {
        return false;
      }
      if At(current.port, PreparedNode(plan), PreparedChassis(plan), intent.generation)
        && BindingReady(current.port.status) {
        return current.revision >= intent.preparedRevision && env.realizes;
      }
      if !AtSource(plan, intent, current) {
        return false;
      }
      var updated := Update(intent.portId, current.revision, PrepareMove(plan, intent, current.port), env.accepts);
      if updated.None? {
        return false;
      }
      MoveIsDone(plan, Prepare, intent, current);
      return env.realizes;
    }

    /** prepareMigrationPorts. */
    method PreparePorts(plan: MigrationPlan, env: nat -> Env) returns (ok: bool)
      requires PlanOk(plan)
      modifies this
      ensures Outcome(plan, Prepare, old(ports), ports)
      ensures ok ==> DoneUpTo(plan, Prepare, ports, |plan.ports|)
      ensures Benign(env) && ExactListing(plan, old(ports)) && Resumable(plan, Prepare, old(ports)) ==> ok
    {
      if !ExactListing(plan, ports) {
        return false;
      }
      var listing := ports;
      for n := 0 to |plan.ports|
        invariant Outcome(plan, Prepare, listing, ports) && UntouchedFrom(plan, listing, ports, n)
            && DoneUpTo(plan, Prepare, ports, n)
        invariant Benign(env) ==> UnchangedFrom(plan, listing, ports, n)
      {
        SweepKeeps(plan, Prepare, listing, ports, env(n).reports, n);
        NoReports(ports);
        ports := Sweep(ports, env(n).reports);
        ghost var was := ports;
        ok := PrepareOne(plan, n, listing[plan.ports[n].portId], env(n));
        HandledKeeps(plan, Prepare, listing, was, ports, n);
        if !ok {
          return;
        }
      }
      return true;
    }

    /** The body of compensateMigrationPorts' loop after the ownership check: it loads the port itself. */
    method CompensateOne(plan: MigrationPlan, n: nat, env: Env) returns (ok: bool)
      requires PlanOk(plan) && n < |plan.ports|
      modifies this
      ensures Handled(plan, Compensate, n, old(ports), ports)
      ensures ok ==> PortDone(plan, Compensate, n, ports)
      ensures (&& env == Calm && plan.ports[n].portId in old(ports)
               && PortResumable(plan, Compensate, n, old(ports)[plan.ports[n].portId])) ==> ok
    {
      var intent := plan.ports[n];
      assert EntryOk(intent);
      if intent.portId !in ports {
        return false;
      }
      var current := ports[intent.portId];
      if ConfigMatches(current, plan, intent)
        && (AtSource(plan, intent, current) || AtReturned(plan, intent, current)) {
        return env.realizes;
      }
      if !ConfigMatches(current, plan, intent) || !AtPrepared(plan, intent, current) {
        return false;
      }
      var updated := Update(intent.portId, current.revision, ReturnMove(plan, current.port), env.accepts);
      if updated.None? {
        return false;
      }
      MoveIsDone(plan, Compensate, intent, current);
      return env.realizes;
    }

    /** compensateMigrationPorts: goes on after a failure, stops when it no longer owns the operation. */
    method CompensatePorts(plan: MigrationPlan, env: nat -> Env) returns (failures: seq<string>)
      requires PlanOk(plan)
      modifies this
      ensures Outcome(plan, Compensate, old(ports), ports)
      ensures failures == [] ==> DoneUpTo(plan, Compensate, ports, |plan.ports|)
      ensures Benign(env) && Resumable(plan, Compensate, old(ports)) ==> failures == []
    {
      failures := [];
      ghost var before := ports;
      for n := 0 to |plan.ports|
        invariant Outcome(plan, Compensate, before, ports) && UntouchedFrom(plan, before, ports, n)
        invariant failures == [] ==> DoneUpTo(plan, Compensate, ports, n)
        invariant Benign(env) ==> UnchangedFrom(plan, before, ports, n)
        invariant Benign(env) && Resumable(plan, Compensate, before) ==> failures == []
      {
        SweepKeeps(plan, Compensate, before, ports, env(n).reports, n);
        NoReports(ports);
        ports := Sweep(ports, env(n).reports);
        if !env(n).owns {
          failures := failures + ["migration ownership"];
          return;
        }
        ghost var was := ports;
        var ok := CompensateOne(plan, n, env(n));
        HandledKeeps(plan, Compensate, before, was, ports, n);
        if !ok {
          failures := failures + [plan.ports[n].portId];
        }
      }
    }

    /** The body of finishMigrationPorts' loop, on the port as it was listed. */
    method FinishOne(plan: MigrationPlan, abort: bool, n: nat, current: Versioned, env: Env) returns (ok: bool)
      requires PlanOk(plan) && n < |plan.ports| && plan.ports[n].portId in ports
        && Swept(current, ports[plan.ports[n].portId])
      modifies this
      ensures Handled(plan, if abort then Abort else Finalize, n, old(ports), ports)
      ensures ok ==> PortDone(plan, if abort then Abort else Finalize, n, ports)
      ensures (&& env == Calm && PortResumable(plan, if abort then Abort else Finalize, n, current)
               && old(ports)[plan.ports[n].portId] == current) ==> ok
    {
      var intent := plan.ports[n];
      assert EntryOk(intent);
      var work := if abort then Abort else Finalize;
      var nodeId := if abort then plan.sourceNodeId else plan.targetNodeId;
      var chassis := if abort then plan.source else plan.target;
      if !env.owns || !ConfigMatches(current, plan, intent) || current.port.generation != intent.generation {
        return false;
      }
      if current.port.nodeId == nodeId && current.port.chassis == [chassis] && BindingReady(current.port.status) {
        return current.revision >= (if !plan.online && !abort then intent.preparedRevision else intent.finalRevision)
          && env.realizes;
      }
      if !AtPrepared(plan, intent, current) {
        return false;
      }
      var updated := Update(intent.portId, current.revision,
                            Moved(current.port, nodeId, [chassis], current.port.generation), env.accepts);
      if updated.None? {
        return false;
      }
      MoveIsDone(plan, work, intent, current);
      return env.realizes;
    }

    /** finishMigrationPorts. */
    method FinishPorts(plan: MigrationPlan, abort: bool, env: nat -> Env) returns (ok: bool)
      requires PlanOk(plan)
      modifies this
      ensures Outcome(plan, if abort then Abort else Finalize, old(ports), ports)
      ensures ok ==> DoneUpTo(plan, if abort then Abort else Finalize, ports, |plan.ports|)
      ensures (&& Benign(env) && ExactListing(plan, old(ports))
               && Resumable(plan, if abort then Abort else Finalize, old(ports))) ==> ok
    {
      if !ExactListing(plan, ports) {
        return false;
      }
      var listing := ports;
      var work := if abort then Abort else Finalize;
      for n := 0 to |plan.ports|
        invariant Outcome(plan, work, listing, ports) && UntouchedFrom(plan, listing, ports, n)
            && DoneUpTo(plan, work, ports, n)
        invariant Benign(env) ==> UnchangedFrom(plan, listing, ports, n)
      {
        SweepKeeps(plan, work, listing, ports, env(n).reports, n);
        NoReports(ports);
        ports := Sweep(ports, env(n).reports);
        ghost var was := ports;
        ok := FinishOne(plan, abort, n, listing[plan.ports[n].portId], env(n));
        HandledKeeps(plan, work, listing, was, ports, n);
        if !ok {
          return;
        }
      }
      return true;
    }
  }
}
