/** Template and destroy: the ports of a VM are detached, and given back if the transaction is aborted.

    The handlers below are clients of the control store.  Tokens are the idempotency keys they use;
    `realizes` says for which rows the OVN reconciliation succeeds. */
module SourcePorts {
  import opened Ports
  import opened Payloads
  import opened Model
  import opened Store
  import opened Replays
  import opened MemoryStore

  function PortKey(id: string): Key { Key(KindPort, id) }
  function AllocationKey(id: string): Key { Key(KindIPAllocation, id) }

  // ---------------------------------------------------------------- the manifest

  predicate Names(row: Row, portId: string) {
    row.body.IPAllocation? && row.body.portId == portId
  }

  predicate Tombstoned(row: Row) {
    row.meta.state == Deleting || row.meta.state == Error
  }

  /** The allocation is in use for one of the fixed IPs. */
  predicate Serves(b: Body, fixed: seq<FixedIP>) {
    b.IPAllocation? && b.allocation == Allocated &&
    exists i :: 0 <= i < |fixed| && b.subnetId == fixed[i].subnetId && b.address == fixed[i].address
  }

  function AllocationsNaming(rows: Rows, portId: string): set<Key> {
    set k | k in rows && k.kind == KindIPAllocation && Names(rows[k], portId)
  }

  /** sourcePortManifest. */
  function ManifestOf(rows: Rows, id: string): Option<SourcePort> {
    if PortKey(id) !in rows || !rows[PortKey(id)].body.PortBody? then None
    else
      var row := rows[PortKey(id)];
      var p := row.body.port;
      var named := AllocationsNaming(rows, id);
      if (exists k :: k in named && (Tombstoned(rows[k]) || !Serves(rows[k].body, p.fixedIPs)))
        || |named| != |p.fixedIPs| then None
      else Some(SourcePort(id, p.nic, p.mac, p.networkId, p.fixedIPs, multiset(p.groups), p.lspName,
                           (map k | k in named :: k.id := rows[k].meta.revision),
                           p.nodeId, p.chassis, p.status, row.meta.revision, p.generation))
  }

  predicate ImmutableMatches(p: Port, e: SourcePort) {
    && p.networkId == e.networkId && p.lspName == e.lspName && p.mac == e.mac && p.fixedIPs == e.fixedIPs
    && multiset(p.groups) == e.groups
  }

  predicate Attached(row: Row, vmid: int, e: SourcePort, restored: bool) {
    && row.body.PortBody? && ImmutableMatches(row.body.port, e) && row.body.port.vmid == vmid
      && row.body.port.nic == e.nic
    && At(row.body.port, e.sourceNodeId, e.sourceChassis,
          if restored then e.sourceGeneration + 2 else e.sourceGeneration)
    && row.body.port.status == e.sourceStatus
    && row.meta.revision == if restored then e.sourceRevision + 2 else e.sourceRevision
  }

  predicate DetachedShape(row: Row, e: SourcePort) {
    && row.body.PortBody? && ImmutableMatches(row.body.port, e) && row.body.port.status == Unbound
      && row.body.port.vmid == 0
    && row.body.port.nic == "" && At(row.body.port, "", [], e.sourceGeneration + 1)
  }

  predicate Detached(row: Row, e: SourcePort) {
    DetachedShape(row, e) && row.meta.revision == e.sourceRevision + 1
  }

  predicate AllocationRevisionMatches(row: Row, expected: int, allowDeleting: bool) {
    if Tombstoned(row) then allowDeleting && row.meta.revision == expected + 1 else row.meta.revision == expected
  }

  /** validateSourceAllocations. */
  predicate AllocationsOk(rows: Rows, e: SourcePort, allowMissing: bool) {
    && (forall id :: id in e.allocations ==>
          if AllocationKey(id) !in rows then allowMissing
          else && Names(rows[AllocationKey(id)], e.portId) && Serves(rows[AllocationKey(id)].body, e.fixedIPs)
               && AllocationRevisionMatches(rows[AllocationKey(id)], e.allocations[id], allowMissing))
    && forall k :: k in AllocationsNaming(rows, e.portId) ==>
         && k.id in e.allocations && Serves(rows[k].body, e.fixedIPs)
         && AllocationRevisionMatches(rows[k], e.allocations[k.id], allowMissing)
  }

  /** While a port is in use its allocations are exactly the recorded ones, at the recorded revisions. */
  lemma AllocationsOkIff(rows: Rows, e: SourcePort)
    ensures AllocationsOk(rows, e, false) <==>
              && (forall k: Key :: k.kind == KindIPAllocation ==>
                    (k.id in e.allocations <==> k in AllocationsNaming(rows, e.portId)))
              && forall k :: k in AllocationsNaming(rows, e.portId) ==>
                   && k.id in e.allocations && rows[k].meta.revision == e.allocations[k.id]
                   && rows[k].meta.state != Deleting && rows[k].meta.state != Error && Serves(rows[k].body, e.fixedIPs)
  {
    if AllocationsOk(rows, e, false) {
      forall k: Key | k.kind == KindIPAllocation
        && k.id in e.allocations ensures k in AllocationsNaming(rows, e.portId) {
        assert k == AllocationKey(k.id);
      }
    } else if forall k: Key :: k.kind == KindIPAllocation ==>
        (k.id in e.allocations <==> k in AllocationsNaming(rows, e.portId)) {
      forall id | id in e.allocations ensures AllocationKey(id) in AllocationsNaming(rows, e.portId) {
        assert AllocationKey(id).kind == KindIPAllocation;
      }
    }
  }

  /** On the way out an allocation may be gone, or deleting one revision later; no other allocation names the port. */
  lemma LeavingAllocations(rows: Rows, e: SourcePort, k: Key)
    requires AllocationsOk(rows, e, true) && k in AllocationsNaming(rows, e.portId)
    ensures k.id in e.allocations && Serves(rows[k].body, e.fixedIPs)
    ensures rows[k].meta.revision ==
            e.allocations[k.id] + if rows[k].meta.state == Deleting || rows[k].meta.state == Error then 1 else 0
  {
  }

  /** A fresh manifest describes the attachment and the allocations as they are. */
  lemma ManifestDescribes(rows: Rows, id: string)
    requires ManifestOf(rows, id).Some?
    ensures var e := ManifestOf(rows, id).value;
            && Attached(rows[PortKey(id)], rows[PortKey(id)].body.port.vmid, e, false)
            && AllocationsOk(rows, e, false)
            && forall k: Key :: k.kind == KindIPAllocation ==>
                (k.id in e.allocations <==> k in AllocationsNaming(rows, id))
  {
    var e := ManifestOf(rows, id).value;
    var named := AllocationsNaming(rows, id);
    forall k: Key | k.kind == KindIPAllocation ensures k.id in e.allocations <==> k in named {
      if k.id in e.allocations {
        var l :| l in named && l.id == k.id;
        assert l == k;
      }
    }
    forall a | a in e.allocations ensures AllocationKey(a) in named {
      assert AllocationKey(a).id in e.allocations;
    }
  }

  /** A manifest is taken exactly of a stored port whose allocations are in use for its fixed IPs, none of them being
      deleted or failed, as many as there are fixed IPs. */
  lemma ManifestIff(rows: Rows, id: string)
    ensures ManifestOf(rows, id).Some? <==>
              && PortKey(id) in rows && rows[PortKey(id)].body.PortBody?
              && |AllocationsNaming(rows, id)| == |rows[PortKey(id)].body.port.fixedIPs|
              && forall k :: k in AllocationsNaming(rows, id) ==>
                   && rows[k].meta.state != Deleting && rows[k].meta.state != Error
                   && rows[k].body.allocation == Allocated
                   && exists i :: 0 <= i < |rows[PortKey(id)].body.port.fixedIPs|
                        && rows[PortKey(id)].body.port.fixedIPs[i].subnetId == rows[k].body.subnetId
                        && rows[PortKey(id)].body.port.fixedIPs[i].address == rows[k].body.address
  {
    if PortKey(id) in rows && rows[PortKey(id)].body.PortBody? {
      var fixed := rows[PortKey(id)].body.port.fixedIPs;
      forall k | k in AllocationsNaming(rows, id)
        ensures Serves(rows[k].body, fixed) <==>
                  rows[k].body.allocation == Allocated
                  && exists i :: 0 <= i < |fixed| && fixed[i].subnetId == rows[k].body.subnetId
                                 && fixed[i].address == rows[k].body.address
      {
      }
    }
  }

  // ---------------------------------------------------------------- detaching and restoring one port

  function DetachedPort(e: SourcePort, p: Port): Port {
    p.(nodeId := "", vmid := 0, nic := "", chassis := [], status := Unbound, generation := e.sourceGeneration + 1)
  }

  function RestoredPort(e: SourcePort, vmid: int, p: Port): Port {
    p.(nodeId := e.sourceNodeId, vmid := vmid, nic := e.nic, chassis := e.sourceChassis, status := e.sourceStatus,
       generation := e.sourceGeneration + 2)
  }

  /** The detached and the restored form are recognized exactly: they are what the moves make of a port with the
      configuration of the manifest, one and two revisions after the source. */
  lemma FormsAreExact(row: Row, vmid: int, e: SourcePort)
    ensures Detached(row, e) <==>
              && row.meta.revision == e.sourceRevision + 1 && row.body.PortBody?
              && exists p :: ImmutableMatches(p, e) && row.body.port == DetachedPort(e, p)
    ensures Attached(row, vmid, e, true) <==>
              && row.meta.revision == e.sourceRevision + 2 && row.body.PortBody?
              && exists p :: ImmutableMatches(p, e) && row.body.port == RestoredPort(e, vmid, p)
    ensures Attached(row, vmid, e, false) <==>
              && row.meta.revision == e.sourceRevision && row.body.PortBody?
              && exists p :: ImmutableMatches(p, e)
                   && row.body.port == RestoredPort(e, vmid, p).(generation := e.sourceGeneration)
  {
    if Detached(row, e) {
      assert row.body.port == DetachedPort(e, row.body.port);
    }
    if Attached(row, vmid, e, true) {
      assert row.body.port == RestoredPort(e, vmid, row.body.port);
    }
    if Attached(row, vmid, e, false) {
      assert row.body.port == RestoredPort(e, vmid, row.body.port).(generation := e.sourceGeneration);
    }
  }

  /** Restoring gives back the exact port, two generations later. */
  lemma RestoreUndoesDetach(rows: Rows, id: string)
    requires ManifestOf(rows, id).Some?
    ensures var e, p := ManifestOf(rows, id).value, rows[PortKey(id)].body.port;
            RestoredPort(e, p.vmid, DetachedPort(e, p)) == p.(generation := p.generation + 2)
  {
  }

  /** What stored ports satisfy, and so manifests of stored ports. */
  predicate SourceOk(e: SourcePort) {
    e.portId != "" && e.lspName != "" && e.sourceGeneration >= 1 && e.sourceStatus != Unset && e.sourceRevision >= 1
  }

  /** The port is what it was, or one of the two moves away, exactly. */
  ghost predicate Stage(e: SourcePort, vmid: int, p: Port, row: Row) {
    && row.body.PortBody?
    && var q := row.body.port;
       || (row.meta.revision == e.sourceRevision && q == p)
       || (row.meta.revision == e.sourceRevision + 1 && q == DetachedPort(e, p))
       || (row.meta.revision == e.sourceRevision + 2 && q == RestoredPort(e, vmid, DetachedPort(e, p)))
  }

  ghost predicate StageKept(e: SourcePort, vmid: int, before: Rows, after: Rows) {
    PortKey(e.portId) in before ==>
      && PortKey(e.portId) in after
      && forall p :: Stage(e, vmid, p, before[PortKey(e.portId)]) ==> Stage(e, vmid, p, after[PortKey(e.portId)])
  }

  /** Every row but the touched ones is the same. */
  ghost predicate SameElsewhere(before: Rows, after: Rows, touched: set<Key>) {
    forall k :: k !in touched ==> (k in before <==> k in after) && (k in before ==> before[k] == after[k])
  }

  /** Nothing happened, or the row got its next revision with the given port in it. */
  ghost predicate Stored(before: Rows, after: Rows, key: Key, port: Port) {
    || after == before
    || (key in before && key in after && after == before[key := after[key]]
        && after[key].body == PortBody(port) && after[key].meta.revision == before[key].meta.revision + 1)
  }

  ghost predicate SameAllocations(before: Rows, after: Rows) {
    forall k: Key :: k.kind == KindIPAllocation ==>
        (k in before <==> k in after) && (k in before ==> before[k] == after[k])
  }

  lemma SameNaming(before: Rows, after: Rows, portId: string)
    requires SameAllocations(before, after)
    ensures AllocationsNaming(after, portId) == AllocationsNaming(before, portId)
  {
  }

  lemma AllocationsStay(before: Rows, after: Rows, e: SourcePort, allowMissing: bool)
    requires SameAllocations(before, after) && AllocationsOk(before, e, allowMissing)
    ensures AllocationsOk(after, e, allowMissing)
  {
    SameNaming(before, after, e.portId);
    forall id | id in e.allocations
      && AllocationKey(id) in after
      ensures after[AllocationKey(id)] == before[AllocationKey(id)]
    {
    }
  }

  const NoMeta := Meta(0, 0, Pending, "", 0, 0)

  function WriteScope(id: string, token: string): Scope { Scope(Updating, PortKey(id), token) }

  /** The store has nothing against the port at the revision just read. */
  ghost predicate Fits(r: Rules, rows: Rows, id: string, desired: Port)
    requires PortKey(id) in rows
  {
    && id != ""
    && UpdateError(r, rows, Submission(id, NoMeta, PortBody(desired)), rows[PortKey(id)].meta.revision).None?
  }

  /** At most the given record is new; it is of an update at the given revision. */
  ghost predicate Recorded(before: State, after: State, scope: Scope, expected: int) {
    forall sc :: sc in after.replays && !(sc in before.replays && after.replays[sc] == before.replays[sc]) ==>
      sc == scope && after.replays[sc].request.UpdateRequest? && after.replays[sc].request.expected == expected
  }

  /** store.Update of a port at the revision just loaded. */
  method WritePort(store: Memory, id: string, desired: Port, token: string, now: int) returns (ok: bool)
    requires ReplaysBehind(store.Current()) && PortKey(id) in store.resources
    requires desired.status != Unset && desired.generation != 0 && desired.lspName != ""
    modifies store
    ensures ReplaysBehind(store.Current())
    ensures Stored(old(store.resources), store.resources, PortKey(id), desired)
    ensures ok <==> PortKey(id) in store.resources && store.resources != old(store.resources)
    ensures Fits(store.rules, old(store.resources), id, desired) && WriteScope(id, token) !in old(store.idempotency) ==>
              ok
    ensures Recorded(old(store.Current()), store.Current(), WriteScope(id, token),
                     old(store.resources)[PortKey(id)].meta.revision)
  {
    var sub := Submission(id, NoMeta, PortBody(desired));
    UpdateIsCompareAndSwap(store.rules, store.Current(), sub, token, now);
    var result := store.Update(sub, store.resources[PortKey(id)].meta.revision, token, now);
    assert WithDefaults(id, PortBody(desired)) == PortBody(desired);
    return result.Ok?;
  }

  /** The port can be detached, or is: nothing but the store itself could refuse. */
  ghost predicate CanDetach(rows: Rows, vmid: int, e: SourcePort) {
    && PortKey(e.portId) in rows && AllocationsOk(rows, e, false)
    && (Attached(rows[PortKey(e.portId)], vmid, e, false) || Detached(rows[PortKey(e.portId)], e))
  }

  /** The store has nothing against the move of a port that still has to be detached. */
  ghost predicate FitsDetached(r: Rules, rows: Rows, vmid: int, e: SourcePort) {
    PortKey(e.portId) in rows && Attached(rows[PortKey(e.portId)], vmid, e, false) ==>
      Fits(r, rows, e.portId, DetachedPort(e, rows[PortKey(e.portId)].body.port))
  }

  /** The store has nothing against the move of a port that still has to be restored. */
  ghost predicate FitsRestored(r: Rules, rows: Rows, vmid: int, e: SourcePort) {
    PortKey(e.portId) in rows && Detached(rows[PortKey(e.portId)], e) ==>
      Fits(r, rows, e.portId, RestoredPort(e, vmid, rows[PortKey(e.portId)].body.port))
  }

  /** The token was used for the write at the given revision only. */
  ghost predicate Reserved(s: State, id: string, token: string, expected: int) {
    WriteScope(id, token) in s.replays ==>
      && s.replays[WriteScope(id, token)].request.UpdateRequest?
      && s.replays[WriteScope(id, token)].request.expected == expected
  }

  /** A token that is still to be used is not in the replay table. */
  lemma ReservedIsUnused(s: State, id: string, token: string, expected: int)
    requires ReplaysBehind(s) && Reserved(s, id, token, expected)
    requires PortKey(id) in s.rows && s.rows[PortKey(id)].meta.revision == expected
    ensures WriteScope(id, token) !in s.replays
  {
  }

  method DetachOne(store: Memory, vmid: int, e: SourcePort, token: string, now: int, realizes: bool) returns (ok: bool)
    requires ReplaysBehind(store.Current()) && SourceOk(e)
    modifies store
    ensures ReplaysBehind(store.Current())
    ensures SameElsewhere(old(store.resources), store.resources, {PortKey(e.portId)})
    ensures StageKept(e, vmid, old(store.resources), store.resources)
    ensures store.resources != old(store.resources) ==>
              && CanDetach(old(store.resources), vmid, e)
              && Attached(old(store.resources)[PortKey(e.portId)], vmid, e, false)
    ensures ok ==> PortKey(e.portId) in store.resources && Detached(store.resources[PortKey(e.portId)], e)
                   && AllocationsOk(store.resources, e, false)
    ensures (&& CanDetach(old(store.resources), vmid, e) && realizes
             && FitsDetached(store.rules, old(store.resources), vmid, e)
             && Reserved(old(store.Current()), e.portId, token, e.sourceRevision)) ==> ok
    ensures Recorded(old(store.Current()), store.Current(), WriteScope(e.portId, token), e.sourceRevision)
  {
    var key := PortKey(e.portId);
    if key !in store.resources || !AllocationsOk(store.resources, e, false) {
      return false;
    }
    var row := store.resources[key];
    if Detached(row, e) {
      return realizes;
    }
    if !Attached(row, vmid, e, false) {
      return false;
    }
    ghost var before := store.resources;
    if Reserved(store.Current(), e.portId, token, e.sourceRevision) {
      ReservedIsUnused(store.Current(), e.portId, token, e.sourceRevision);
    }
    var written := WritePort(store, e.portId, DetachedPort(e, row.body.port), token, now);
    AllocationsStay(before, store.resources, e, false);
    return written && realizes;
  }

  method RestoreOne(store: Memory, vmid: int, e: SourcePort, token: string, now: int, realizes: bool) returns (ok: bool)
    requires ReplaysBehind(store.Current()) && SourceOk(e)
    modifies store
    ensures ReplaysBehind(store.Current())
    ensures SameElsewhere(old(store.resources), store.resources, {PortKey(e.portId)})
    ensures StageKept(e, vmid, old(store.resources), store.resources)
    ensures store.resources != old(store.resources) ==>
              && CanRestore(old(store.resources), vmid, e)
              && Detached(old(store.resources)[PortKey(e.portId)], e)
    ensures ok ==> GivenBack(store.resources, vmid, e)
    ensures GivenBack(old(store.resources), vmid, e) ==> store.resources == old(store.resources) && ok == realizes
    ensures (&& CanRestore(old(store.resources), vmid, e) && realizes
             && FitsRestored(store.rules, old(store.resources), vmid, e)
             && Reserved(old(store.Current()), e.portId, token, e.sourceRevision + 1)) ==> ok
    ensures Recorded(old(store.Current()), store.Current(), WriteScope(e.portId, token), e.sourceRevision + 1)
  {
    var key := PortKey(e.portId);
    if key !in store.resources || !AllocationsOk(store.resources, e, false) {
      return false;
    }
    var row := store.resources[key];
    if Attached(row, vmid, e, false) || Attached(row, vmid, e, true) {
      return realizes;
    }
    if !Detached(row, e) {
      return false;
    }
    ghost var before := store.resources;
    if Reserved(store.Current(), e.portId, token, e.sourceRevision + 1) {
      ReservedIsUnused(store.Current(), e.portId, token, e.sourceRevision + 1);
    }
    var written := WritePort(store, e.portId, RestoredPort(e, vmid, row.body.port), token, now);
    AllocationsStay(before, store.resources, e, false);
    return written && realizes;
  }

  /** The manifest attachment is there, untouched or restored, with all of its allocations. */
  ghost predicate GivenBack(rows: Rows, vmid: int, e: SourcePort) {
    && PortKey(e.portId) in rows && AllocationsOk(rows, e, false)
    && (Attached(rows[PortKey(e.portId)], vmid, e, false) || Attached(rows[PortKey(e.portId)], vmid, e, true))
  }

  /** The port is detached, or given back already. */
  ghost predicate CanRestore(rows: Rows, vmid: int, e: SourcePort) {
    || GivenBack(rows, vmid, e)
    || (PortKey(e.portId) in rows && AllocationsOk(rows, e, false) && Detached(rows[PortKey(e.portId)], e))
  }

  // ---------------------------------------------------------------- the whole manifest

  function ManifestKeys(ports: seq<SourcePort>): set<Key> {
    set i | 0 <= i < |ports| :: PortKey(ports[i].portId)
  }

  predicate ManifestOk(ports: seq<SourcePort>) {
    && (forall i :: 0 <= i < |ports| ==> SourceOk(ports[i]))
    && forall i, j :: 0 <= i < j < |ports| ==> ports[i].portId != ports[j].portId
  }

  ghost predicate StagesKept(ports: seq<SourcePort>, vmid: int, before: Rows, after: Rows) {
    forall i :: 0 <= i < |ports| ==> StageKept(ports[i], vmid, before, after)
  }

  ghost predicate DetachedUpTo(ports: seq<SourcePort>, rows: Rows, n: nat) {
    forall i :: 0 <= i < n && i < |ports| ==>
      && PortKey(ports[i].portId) in rows && Detached(rows[PortKey(ports[i].portId)], ports[i])
        && AllocationsOk(rows, ports[i], false)
  }

  ghost predicate GivenBackUpTo(ports: seq<SourcePort>, vmid: int, rows: Rows, n: nat) {
    forall i :: 0 <= i < n && i < |ports| ==> GivenBack(rows, vmid, ports[i])
  }

  ghost predicate AllReserved(s: State, ports: seq<SourcePort>, token: string -> string, moves: int) {
    forall i :: 0 <= i < |ports| ==>
      Reserved(s, ports[i].portId, token(ports[i].portId), ports[i].sourceRevision + moves)
  }

  /** Only records of port updates under the given tokens are new. */
  ghost predicate RecordedUnder(before: State, after: State, token: string -> string) {
    forall sc :: sc in after.replays && !(sc in before.replays && after.replays[sc] == before.replays[sc]) ==>
      sc.verb == Updating && sc.key.kind == KindPort && sc.token == token(sc.key.id)
  }

  /** Rows that the transaction can leave behind. */
  ghost predicate Reachable(start: Rows, rows: Rows, vmid: int, ports: seq<SourcePort>) {
    SameElsewhere(start, rows, ManifestKeys(ports)) && StagesKept(ports, vmid, start, rows)
  }

  /** The store has nothing against any detach of the manifest, whatever was moved before. */
  ghost predicate DetachesFit(r: Rules, start: Rows, vmid: int, ports: seq<SourcePort>) {
    forall rows: Rows, i :: 0 <= i < |ports| && Reachable(start, rows, vmid, ports) ==>
      FitsDetached(r, rows, vmid, ports[i])
  }

  /** The store has nothing against any restore of the manifest, whatever was moved before. */
  ghost predicate RestoresFit(r: Rules, start: Rows, vmid: int, ports: seq<SourcePort>) {
    forall rows: Rows, i :: 0 <= i < |ports| && Reachable(start, rows, vmid, ports) ==>
      FitsRestored(r, rows, vmid, ports[i])
  }

  ghost predicate CanDetachFrom(rows: Rows, vmid: int, ports: seq<SourcePort>, n: nat) {
    forall i :: n <= i < |ports| ==> CanDetach(rows, vmid, ports[i])
  }

  ghost predicate CanRestoreFrom(rows: Rows, vmid: int, ports: seq<SourcePort>, n: nat) {
    forall i :: n <= i < |ports| ==> CanRestore(rows, vmid, ports[i])
  }

  lemma ReservedStays(before: State, after: State, ports: seq<SourcePort>, token: string -> string, moves: int, n: nat)
    requires n < |ports| && ManifestOk(ports) && AllReserved(before, ports, token, moves)
    requires Recorded(before, after, WriteScope(ports[n].portId, token(ports[n].portId)),
                      ports[n].sourceRevision + moves)
    ensures AllReserved(after, ports, token, moves)
  {
    forall i | 0 <= i < |ports|
      ensures Reserved(after, ports[i].portId, token(ports[i].portId), ports[i].sourceRevision + moves)
    {
      assert Reserved(before, ports[i].portId, token(ports[i].portId), ports[i].sourceRevision + moves);
      assert i != n ==> ports[i].portId != ports[n].portId;
    }
  }

  lemma OtherReservedStays(before: State, after: State, ports: seq<SourcePort>, token: string -> string,
                           used: string -> string, moves: int)
    requires AllReserved(before, ports, token, moves) && RecordedUnder(before, after, used)
    requires forall i :: 0 <= i < |ports| ==> token(ports[i].portId) != used(ports[i].portId)
    ensures AllReserved(after, ports, token, moves)
  {
    forall i | 0 <= i < |ports|
      ensures Reserved(after, ports[i].portId, token(ports[i].portId), ports[i].sourceRevision + moves)
    {
      assert Reserved(before, ports[i].portId, token(ports[i].portId), ports[i].sourceRevision + moves);
    }
  }

  /** Writing the n-th port keeps what was said of the later ones. */
  lemma LaterStay(ports: seq<SourcePort>, vmid: int, before: Rows, after: Rows, n: nat)
    requires ManifestOk(ports) && n < |ports| && SameElsewhere(before, after, {PortKey(ports[n].portId)})
    ensures CanDetachFrom(before, vmid, ports, n) ==> CanDetachFrom(after, vmid, ports, n + 1)
    ensures CanRestoreFrom(before, vmid, ports, n) ==> CanRestoreFrom(after, vmid, ports, n + 1)
  {
    assert SameAllocations(before, after);
    forall i | n < i < |ports|
      ensures CanDetach(before, vmid, ports[i]) ==> CanDetach(after, vmid, ports[i])
      ensures CanRestore(before, vmid, ports[i]) ==> CanRestore(after, vmid, ports[i])
    {
      assert ports[i].portId != ports[n].portId;
      if AllocationsOk(before, ports[i], false) {
        AllocationsStay(before, after, ports[i], false);
      }
    }
  }

  lemma FrameExtends(start: Rows, before: Rows, after: Rows, key: Key, touched: set<Key>)
    requires SameElsewhere(start, before, touched) && SameElsewhere(before, after, {key}) && key in touched
    ensures SameElsewhere(start, after, touched)
  {
  }

  lemma StagesExtend(ports: seq<SourcePort>, vmid: int, start: Rows, before: Rows, after: Rows, n: nat)
    requires ManifestOk(ports) && n < |ports| && SameElsewhere(before, after, {PortKey(ports[n].portId)})
    requires StagesKept(ports, vmid, start, before) && StageKept(ports[n], vmid, before, after)
    ensures StagesKept(ports, vmid, start, after)
  {
    forall i | 0 <= i < |ports| ensures StageKept(ports[i], vmid, start, after) {
      assert StageKept(ports[i], vmid, start, before);
      assert i != n ==> PortKey(ports[i].portId) != PortKey(ports[n].portId);
    }
  }

  /** Writing the n-th port keeps what was said of the others. */
  lemma OthersStay(ports: seq<SourcePort>, vmid: int, before: Rows, after: Rows, n: nat)
    requires ManifestOk(ports) && n < |ports| && SameElsewhere(before, after, {PortKey(ports[n].portId)})
    ensures DetachedUpTo(ports, before, n) ==> DetachedUpTo(ports, after, n)
    ensures GivenBackUpTo(ports, vmid, before, n) ==> GivenBackUpTo(ports, vmid, after, n)
  {
    assert SameAllocations(before, after);
    forall i | 0 <= i < n
      ensures AllocationsOk(before, ports[i], false) ==> AllocationsOk(after, ports[i], false)
      ensures PortKey(ports[i].portId) in before ==>
          PortKey(ports[i].portId) in after && after[PortKey(ports[i].portId)] == before[PortKey(ports[i].portId)]
    {
      assert ports[i].portId != ports[n].portId;
      if AllocationsOk(before, ports[i], false) {
        AllocationsStay(before, after, ports[i], false);
      }
    }
  }

  lemma OnePortKeepsRest(ports: seq<SourcePort>, vmid: int, start: Rows, before: Rows, after: Rows, n: nat)
    requires ManifestOk(ports) && n < |ports| && SameElsewhere(before, after, {PortKey(ports[n].portId)})
    requires SameElsewhere(start, before, ManifestKeys(ports)) && StagesKept(ports, vmid, start, before)
    requires StageKept(ports[n], vmid, before, after)
    ensures SameElsewhere(start, after, ManifestKeys(ports)) && StagesKept(ports, vmid, start, after)
    ensures DetachedUpTo(ports, before, n) ==> DetachedUpTo(ports, after, n)
    ensures GivenBackUpTo(ports, vmid, before, n) ==> GivenBackUpTo(ports, vmid, after, n)
  {
    FrameExtends(start, before, after, PortKey(ports[n].portId), ManifestKeys(ports));
    StagesExtend(ports, vmid, start, before, after, n);
    OthersStay(ports, vmid, before, after, n);
  }

  lemma DetachedOneMore(ports: seq<SourcePort>, rows: Rows, n: nat)
    requires n < |ports| && DetachedUpTo(ports, rows, n)
    requires PortKey(ports[n].portId) in rows && Detached(rows[PortKey(ports[n].portId)], ports[n])
      && AllocationsOk(rows, ports[n], false)
    ensures DetachedUpTo(ports, rows, n + 1)
  {
  }

  /** Every port can still be detached, and neither the store nor OVN objects. */
  ghost predicate DetachUnopposed(r: Rules, s: State, vmid: int, ports: seq<SourcePort>, token: string -> string,
                                  realizes: string -> bool) {
    && CanDetachFrom(s.rows, vmid, ports, 0) && DetachesFit(r, s.rows, vmid, ports) && AllReserved(s, ports, token, 0)
    && forall i :: 0 <= i < |ports| ==> realizes(ports[i].portId)
  }

  /** detachSourcePorts, up to the port at which the manager crashes. */
  method DetachSourcePorts(store: Memory, vmid: int, ports: seq<SourcePort>, token: string -> string, now: int,
                           realizes: string -> bool, crash: nat)
    returns (ok: bool)
    requires ReplaysBehind(store.Current()) && ManifestOk(ports)
    modifies store
    ensures ReplaysBehind(store.Current())
    ensures SameElsewhere(old(store.resources), store.resources, ManifestKeys(ports))
    ensures StagesKept(ports, vmid, old(store.resources), store.resources)
    ensures ok ==> DetachedUpTo(ports, store.resources, |ports|)
    ensures crash >= |ports| && DetachUnopposed(store.rules, old(store.Current()), vmid, ports, token, realizes) ==> ok
    ensures RecordedUnder(old(store.Current()), store.Current(), token)
  {
    ghost var start := store.Current();
    ghost var able := DetachUnopposed(store.rules, start, vmid, ports, token, realizes);
    for n := 0 to |ports|
      invariant ReplaysBehind(store.Current())
      invariant Reachable(start.rows, store.resources, vmid, ports)
      invariant DetachedUpTo(ports, store.resources, n)
      invariant able ==> CanDetachFrom(store.resources, vmid, ports, n) && AllReserved(store.Current(), ports, token, 0)
      invariant RecordedUnder(start, store.Current(), token)
    {
      if n == crash {
        return false;
      }
      ghost var before := store.Current();
      ok := DetachOne(store, vmid, ports[n], token(ports[n].portId), now, realizes(ports[n].portId));
      OnePortKeepsRest(ports, vmid, start.rows, before.rows, store.resources, n);
      if !ok {
        return;
      }
      if able {
        ReservedStays(before, store.Current(), ports, token, 0, n);
        LaterStay(ports, vmid, before.rows, store.resources, n);
      }
      DetachedOneMore(ports, store.resources, n);
    }
    return true;
  }

  lemma GivenBackOneMore(ports: seq<SourcePort>, vmid: int, rows: Rows, n: nat)
    requires n < |ports| && GivenBackUpTo(ports, vmid, rows, n) && GivenBack(rows, vmid, ports[n])
    ensures GivenBackUpTo(ports, vmid, rows, n + 1)
  {
  }

  /** Every port can be given back, and neither the store nor OVN objects. */
  ghost predicate RestoreUnopposed(r: Rules, s: State, vmid: int, ports: seq<SourcePort>, token: string -> string,
                                   realizes: string -> bool) {
    && CanRestoreFrom(s.rows, vmid, ports, 0) && RestoresFit(r, s.rows, vmid, ports) && AllReserved(s, ports, token, 1)
    && forall i :: 0 <= i < |ports| ==> realizes(ports[i].portId)
  }

  /** restoreSourcePorts, from any mix of source, detached and restored ports, up to the port at which the
      manager crashes. */
  method RestoreSourcePorts(store: Memory, vmid: int, ports: seq<SourcePort>, token: string -> string, now: int,
                            realizes: string -> bool, crash: nat)
    returns (failures: seq<string>)
    requires ReplaysBehind(store.Current()) && ManifestOk(ports)
    modifies store
    ensures ReplaysBehind(store.Current())
    ensures SameElsewhere(old(store.resources), store.resources, ManifestKeys(ports))
    ensures StagesKept(ports, vmid, old(store.resources), store.resources)
    ensures failures == [] ==> GivenBackUpTo(ports, vmid, store.resources, |ports|)
    ensures GivenBackUpTo(ports, vmid, old(store.resources), |ports|) ==> store.resources == old(store.resources)
    ensures crash >= |ports| && RestoreUnopposed(store.rules, old(store.Current()), vmid, ports, token, realizes) ==>
              failures == []
    ensures AllReserved(old(store.Current()), ports, token, 1) ==> AllReserved(store.Current(), ports, token, 1)
  {
    ghost var start := store.Current();
    ghost var settled := GivenBackUpTo(ports, vmid, start.rows, |ports|);
    ghost var reserved := AllReserved(start, ports, token, 1);
    ghost var able := RestoreUnopposed(store.rules, start, vmid, ports, token, realizes);
    failures := [];
    for n := 0 to |ports|
      invariant ReplaysBehind(store.Current())
      invariant Reachable(start.rows, store.resources, vmid, ports)
      invariant failures == [] ==> GivenBackUpTo(ports, vmid, store.resources, n)
      invariant settled ==> store.resources == start.rows
      invariant reserved ==> AllReserved(store.Current(), ports, token, 1)
      invariant able ==> CanRestoreFrom(store.resources, vmid, ports, n) && failures == []
    {
      if n == crash {
        failures := failures + ["crashed"];
        return;
      }
      ghost var before := store.Current();
      assert settled ==> GivenBack(start.rows, vmid, ports[n]);
      var ok := RestoreOne(store, vmid, ports[n], token(ports[n].portId), now, realizes(ports[n].portId));
      OnePortKeepsRest(ports, vmid, start.rows, before.rows, store.resources, n);
      LaterStay(ports, vmid, before.rows, store.resources, n);
      if reserved {
        ReservedStays(before, store.Current(), ports, token, 1, n);
      }
      if !ok {
        failures := failures + [ports[n].portId];
      } else if failures == [] {
        GivenBackOneMore(ports, vmid, store.resources, n);
      }
    }
  }

  /** Main result on the round trip: a port whose manifest was taken, and that any number of detaches and
      restores may since have moved, is after a successful restore the port it was, at its own or at the
      second next generation. */
  lemma RestoredPortIsTheSame(rows: Rows, id: string, row: Row)
    requires ManifestOf(rows, id).Some?
    requires var e, p := ManifestOf(rows, id).value, rows[PortKey(id)].body.port;
             && Stage(e, p.vmid, p, row) && p.generation >= 1
             && (Attached(row, p.vmid, e, false) || Attached(row, p.vmid, e, true))
    ensures row.body.PortBody?
    ensures var p := rows[PortKey(id)].body.port;
            row.body.port == p || row.body.port == p.(generation := p.generation + 2)
  {
    RestoreUndoesDetach(rows, id);
  }

  /** The manifest describes these rows. */
  predicate ManifestFrom(rows: Rows, vmid: int, ports: seq<SourcePort>) {
    forall i :: 0 <= i < |ports| ==>
      ManifestOf(rows, ports[i].portId) == Some(ports[i]) && rows[PortKey(ports[i].portId)].body.port.vmid == vmid
  }

  /** The port is the one it was, at its own generation or at the second next one. */
  predicate SamePort(before: Rows, after: Rows, id: string) {
    && PortKey(id) in before && PortKey(id) in after && before[PortKey(id)].body.PortBody?
      && after[PortKey(id)].body.PortBody?
    && var p, q := before[PortKey(id)].body.port, after[PortKey(id)].body.port;
       q == p || q == p.(generation := p.generation + 2)
  }

  lemma GivenBackIsSame(start: Rows, rows: Rows, vmid: int, ports: seq<SourcePort>, i: nat)
    requires i < |ports| && ManifestFrom(start, vmid, ports) && ManifestOk(ports)
    requires StageKept(ports[i], vmid, start, rows) && GivenBack(rows, vmid, ports[i])
    ensures SamePort(start, rows, ports[i].portId)
  {
    var id := ports[i].portId;
    assert Stage(ports[i], vmid, start[PortKey(id)].body.port, start[PortKey(id)]);
    RestoredPortIsTheSame(start, id, rows[PortKey(id)]);
  }

  /** One attempt of a transaction, and the port before which its manager crashes. */
  datatype Attempt = TryDetach(crash: nat) | TryRestore(crash: nat)

  /** Wherever the transaction stands, every port of the manifest can be given back. */
  lemma EveryPortCanBeRestored(start: Rows, rows: Rows, vmid: int, ports: seq<SourcePort>)
    requires ManifestOk(ports) && ManifestFrom(start, vmid, ports) && Reachable(start, rows, vmid, ports)
    ensures CanRestoreFrom(rows, vmid, ports, 0)
  {
    forall i | 0 <= i < |ports| ensures CanRestore(rows, vmid, ports[i]) {
      var id := ports[i].portId;
      ManifestDescribes(start, id);
      assert SameAllocations(start, rows);
      AllocationsStay(start, rows, ports[i], false);
      assert StageKept(ports[i], vmid, start, rows);
      assert Stage(ports[i], vmid, start[PortKey(id)].body.port, start[PortKey(id)]);
    }
  }

  lemma RestoresStillFit(r: Rules, start: Rows, before: Rows, vmid: int, ports: seq<SourcePort>)
    requires Reachable(start, before, vmid, ports) && RestoresFit(r, start, vmid, ports)
    ensures RestoresFit(r, before, vmid, ports)
  {
    forall rows: Rows, i | 0 <= i < |ports| && Reachable(before, rows, vmid, ports)
      ensures FitsRestored(r, rows, vmid, ports[i])
    {
      AttemptsCompose(ports, vmid, start, before, rows);
      assert Reachable(start, rows, vmid, ports);
    }
  }

  /** Neither the store nor OVN will object to the restores of the transaction. */
  ghost predicate AbortUnopposed(r: Rules, s: State, vmid: int, ports: seq<SourcePort>, detachToken: string -> string,
                                 restoreToken: string -> string, realizes: string -> bool) {
    && RestoresFit(r, s.rows, vmid, ports) && AllReserved(s, ports, restoreToken, 1)
    && (forall i :: 0 <= i < |ports| ==> restoreToken(ports[i].portId) != detachToken(ports[i].portId))
    && forall i :: 0 <= i < |ports| ==> realizes(ports[i].portId)
  }

  /** Main result on abort: after any schedule of detach and restore attempts, each of which may fail or crash anywhere,
      a restore without failures leaves every manifest port the port it was when the manifest was taken, and every
      other row untouched; and where nothing objects, the restore has no failures. */
  method AbortTransaction(store: Memory, vmid: int, ports: seq<SourcePort>, detachToken: string -> string,
                          restoreToken: string -> string, now: int, schedule: seq<Attempt>,
                          realizes: nat -> string -> bool)
    returns (failures: seq<string>)
    requires ReplaysBehind(store.Current()) && ManifestOk(ports) && ManifestFrom(store.resources, vmid, ports)
    modifies store
    ensures SameElsewhere(old(store.resources), store.resources, ManifestKeys(ports))
    ensures failures == [] ==> forall i :: 0 <= i < |ports| ==>
        SamePort(old(store.resources), store.resources, ports[i].portId)
    ensures AbortUnopposed(store.rules, old(store.Current()), vmid, ports, detachToken, restoreToken,
                           realizes(|schedule|)) ==>
              failures == []
  {
    ghost var start := store.Current();
    ghost var able := AbortUnopposed(store.rules, start, vmid, ports, detachToken, restoreToken, realizes(|schedule|));
    for n := 0 to |schedule|
      invariant ReplaysBehind(store.Current()) && Reachable(start.rows, store.resources, vmid, ports)
      invariant able ==> AllReserved(store.Current(), ports, restoreToken, 1)
    {
      ghost var before := store.Current();
      if schedule[n].TryDetach? {
        var _ := DetachSourcePorts(store, vmid, ports, detachToken, now, realizes(n), schedule[n].crash);
        if able {
          OtherReservedStays(before, store.Current(), ports, restoreToken, detachToken, 1);
        }
      } else {
        var _ := RestoreSourcePorts(store, vmid, ports, restoreToken, now, realizes(n), schedule[n].crash);
      }
      AttemptsCompose(ports, vmid, start.rows, before.rows, store.resources);
    }
    ghost var before := store.Current();
    EveryPortCanBeRestored(start.rows, before.rows, vmid, ports);
    if able {
      RestoresStillFit(store.rules, start.rows, before.rows, vmid, ports);
    }
    failures := RestoreSourcePorts(store, vmid, ports, restoreToken, now, realizes(|schedule|), |ports|);
    AttemptsCompose(ports, vmid, start.rows, before.rows, store.resources);
    if failures == [] {
      forall i | 0 <= i < |ports| ensures SamePort(start.rows, store.resources, ports[i].portId) {
        GivenBackIsSame(start.rows, store.resources, vmid, ports, i);
      }
    }
  }

  lemma AttemptsCompose(ports: seq<SourcePort>, vmid: int, start: Rows, before: Rows, after: Rows)
    requires SameElsewhere(start, before, ManifestKeys(ports)) && SameElsewhere(before, after, ManifestKeys(ports))
    requires StagesKept(ports, vmid, start, before) && StagesKept(ports, vmid, before, after)
    ensures SameElsewhere(start, after, ManifestKeys(ports)) && StagesKept(ports, vmid, start, after)
  {
    forall i | 0 <= i < |ports| ensures StageKept(ports[i], vmid, start, after) {
      assert StageKept(ports[i], vmid, start, before) && StageKept(ports[i], vmid, before, after);
    }
  }
}
