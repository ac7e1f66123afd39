/** Destroying a VM for good: the detached ports of its manifest are deleted, each after its allocations. */
module SourceDeletion {
  import opened Payloads
  import opened Model
  import opened Graph
  import opened Store
  import opened StoreInvariants
  import opened MemoryStore
  import opened SourcePorts

  /** No row appears, and no allocation changes what it stands for. */
  predicate Thinner(before: Rows, after: Rows) {
    forall k :: k in after ==> k in before && (before[k].body.IPAllocation? ==> after[k].body == before[k].body)
  }

  // ---------------------------------------------------------------- deleting one row

  /** No running operation has the row as its target. */
  ghost predicate Unhindered(rows: Rows, key: Key) {
    forall k :: k in rows && k.kind == KindOperation ==> !IsRunningOn(rows[k].body, key)
  }

  /** The deletion can begin at the given revision, or has begun under this token. */
  ghost predicate CanBegin(s: State, key: Key, expected: int, token: string) {
    var scope := Scope(Removing, key, token);
    && key in s.rows
    && (|| (scope !in s.replays && s.rows[key].meta.revision == expected)
        || (&& token != "" && scope in s.replays && s.replays[scope].request == DeleteRequest(key, expected)
            && s.replays[scope].row.meta.revision == s.rows[key].meta.revision && Tombstoned(s.rows[key])))
  }

  /** Nothing can use an allocation, and only a referring row can use a port. */
  lemma UsersRefer(r: Rules, rows: Rows, key: Key)
    ensures key.kind == KindIPAllocation ==> !InUse(r, rows, key)
    ensures key.kind == KindPort ==> (InUse(r, rows, key) <==> StronglyReferenced(rows, key))
  {
  }

  /** A deletion that can begin goes through when nothing uses or hinders the row. */
  lemma DeletionGoesThrough(r: Rules, s: State, key: Key, expected: int, token: string, now: int)
    requires Typed(s.rows) && (key.kind == KindPort || key.kind == KindIPAllocation)
    requires CanBegin(s, key, expected, token) && Unhindered(s.rows, key) && !StronglyReferenced(s.rows, key)
    ensures var (after, result) := BeginDelete(r, s, key, expected, token, now);
            result.Ok? && PurgeError(r, after.rows, key, result.row.meta.revision).None?
  {
    var after := BeginDelete(r, s, key, expected, token, now).0;
    UsersRefer(r, s.rows, key);
    UsersRefer(r, after.rows, key);
    forall k | k in after.rows && k != key ensures k in s.rows && after.rows[k] == s.rows[k] {
    }
    assert !StronglyReferenced(after.rows, key);
  }

  /** Only records of deletes of the given keys are new. */
  ghost predicate RecordedDeletes(before: State, after: State, keys: set<Key>) {
    forall sc :: sc in after.replays && !(sc in before.replays && after.replays[sc] == before.replays[sc]) ==>
      sc.verb == Removing && sc.key in keys
  }

  lemma BeginDeleteFrame(r: Rules, s: State, key: Key, expected: int, token: string, now: int)
    ensures var after := BeginDelete(r, s, key, expected, token, now).0.rows;
            SameElsewhere(s.rows, after, {key}) && Thinner(s.rows, after)
  {
  }

  lemma BeginDeleteRecords(r: Rules, s: State, key: Key, expected: int, token: string, now: int)
    ensures var after := BeginDelete(r, s, key, expected, token, now).0;
            RecordedDeletes(s, after, {key}) && ScopesStay(s, after)
  {
  }

  lemma RecordsCompose(start: State, before: State, after: State, keys: set<Key>, more: set<Key>)
    requires RecordedDeletes(start, before, keys) && ScopesStay(start, before)
    requires RecordedDeletes(before, after, more) && ScopesStay(before, after)
    ensures RecordedDeletes(start, after, keys + more) && ScopesStay(start, after)
  {
  }

  lemma PurgeFrame(r: Rules, s: State, key: Key, revision: int)
    ensures var after := Purge(r, s, key, revision).rows;
            && SameElsewhere(s.rows, after, {key}) && Thinner(s.rows, after)
            && (PurgeError(r, s.rows, key, revision).None? ==> key !in after)
  {
  }

  lemma BeginDeleteIsSafe(r: Rules, s: State, key: Key, expected: int, token: string, now: int)
    requires Invariant(r, s.rows)
    ensures var after := BeginDelete(r, s, key, expected, token, now).0.rows;
            Invariant(r, after) && SameElsewhere(s.rows, after, {key}) && Thinner(s.rows, after)
  {
    CallKeepsInvariant(r, s, DoBeginDelete(key, expected, token, now));
    BeginDeleteFrame(r, s, key, expected, token, now);
  }

  lemma PurgeIsSafe(r: Rules, s: State, key: Key, revision: int)
    requires Invariant(r, s.rows)
    ensures var after := Purge(r, s, key, revision).rows;
            && Invariant(r, after) && SameElsewhere(s.rows, after, {key}) && Thinner(s.rows, after)
            && (PurgeError(r, s.rows, key, revision).None? ==> key !in after)
  {
    PurgeKeepsInvariant(r, s, key, revision);
    PurgeFrame(r, s, key, revision);
  }

  /** Nothing stands in the way of deleting the row: a port or an allocation that nothing refers to. */
  ghost predicate CanDelete(s: State, key: Key, expected: int, token: string) {
    && (key.kind == KindPort || key.kind == KindIPAllocation) && CanBegin(s, key, expected, token)
    && Unhindered(s.rows, key) && !StronglyReferenced(s.rows, key)
  }

  method MarkForDeletion(store: Memory, key: Key, expected: int, token: string, now: int) returns (result: Result)
    requires Invariant(store.rules, store.resources)
    modifies store
    ensures Invariant(store.rules, store.resources)
    ensures SameElsewhere(old(store.resources), store.resources, {key})
      && Thinner(old(store.resources), store.resources)
    ensures RecordedDeletes(old(store.Current()), store.Current(), {key})
    ensures ScopesStay(old(store.Current()), store.Current())
    ensures CanDelete(old(store.Current()), key, expected, token) ==>
              result.Ok? && PurgeError(store.rules, store.resources, key, result.row.meta.revision).None?
  {
    BeginDeleteIsSafe(store.rules, store.Current(), key, expected, token, now);
    BeginDeleteRecords(store.rules, store.Current(), key, expected, token, now);
    if CanDelete(store.Current(), key, expected, token) {
      DeletionGoesThrough(store.rules, store.Current(), key, expected, token, now);
    }
    result := store.BeginDelete(key, expected, token, now);
  }

  method PurgeRow(store: Memory, key: Key, revision: int) returns (gone: bool)
    requires Invariant(store.rules, store.resources)
    modifies store
    ensures Invariant(store.rules, store.resources)
    ensures SameElsewhere(old(store.resources), store.resources, {key})
      && Thinner(old(store.resources), store.resources)
    ensures gone ==> key !in store.resources
    ensures PurgeError(store.rules, old(store.resources), key, revision).None? ==> gone
    ensures store.idempotency == old(store.idempotency)
  {
    PurgeIsSafe(store.rules, store.Current(), key, revision);
    var error := store.Purge(key, revision);
    return error.None?;
  }

  /** BeginDelete, realization and Purge of one row. */
  method DeleteRow(store: Memory, key: Key, expected: int, token: string, now: int, realizes: bool) returns (gone: bool)
    requires Invariant(store.rules, store.resources)
    modifies store
    ensures Invariant(store.rules, store.resources)
    ensures SameElsewhere(old(store.resources), store.resources, {key})
      && Thinner(old(store.resources), store.resources)
    ensures gone ==> key !in store.resources
    ensures CanDelete(old(store.Current()), key, expected, token) && realizes ==> gone
    ensures RecordedDeletes(old(store.Current()), store.Current(), {key})
    ensures ScopesStay(old(store.Current()), store.Current())
  {
    var result := MarkForDeletion(store, key, expected, token, now);
    if result.Err? || !realizes {
      return false;
    }
    gone := PurgeRow(store, key, result.row.meta.revision);
  }

  /** The allocations of `named` outside `todo` are gone, and nothing else changed. */
  ghost predicate Released(start: Rows, rows: Rows, named: set<Key>, todo: set<Key>) {
    && SameElsewhere(start, rows, named - todo) && Thinner(start, rows)
    && forall l :: l in named && l !in todo ==> l !in rows
  }

  lemma ReleaseStep(start: Rows, before: Rows, after: Rows, named: set<Key>, todo: set<Key>, k: Key)
    requires todo <= named && k in todo && Released(start, before, named, todo)
    requires SameElsewhere(before, after, {k}) && Thinner(before, after)
    ensures SameElsewhere(start, after, named) && Thinner(start, after)
    ensures k !in after ==> Released(start, after, named, todo - {k})
  {
  }

  /** The allocation can be deleted, or its deletion be taken up again. */
  ghost predicate CanRelease(s: State, k: Key, token: string) {
    && k in s.rows && k.kind == KindIPAllocation && Unhindered(s.rows, k)
    && var revision := s.rows[k].meta.revision;
       if Tombstoned(s.rows[k]) then revision >= 2 && CanBegin(s, k, revision - 1, token)
       else CanBegin(s, k, revision, token)
  }

  ghost predicate CanReleaseAll(s: State, keys: set<Key>, token: string -> string, realizes: string -> bool) {
    forall k :: k in keys ==> CanRelease(s, k, token(k.id)) && realizes(k.id)
  }

  /** Deleting one allocation leaves the others as deletable as they were. */
  lemma ReleasableStays(before: State, after: State, keys: set<Key>, token: string -> string, realizes: string -> bool,
                        touched: set<Key>)
    requires CanReleaseAll(before, keys, token, realizes) && keys !! touched
    requires forall k :: k in touched ==> k.kind != KindOperation
    requires SameElsewhere(before.rows, after.rows, touched) && RecordedDeletes(before, after, touched)
    requires ScopesStay(before, after)
    ensures CanReleaseAll(after, keys, token, realizes)
  {
    forall k | k in keys ensures CanRelease(after, k, token(k.id)) && realizes(k.id) {
      assert CanRelease(before, k, token(k.id)) && k !in touched;
      UnhinderedStays(before.rows, after.rows, k, touched);
    }
  }

  ghost predicate ScopesStay(before: State, after: State) {
    forall sc :: sc in before.replays ==> sc in after.replays
  }

  lemma UnhinderedStays(before: Rows, after: Rows, key: Key, touched: set<Key>)
    requires Unhindered(before, key) && SameElsewhere(before, after, touched)
    requires forall k :: k in touched ==> k.kind != KindOperation
    ensures Unhindered(after, key)
  {
  }

  method ReleaseOne(store: Memory, k: Key, token: string, now: int, realizes: bool) returns (gone: bool)
    requires Invariant(store.rules, store.resources) && k in store.resources
    modifies store
    ensures Invariant(store.rules, store.resources)
    ensures SameElsewhere(old(store.resources), store.resources, {k}) && Thinner(old(store.resources), store.resources)
    ensures gone ==> k !in store.resources
    ensures CanRelease(old(store.Current()), k, token) && realizes ==> gone
    ensures RecordedDeletes(old(store.Current()), store.Current(), {k})
      && ScopesStay(old(store.Current()), store.Current())
  {
    UsersRefer(store.rules, store.resources, k);
    var revision := store.resources[k].meta.revision;
    if Tombstoned(store.resources[k]) {
      if revision < 2 {
        return false;
      }
      revision := revision - 1;
    }
    gone := DeleteRow(store, k, revision, token, now, realizes);
  }

  /** Where a release stands: `todo` is still to be deleted. */
  ghost predicate Underway(start: State, s: State, named: set<Key>, todo: set<Key>, token: string -> string,
                           realizes: string -> bool) {
    && todo <= named && Released(start.rows, s.rows, named, todo)
    && RecordedDeletes(start, s, named) && ScopesStay(start, s)
    && (CanReleaseAll(start, named, token, realizes) ==> CanReleaseAll(s, todo, token, realizes))
  }

  lemma ReleaseStepKeeps(start: State, before: State, after: State, named: set<Key>, todo: set<Key>, k: Key,
                         token: string -> string, realizes: string -> bool)
    requires Underway(start, before, named, todo, token, realizes) && k in todo && k.kind != KindOperation
    requires SameElsewhere(before.rows, after.rows, {k}) && Thinner(before.rows, after.rows)
    requires RecordedDeletes(before, after, {k}) && ScopesStay(before, after)
    ensures SameElsewhere(start.rows, after.rows, named) && Thinner(start.rows, after.rows)
    ensures RecordedDeletes(start, after, named) && ScopesStay(start, after)
    ensures k !in after.rows ==> Underway(start, after, named, todo - {k}, token, realizes)
  {
    ReleaseStep(start.rows, before.rows, after.rows, named, todo, k);
    RecordsCompose(start, before, after, named, {k});
    assert named + {k} == named;
    if CanReleaseAll(start, named, token, realizes) {
      ReleasableStays(before, after, todo - {k}, token, realizes, {k});
    }
  }

  lemma ReleaseStarts(start: State, named: set<Key>, token: string -> string, realizes: string -> bool)
    ensures Underway(start, start, named, named, token, realizes)
  {
  }

  lemma NoneLeft(start: Rows, after: Rows, portId: string)
    requires Released(start, after, AllocationsNaming(start, portId), {})
    ensures AllocationsNaming(after, portId) == {}
  {
  }

  method ReleaseNext(store: Memory, k: Key, ghost start: State, ghost named: set<Key>, ghost todo: set<Key>,
                     token: string -> string, now: int, realizes: string -> bool)
    returns (gone: bool)
    requires Invariant(store.rules, store.resources) && k in todo && k.kind == KindIPAllocation && k in start.rows
    requires Underway(start, store.Current(), named, todo, token, realizes)
    modifies store
    ensures Invariant(store.rules, store.resources)
    ensures SameElsewhere(start.rows, store.resources, named) && Thinner(start.rows, store.resources)
    ensures RecordedDeletes(start, store.Current(), named) && ScopesStay(start, store.Current())
    ensures gone ==> Underway(start, store.Current(), named, todo - {k}, token, realizes)
    ensures CanReleaseAll(start, named, token, realizes) ==> gone
  {
    ghost var before := store.Current();
    assert k in before.rows;
    gone := ReleaseOne(store, k, token(k.id), now, realizes(k.id));
    ReleaseStepKeeps(start, before, store.Current(), named, todo, k, token, realizes);
  }

  method ReleaseAll(store: Memory, named: set<Key>, token: string -> string, now: int,
                    realizes: string -> bool) returns (ok: bool)
    requires Invariant(store.rules, store.resources) && named <= store.resources.Keys
      && forall k :: k in named ==> k.kind == KindIPAllocation
    modifies store
    ensures Invariant(store.rules, store.resources)
    ensures SameElsewhere(old(store.resources), store.resources, named)
      && Thinner(old(store.resources), store.resources)
    ensures ok ==> Released(old(store.resources), store.resources, named, {})
    ensures CanReleaseAll(old(store.Current()), named, token, realizes) ==> ok
    ensures RecordedDeletes(old(store.Current()), store.Current(), named)
      && ScopesStay(old(store.Current()), store.Current())
  {
    ghost var start := store.Current();
    ReleaseStarts(start, named, token, realizes);
    var todo := named;
    while todo != {}
      invariant Invariant(store.rules, store.resources)
      invariant Underway(start, store.Current(), named, todo, token, realizes)
      decreases |todo|
    {
      var k :| k in todo;
      var gone := ReleaseNext(store, k, start, named, todo, token, now, realizes);
      if !gone {
        return false;
      }
      todo := todo - {k};
    }
    return true;
  }

  /** releasePortAllocations. */
  method ReleaseAllocations(store: Memory, portId: string, token: string -> string, now: int,
                            realizes: string -> bool) returns (ok: bool)
    requires Invariant(store.rules, store.resources)
    modifies store
    ensures Invariant(store.rules, store.resources)
    ensures SameElsewhere(old(store.resources), store.resources, AllocationsNaming(old(store.resources), portId))
    ensures Thinner(old(store.resources), store.resources)
    ensures ok ==> AllocationsNaming(store.resources, portId) == {}
    ensures CanReleaseAll(old(store.Current()), AllocationsNaming(old(store.resources), portId), token, realizes) ==> ok
    ensures RecordedDeletes(old(store.Current()), store.Current(), AllocationsNaming(old(store.resources), portId))
    ensures ScopesStay(old(store.Current()), store.Current())
  {
    ghost var start := store.resources;
    ok := ReleaseAll(store, AllocationsNaming(store.resources, portId), token, now, realizes);
    if ok {
      NoneLeft(start, store.resources, portId);
    }
  }

  /** ensureNoPortDeprovisionDependents. */
  predicate HasDependents(rows: Rows, portId: string) {
    exists k :: k in rows && ((rows[k].body.RouterInterface? && rows[k].body.portId == portId)
                              || (rows[k].body.FloatingIP? && rows[k].body.portId == portId))
  }

  lemma NamingIsReferring(row: Row, t: Key)
    ensures t.kind == KindPort && t.id != "" && Names(row, t.id) ==> References(row.body, t.kind, t.id)
  {
  }

  /** No allocation can name a port that is gone. */
  lemma GonePortIsUnnamed(r: Rules, rows: Rows, portId: string)
    requires Invariant(r, rows) && portId != "" && PortKey(portId) !in rows
    ensures AllocationsNaming(rows, portId) == {}
  {
    forall k | k in rows ensures !Names(rows[k], portId) {
      NamingIsReferring(rows[k], PortKey(portId));
    }
  }

  lemma TwoFrames(start: Rows, before: Rows, after: Rows, first: set<Key>, second: set<Key>)
    requires SameElsewhere(start, before, first) && SameElsewhere(before, after, second)
    ensures SameElsewhere(start, after, first + second)
  {
  }

  /** A port without dependents and allocations is referred to by nothing. */
  lemma NobodyRefers(rows: Rows, portId: string)
    requires Typed(rows) && !HasDependents(rows, portId) && AllocationsNaming(rows, portId) == {}
    ensures !StronglyReferenced(rows, PortKey(portId))
  {
    forall k | k in rows ensures !References(rows[k].body, KindPort, portId) {
      assert k !in AllocationsNaming(rows, portId);
    }
  }

  /** Nothing stands in the way of destroying the port: it is gone, or its deletion waits for the purge, or it is
      detached and can be deleted after its allocations. */
  ghost predicate CanDestroy(s: State, e: SourcePort, token: string -> string, portToken: string,
                             realizes: string -> bool) {
    var key := PortKey(e.portId);
    key in s.rows ==>
      && !HasDependents(s.rows, e.portId) && AllocationsOk(s.rows, e, true) && Unhindered(s.rows, key)
      && realizes(e.portId)
      && (|| (&& Tombstoned(s.rows[key]) && DetachedShape(s.rows[key], e)
              && s.rows[key].meta.revision == e.sourceRevision + 2 && AllocationsNaming(s.rows, e.portId) == {})
          || (&& Detached(s.rows[key], e) && Scope(Removing, key, portToken) !in s.replays
              && CanReleaseAll(s, AllocationsNaming(s.rows, e.portId), token, realizes)))
  }

  /** Once its allocations are gone, the detached port can be deleted. */
  lemma ReleasedPortCanBeDeleted(before: State, after: State, e: SourcePort, portToken: string)
    requires Typed(after.rows) && PortKey(e.portId) in before.rows && Detached(before.rows[PortKey(e.portId)], e)
    requires !HasDependents(before.rows, e.portId) && Unhindered(before.rows, PortKey(e.portId))
    requires Scope(Removing, PortKey(e.portId), portToken) !in before.replays
    requires var named := AllocationsNaming(before.rows, e.portId);
             SameElsewhere(before.rows, after.rows, named) && RecordedDeletes(before, after, named)
    requires Thinner(before.rows, after.rows) && AllocationsNaming(after.rows, e.portId) == {}
    ensures CanDelete(after, PortKey(e.portId), before.rows[PortKey(e.portId)].meta.revision, portToken)
  {
    UnhinderedStays(before.rows, after.rows, PortKey(e.portId), AllocationsNaming(before.rows, e.portId));
    DependentsStayAway(before.rows, after.rows, e.portId, AllocationsNaming(before.rows, e.portId));
    NobodyRefers(after.rows, e.portId);
  }

  lemma DependentsStayAway(before: Rows, after: Rows, portId: string, touched: set<Key>)
    requires !HasDependents(before, portId) && SameElsewhere(before, after, touched)
    requires forall k :: k in touched && k in after ==> after[k].body.IPAllocation? || after[k].body.PortBody?
    ensures !HasDependents(after, portId)
  {
  }

  /** A tombstone that nothing refers to can be purged. */
  lemma TombstoneCanBePurged(r: Rules, rows: Rows, e: SourcePort)
    requires Typed(rows) && PortKey(e.portId) in rows && Tombstoned(rows[PortKey(e.portId)])
    requires !HasDependents(rows, e.portId) && Unhindered(rows, PortKey(e.portId))
      && AllocationsNaming(rows, e.portId) == {}
    ensures PurgeError(r, rows, PortKey(e.portId), rows[PortKey(e.portId)].meta.revision).None?
  {
    NobodyRefers(rows, e.portId);
    UsersRefer(r, rows, PortKey(e.portId));
  }

  /** The port is the manifest's: detached as it left it, or the tombstone of that, with no allocations but the recorded
      ones and nothing that depends on it. */
  ghost predicate IsOurs(rows: Rows, e: SourcePort) {
    && PortKey(e.portId) in rows && !HasDependents(rows, e.portId) && AllocationsOk(rows, e, true)
    && var row := rows[PortKey(e.portId)];
       || Detached(row, e)
       || (Tombstoned(row) && DetachedShape(row, e) && row.meta.revision == e.sourceRevision + 2)
  }

  /** The last part: allocations first, then the port. */
  method DeleteDetached(store: Memory, e: SourcePort, token: string -> string, portToken: string, now: int,
                        realizes: string -> bool)
    returns (ok: bool)
    requires Invariant(store.rules, store.resources) && SourceOk(e)
    requires PortKey(e.portId) in store.resources && Detached(store.resources[PortKey(e.portId)], e)
    requires !HasDependents(store.resources, e.portId)
    modifies store
    ensures Invariant(store.rules, store.resources)
    ensures SameElsewhere(old(store.resources), store.resources,
                          AllocationsNaming(old(store.resources), e.portId) + {PortKey(e.portId)})
    ensures Thinner(old(store.resources), store.resources)
    ensures ok ==> PortKey(e.portId) !in store.resources && AllocationsNaming(store.resources, e.portId) == {}
    ensures (&& Unhindered(old(store.resources), PortKey(e.portId)) && realizes(e.portId)
             && Scope(Removing, PortKey(e.portId), portToken) !in old(store.idempotency)
             && CanReleaseAll(old(store.Current()), AllocationsNaming(old(store.resources), e.portId), token,
                              realizes)) ==>
              ok
    ensures RecordedDeletes(old(store.Current()), store.Current(),
                            AllocationsNaming(old(store.resources), e.portId) + {PortKey(e.portId)})
    ensures ScopesStay(old(store.Current()), store.Current())
  {
    var key := PortKey(e.portId);
    var row := store.resources[key];
    ghost var start := store.Current();
    ghost var named := AllocationsNaming(start.rows, e.portId);
    ok := ReleaseAllocations(store, e.portId, token, now, realizes);
    if ok {
      ghost var before := store.Current();
      if Unhindered(start.rows, key) && Scope(Removing, key, portToken) !in start.replays {
        ReleasedPortCanBeDeleted(start, before, e, portToken);
      }
      ok := DeleteRow(store, key, row.meta.revision, portToken, now, realizes(e.portId));
      TwoFrames(start.rows, before.rows, store.resources, named, {key});
      RecordsCompose(start, before, store.Current(), named, {key});
      if ok {
        GonePortIsUnnamed(store.rules, store.resources, e.portId);
      }
    }
  }

  method DeleteOne(store: Memory, e: SourcePort, token: string -> string, portToken: string, now: int,
                   realizes: string -> bool)
    returns (ok: bool)
    requires Invariant(store.rules, store.resources) && SourceOk(e)
    modifies store
    ensures Invariant(store.rules, store.resources)
    ensures SameElsewhere(old(store.resources), store.resources,
                          AllocationsNaming(old(store.resources), e.portId) + {PortKey(e.portId)})
    ensures Thinner(old(store.resources), store.resources)
    ensures ok ==> PortKey(e.portId) !in store.resources && AllocationsNaming(store.resources, e.portId) == {}
    ensures store.resources != old(store.resources) ==> IsOurs(old(store.resources), e)
    ensures CanDestroy(old(store.Current()), e, token, portToken, realizes) ==> ok
    ensures RecordedDeletes(old(store.Current()), store.Current(),
                            AllocationsNaming(old(store.resources), e.portId) + {PortKey(e.portId)})
    ensures ScopesStay(old(store.Current()), store.Current())
  {
    var key := PortKey(e.portId);
    if key !in store.resources {
      GonePortIsUnnamed(store.rules, store.resources, e.portId);
      return true;
    }
    var row := store.resources[key];
    if HasDependents(store.resources, e.portId) || !AllocationsOk(store.resources, e, true) {
      return false;
    }
    if Tombstoned(row) && !Detached(row, e) {
      if !DetachedShape(row, e) || row.meta.revision != e.sourceRevision + 2 || !realizes(e.portId) {
        return false;
      }
      if CanDestroy(store.Current(), e, token, portToken, realizes) {
        TombstoneCanBePurged(store.rules, store.resources, e);
      }
      ok := PurgeRow(store, key, row.meta.revision);
      if ok {
        GonePortIsUnnamed(store.rules, store.resources, e.portId);
      }
      return;
    }
    if !Detached(row, e) {
      return false;
    }
    ok := DeleteDetached(store, e, token, portToken, now, realizes);
  }

  /** The manifest's ports and the allocations that name one. */
  function Doomed(rows: Rows, ports: seq<SourcePort>): set<Key> {
    ManifestKeys(ports)
    + (set k | k in rows && k.kind == KindIPAllocation && rows[k].body.IPAllocation?
       && PortKey(rows[k].body.portId) in ManifestKeys(ports))
  }

  lemma DoomedFrame(ports: seq<SourcePort>, start: Rows, before: Rows, after: Rows, n: nat)
    requires n < |ports| && SameElsewhere(start, before, Doomed(start, ports))
    requires SameElsewhere(before, after, AllocationsNaming(before, ports[n].portId) + {PortKey(ports[n].portId)})
    ensures SameElsewhere(start, after, Doomed(start, ports))
  {
    assert PortKey(ports[n].portId) in ManifestKeys(ports);
    forall k | k !in Doomed(start, ports) ensures k !in AllocationsNaming(before, ports[n].portId)
      && k != PortKey(ports[n].portId) {
    }
  }

  ghost predicate GoneUpTo(ports: seq<SourcePort>, rows: Rows, n: nat) {
    forall i :: 0 <= i < n && i < |ports| ==> PortKey(ports[i].portId) !in rows
  }

  lemma GoneOneMore(ports: seq<SourcePort>, before: Rows, after: Rows, n: nat)
    requires n < |ports| && GoneUpTo(ports, before, n) && Thinner(before, after) && PortKey(ports[n].portId) !in after
    ensures GoneUpTo(ports, after, n + 1)
  {
  }

  lemma GonePortsAreUnnamed(r: Rules, rows: Rows, ports: seq<SourcePort>)
    requires Invariant(r, rows) && ManifestOk(ports) && GoneUpTo(ports, rows, |ports|)
    ensures forall i :: 0 <= i < |ports| ==> AllocationsNaming(rows, ports[i].portId) == {}
  {
    forall i | 0 <= i < |ports| ensures AllocationsNaming(rows, ports[i].portId) == {} {
      GonePortIsUnnamed(r, rows, ports[i].portId);
    }
  }

  lemma DoomedAreGone(start: Rows, rows: Rows, ports: seq<SourcePort>)
    requires Thinner(start, rows) && GoneUpTo(ports, rows, |ports|)
    requires forall i :: 0 <= i < |ports| ==> AllocationsNaming(rows, ports[i].portId) == {}
    ensures forall k :: k in Doomed(start, ports) ==> k !in rows
  {
    forall k | k in Doomed(start, ports) ensures k !in rows {
      if k !in ManifestKeys(ports) {
        var i :| 0 <= i < |ports| && PortKey(ports[i].portId) == PortKey(start[k].body.portId);
        assert k !in AllocationsNaming(rows, ports[i].portId);
      }
    }
  }

  ghost predicate CanDestroyFrom(s: State, ports: seq<SourcePort>, n: nat, token: string -> string,
                                 portToken: string -> string, realizes: string -> bool) {
    forall i :: n <= i < |ports| ==> CanDestroy(s, ports[i], token, portToken(ports[i].portId), realizes)
  }

  /** Destroying one port leaves the allocations of another one as they were. */
  lemma OtherAllocationsStay(before: Rows, after: Rows, e: SourcePort, gone: string)
    requires e.portId != gone && Thinner(before, after)
    requires SameElsewhere(before, after, AllocationsNaming(before, gone) + {PortKey(gone)})
    ensures AllocationsNaming(after, e.portId) == AllocationsNaming(before, e.portId)
    ensures AllocationsOk(before, e, true) ==> AllocationsOk(after, e, true)
    ensures AllocationsNaming(after, e.portId) !! AllocationsNaming(before, gone) + {PortKey(gone)}
  {
    forall k | k in AllocationsNaming(before, e.portId) ensures k in AllocationsNaming(after, e.portId) {
      assert k !in AllocationsNaming(before, gone) + {PortKey(gone)};
    }
    forall k | k in AllocationsNaming(after, e.portId) ensures k in AllocationsNaming(before, e.portId)
      && after[k] == before[k] {
      assert before[k].body.IPAllocation? ==> after[k].body == before[k].body;
      assert k.kind == KindIPAllocation;
      assert k != PortKey(gone);
    }
    if AllocationsOk(before, e, true) {
      forall id | id in e.allocations && AllocationKey(id) in after
        ensures after[AllocationKey(id)] == before[AllocationKey(id)]
      {
        assert AllocationKey(id) !in AllocationsNaming(before, gone) + {PortKey(gone)};
      }
    }
  }

  lemma DestroyableStays(before: State, after: State, e: SourcePort, gone: string, token: string -> string,
                         portToken: string, realizes: string -> bool)
    requires e.portId != gone && CanDestroy(before, e, token, portToken, realizes)
    requires Typed(after.rows) && Thinner(before.rows, after.rows) && ScopesStay(before, after)
    requires var touched := AllocationsNaming(before.rows, gone) + {PortKey(gone)};
             SameElsewhere(before.rows, after.rows, touched) && RecordedDeletes(before, after, touched)
    ensures CanDestroy(after, e, token, portToken, realizes)
  {
    var touched := AllocationsNaming(before.rows, gone) + {PortKey(gone)};
    if PortKey(e.portId) in after.rows {
      OtherAllocationsStay(before.rows, after.rows, e, gone);
      UnhinderedStays(before.rows, after.rows, PortKey(e.portId), touched);
      DependentsStayAway(before.rows, after.rows, e.portId, touched);
      var named := AllocationsNaming(before.rows, e.portId);
      if CanReleaseAll(before, named, token, realizes) {
        ReleasableStays(before, after, named, token, realizes, touched);
      }
    }
  }

  lemma LaterDestroyable(before: State, after: State, ports: seq<SourcePort>, n: nat, token: string -> string,
                         portToken: string -> string, realizes: string -> bool)
    requires n < |ports| && ManifestOk(ports) && CanDestroyFrom(before, ports, n, token, portToken, realizes)
    requires Typed(after.rows) && Thinner(before.rows, after.rows) && ScopesStay(before, after)
    requires var touched := AllocationsNaming(before.rows, ports[n].portId) + {PortKey(ports[n].portId)};
             SameElsewhere(before.rows, after.rows, touched) && RecordedDeletes(before, after, touched)
    ensures CanDestroyFrom(after, ports, n + 1, token, portToken, realizes)
  {
    forall i | n < i < |ports| ensures CanDestroy(after, ports[i], token, portToken(ports[i].portId), realizes) {
      assert ports[n].portId != ports[i].portId;
      assert CanDestroy(before, ports[i], token, portToken(ports[i].portId), realizes);
      DestroyableStays(before, after, ports[i], ports[n].portId, token, portToken(ports[i].portId), realizes);
    }
  }

  /** Main result on commit (deleteDetachedSourcePorts): it touches nothing but the manifest's ports and
      the allocations naming them, and if it reports no failure, all of these are gone; where nothing stands in the way
      of any port, it reports none. */
  method DeleteDetachedSourcePorts(store: Memory, ports: seq<SourcePort>, token: string -> string,
                                   portToken: string -> string, now: int,
                                   realizes: string -> bool)
    returns (failures: seq<string>)
    requires Invariant(store.rules, store.resources) && ManifestOk(ports)
    modifies store
    ensures Invariant(store.rules, store.resources)
    ensures SameElsewhere(old(store.resources), store.resources, Doomed(old(store.resources), ports))
    ensures failures == [] ==> forall k :: k in Doomed(old(store.resources), ports) ==> k !in store.resources
    ensures failures == [] ==> forall i :: 0 <= i < |ports| ==>
        AllocationsNaming(store.resources, ports[i].portId) == {}
    ensures CanDestroyFrom(old(store.Current()), ports, 0, token, portToken, realizes) ==> failures == []
  {
    ghost var start := store.resources;
    ghost var able := CanDestroyFrom(store.Current(), ports, 0, token, portToken, realizes);
    failures := [];
    for n := 0 to |ports|
      invariant Invariant(store.rules, store.resources)
      invariant SameElsewhere(start, store.resources, Doomed(start, ports)) && Thinner(start, store.resources)
      invariant failures == [] ==> GoneUpTo(ports, store.resources, n)
      invariant able ==> failures == [] && CanDestroyFrom(store.Current(), ports, n, token, portToken, realizes)
    {
      ghost var before := store.Current();
      var ok := DeleteOne(store, ports[n], token, portToken(ports[n].portId), now, realizes);
      DoomedFrame(ports, start, before.rows, store.resources, n);
      if able {
        LaterDestroyable(before, store.Current(), ports, n, token, portToken, realizes);
      }
      if !ok {
        failures := failures + [ports[n].portId];
      } else if failures == [] {
        GoneOneMore(ports, before.rows, store.resources, n);
      }
    }
    if failures == [] {
      GonePortsAreUnnamed(store.rules, store.resources, ports);
      DoomedAreGone(start, store.resources, ports);
    }
  }
}
