/** The in-memory control store: its fields, updated in place under one lock, against the
    functions of module Store. */
module MemoryStore {
  import opened Ports
  import opened Model
  import opened Graph
  import opened DeleteGuard
  import opened Store
  import opened Text

  const MAX_PRUNE_BATCH := 256
  const MAX_RECOVER_BATCH := 256

  /** The order of a batch: by time, by ID where the time is equal. */
  predicate Before(time: Key -> int, a: Key, b: Key) {
    time(a) < time(b) || (time(a) == time(b) && NameLess(a.id, b.id))
  }

  /** The chosen keys are the first ones of the candidates, as many as there is room for. */
  ghost predicate AreFirst(candidates: set<Key>, room: nat, time: Key -> int, chosen: set<Key>) {
    && chosen <= candidates && |chosen| <= room && (|chosen| < room ==> chosen == candidates)
    && forall c, k :: c in chosen && k in candidates && k !in chosen ==> Before(time, c, k)
  }

  predicate OneKind(keys: set<Key>) {
    forall k, l :: k in keys && l in keys ==> k.kind == l.kind
  }

  lemma BeforeComposes(time: Key -> int, a: Key, b: Key, c: Key)
    requires Before(time, a, b) && Before(time, b, c)
    ensures Before(time, a, c)
  {
    if time(a) == time(c) {
      NamesAreTransitive(a.id, b.id, c.id);
    }
  }

  method FirstOf(candidates: set<Key>, time: Key -> int) returns (best: Key)
    requires candidates != {} && OneKind(candidates)
    ensures best in candidates && forall k :: k in candidates && k != best ==> Before(time, best, k)
  {
    best :| best in candidates;
    var todo := candidates - {best};
    while todo != {}
      invariant todo <= candidates && best in candidates && best !in todo
      invariant forall k :: k in candidates && k !in todo && k != best ==> Before(time, best, k)
      decreases |todo|
    {
      var k :| k in todo;
      todo := todo - {k};
      NamesAreTotal(k.id, best.id);
      assert k.id != best.id;
      if Before(time, k, best) {
        forall l | l in candidates && l !in todo && l != best && l != k ensures Before(time, k, l) {
          BeforeComposes(time, k, best, l);
        }
        best := k;
      }
    }
  }

  /** The head of the sorted candidates. */
  method TakeFirst(candidates: set<Key>, room: nat, time: Key -> int) returns (chosen: set<Key>)
    requires OneKind(candidates)
    ensures AreFirst(candidates, room, time, chosen)
  {
    chosen := {};
    var rest := candidates;
    while rest != {} && |chosen| < room
      invariant rest !! chosen && rest + chosen == candidates && |chosen| <= room
      invariant forall c, k :: c in chosen && k in rest ==> Before(time, c, k)
      decreases |rest|
    {
      var first := FirstOf(rest, time);
      rest := rest - {first};
      chosen := chosen + {first};
    }
  }

  function LastUpdate(rows: Rows): Key -> int {
    k => if k in rows then rows[k].meta.updatedAt else 0
  }

  /** Later completions come first. */
  function LatestCompletion(rows: Rows): Key -> int {
    k => if TerminalReconcile(rows, k) then -CompletedAt(rows, k) else 0
  }

  function ExpiredLeases(rows: Rows, cutoff: int): set<Key> {
    set k | k in rows && LeaseExpired(rows, k, cutoff)
  }

  function QueuedForNothing(rows: Rows): set<Key> {
    set k | k in rows && QueuedInVain(rows, k)
  }

  function TerminalReconciles(rows: Rows): set<Key> {
    set k | k in rows && TerminalReconcile(rows, k)
  }

  function PrunableRows(s: State, before: int): set<Key> {
    set k | k in s.rows && Prunable(s, k, before)
  }

  lemma AllRecoverable(rows: Rows, cutoff: int, expired: set<Key>, queued: set<Key>)
    requires expired <= ExpiredLeases(rows, cutoff) && queued <= QueuedForNothing(rows)
    ensures (set k | k in expired + queued && Recoverable(rows, k, cutoff)) == expired + queued
  {
  }

  class Memory {
    const rules: Rules
    var resources: Rows
    var idempotency: map<Scope, Record>

    ghost function Current(): State
      reads this
    {
      State(resources, idempotency)
    }

    constructor (rules: Rules)
      ensures this.rules == rules && Current() == Empty
    {
      this.rules := rules;
      resources := map[];
      idempotency := map[];
    }

    method Replayed(scope: Scope, request: Request) returns (result: Option<Result>)
      ensures result == Replay(Current(), scope, request)
    {
      if scope.token == "" || scope !in idempotency {
        return None;
      }
      var record := idempotency[scope];
      if record.request != request {
        return Some(Err(IdempotencyConflict));
      }
      return Some(Ok(record.key, record.row, true));
    }

    method Remember(scope: Scope, request: Request, key: Key, row: Row)
      modifies this
      ensures Current() == Commit(old(Current()), scope, request, key, row)
    {
      resources := resources[key := row];
      if scope.token != "" {
        idempotency := idempotency[scope := Record(request, key, row)];
      }
    }

    method Get(kind: Kind, id: string) returns (row: Option<Row>)
      ensures row.Some? <==> Key(kind, id) in resources
      ensures row.Some? ==> row.value == resources[Key(kind, id)]
    {
      if Key(kind, id) in resources {
        return Some(resources[Key(kind, id)]);
      }
      return None;
    }

    method Create(sub: Submission, token: string, freshId: Name, now: int) returns (result: Result)
      modifies this
      ensures (Current(), result) == Store.Create(rules, old(Current()), sub, token, freshId, now)
    {
      var scope, request := CreateScope(sub, token), CreateRequest(sub);
      var replay := Replayed(scope, request);
      if replay.Some? {
        return replay.value;
      }
      if sub.body.OperationBody? && LeaseProtected(sub.body.op.action)
         && sub.body.op.status != StatusUnset && sub.body.op.status != Queued {
        return Err(Conflict);
      }
      var key := CreateKey(sub, freshId);
      if key in resources {
        return Err(AlreadyExists);
      }
      var body := CreateBody(sub, token, key.id);
      if !Validates(rules, body) {
        return Err(Invalid);
      }
      if !Passes(rules, resources, key.id, body) || !NewReferencesUsable(resources, body, None) {
        return Err(Conflict);
      }
      if !UniqueAt(rules, resources, key, body) {
        return Err(AlreadyExists);
      }
      var row := Row(Meta(1, 0, Pending, "", now, now), body);
      Remember(scope, request, key, row);
      result := Ok(key, row, false);
    }

    /** Validates every row of a prospective table, one by one. */
    method GraphIsSound(prospective: Rows) returns (sound: bool)
      ensures sound <==> AllPass(rules, prospective) && AllUnique(rules, prospective)
    {
      var todo := prospective.Keys;
      while todo != {}
        invariant todo <= prospective.Keys
        invariant forall k :: k in prospective && k !in todo ==>
          Passes(rules, prospective, k.id, prospective[k].body) && UniqueAt(rules, prospective, k, prospective[k].body)
        decreases |todo|
      {
        var k :| k in todo;
        if !Passes(rules, prospective, k.id, prospective[k].body)
          || !UniqueAt(rules, prospective, k, prospective[k].body) {
          return false;
        }
        todo := todo - {k};
      }
      return true;
    }

    method Update(sub: Submission, expected: int, token: string, now: int) returns (result: Result)
      modifies this
      ensures (Current(), result) == Store.Update(rules, old(Current()), sub, expected, token, now)
    {
      if sub.id == "" {
        return Err(Conflict);
      }
      var scope, request := UpdateScope(sub, token), UpdateRequest(sub, expected);
      var replay := Replayed(scope, request);
      if replay.Some? {
        return replay.value;
      }
      var key := Key(KindOf(sub.body), sub.id);
      if key !in resources {
        return Err(NotFound);
      }
      var current := resources[key];
      if expected < 1 || current.meta.revision != expected {
        return Err(Precondition);
      }
      var body := WithDefaults(sub.id, sub.body);
      if !LeaseAllows(current.body, body) {
        return Err(Conflict);
      }
      if !Validates(rules, body) {
        return Err(Invalid);
      }
      if !Passes(rules, resources, sub.id, body) || !NewReferencesUsable(resources, body, Some(current.body)) {
        return Err(Conflict);
      }
      if !UniqueAt(rules, resources, key, body) {
        return Err(AlreadyExists);
      }
      var sound := GraphIsSound(resources[key := Row(sub.meta, body)]);
      if !sound {
        return Err(Conflict);
      }
      var row := UpdatedRow(current, sub, now);
      Remember(scope, request, key, row);
      result := Ok(key, row, false);
    }

    /** Looks through the table for a row that keeps `key` alive. */
    method FirstReference(key: Key) returns (found: bool)
      ensures found <==> InUse(rules, resources, key)
    {
      var todo := resources.Keys - {key};
      while todo != {}
        invariant todo <= resources.Keys - {key}
        invariant forall k :: k in resources && k != key && k !in todo ==>
            !References(resources[k].body, key.kind, key.id)
        decreases |todo|
      {
        var k :| k in todo;
        if References(resources[k].body, key.kind, key.id) {
          return true;
        }
        todo := todo - {k};
      }
      return LastSegmentInUse(resources, key) || InterfaceInUse(rules, resources, key)
        || SubnetInUse(rules, resources, key);
    }

    method BeginDelete(key: Key, expected: int, token: string, now: int) returns (result: Result)
      modifies this
      ensures (Current(), result) == Store.BeginDelete(rules, old(Current()), key, expected, token, now)
    {
      var scope, request := Scope(Removing, key, token), DeleteRequest(key, expected);
      var replay := Replayed(scope, request);
      if replay.Some? {
        return replay.value;
      }
      if key !in resources {
        return Err(NotFound);
      }
      if expected < 1 || resources[key].meta.revision != expected {
        return Err(Precondition);
      }
      var found := FirstReference(key);
      if found {
        return Err(Conflict);
      }
      var tombstone := Tombstone(resources[key], now);
      Remember(scope, request, key, tombstone);
      result := Ok(key, tombstone, false);
    }

    method Purge(key: Key, revision: int) returns (error: Option<Failure>)
      modifies this
      ensures error == PurgeError(rules, old(resources), key, revision)
      ensures Current() == Store.Purge(rules, old(Current()), key, revision)
    {
      if key !in resources {
        assert resources - {key} == resources;
        return None;
      }
      if resources[key].meta.revision != revision {
        return Some(Precondition);
      }
      if resources[key].meta.state != Deleting && resources[key].meta.state != Error {
        return Some(Conflict);
      }
      var found := FirstReference(key);
      if found {
        return Some(Conflict);
      }
      var todo := resources.Keys;
      while todo != {}
        invariant todo <= resources.Keys
        invariant forall k :: k in resources && k !in todo ==>
            !(k.kind == KindOperation && IsRunningOn(resources[k].body, key))
        decreases |todo|
      {
        var k :| k in todo;
        if k.kind == KindOperation && IsRunningOn(resources[k].body, key) {
          return Some(Conflict);
        }
        todo := todo - {k};
      }
      resources := resources - {key};
      return None;
    }

    method MarkReconciled(key: Key, revision: int, failure: Option<string>, now: int) returns (error: Option<Failure>)
      modifies this
      ensures Current() == Store.MarkReconciled(old(Current()), key, revision, failure, now)
      ensures error == if key !in old(resources) then Some(NotFound)
                       else if revision > old(resources)[key].meta.revision then Some(Precondition) else None
    {
      if key !in resources {
        return Some(NotFound);
      }
      if revision > resources[key].meta.revision {
        assert resources[key := resources[key]] == resources;
        return Some(Precondition);
      }
      resources := resources[key := Marked(resources[key], revision, failure, now)];
      return None;
    }

    method ClaimOperation(id: string, expected: int, action: string, owner: string, at: int, cutoff: int)
      returns (error: Option<Failure>)
      modifies this
      ensures error == ClaimError(old(resources), id, expected, action, owner, cutoff)
      ensures Current() == Claim(old(Current()), id, expected, action, owner, at, cutoff)
      ensures error.None? ==> IsOperation(resources, id) && resources[OperationKey(id)].meta.revision == expected + 1
                              && resources[OperationKey(id)].body.op.status == Running
                              && resources[OperationKey(id)].body.op.leaseOwner == owner
    {
      if !ValidLeaseOwner(owner) {
        return Some(Conflict);
      }
      if !IsOperation(resources, id) {
        return Some(NotFound);
      }
      var stored := resources[OperationKey(id)];
      var op := stored.body.op;
      if expected < 1 || stored.meta.revision != expected {
        return Some(Precondition);
      }
      if op.action != action || (op.status == Running && LeaseLive(stored, cutoff)) {
        return Some(Conflict);
      }
      if TargetKey(op) !in resources {
        return Some(Precondition);
      }
      if !Claimable(op, resources[TargetKey(op)].meta, true) {
        return Some(Precondition);
      }
      var claimed := op.(status := Running, leaseOwner := owner, startedAt := Some(at), completedAt := None,
                         error := "");
      var meta := stored.meta.(revision := expected + 1, state := Pending, lastError := "", updatedAt := at);
      resources := resources[OperationKey(id) := Row(meta, OperationBody(claimed))];
      return None;
    }

    method RenewOperationLease(id: string, expected: int, owner: string, at: int) returns (error: Option<Failure>)
      modifies this
      ensures error == RenewError(old(resources), id, expected, owner)
      ensures Current() == Renew(old(Current()), id, expected, owner, at)
      ensures error.None? ==> IsOperation(resources, id) && resources[OperationKey(id)].meta.revision == expected + 1
                              && resources[OperationKey(id)].body == old(resources)[OperationKey(id)].body
    {
      if !IsOperation(resources, id) {
        return Some(NotFound);
      }
      var stored := resources[OperationKey(id)];
      var op := stored.body.op;
      if expected < 1 || stored.meta.revision != expected {
        return Some(Precondition);
      }
      if !LeaseProtected(op.action) || op.status != Running || owner == "" || op.leaseOwner != owner {
        return Some(Conflict);
      }
      if TargetKey(op) !in resources || !Claimable(op, resources[TargetKey(op)].meta, false) {
        return Some(Precondition);
      }
      resources := resources[OperationKey(id) :=
                             stored.(meta := stored.meta.(revision := expected + 1, updatedAt := at))];
      return None;
    }

    /** Sorts the reconcile claims on a target into expired and live ones. */
    method ReconcilesOn(target: Key, cutoff: int) returns (expired: set<Key>, live: set<Key>)
      ensures expired == Expired(resources, target, cutoff) && live == Protecting(resources, target, cutoff)
    {
      expired, live := {}, {};
      var todo := resources.Keys;
      while todo != {}
        invariant todo <= resources.Keys
        invariant forall k :: k in expired <==>
            k in resources && k !in todo && ReconcileClaim(resources, k, target) && !LeaseLive(resources[k], cutoff)
        invariant forall k :: k in live <==>
            k in resources && k !in todo && ReconcileClaim(resources, k, target) && LeaseLive(resources[k], cutoff)
        decreases |todo|
      {
        var k :| k in todo;
        todo := todo - {k};
        if ReconcileClaim(resources, k, target) {
          if LeaseLive(resources[k], cutoff) {
            live := live + {k};
          } else {
            expired := expired + {k};
          }
        }
      }
    }

    /** Fails the expired reconcile claims of a target and reports whether a live claim protects it. */
    method FenceReconciles(target: Key, cutoff: int, at: int) returns (active: bool, recovered: bool)
      modifies this
      ensures Current() == Fence(old(Current()), target, cutoff, at)
      ensures recovered <==> Expired(old(resources), target, cutoff) != {}
      ensures active <==> Protecting(old(resources), target, cutoff) != {}
    {
      var expired, live := ReconcilesOn(target, cutoff);
      active, recovered := live != {}, expired != {};
      resources := AbandonAll(resources, expired, _ => "reconcile lease expired while target was deleting", at);
    }

    /** Picks at most `limit` abandoned operations: expired claims first, then reconciles whose
        target moved on before they were claimed; of either kind those that were updated first. */
    method RecoveryBatch(cutoff: int, limit: nat) returns (expired: set<Key>, queued: set<Key>)
      ensures |expired| + |queued| <= limit && |expired| + |queued| <= MAX_RECOVER_BATCH
      ensures var room := if limit > MAX_RECOVER_BATCH then MAX_RECOVER_BATCH else limit;
              && AreFirst(ExpiredLeases(resources, cutoff), room, LastUpdate(resources), expired)
              && AreFirst(QueuedForNothing(resources), room - |expired|, LastUpdate(resources), queued)
    {
      var room := if limit > MAX_RECOVER_BATCH then MAX_RECOVER_BATCH else limit;
      expired := TakeFirst(ExpiredLeases(resources, cutoff), room, LastUpdate(resources));
      queued := TakeFirst(QueuedForNothing(resources), room - |expired|, LastUpdate(resources));
    }

    method RecoverExpiredOperations(cutoff: int, at: int, limit: nat) returns (expired: set<Key>, queued: set<Key>)
      modifies this
      ensures Current() == Recover(old(Current()), expired + queued, cutoff, at)
      ensures |expired| + |queued| <= limit && |expired| + |queued| <= MAX_RECOVER_BATCH
      ensures var room := if limit > MAX_RECOVER_BATCH then MAX_RECOVER_BATCH else limit;
              && AreFirst(ExpiredLeases(old(resources), cutoff), room, LastUpdate(old(resources)), expired)
              && AreFirst(QueuedForNothing(old(resources)), room - |expired|, LastUpdate(old(resources)), queued)
    {
      expired, queued := RecoveryBatch(cutoff, limit);
      AllRecoverable(resources, cutoff, expired, queued);
      resources := AbandonAll(resources, expired + queued, RecoveryError, at);
    }

    /** Picks the audit rows to prune: it spares the `keep` most recent terminal reconciles, and of the others takes the
        most recent ones that can be pruned. */
    method PruneBatch(before: int, keep: nat) returns (batch: set<Key>, spared: set<Key>)
      ensures AreFirst(TerminalReconciles(resources), keep, LatestCompletion(resources), spared)
      ensures AreFirst(PrunableRows(State(resources, idempotency), before) - spared, MAX_PRUNE_BATCH,
                       LatestCompletion(resources), batch)
    {
      spared := TakeFirst(TerminalReconciles(resources), keep, LatestCompletion(resources));
      batch := TakeFirst(PrunableRows(State(resources, idempotency), before) - spared, MAX_PRUNE_BATCH,
                         LatestCompletion(resources));
    }

    method PruneOperations(before: int, keep: nat) returns (batch: set<Key>, spared: set<Key>)
      modifies this
      ensures Current() == Prune(old(Current()), batch, before)
      ensures AreFirst(TerminalReconciles(old(resources)), keep, LatestCompletion(old(resources)), spared)
      ensures AreFirst(PrunableRows(old(Current()), before) - spared, MAX_PRUNE_BATCH, LatestCompletion(old(resources)),
                       batch)
    {
      batch, spared := PruneBatch(before, keep);
      assert (set k | k in batch && Prunable(Current(), k, before)) == batch;
      idempotency := idempotency - (set k | k in batch :: ReplayScopeOf(resources[k].body.op));
      resources := resources - batch;
    }
  }
}
