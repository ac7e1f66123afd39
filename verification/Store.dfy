/** The calls of the control store as functions on its state.

    Times are integers.  Fingerprints are injective, so a replay record keeps the
    request itself, and an idempotency scope is the tuple of its parts. */
module Store {
  import opened Ports
  import opened Model
  import opened Graph
  import opened DeleteGuard

  type Name = s: string | s != "" witness "x"

  /** A resource as its caller sends it. */
  datatype Submission = Submission(id: string, meta: Meta, body: Body)

  datatype Request =
    | CreateRequest(submission: Submission)
    | UpdateRequest(submission: Submission, expected: int)
    | DeleteRequest(key: Key, expected: int)

  datatype Verb = Creating | Updating | Removing
  datatype Scope = Scope(verb: Verb, key: Key, token: string)
  datatype Record = Record(request: Request, key: Key, row: Row)

  datatype State = State(rows: Rows, replays: map<Scope, Record>)

  datatype Failure = NotFound | AlreadyExists | Conflict | Precondition | IdempotencyConflict | Invalid
  datatype Result = Ok(key: Key, row: Row, replayed: bool) | Err(failure: Failure)

  const Empty := State(map[], map[])

  // ---------------------------------------------------------------- idempotency

  function Replay(s: State, scope: Scope, request: Request): Option<Result> {
    if scope.token == "" || scope !in s.replays then None
    else if s.replays[scope].request != request then Some(Err(IdempotencyConflict))
    else Some(Ok(s.replays[scope].key, s.replays[scope].row, true))
  }

  /** Stores the row and, for a keyed request, its replay record. */
  function Commit(s: State, scope: Scope, request: Request, key: Key, row: Row): State {
    State(s.rows[key := row],
          if scope.token == "" then s.replays else s.replays[scope := Record(request, key, row)])
  }

  // ---------------------------------------------------------------- create

  function CreateScope(sub: Submission, token: string): Scope {
    Scope(Creating, Key(KindOf(sub.body), ""), token)
  }

  /** The row body that Create validates and stores. */
  function CreateBody(sub: Submission, token: string, id: string): Body {
    var b := if sub.body.OperationBody? && sub.body.op.idempotencyKey == ""
             then OperationBody(sub.body.op.(idempotencyKey := token)) else sub.body;
    WithDefaults(id, b)
  }

  function CreateKey(sub: Submission, freshId: Name): Key {
    Key(KindOf(sub.body), if sub.id == "" then freshId else sub.id)
  }

  function CreateError(r: Rules, rows: Rows, sub: Submission, token: string, freshId: Name): Option<Failure> {
    var key := CreateKey(sub, freshId);
    var b := CreateBody(sub, token, key.id);
    if sub.body.OperationBody? && LeaseProtected(sub.body.op.action)
       && sub.body.op.status != StatusUnset && sub.body.op.status != Queued then Some(Conflict)
    else if key in rows then Some(AlreadyExists)
    else if !Validates(r, b) then Some(Invalid)
    else if !Passes(r, rows, key.id, b) || !NewReferencesUsable(rows, b, None) then Some(Conflict)
    else if !UniqueAt(r, rows, key, b) then Some(AlreadyExists)
    else None
  }

  function Create(r: Rules, s: State, sub: Submission, token: string, freshId: Name, now: int): (State, Result) {
    var scope, request := CreateScope(sub, token), CreateRequest(sub);
    if Replay(s, scope, request).Some? then (s, Replay(s, scope, request).value)
    else if CreateError(r, s.rows, sub, token, freshId).Some? then
      (s, Err(CreateError(r, s.rows, sub, token, freshId).value))
    else
      var key := CreateKey(sub, freshId);
      var row := Row(Meta(1, 0, Pending, "", now, now), CreateBody(sub, token, key.id));
      (Commit(s, scope, request, key, row), Ok(key, row, false))
  }

  // ---------------------------------------------------------------- update

  function UpdateScope(sub: Submission, token: string): Scope {
    Scope(Updating, Key(KindOf(sub.body), sub.id), token)
  }

  /** Running reconciles and deletes belong to their lease and are started only by a claim. */
  predicate LeaseAllows(current: Body, candidate: Body) {
    && ((current.OperationBody? && candidate.OperationBody? && LeaseProtected(current.op.action)
         && current.op.status == Running) ==> candidate.op.leaseOwner == current.op.leaseOwner)
    && !(candidate.OperationBody? && LeaseProtected(candidate.op.action) && candidate.op.status == Running)
  }

  function UpdateError(r: Rules, rows: Rows, sub: Submission, expected: int): Option<Failure> {
    var key := Key(KindOf(sub.body), sub.id);
    var b := WithDefaults(sub.id, sub.body);
    if key !in rows then Some(NotFound)
    else if expected < 1 || rows[key].meta.revision != expected then Some(Precondition)
    else if !LeaseAllows(rows[key].body, b) then Some(Conflict)
    else if !Validates(r, b) then Some(Invalid)
    else if !Passes(r, rows, sub.id, b) || !NewReferencesUsable(rows, b, Some(rows[key].body)) then Some(Conflict)
    else if !UniqueAt(r, rows, key, b) then Some(AlreadyExists)
    else
      // The whole prospective graph, with the candidate in place as submitted.
      var prospective := rows[key := Row(sub.meta, b)];
      if AllPass(r, prospective) && AllUnique(r, prospective) then None else Some(Conflict)
  }

  function UpdatedRow(current: Row, sub: Submission, now: int): Row {
    Row(Meta(current.meta.revision + 1, current.meta.applied, Pending, "", current.meta.createdAt, now),
        WithDefaults(sub.id, sub.body))
  }

  function Update(r: Rules, s: State, sub: Submission, expected: int, token: string, now: int): (State, Result) {
    var scope, request := UpdateScope(sub, token), UpdateRequest(sub, expected);
    if sub.id == "" then (s, Err(Conflict))
    else if Replay(s, scope, request).Some? then (s, Replay(s, scope, request).value)
    else if UpdateError(r, s.rows, sub, expected).Some? then (s, Err(UpdateError(r, s.rows, sub, expected).value))
    else
      var key := Key(KindOf(sub.body), sub.id);
      var row := UpdatedRow(s.rows[key], sub, now);
      (Commit(s, scope, request, key, row), Ok(key, row, false))
  }

  // ---------------------------------------------------------------- two-phase delete

  function BeginDelete(r: Rules, s: State, key: Key, expected: int, token: string, now: int): (State, Result) {
    var scope, request := Scope(Removing, key, token), DeleteRequest(key, expected);
    if Replay(s, scope, request).Some? then (s, Replay(s, scope, request).value)
    else if key !in s.rows then (s, Err(NotFound))
    else if expected < 1 || s.rows[key].meta.revision != expected then (s, Err(Precondition))
    else if InUse(r, s.rows, key) then (s, Err(Conflict))
    else (Commit(s, scope, request, key, Tombstone(s.rows[key], now)), Ok(key, Tombstone(s.rows[key], now), false))
  }

  predicate IsRunningOn(b: Body, key: Key) {
    b.OperationBody? && b.op.status == Running && b.op.targetKind == key.kind && b.op.targetId == key.id
  }

  /** None when the row is gone afterwards. */
  function PurgeError(r: Rules, rows: Rows, key: Key, revision: int): Option<Failure> {
    if key !in rows then None
    else if rows[key].meta.revision != revision then Some(Precondition)
    else if rows[key].meta.state != Deleting && rows[key].meta.state != Error then Some(Conflict)
    else if InUse(r, rows, key) then Some(Conflict)
    else if exists k :: k in rows && k.kind == KindOperation && IsRunningOn(rows[k].body, key) then Some(Conflict)
    else None
  }

  function Purge(r: Rules, s: State, key: Key, revision: int): State {
    if PurgeError(r, s.rows, key, revision).None? then s.(rows := s.rows - {key}) else s
  }

  // ---------------------------------------------------------------- reconciliation

  /** MarkReconciled; `failure` is the render error, if any.  A newer revision is refused. */
  function Marked(row: Row, revision: int, failure: Option<string>, now: int): Row {
    var m := row.meta;
    if revision > m.revision then row
    else if failure.Some? then
      if revision != m.revision then row
      else Row(m.(state := Error, lastError := failure.value, updatedAt := now),
               if row.body.FloatingIP? then row.body.(floating := FloatingError) else row.body)
    else
      var applied := if revision > m.applied then revision else m.applied;
      if revision != m.revision then row.(meta := m.(applied := applied))
      else Row(m.(applied := applied, state := Ready, lastError := "", updatedAt := now),
               if row.body.FloatingIP? then
                 row.body.(floating := if row.body.routerId != "" && row.body.portId != "" && row.body.fixedIp != ""
                                       then Active else Down)
               else row.body)
  }

  function MarkReconciled(s: State, key: Key, revision: int, failure: Option<string>, now: int): State {
    if key in s.rows then s.(rows := s.rows[key := Marked(s.rows[key], revision, failure, now)]) else s
  }

  /** A heartbeat observes a node without touching its desired state. */
  function ObserveHeartbeat(s: State, id: string, expected: int, at: int): State {
    var key := Key(KindNode, id);
    if key in s.rows && s.rows[key].body.Node? && expected >= 1 && s.rows[key].meta.revision == expected
       && (s.rows[key].body.lastSeen.Some? ==> s.rows[key].body.lastSeen.value < at)
    then s.(rows := s.rows[key := s.rows[key].(body := s.rows[key].body.(lastSeen := Some(at)))])
    else s
  }

  // ---------------------------------------------------------------- leased operations

  function OperationKey(id: string): Key { Key(KindOperation, id) }
  function TargetKey(op: Operation): Key { Key(op.targetKind, op.targetId) }

  predicate IsOperation(rows: Rows, id: string) {
    OperationKey(id) in rows && rows[OperationKey(id)].body.OperationBody?
  }

  predicate LeaseLive(row: Row, cutoff: int) {
    row.body.OperationBody? && row.body.op.startedAt.Some? && row.meta.updatedAt > cutoff
  }

  predicate ValidLeaseOwner(owner: string) {
    1 <= |owner| <= 127 &&
    forall i :: 0 <= i < |owner| ==>
      || 'a' <= owner[i] <= 'z' || 'A' <= owner[i] <= 'Z' || '0' <= owner[i] <= '9'
      || (i > 0 && owner[i] in {'_', '.', ':', '-'})
  }

  predicate Claimable(op: Operation, target: Meta, exact: bool) {
    if op.action == "reconcile" then !exact || (target.state != Deleting && target.revision == op.targetRevision)
    else
      && op.action == "delete" && target.revision == op.targetRevision
      && (target.state == Deleting || target.state == Error)
  }

  function ClaimError(rows: Rows, id: string, expected: int, action: string, owner: string,
                      cutoff: int): Option<Failure> {
    if !ValidLeaseOwner(owner) then Some(Conflict)
    else if !IsOperation(rows, id) then Some(NotFound)
    else
      var row := rows[OperationKey(id)];
      if expected < 1 || row.meta.revision != expected then Some(Precondition)
      else if row.body.op.action != action then Some(Conflict)
      else if row.body.op.status == Running && LeaseLive(row, cutoff) then Some(Conflict)
      else if TargetKey(row.body.op) !in rows then Some(Precondition)
      else if !Claimable(row.body.op, rows[TargetKey(row.body.op)].meta, true) then Some(Precondition)
      else None
  }

  function Claimed(row: Row, owner: string, at: int): Row
    requires row.body.OperationBody?
  {
    Row(row.meta.(revision := row.meta.revision + 1, state := Pending, lastError := "", updatedAt := at),
        OperationBody(row.body.op.(status := Running, leaseOwner := owner, startedAt := Some(at), completedAt := None,
                                   error := "")))
  }

  function Claim(s: State, id: string, expected: int, action: string, owner: string, at: int, cutoff: int): State {
    if ClaimError(s.rows, id, expected, action, owner, cutoff).Some? then s
    else s.(rows := s.rows[OperationKey(id) := Claimed(s.rows[OperationKey(id)], owner, at)])
  }

  function RenewError(rows: Rows, id: string, expected: int, owner: string): Option<Failure> {
    if !IsOperation(rows, id) then Some(NotFound)
    else
      var row := rows[OperationKey(id)];
      if expected < 1 || row.meta.revision != expected then Some(Precondition)
      else if !LeaseProtected(row.body.op.action) || row.body.op.status != Running || owner == ""
        || row.body.op.leaseOwner != owner
      then Some(Conflict)
      else if TargetKey(row.body.op) !in rows || !Claimable(row.body.op, rows[TargetKey(row.body.op)].meta, false)
      then Some(Precondition)
      else None
  }

  function Renew(s: State, id: string, expected: int, owner: string, at: int): State {
    if RenewError(s.rows, id, expected, owner).Some? then s
    else
      var row := s.rows[OperationKey(id)];
      s.(rows := s.rows[OperationKey(id) :=
                        row.(meta := row.meta.(revision := row.meta.revision + 1, updatedAt := at))])
  }

  /** An abandoned operation, turned into a terminal failure. */
  function Abandoned(row: Row, error: string, at: int): Row
    requires row.body.OperationBody?
  {
    Row(row.meta.(revision := row.meta.revision + 1, state := Pending, lastError := "", updatedAt := at),
        OperationBody(row.body.op.(status := Failed, error := error, completedAt := Some(at))))
  }

  function AbandonAll(rows: Rows, chosen: set<Key>, error: Operation -> string, at: int): Rows {
    map k | k in rows ::
      if k in chosen && rows[k].body.OperationBody? then Abandoned(rows[k], error(rows[k].body.op), at) else rows[k]
  }

  predicate ReconcileClaim(rows: Rows, k: Key, target: Key) {
    k in rows && k.kind == KindOperation && IsRunningOn(rows[k].body, target) && rows[k].body.op.action == "reconcile"
  }

  /** The reconcile claims on a target whose lease has expired. */
  function Expired(rows: Rows, target: Key, cutoff: int): set<Key> {
    set k | k in rows && ReconcileClaim(rows, k, target) && !LeaseLive(rows[k], cutoff)
  }

  /** The reconcile claims on a target whose lease is live. */
  function Protecting(rows: Rows, target: Key, cutoff: int): set<Key> {
    set k | k in rows && ReconcileClaim(rows, k, target) && LeaseLive(rows[k], cutoff)
  }

  function Fence(s: State, target: Key, cutoff: int, at: int): State {
    s.(rows := AbandonAll(s.rows, Expired(s.rows, target, cutoff),
                          _ => "reconcile lease expired while target was deleting", at))
  }

  predicate TargetSuperseded(rows: Rows, op: Operation) {
    TargetKey(op) !in rows || rows[TargetKey(op)].meta.revision > op.targetRevision
  }

  predicate LeaseExpired(rows: Rows, k: Key, cutoff: int) {
    && k in rows && k.kind == KindOperation && rows[k].body.OperationBody?
    && LeaseProtected(rows[k].body.op.action) && rows[k].body.op.status == Running && !LeaseLive(rows[k], cutoff)
  }

  predicate QueuedInVain(rows: Rows, k: Key) {
    && k in rows && k.kind == KindOperation && rows[k].body.OperationBody?
    && rows[k].body.op.action == "reconcile" && rows[k].body.op.status == Queued
      && TargetSuperseded(rows, rows[k].body.op)
  }

  predicate Recoverable(rows: Rows, k: Key, cutoff: int) {
    LeaseExpired(rows, k, cutoff) || QueuedInVain(rows, k)
  }

  function RecoveryError(op: Operation): string {
    if op.status == Queued then "operation target revision was superseded before claim"
    else "operation lease expired before completion"
  }

  /** Recovers the batch `chosen`; only recoverable rows of it count. */
  function Recover(s: State, chosen: set<Key>, cutoff: int, at: int): State {
    var batch := set k | k in chosen && Recoverable(s.rows, k, cutoff);
    s.(rows := AbandonAll(s.rows, batch, RecoveryError, at))
  }

  function ReplayScopeOf(op: Operation): Scope {
    Scope(Creating, Key(KindOperation, ""), op.idempotencyKey)
  }

  predicate TerminalReconcile(rows: Rows, k: Key) {
    && k in rows && k.kind == KindOperation && rows[k].body.OperationBody? && rows[k].body.op.action == "reconcile"
    && (rows[k].body.op.status == Succeeded || rows[k].body.op.status == Failed) && rows[k].body.op.completedAt.Some?
  }

  function CompletedAt(rows: Rows, k: Key): int
    requires TerminalReconcile(rows, k)
  {
    rows[k].body.op.completedAt.value
  }

  predicate Prunable(s: State, k: Key, before: int) {
    && TerminalReconcile(s.rows, k)
    && var op := s.rows[k].body.op;
       && CompletedAt(s.rows, k) < before && TargetSuperseded(s.rows, op)
       && ReplayScopeOf(op) in s.replays && s.replays[ReplayScopeOf(op)].key.id == k.id
  }

  /** Prunes the batch `chosen`: an audit row and its replay record are one unit. */
  function Prune(s: State, chosen: set<Key>, before: int): State {
    var batch := set k | k in chosen && Prunable(s, k, before);
    State(s.rows - batch, s.replays - (set k | k in batch :: ReplayScopeOf(s.rows[k].body.op)))
  }

  // ---------------------------------------------------------------- runs

  datatype Call =
    | DoCreate(sub: Submission, token: string, freshId: Name, now: int)
    | DoUpdate(sub: Submission, expected: int, token: string, now: int)
    | DoBeginDelete(key: Key, expected: int, token: string, now: int)
    | DoPurge(key: Key, revision: int)
    | DoMarkReconciled(key: Key, revision: int, failure: Option<string>, now: int)
    | DoHeartbeat(id: string, expected: int, now: int)
    | DoClaim(id: string, expected: int, action: string, owner: string, now: int, cutoff: int)
    | DoRenew(id: string, expected: int, owner: string, now: int)
    | DoFence(key: Key, cutoff: int, now: int)
    | DoRecover(chosen: set<Key>, cutoff: int, now: int)
    | DoPrune(chosen: set<Key>, before: int)

  function Apply(r: Rules, s: State, c: Call): State {
    match c
    case DoCreate(sub, token, freshId, now) => Create(r, s, sub, token, freshId, now).0
    case DoUpdate(sub, expected, token, now) => Update(r, s, sub, expected, token, now).0
    case DoBeginDelete(key, expected, token, now) => BeginDelete(r, s, key, expected, token, now).0
    case DoPurge(key, revision) => Purge(r, s, key, revision)
    case DoMarkReconciled(key, revision, failure, now) => MarkReconciled(s, key, revision, failure, now)
    case DoHeartbeat(id, expected, now) => ObserveHeartbeat(s, id, expected, now)
    case DoClaim(id, expected, action, owner, now, cutoff) => Claim(s, id, expected, action, owner, now, cutoff)
    case DoRenew(id, expected, owner, now) => Renew(s, id, expected, owner, now)
    case DoFence(key, cutoff, now) => Fence(s, key, cutoff, now)
    case DoRecover(chosen, cutoff, now) => Recover(s, chosen, cutoff, now)
    case DoPrune(chosen, before) => Prune(s, chosen, before)
  }

  function Run(r: Rules, s: State, calls: seq<Call>): State
    decreases |calls|
  {
    if calls == [] then s else Run(r, Apply(r, s, calls[0]), calls[1..])
  }
}
