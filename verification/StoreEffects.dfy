/** When each store call takes effect and what it leaves, in terms of rows, revisions and times alone. */
module StoreEffects {
  import opened Ports
  import opened Model
  import opened Graph
  import opened Store

  /** No record answers for the request. */
  predicate Unanswered(s: State, scope: Scope) {
    scope.token == "" || scope !in s.replays
  }

  function WithRecord(s: State, scope: Scope, request: Request, key: Key, row: Row): map<Scope, Record> {
    if scope.token == "" then s.replays else s.replays[scope := Record(request, key, row)]
  }

  // ---------------------------------------------------------------- create, update, delete

  /** An operation must not be created as a claim that has already started. */
  predicate StartsUnclaimed(b: Body) {
    b.OperationBody? && (b.op.action == "reconcile" || b.op.action == "delete") ==>
      b.op.status == StatusUnset || b.op.status == Queued
  }

  /** A create stores a pending row at revision 1 exactly when the key is free and the row is valid, references usable
      rows and is unique; otherwise it changes nothing. */
  lemma CreateIff(r: Rules, s: State, sub: Submission, token: string, freshId: Name, now: int)
    ensures var key := Key(KindOf(sub.body), if sub.id == "" then freshId else sub.id);
            var b := CreateBody(sub, token, key.id);
            var row := Row(Meta(1, 0, Pending, "", now, now), b);
            var scope := Scope(Creating, Key(KindOf(sub.body), ""), token);
            var (after, result) := Create(r, s, sub, token, freshId, now);
            if && Unanswered(s, scope) && StartsUnclaimed(sub.body) && key !in s.rows && Validates(r, b)
               && Passes(r, s.rows, key.id, b) && NewReferencesUsable(s.rows, b, None) && UniqueAt(r, s.rows, key, b)
            then && after == State(s.rows[key := row], WithRecord(s, scope, CreateRequest(sub), key, row))
                 && result == Ok(key, row, false)
            else after == s && (Unanswered(s, scope) ==> result.Err?)
  {
  }

  /** The body that is stored: the submitted one with its defaults; an operation without a key of its own has that of
      its
      request. */
  lemma CreatedBodyIs(sub: Submission, token: string, id: string)
    ensures CreateBody(sub, token, id) ==
              WithDefaults(id, if !sub.body.OperationBody? then sub.body
                               else OperationBody(sub.body.op.(idempotencyKey := if sub.body.op.idempotencyKey == ""
                                                               then token else sub.body.op.idempotencyKey)))
  {
  }

  /** Every strong reference of a created row leads to a stored row that is neither deleting nor failed. */
  lemma CreatedReferencesAreLive(r: Rules, s: State, sub: Submission, token: string, freshId: Name, now: int, t: Key)
    requires var result := Create(r, s, sub, token, freshId, now).1; result.Ok? && !result.replayed
    requires t.id != "" && References(CreateBody(sub, token, CreateKey(sub, freshId).id), t.kind, t.id)
    ensures t in s.rows && s.rows[t].meta.state != Deleting && s.rows[t].meta.state != Error
  {
    PassingReferenceExists(r, s.rows, CreateKey(sub, freshId).id, CreateBody(sub, token, CreateKey(sub, freshId).id),
                           t);
  }

  /** So does every reference an update adds. */
  lemma AddedReferencesAreLive(r: Rules, s: State, sub: Submission, expected: int, token: string, now: int, t: Key)
    requires var result := Update(r, s, sub, expected, token, now).1; result.Ok? && !result.replayed
    requires Key(KindOf(sub.body), sub.id) in s.rows
    requires t.id != "" && References(WithDefaults(sub.id, sub.body), t.kind, t.id)
    requires !References(s.rows[Key(KindOf(sub.body), sub.id)].body, t.kind, t.id)
    ensures t in s.rows && s.rows[t].meta.state != Deleting && s.rows[t].meta.state != Error
  {
    PassingReferenceExists(r, s.rows, sub.id, WithDefaults(sub.id, sub.body), t);
  }

  lemma PassingReferenceExists(r: Rules, rows: Rows, id: string, b: Body, t: Key)
    requires Shape(b) && Passes(r, rows, id, b) && t.id != "" && References(b, t.kind, t.id)
    ensures t in rows
  {
  }

  /** The defaults a create or update fills in, and nothing else of the body. */
  lemma DefaultsAre(id: string, b: Body)
    ensures var d := WithDefaults(id, b);
            match b
            case PortBody(p) =>
              d == PortBody(p.(status := if p.status == Unset then Unbound else p.status,
                               generation := if p.generation == 0 then 1 else p.generation,
                               lspName := if p.lspName == "" && id != "" then "pvn-" + id else p.lspName))
            case IPAllocation(_, _, _, a) => d == b.(allocation := if a == StateUnset then Reserved else a)
            case FloatingIP(_, _, _, _, _, _) => d == b.(floating := Down)
            case OperationBody(op) => d == OperationBody(op.(status := if op.status == StatusUnset then Queued
                                                             else op.status))
            case _ => d == b
  {
  }

  /** A reconcile or delete in progress. */
  predicate IsLeaseHeld(b: Body) {
    b.OperationBody? && (b.op.action == "reconcile" || b.op.action == "delete") && b.op.status == Running
  }

  /** The lease lets the update through: a claim in progress is ended only by its owner, and never started. */
  predicate LeasePermits(current: Body, candidate: Body) {
    candidate.OperationBody? ==>
      && !((candidate.op.action == "reconcile" || candidate.op.action == "delete") && candidate.op.status == Running)
      && (IsLeaseHeld(current) ==> candidate.op.leaseOwner == current.op.leaseOwner)
  }

  /** What an update is checked for: the expected revision is the stored one, the lease permits it, and the row and the
      whole prospective graph are valid and unique. */
  ghost predicate UpdateAdmitted(r: Rules, rows: Rows, key: Key, b: Body, meta: Meta, expected: int) {
    && key in rows && expected == rows[key].meta.revision && LeasePermits(rows[key].body, b)
    && Validates(r, b) && Passes(r, rows, key.id, b) && NewReferencesUsable(rows, b, Some(rows[key].body))
    && UniqueAt(r, rows, key, b) && AllPass(r, rows[key := Row(meta, b)]) && AllUnique(r, rows[key := Row(meta, b)])
  }

  lemma LeasePermitsIff(current: Body, candidate: Body)
    requires KindOf(current) == KindOf(candidate)
    ensures LeaseAllows(current, candidate) <==> LeasePermits(current, candidate)
  {
  }

  lemma UpdateErrorIff(r: Rules, rows: Rows, sub: Submission, expected: int)
    requires Typed(rows)
    ensures var b := WithDefaults(sub.id, sub.body);
            UpdateError(r, rows, sub, expected).None? <==>
              UpdateAdmitted(r, rows, Key(KindOf(sub.body), sub.id), b, sub.meta, expected)
  {
    var key, b := Key(KindOf(sub.body), sub.id), WithDefaults(sub.id, sub.body);
    if key in rows {
      LeasePermitsIff(rows[key].body, b);
    }
  }

  /** An update stores the submitted row as the next revision, pending again, exactly when it passes these checks. */
  lemma UpdateIff(r: Rules, s: State, sub: Submission, expected: int, token: string, now: int)
    requires Typed(s.rows)
    ensures var key := Key(KindOf(sub.body), sub.id);
            var b := WithDefaults(sub.id, sub.body);
            var scope := Scope(Updating, key, token);
            var (after, result) := Update(r, s, sub, expected, token, now);
            if sub.id != "" && Unanswered(s, scope) && UpdateAdmitted(r, s.rows, key, b, sub.meta, expected)
            then var m := s.rows[key].meta;
                 var row := Row(Meta(m.revision + 1, m.applied, Pending, "", m.createdAt, now), b);
                 && after == State(s.rows[key := row], WithRecord(s, scope, UpdateRequest(sub, expected), key, row))
                 && result == Ok(key, row, false)
            else after == s && (Unanswered(s, scope) ==> result.Err?)
  {
    UpdateErrorIff(r, s.rows, sub, expected);
  }

  /** A delete begins exactly at the stored revision of a row that is not in use: the row stays, deleting, one revision
      later. */
  lemma BeginDeleteIff(r: Rules, s: State, key: Key, expected: int, token: string, now: int)
    requires Typed(s.rows)
    ensures var scope := Scope(Removing, key, token);
            var (after, result) := BeginDelete(r, s, key, expected, token, now);
            if Unanswered(s, scope) && key in s.rows && expected == s.rows[key].meta.revision && !InUse(r, s.rows, key)
            then var row := after.rows[key];
                 && after.rows == s.rows[key := row] && result == Ok(key, row, false)
                 && row.meta == s.rows[key].meta.(revision := expected + 1, state := Deleting, lastError := "",
                                                  updatedAt := now)
                 && row.body == (if s.rows[key].body.FloatingIP? then s.rows[key].body.(floating := Down)
                                 else s.rows[key].body)
                 && after.replays == WithRecord(s, scope, DeleteRequest(key, expected), key, row)
            else after == s && (Unanswered(s, scope) ==> result.Err?)
  {
  }

  predicate RunsOn(b: Body, key: Key) {
    b.OperationBody? && b.op.status == Running && b.op.targetKind == key.kind && b.op.targetId == key.id
  }

  /** A purge removes a row exactly when it is deleting or failed, at the given revision, not in use and the target of
      no running operation; and nothing else, ever. */
  lemma PurgeIff(r: Rules, s: State, key: Key, revision: int)
    ensures Purge(r, s, key, revision) ==
              if && key in s.rows && s.rows[key].meta.revision == revision
                 && (s.rows[key].meta.state == Deleting || s.rows[key].meta.state == Error) && !InUse(r, s.rows, key)
                 && forall k :: k in s.rows && k.kind == KindOperation ==> !RunsOn(s.rows[k].body, key)
              then s.(rows := s.rows - {key})
              else s
  {
    if key !in s.rows {
      assert s.rows - {key} == s.rows;
    }
  }

  // ---------------------------------------------------------------- reconciliation

  /** The floating IP is connected to a port through a router. */
  predicate Connected(b: Body) {
    b.FloatingIP? && b.routerId != "" && b.portId != "" && b.fixedIp != ""
  }

  /** Success at the stored revision makes the row ready and applied, and a floating IP active exactly when it is
      connected; success at an older one only records what was applied; nothing is recorded for a newer one. */
  lemma MarkedAfterSuccess(row: Row, revision: int, now: int)
    ensures var after := Marked(row, revision, None, now);
            && (revision > row.meta.revision ==> after == row)
            && (revision < row.meta.revision ==>
                  after == row.(meta :=
                                row.meta.(applied := if revision > row.meta.applied then revision
                                          else row.meta.applied)))
            && (revision == row.meta.revision ==>
                  && after.meta == row.meta.(applied := if revision > row.meta.applied then revision
                                             else row.meta.applied,
                                             state := Ready, lastError := "", updatedAt := now)
                  && (row.body.FloatingIP? ==>
                      after.body == row.body.(floating := if Connected(row.body) then Active else Down))
                  && (!row.body.FloatingIP? ==> after.body == row.body))
  {
  }

  /** A failure counts only at the stored revision: the row is in error, applied is kept. */
  lemma MarkedAfterFailure(row: Row, revision: int, failure: string, now: int)
    ensures var after := Marked(row, revision, Some(failure), now);
            && (revision != row.meta.revision ==> after == row)
            && (revision == row.meta.revision ==>
                  && after.meta == row.meta.(state := Error, lastError := failure, updatedAt := now)
                  && (row.body.FloatingIP? ==> after.body == row.body.(floating := FloatingError))
                  && (!row.body.FloatingIP? ==> after.body == row.body))
  {
  }

  /** A heartbeat changes the last-seen time of a node at its stored revision, and only forwards. */
  lemma HeartbeatIff(s: State, id: string, expected: int, at: int)
    requires Typed(s.rows)
    ensures var key := Key(KindNode, id);
            ObserveHeartbeat(s, id, expected, at) ==
              if && key in s.rows && expected == s.rows[key].meta.revision
                 && (s.rows[key].body.lastSeen == None || s.rows[key].body.lastSeen.value < at)
              then s.(rows := s.rows[key := Row(s.rows[key].meta, s.rows[key].body.(lastSeen := Some(at)))])
              else s
  {
  }

  // ---------------------------------------------------------------- leases

  /** The holder's lease has run out at the cutoff, or it never started. */
  predicate RanOut(row: Row, cutoff: int)
    requires row.body.OperationBody?
  {
    row.body.op.startedAt.None? || row.meta.updatedAt <= cutoff
  }

  predicate IsLeased(op: Operation) {
    (op.action == "reconcile" || op.action == "delete") && op.status == Running
  }

  /** The target is as the operation needs it: at its revision, not deleting for a reconcile, deleting or failed for a
      delete. */
  predicate TargetFits(rows: Rows, op: Operation) {
    var target := Key(op.targetKind, op.targetId);
    && target in rows && rows[target].meta.revision == op.targetRevision
    && (if op.action == "reconcile" then rows[target].meta.state != Deleting
        else op.action == "delete" && (rows[target].meta.state == Deleting || rows[target].meta.state == Error))
  }

  /** A claim takes effect exactly on an operation of its action at the expected revision that no live lease protects
      and whose target fits, for a well-formed owner.  The operation then runs for that owner, one revision later. */
  lemma ClaimIff(s: State, id: string, expected: int, action: string, owner: string, at: int, cutoff: int)
    requires Typed(s.rows)
    ensures var key := Key(KindOperation, id);
            Claim(s, id, expected, action, owner, at, cutoff) ==
              if && ValidLeaseOwner(owner) && key in s.rows && expected == s.rows[key].meta.revision
                 && s.rows[key].body.op.action == action
                 && (s.rows[key].body.op.status == Running ==> RanOut(s.rows[key], cutoff))
                 && TargetFits(s.rows, s.rows[key].body.op)
              then var op := s.rows[key].body.op;
                   s.(rows := s.rows[key :=
                     Row(s.rows[key].meta.(revision := expected + 1, state := Pending, lastError := "",
                                           updatedAt := at),
                         OperationBody(op.(status := Running, leaseOwner := owner, startedAt := Some(at),
                                           completedAt := None,
                                           error := "")))])
              else s
  {
  }

  /** A renewal takes effect exactly for the owner of a lease at the expected revision whose target is still there (and,
      for a delete, still fits); it moves revision and time and nothing else. */
  lemma RenewIff(s: State, id: string, expected: int, owner: string, at: int)
    requires Typed(s.rows)
    ensures var key := Key(KindOperation, id);
            Renew(s, id, expected, owner, at) ==
              if && key in s.rows && expected == s.rows[key].meta.revision && IsLeased(s.rows[key].body.op)
                 && owner != "" && s.rows[key].body.op.leaseOwner == owner
                 && Key(s.rows[key].body.op.targetKind, s.rows[key].body.op.targetId) in s.rows
                 && (s.rows[key].body.op.action == "delete" ==> TargetFits(s.rows, s.rows[key].body.op))
              then s.(rows := s.rows[key :=
                     Row(s.rows[key].meta.(revision := expected + 1, updatedAt := at), s.rows[key].body)])
              else s
  {
  }

  /** The operation was given up: failed, completed, one revision later. */
  predicate GivenUp(before: Row, after: Row, at: int)
    requires before.body.OperationBody?
  {
    && after.meta == before.meta.(revision := before.meta.revision + 1, state := Pending, lastError := "",
                                  updatedAt := at)
    && after.body.OperationBody? && after.body.op.status == Failed && after.body.op.completedAt == Some(at)
    && after.body.op == before.body.op.(status := Failed, completedAt := Some(at), error := after.body.op.error)
  }

  /** The operation was given up under this condition; otherwise the row is as it was. */
  predicate GivenUpIff(before: Rows, after: Rows, k: Key, condition: bool, at: int) {
    && k in before && k in after
    && (condition ==> before[k].body.OperationBody? && GivenUp(before[k], after[k], at))
    && (!condition ==> after[k] == before[k])
  }

  lemma AbandonedIff(rows: Rows, chosen: set<Key>, error: Operation -> string, at: int, k: Key)
    requires k in rows && (k in chosen ==> rows[k].body.OperationBody?)
    ensures GivenUpIff(rows, AbandonAll(rows, chosen, error, at), k, k in chosen, at)
    ensures AbandonAll(rows, chosen, error, at).Keys == rows.Keys
  {
  }

  /** A running reconcile on the target whose lease has run out. */
  predicate ExpiredOn(rows: Rows, k: Key, target: Key, cutoff: int) {
    && k in rows && k.kind == KindOperation && rows[k].body.OperationBody?
    && rows[k].body.op.action == "reconcile" && rows[k].body.op.status == Running
    && rows[k].body.op.targetKind == target.kind && rows[k].body.op.targetId == target.id && RanOut(rows[k], cutoff)
  }

  /** A fence gives up exactly the running reconciles on its target whose lease has run out. */
  lemma FenceIff(s: State, target: Key, cutoff: int, at: int, k: Key)
    requires Typed(s.rows) && k in s.rows
    ensures var after := Fence(s, target, cutoff, at);
            && after.replays == s.replays && after.rows.Keys == s.rows.Keys
            && GivenUpIff(s.rows, after.rows, k, ExpiredOn(s.rows, k, target, cutoff), at)
  {
    assert k in Expired(s.rows, target, cutoff) <==> ExpiredOn(s.rows, k, target, cutoff);
    AbandonedIff(s.rows, Expired(s.rows, target, cutoff), _ => "reconcile lease expired while target was deleting",
                 at, k);
  }

  /** The target of a queued reconcile is gone or has moved on. */
  predicate InVain(rows: Rows, op: Operation) {
    var target := Key(op.targetKind, op.targetId);
    target !in rows || rows[target].meta.revision > op.targetRevision
  }

  predicate QueuedForNothing(rows: Rows, op: Operation) {
    op.action == "reconcile" && op.status == Queued && InVain(rows, op)
  }

  /** An operation whose lease has run out, or that is queued in vain. */
  predicate GoneAstray(rows: Rows, k: Key, cutoff: int) {
    && k in rows && k.kind == KindOperation && rows[k].body.OperationBody?
    && ((IsLeased(rows[k].body.op) && RanOut(rows[k], cutoff)) || QueuedForNothing(rows, rows[k].body.op))
  }

  lemma AstrayIff(rows: Rows, k: Key, cutoff: int)
    ensures Recoverable(rows, k, cutoff) <==> GoneAstray(rows, k, cutoff)
  {
  }

  /** A recovery gives up exactly those of its batch that went astray. */
  lemma RecoverIff(s: State, chosen: set<Key>, cutoff: int, at: int, k: Key)
    requires k in s.rows
    ensures var after := Recover(s, chosen, cutoff, at);
            && after.replays == s.replays && after.rows.Keys == s.rows.Keys
            && GivenUpIff(s.rows, after.rows, k, k in chosen && GoneAstray(s.rows, k, cutoff), at)
  {
    AstrayIff(s.rows, k, cutoff);
    AbandonedIff(s.rows, (set l | l in chosen && Recoverable(s.rows, l, cutoff)), RecoveryError, at, k);
  }

  /** A prune removes exactly those of its batch that are finished reconciles, completed before the given time, in vain
      by now, and still known to the replay table, where their record goes too. */
  lemma PruneIff(s: State, chosen: set<Key>, before: int, k: Key)
    requires Typed(s.rows) && k in s.rows
    ensures var after := Prune(s, chosen, before);
            && (forall l :: l in after.rows ==> l in s.rows && after.rows[l] == s.rows[l])
            && (k !in after.rows <==>
                  && k in chosen && k.kind == KindOperation && s.rows[k].body.op.action == "reconcile"
                  && (s.rows[k].body.op.status == Succeeded || s.rows[k].body.op.status == Failed)
                  && s.rows[k].body.op.completedAt.Some? && s.rows[k].body.op.completedAt.value < before
                  && InVain(s.rows, s.rows[k].body.op)
                  && var scope := Scope(Creating, Key(KindOperation, ""), s.rows[k].body.op.idempotencyKey);
                     scope in s.replays && s.replays[scope].key.id == k.id)
            && (k !in after.rows ==>
                Scope(Creating, Key(KindOperation, ""), s.rows[k].body.op.idempotencyKey) !in after.replays)
  {
  }

  // ---------------------------------------------------------------- reasons

  /** A row that is not there is not found. */
  lemma MissingIsNotFound(r: Rules, s: State, sub: Submission, key: Key, id: string, expected: int, action: string,
                          owner: string, token: string, now: int, cutoff: int)
    requires Typed(s.rows) && Key(KindOf(sub.body), sub.id) !in s.rows && key !in s.rows && OperationKey(id) !in s.rows
    ensures sub.id != "" && Unanswered(s, UpdateScope(sub, token)) ==>
              Update(r, s, sub, expected, token, now).1 == Err(NotFound)
    ensures Unanswered(s, Scope(Removing, key, token)) ==>
              BeginDelete(r, s, key, expected, token, now).1 == Err(NotFound)
    ensures ValidLeaseOwner(owner) ==> ClaimError(s.rows, id, expected, action, owner, cutoff) == Some(NotFound)
    ensures RenewError(s.rows, id, expected, owner) == Some(NotFound)
  {
  }

  /** A row at another revision than expected is a failed precondition, before anything else is looked at. */
  lemma OtherRevisionIsPrecondition(r: Rules, s: State, sub: Submission, expected: int, action: string, owner: string,
                                    token: string, now: int, cutoff: int)
    requires var key := Key(KindOf(sub.body), sub.id);
             Typed(s.rows) && key in s.rows && s.rows[key].meta.revision != expected
    ensures var key := Key(KindOf(sub.body), sub.id);
            && (Unanswered(s, UpdateScope(sub, token)) ==>
                Update(r, s, sub, expected, token, now).1 == Err(Precondition))
            && (Unanswered(s, Scope(Removing, key, token)) ==>
                BeginDelete(r, s, key, expected, token, now).1 == Err(Precondition))
            && PurgeError(r, s.rows, key, expected) == Some(Precondition)
            && (key.kind == KindOperation && ValidLeaseOwner(owner) ==>
                ClaimError(s.rows, key.id, expected, action, owner, cutoff) == Some(Precondition))
            && (key.kind == KindOperation ==> RenewError(s.rows, key.id, expected, owner) == Some(Precondition))
  {
  }

  /** A key that exists, or a row that collides with another, exists already. */
  lemma DuplicateAlreadyExists(r: Rules, rows: Rows, sub: Submission, token: string, freshId: Name)
    requires StartsUnclaimed(sub.body)
    ensures var key := Key(KindOf(sub.body), if sub.id == "" then freshId else sub.id);
            var b := CreateBody(sub, token, key.id);
            && (key in rows ==> CreateError(r, rows, sub, token, freshId) == Some(AlreadyExists))
            && (key !in rows && !Validates(r, b) ==> CreateError(r, rows, sub, token, freshId) == Some(Invalid))
            && (key !in rows && Validates(r, b) && Passes(r, rows, key.id, b) && NewReferencesUsable(rows, b, None)
                && !UniqueAt(r, rows, key, b) ==>
                  CreateError(r, rows, sub, token, freshId) == Some(AlreadyExists))
  {
  }

  /** A row in use cannot be deleted or purged, a live lease cannot be claimed, and a lease of another owner cannot be
      renewed: these are conflicts. */
  lemma ProtectedIsConflict(r: Rules, s: State, key: Key, token: string, now: int, action: string, owner: string,
                            cutoff: int)
    requires Typed(s.rows) && key in s.rows
    ensures var revision := s.rows[key].meta.revision;
            && (InUse(r, s.rows, key) && Unanswered(s, Scope(Removing, key, token)) ==>
                BeginDelete(r, s, key, revision, token, now).1 == Err(Conflict))
            && (InUse(r, s.rows, key) ==> PurgeError(r, s.rows, key, revision) == Some(Conflict))
            && (key.kind == KindOperation && s.rows[key].body.op.status == Running
                && s.rows[key].body.op.startedAt.Some? && s.rows[key].meta.updatedAt > cutoff ==>
                  ClaimError(s.rows, key.id, revision, action, owner, cutoff) == Some(Conflict))
            && (key.kind == KindOperation && s.rows[key].body.op.leaseOwner != owner ==>
                RenewError(s.rows, key.id, revision, owner) == Some(Conflict))
  {
  }

  /** A token that was used for another request is an idempotency conflict; used for the same request it gets the
      recorded
      row back.  Neither changes anything. */
  lemma UsedTokenAnswers(r: Rules, s: State, sub: Submission, key: Key, expected: int, token: string, freshId: Name,
                         now: int)
    requires token != "" && sub.id != ""
    ensures Answered(s, CreateScope(sub, token), CreateRequest(sub), Create(r, s, sub, token, freshId, now))
    ensures Answered(s, UpdateScope(sub, token), UpdateRequest(sub, expected), Update(r, s, sub, expected, token, now))
    ensures Answered(s, Scope(Removing, key, token), DeleteRequest(key, expected),
                     BeginDelete(r, s, key, expected, token, now))
  {
  }

  predicate Answered(s: State, scope: Scope, request: Request, outcome: (State, Result)) {
    scope in s.replays ==>
      && outcome.0 == s
      && outcome.1 == if s.replays[scope].request == request
                      then Ok(s.replays[scope].key, s.replays[scope].row, true)
                      else Err(IdempotencyConflict)
  }
}
