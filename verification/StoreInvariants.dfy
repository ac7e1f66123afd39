/** What every sequence of store calls keeps. */
module StoreInvariants {
  import opened Ports
  import opened Model
  import opened Graph
  import opened DeleteGuard
  import opened Store

  // ---------------------------------------------------------------- the invariant

  /** No strong reference dangles. */
  ghost predicate NoDangling(rows: Rows) {
    forall k, t: Key :: k in rows && t.id != "" && References(rows[k].body, t.kind, t.id) ==> t in rows
  }

  /** A row in state `deleting` has no strong referrer. */
  ghost predicate DeletingUnreferenced(rows: Rows) {
    forall k, t :: k in rows && t in rows && rows[t].meta.state == Deleting ==> !References(rows[k].body, t.kind, t.id)
  }

  /** A claimed reconcile or delete still has its target. */
  ghost predicate LeasesHaveTargets(rows: Rows) {
    forall k :: k in rows && HoldsLease(rows[k].body) ==> TargetKey(rows[k].body.op) in rows
  }

  predicate HoldsLease(b: Body) {
    b.OperationBody? && LeaseProtected(b.op.action) && b.op.status == Running
  }

  ghost predicate Invariant(r: Rules, rows: Rows) {
    && Typed(rows)
    && (forall k :: k in rows ==> Shape(rows[k].body))
    && NoDangling(rows)
    && DeletingUnreferenced(rows)
    && AllUnique(r, rows)
    && LeasesHaveTargets(rows)
  }

  // ---------------------------------------------------------------- calls that keep every link

  /** The bodies agree on everything that references, uniqueness and claims look at. */
  predicate SameLinks(a: Body, b: Body) {
    match (a, b)
    case (FloatingIP(_, _, _, _, _, _), FloatingIP(_, _, _, _, _, _)) => a == b.(floating := a.floating)
    case (Node(n, c, _, _), Node(m, d, _, _)) => n == m && c == d
    case (OperationBody(o), OperationBody(p)) =>
      && o.action == p.action && o.targetKind == p.targetKind && o.targetId == p.targetId
      && o.targetRevision == p.targetRevision && o.idempotencyKey == p.idempotencyKey
    case _ => a == b
  }

  /** The row keeps its links, enters `deleting` only unreferenced, and a new lease has its target. */
  predicate RowTouched(rows: Rows, k: Key, a: Row, b: Row) {
    && SameLinks(a.body, b.body)
    && b.meta.revision >= a.meta.revision
    && (b.meta.state == Deleting ==> a.meta.state == Deleting || !StronglyReferenced(rows, k))
    && (Shape(a.body) ==> Shape(b.body))
    && (HoldsLease(b.body) && !HoldsLease(a.body) ==> TargetKey(b.body.op) in rows)
  }

  ghost predicate Touched(before: Rows, after: Rows) {
    && before.Keys == after.Keys
    && forall k :: k in before ==> RowTouched(before, k, before[k], after[k])
  }

  lemma SameLinksSameReferences(a: Body, b: Body, kind: Kind, id: string)
    requires SameLinks(a, b)
    ensures References(a, kind, id) <==> References(b, kind, id)
  {
  }

  lemma SameLinksSameClaim(r: Rules, before: Rows, after: Rows, a: Body, b: Body)
    requires Touched(before, after) && SameLinks(a, b)
    ensures ClaimOf(r, before, a) == ClaimOf(r, after, b)
  {
    if a.Subnet? || a.Router? {
      var network := Key(KindNetwork, if a.Subnet? then a.networkId else a.externalNetworkId);
      assert network in before <==> network in after;
    }
  }

  lemma SameLinksSameConflicts(r: Rules, a: Body, b: Body, c: Body, d: Body)
    requires SameLinks(a, b) && SameLinks(c, d)
    ensures Conflicts(r, a, c) <==> Conflicts(r, b, d)
  {
  }

  lemma NoSelfReference(b: Body, id: string)
    ensures !References(b, KindOf(b), id)
  {
  }

  lemma TouchedKeepsReferences(before: Rows, after: Rows)
    requires Typed(before) && NoDangling(before) && DeletingUnreferenced(before) && Touched(before, after)
    ensures NoDangling(after) && DeletingUnreferenced(after)
  {
    forall k, t | k in after && t in after && after[t].meta.state == Deleting
      ensures !References(after[k].body, t.kind, t.id)
    {
      assert RowTouched(before, t, before[t], after[t]) && RowTouched(before, k, before[k], after[k]);
      SameLinksSameReferences(before[k].body, after[k].body, t.kind, t.id);
      if k == t {
        NoSelfReference(before[k].body, k.id);
      }
    }
    forall k, t: Key | k in before
      ensures References(before[k].body, t.kind, t.id) <==> References(after[k].body, t.kind, t.id)
    {
      SameLinksSameReferences(before[k].body, after[k].body, t.kind, t.id);
    }
  }

  lemma TouchedKeepsUnique(r: Rules, before: Rows, after: Rows)
    requires AllUnique(r, before) && Touched(before, after)
    ensures AllUnique(r, after)
  {
    forall k, l | k in after && l in after && l != k
      ensures !(l.kind == k.kind && Conflicts(r, after[k].body, after[l].body))
      ensures !(ClaimOf(r, after, after[k].body).Some?
                && ClaimOf(r, after, after[k].body) == ClaimOf(r, after, after[l].body))
    {
      assert UniqueAt(r, before, k, before[k].body);
      SameLinksSameConflicts(r, before[k].body, after[k].body, before[l].body, after[l].body);
      SameLinksSameClaim(r, before, after, before[k].body, after[k].body);
      SameLinksSameClaim(r, before, after, before[l].body, after[l].body);
    }
  }

  lemma TouchedKeepsTyping(before: Rows, after: Rows)
    requires Typed(before) && (forall k :: k in before ==> Shape(before[k].body)) && Touched(before, after)
    ensures Typed(after) && (forall k :: k in after ==> Shape(after[k].body))
  {
    forall k | k in after ensures KindOf(after[k].body) == k.kind && Shape(after[k].body) {
      assert RowTouched(before, k, before[k], after[k]);
    }
  }

  lemma TouchedKeepsLeases(before: Rows, after: Rows)
    requires LeasesHaveTargets(before) && Touched(before, after)
    ensures LeasesHaveTargets(after)
  {
    forall k | k in after && HoldsLease(after[k].body) ensures TargetKey(after[k].body.op) in after {
      assert RowTouched(before, k, before[k], after[k]);
    }
  }

  lemma TouchedKeepsInvariant(r: Rules, before: Rows, after: Rows)
    requires Invariant(r, before) && Touched(before, after)
    ensures Invariant(r, after)
  {
    TouchedKeepsTyping(before, after);
    TouchedKeepsReferences(before, after);
    TouchedKeepsUnique(r, before, after);
    TouchedKeepsLeases(before, after);
  }

  lemma UntouchedRow(rows: Rows, k: Key, row: Row)
    ensures RowTouched(rows, k, row, row)
  {
  }

  lemma ReplacedRowTouches(rows: Rows, key: Key, row: Row)
    requires key in rows && RowTouched(rows, key, rows[key], row)
    ensures Touched(rows, rows[key := row])
  {
    forall k | k in rows ensures RowTouched(rows, k, rows[k], rows[key := row][k]) {
      UntouchedRow(rows, k, rows[k]);
    }
  }

  lemma MarkTouches(rows: Rows, k: Key, row: Row, revision: int, failure: Option<string>, now: int)
    ensures RowTouched(rows, k, row, Marked(row, revision, failure, now))
  {
  }

  lemma AbandonTouches(rows: Rows, chosen: set<Key>, error: Operation -> string, at: int)
    ensures Touched(rows, AbandonAll(rows, chosen, error, at))
  {
    var after := AbandonAll(rows, chosen, error, at);
    forall k | k in rows ensures RowTouched(rows, k, rows[k], after[k]) {
      UntouchedRow(rows, k, rows[k]);
    }
  }

  // ---------------------------------------------------------------- create and update

  /** A row that passes the validator refers only to rows that exist. */
  lemma PassingRowsHaveTargets(r: Rules, rows: Rows, id: string, b: Body, t: Key)
    requires Shape(b) && Passes(r, rows, id, b) && t.id != "" && References(b, t.kind, t.id)
    ensures t in rows
  {
  }

  /** A fresh row changes no claim: rows that would inherit a claim from it would have dangled. */
  lemma FreshRowKeepsClaims(r: Rules, rows: Rows, key: Key, row: Row, b: Body)
    requires key !in rows && key.id != "" && KindOf(row.body) == key.kind
    requires !References(b, key.kind, key.id)
    ensures ClaimOf(r, rows[key := row], b) == ClaimOf(r, rows, b)
  {
  }

  lemma ConflictsIsSymmetric(r: Rules, a: Body, b: Body)
    ensures Conflicts(r, a, b) <==> Conflicts(r, b, a)
  {
  }

  lemma CreateKeepsUnique(r: Rules, rows: Rows, key: Key, row: Row)
    requires Typed(rows) && NoDangling(rows) && AllUnique(r, rows) && Shape(row.body)
    requires key !in rows && key.id != "" && KindOf(row.body) == key.kind
    requires Passes(r, rows, key.id, row.body) && UniqueAt(r, rows, key, row.body)
    ensures AllUnique(r, rows[key := row])
  {
    var after := rows[key := row];
    forall k, l | k in after && l in after && l != k
      ensures !(l.kind == k.kind && Conflicts(r, after[k].body, after[l].body))
      ensures !(ClaimOf(r, after, after[k].body).Some?
                && ClaimOf(r, after, after[k].body) == ClaimOf(r, after, after[l].body))
    {
      forall m | m in after ensures ClaimOf(r, after, after[m].body) == ClaimOf(r, rows, after[m].body) {
        if References(after[m].body, key.kind, key.id) && m == key {
          PassingRowsHaveTargets(r, rows, key.id, row.body, key);
        }
        FreshRowKeepsClaims(r, rows, key, row, after[m].body);
      }
      if k != key {
        assert UniqueAt(r, rows, k, rows[k].body);
        ConflictsIsSymmetric(r, after[k].body, after[l].body);
      }
    }
  }

  lemma CreateKeepsInvariant(r: Rules, rows: Rows, key: Key, row: Row)
    requires Invariant(r, rows)
    requires key !in rows && key.id != "" && KindOf(row.body) == key.kind && Shape(row.body)
    requires row.meta.revision >= 1 && row.meta.state == Pending && !HoldsLease(row.body)
    requires Passes(r, rows, key.id, row.body) && NewReferencesUsable(rows, row.body, None)
    requires UniqueAt(r, rows, key, row.body)
    ensures Invariant(r, rows[key := row])
  {
    CreateKeepsUnique(r, rows, key, row);
    CreateKeepsReferences(r, rows, key, row);
    StoredRowKeepsRest(rows, key, row);
  }

  lemma CreateKeepsReferences(r: Rules, rows: Rows, key: Key, row: Row)
    requires NoDangling(rows) && DeletingUnreferenced(rows) && key !in rows && Shape(row.body)
    requires row.meta.state == Pending
    requires Passes(r, rows, key.id, row.body) && NewReferencesUsable(rows, row.body, None)
    ensures NoDangling(rows[key := row]) && DeletingUnreferenced(rows[key := row])
  {
    var after := rows[key := row];
    forall k, t: Key | k in after && t.id != "" && References(after[k].body, t.kind, t.id) ensures t in after {
      if k == key {
        PassingRowsHaveTargets(r, rows, key.id, row.body, t);
      }
    }
  }

  lemma UpdateKeepsReferences(r: Rules, rows: Rows, key: Key, row: Row)
    requires NoDangling(rows) && DeletingUnreferenced(rows) && key in rows && Shape(row.body)
    requires row.meta.state == Pending
    requires Passes(r, rows, key.id, row.body) && NewReferencesUsable(rows, row.body, Some(rows[key].body))
    ensures NoDangling(rows[key := row]) && DeletingUnreferenced(rows[key := row])
  {
    var after := rows[key := row];
    forall k, t: Key | k in after && t.id != "" && References(after[k].body, t.kind, t.id) ensures t in after {
      if k == key {
        PassingRowsHaveTargets(r, rows, key.id, row.body, t);
      }
    }
  }

  /** Metadata plays no part in uniqueness or claims, so the check of the prospective graph carries over. */
  lemma UniqueIgnoresMeta(r: Rules, rows: Rows, key: Key, a: Row, b: Row)
    requires key in rows && a.body == b.body && AllUnique(r, rows[key := a])
    ensures AllUnique(r, rows[key := b])
  {
    var before, after := rows[key := a], rows[key := b];
    assert forall k :: k in before ==> before[k].body == after[k].body;
    forall k, l | k in after && l in after && l != k
      ensures !(l.kind == k.kind && Conflicts(r, after[k].body, after[l].body))
      ensures !(ClaimOf(r, after, after[k].body).Some?
                && ClaimOf(r, after, after[k].body) == ClaimOf(r, after, after[l].body))
    {
      assert UniqueAt(r, before, k, before[k].body);
      ClaimIgnoresMeta(r, before, after, after[k].body);
      ClaimIgnoresMeta(r, before, after, after[l].body);
    }
  }

  lemma ClaimIgnoresMeta(r: Rules, before: Rows, after: Rows, b: Body)
    requires before.Keys == after.Keys && forall k :: k in before ==> before[k].body == after[k].body
    ensures ClaimOf(r, before, b) == ClaimOf(r, after, b)
  {
    if b.Subnet? || b.Router? {
      var network := Key(KindNetwork, if b.Subnet? then b.networkId else b.externalNetworkId);
      assert network in before <==> network in after;
    }
  }

  lemma StoredRowKeepsRest(rows: Rows, key: Key, row: Row)
    requires Typed(rows) && (forall k :: k in rows ==> Shape(rows[k].body)) && LeasesHaveTargets(rows)
    requires key.id != "" && KindOf(row.body) == key.kind && Shape(row.body) && row.meta.revision >= 1
    requires !HoldsLease(row.body)
    ensures var after := rows[key := row];
            Typed(after) && (forall k :: k in after ==> Shape(after[k].body)) && LeasesHaveTargets(after)
  {
  }

  lemma UpdateKeepsInvariant(r: Rules, rows: Rows, key: Key, submitted: Meta, row: Row)
    requires Invariant(r, rows)
    requires key in rows && KindOf(row.body) == key.kind && Shape(row.body) && row.meta.revision >= 1
    requires row.meta.state == Pending && !HoldsLease(row.body)
    requires Passes(r, rows, key.id, row.body) && NewReferencesUsable(rows, row.body, Some(rows[key].body))
    requires AllUnique(r, rows[key := Row(submitted, row.body)])
    ensures Invariant(r, rows[key := row])
  {
    UpdateKeepsReferences(r, rows, key, row);
    UniqueIgnoresMeta(r, rows, key, Row(submitted, row.body), row);
    StoredRowKeepsRest(rows, key, row);
  }

  // ---------------------------------------------------------------- two-phase delete and pruning

  lemma TombstoneTouches(rows: Rows, key: Key, now: int)
    requires key in rows && !StronglyReferenced(rows, key)
    ensures RowTouched(rows, key, rows[key], Tombstone(rows[key], now))
  {
  }

  /** Removing rows that nothing refers to and no lease protects. */
  lemma RemovalKeepsInvariant(r: Rules, rows: Rows, gone: set<Key>)
    requires Invariant(r, rows)
    requires forall t :: t in gone && t in rows ==> !StronglyReferenced(rows, t)
    requires forall k, t :: k in rows && t in gone && HoldsLease(rows[k].body) ==> TargetKey(rows[k].body.op) != t
    ensures Invariant(r, rows - gone)
  {
    var after := rows - gone;
    forall k, t: Key | k in after && t.id != "" && References(after[k].body, t.kind, t.id) ensures t in after {
      assert k in rows && t in rows;
      assert t in gone ==> StronglyReferenced(rows, t);
    }
    assert AllUnique(r, after) by {
      forall k, l | k in after && l in after && l != k
        ensures !(l.kind == k.kind && Conflicts(r, after[k].body, after[l].body))
        ensures !(ClaimOf(r, after, after[k].body).Some?
                  && ClaimOf(r, after, after[k].body) == ClaimOf(r, after, after[l].body))
      {
        assert UniqueAt(r, rows, k, rows[k].body);
        RemovalKeepsClaim(r, rows, gone, k);
        RemovalKeepsClaim(r, rows, gone, l);
      }
    }
  }

  lemma RemovalKeepsClaim(r: Rules, rows: Rows, gone: set<Key>, k: Key)
    requires Typed(rows) && k in rows && k !in gone
    requires forall t :: t in gone && t in rows ==> !StronglyReferenced(rows, t)
    ensures ClaimOf(r, rows - gone, rows[k].body) == ClaimOf(r, rows, rows[k].body)
  {
    var b := rows[k].body;
    if b.Subnet? || b.Router? {
      var network := Key(KindNetwork, if b.Subnet? then b.networkId else b.externalNetworkId);
      assert References(b, network.kind, network.id);
      assert network in rows && network in gone ==> k == network;
    }
  }

  // ---------------------------------------------------------------- every call

  lemma CallKeepsInvariant(r: Rules, s: State, c: Call)
    requires Invariant(r, s.rows)
    ensures Invariant(r, Apply(r, s, c).rows)
  {
    match c
    case DoCreate(sub, token, freshId, now) =>
      if Create(r, s, sub, token, freshId, now).0 != s {
        CreateCallKeepsInvariant(r, s, sub, token, freshId, now);
      }
    case DoUpdate(sub, expected, token, now) =>
      if Update(r, s, sub, expected, token, now).0 != s {
        UpdateCallKeepsInvariant(r, s, sub, expected, token, now);
      }
    case DoPurge(key, revision) => PurgeKeepsInvariant(r, s, key, revision);
    case DoPrune(chosen, before) => PruneKeepsInvariant(r, s, chosen, before);
    case _ =>
      TouchingCall(r, s, c);
      TouchedKeepsInvariant(r, s.rows, Apply(r, s, c).rows);
  }

  /** Every other call only touches rows. */
  lemma TouchingCall(r: Rules, s: State, c: Call)
    requires Typed(s.rows) && !c.DoCreate? && !c.DoUpdate? && !c.DoPurge? && !c.DoPrune?
    ensures Touched(s.rows, Apply(r, s, c).rows)
  {
    match c
    case DoBeginDelete(key, expected, token, now) =>
      if BeginDelete(r, s, key, expected, token, now).0 != s {
        TombstoneTouches(s.rows, key, now);
        ReplacedRowTouches(s.rows, key, Tombstone(s.rows[key], now));
      } else {
        UntouchedRows(s.rows);
      }
    case DoMarkReconciled(key, revision, failure, now) =>
      if key in s.rows {
        MarkTouches(s.rows, key, s.rows[key], revision, failure, now);
        ReplacedRowTouches(s.rows, key, Marked(s.rows[key], revision, failure, now));
      } else {
        UntouchedRows(s.rows);
      }
    case DoFence(target, cutoff, now) =>
      AbandonTouches(s.rows, Expired(s.rows, target, cutoff),
                     _ => "reconcile lease expired while target was deleting", now);
    case DoRecover(chosen, cutoff, now) =>
      AbandonTouches(s.rows, (set k | k in chosen && Recoverable(s.rows, k, cutoff)), RecoveryError, now);
    case DoHeartbeat(id, _, _) => ObservedRowTouches(r, s, c, Key(KindNode, id));
    case DoClaim(id, _, _, _, _, _) => ObservedRowTouches(r, s, c, OperationKey(id));
    case DoRenew(id, _, _, _) => ObservedRowTouches(r, s, c, OperationKey(id));
  }

  lemma UntouchedRows(rows: Rows)
    ensures Touched(rows, rows)
  {
    forall k | k in rows ensures RowTouched(rows, k, rows[k], rows[k]) {
      UntouchedRow(rows, k, rows[k]);
    }
  }

  lemma ObservedRowTouches(r: Rules, s: State, c: Call, key: Key)
    requires Typed(s.rows)
    requires (c.DoHeartbeat? && key == Key(KindNode, c.id)) || ((c.DoClaim? || c.DoRenew?) && key == OperationKey(c.id))
    ensures Touched(s.rows, Apply(r, s, c).rows)
  {
    var after := Apply(r, s, c).rows;
    if after == s.rows {
      UntouchedRows(s.rows);
    } else {
      assert after == s.rows[key := after[key]];
      ReplacedRowTouches(s.rows, key, after[key]);
    }
  }

  /** What an accepted create has been checked for. */
  lemma AcceptedCreate(r: Rules, rows: Rows, sub: Submission, token: string, freshId: Name)
    requires CreateError(r, rows, sub, token, freshId).None?
    ensures var key := CreateKey(sub, freshId);
            && key !in rows && key.id != ""
            && var b := CreateBody(sub, token, key.id);
               && KindOf(b) == key.kind && Shape(b) && !HoldsLease(b)
               && Passes(r, rows, key.id, b) && NewReferencesUsable(rows, b, None) && UniqueAt(r, rows, key, b)
  {
  }

  lemma CreateCallKeepsInvariant(r: Rules, s: State, sub: Submission, token: string, freshId: Name, now: int)
    requires Invariant(r, s.rows) && Create(r, s, sub, token, freshId, now).0 != s
    ensures Invariant(r, Create(r, s, sub, token, freshId, now).0.rows)
  {
    var key := CreateKey(sub, freshId);
    AcceptedCreate(r, s.rows, sub, token, freshId);
    CreateKeepsInvariant(r, s.rows, key, Row(Meta(1, 0, Pending, "", now, now), CreateBody(sub, token, key.id)));
  }

  /** What an accepted update has been checked for. */
  lemma AcceptedUpdate(r: Rules, rows: Rows, sub: Submission, expected: int, now: int)
    requires Typed(rows) && UpdateError(r, rows, sub, expected).None?
    ensures var key := Key(KindOf(sub.body), sub.id);
            && key in rows
            && var row := UpdatedRow(rows[key], sub, now);
               && KindOf(row.body) == key.kind && Shape(row.body) && row.meta.revision >= 1 && !HoldsLease(row.body)
               && Passes(r, rows, key.id, row.body) && NewReferencesUsable(rows, row.body, Some(rows[key].body))
               && AllUnique(r, rows[key := Row(sub.meta, row.body)])
  {
  }

  lemma UpdateCallKeepsInvariant(r: Rules, s: State, sub: Submission, expected: int, token: string, now: int)
    requires Invariant(r, s.rows) && Update(r, s, sub, expected, token, now).0 != s
    ensures Invariant(r, Update(r, s, sub, expected, token, now).0.rows)
  {
    var key := Key(KindOf(sub.body), sub.id);
    AcceptedUpdate(r, s.rows, sub, expected, now);
    UpdateKeepsInvariant(r, s.rows, key, sub.meta, UpdatedRow(s.rows[key], sub, now));
  }

  lemma PurgedRowIsFree(r: Rules, rows: Rows, key: Key, revision: int, k: Key)
    requires Typed(rows) && key in rows && k in rows && PurgeError(r, rows, key, revision).None?
    ensures !StronglyReferenced(rows, key)
    ensures HoldsLease(rows[k].body) ==> TargetKey(rows[k].body.op) != key
  {
    assert k.kind == KindOperation ==> !IsRunningOn(rows[k].body, key);
  }

  lemma PurgeKeepsInvariant(r: Rules, s: State, key: Key, revision: int)
    requires Invariant(r, s.rows)
    ensures Invariant(r, Purge(r, s, key, revision).rows)
  {
    if key in s.rows && PurgeError(r, s.rows, key, revision).None? {
      forall k | k in s.rows
        ensures !StronglyReferenced(s.rows, key)
        ensures HoldsLease(s.rows[k].body) ==> TargetKey(s.rows[k].body.op) != key
      {
        PurgedRowIsFree(r, s.rows, key, revision, k);
      }
      RemovalKeepsInvariant(r, s.rows, {key});
    } else {
      assert Purge(r, s, key, revision).rows == s.rows;
    }
  }

  /** Nothing refers to an operation and no operation targets one. */
  lemma OperationsAreFree(rows: Rows, k: Key, id: string)
    requires k in rows && Shape(rows[k].body)
    ensures !References(rows[k].body, KindOperation, id)
    ensures HoldsLease(rows[k].body) ==> TargetKey(rows[k].body.op) != OperationKey(id)
  {
  }

  lemma PruneKeepsInvariant(r: Rules, s: State, chosen: set<Key>, before: int)
    requires Invariant(r, s.rows)
    ensures Invariant(r, Prune(s, chosen, before).rows)
  {
    var batch := set k | k in chosen && Prunable(s, k, before);
    forall t | t in batch ensures !StronglyReferenced(s.rows, t) {
      forall k | k in s.rows ensures !References(s.rows[k].body, t.kind, t.id) {
        OperationsAreFree(s.rows, k, t.id);
      }
    }
    forall k, t | k in s.rows && t in batch && HoldsLease(s.rows[k].body) ensures TargetKey(s.rows[k].body.op) != t {
      OperationsAreFree(s.rows, k, t.id);
    }
    RemovalKeepsInvariant(r, s.rows, batch);
  }

  /** Over every sequence of store calls: no strong reference dangles, a deleting row has no
      strong referrer, no two rows conflict or claim one provider address, and every claimed
      reconcile or delete has its target. */
  lemma {:induction false} EveryRunKeepsInvariant(r: Rules, s: State, calls: seq<Call>)
    requires Invariant(r, s.rows)
    ensures Invariant(r, Run(r, s, calls).rows)
    decreases |calls|
  {
    if calls != [] {
      CallKeepsInvariant(r, s, calls[0]);
      EveryRunKeepsInvariant(r, Apply(r, s, calls[0]), calls[1..]);
    }
  }
}
