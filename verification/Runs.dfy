/** Properties of whole runs of the store: what reachable states satisfy, how keyed
    requests replay, and how revisions fence lease holders. */
module Runs {
  import opened Ports
  import opened Model
  import opened Graph
  import opened Store
  import opened StoreInvariants
  import CreateGuard

  // ---------------------------------------------------------------- reachable states

  /** In every reachable store a strong reference leads to a row, and never to a deleting one. */
  lemma ReferencesAreSafe(r: Rules, calls: seq<Call>, k: Key, t: Key)
    requires k in Run(r, Empty, calls).rows && t.id != ""
    requires References(Run(r, Empty, calls).rows[k].body, t.kind, t.id)
    ensures t in Run(r, Empty, calls).rows && Run(r, Empty, calls).rows[t].meta.state != Deleting
  {
    EveryRunKeepsInvariant(r, Empty, calls);
  }

  /** In every reachable store no two rows claim the same address of a provider network, although
      updating a network changes the claims of its subnets and routers. */
  lemma ClaimsAreDisjoint(r: Rules, calls: seq<Call>, k: Key, l: Key)
    requires k in Run(r, Empty, calls).rows && l in Run(r, Empty, calls).rows && k != l
    requires ClaimOf(r, Run(r, Empty, calls).rows, Run(r, Empty, calls).rows[k].body).Some?
    ensures ClaimOf(r, Run(r, Empty, calls).rows, Run(r, Empty, calls).rows[k].body)
         != ClaimOf(r, Run(r, Empty, calls).rows, Run(r, Empty, calls).rows[l].body)
  {
    EveryRunKeepsInvariant(r, Empty, calls);
    var rows := Run(r, Empty, calls).rows;
    assert UniqueAt(r, rows, k, rows[k].body);
  }

  /** In every reachable store a claimed reconcile or delete still has its target. */
  lemma LeasedTargetsExist(r: Rules, calls: seq<Call>, k: Key)
    requires k in Run(r, Empty, calls).rows && HoldsLease(Run(r, Empty, calls).rows[k].body)
    ensures TargetKey(Run(r, Empty, calls).rows[k].body.op) in Run(r, Empty, calls).rows
  {
    EveryRunKeepsInvariant(r, Empty, calls);
  }

  /** A create that takes effect keeps the whole graph valid exactly when it keeps the routes of its router. */
  lemma CreatedGraphIsValidIff(r: Rules, s: State, sub: Submission, token: string, freshId: Name, now: int)
    requires CreateGuard.Sound(r, s.rows) && Create(r, s, sub, token, freshId, now).0.rows != s.rows
    ensures var key := CreateKey(sub, freshId);
            AllPass(r, Create(r, s, sub, token, freshId, now).0.rows) <==>
              CreateGuard.KeepsRoutes(r, s.rows, Row(Meta(1, 0, Pending, "", now, now), CreateBody(sub, token, key.id)))
  {
    var key := CreateKey(sub, freshId);
    AcceptedCreate(r, s.rows, sub, token, freshId);
    CreateGuard.CreateKeepsGraphIff(r, s.rows, key,
                                    Row(Meta(1, 0, Pending, "", now, now), CreateBody(sub, token, key.id)));
  }

  // ---------------------------------------------------------------- revisions

  /** Status fields that reconciliation and heartbeats write without a new revision. */
  predicate SameDesired(a: Body, b: Body) {
    match (a, b)
    case (FloatingIP(_, _, _, _, _, _), FloatingIP(_, _, _, _, _, _)) => a == b.(floating := a.floating)
    case (Node(_, _, _, _), Node(_, _, _, _)) => a == b.(lastSeen := a.lastSeen)
    case _ => a == b
  }

  /** A call never lowers a revision, and one that keeps it keeps the desired state. */
  lemma RevisionsAdvance(r: Rules, s: State, c: Call, k: Key)
    requires k in s.rows && k in Apply(r, s, c).rows
    ensures s.rows[k].meta.revision <= Apply(r, s, c).rows[k].meta.revision
    ensures s.rows[k].meta.revision == Apply(r, s, c).rows[k].meta.revision ==>
              SameDesired(s.rows[k].body, Apply(r, s, c).rows[k].body)
  {
  }

  ghost predicate PresentThroughout(r: Rules, s: State, calls: seq<Call>, k: Key)
    decreases |calls|
  {
    k in s.rows && (calls != [] ==> PresentThroughout(r, Apply(r, s, calls[0]), calls[1..], k))
  }

  lemma {:induction false} RevisionsAdvanceOverRuns(r: Rules, s: State, calls: seq<Call>, k: Key)
    requires PresentThroughout(r, s, calls, k)
    ensures k in Run(r, s, calls).rows
    ensures s.rows[k].meta.revision <= Run(r, s, calls).rows[k].meta.revision
    ensures s.rows[k].meta.revision == Run(r, s, calls).rows[k].meta.revision ==>
              SameDesired(s.rows[k].body, Run(r, s, calls).rows[k].body)
    decreases |calls|
  {
    if calls != [] {
      var next := Apply(r, s, calls[0]);
      RevisionsAdvance(r, s, calls[0], k);
      RevisionsAdvanceOverRuns(r, next, calls[1..], k);
      SameDesiredChains(s.rows[k].body, next.rows[k].body, Run(r, next, calls[1..]).rows[k].body);
    }
  }

  lemma SameDesiredChains(a: Body, b: Body, c: Body)
    ensures SameDesired(a, b) && SameDesired(b, c) ==> SameDesired(a, c)
  {
  }

  // ---------------------------------------------------------------- lease fencing

  /** Only a successful claim makes an operation hold a lease, and it holds it for the claimant. */
  lemma LeasesComeFromClaims(r: Rules, s: State, c: Call, k: Key)
    requires Typed(s.rows) && k in Apply(r, s, c).rows && HoldsLease(Apply(r, s, c).rows[k].body)
    requires !(k in s.rows && HoldsLease(s.rows[k].body))
    ensures c.DoClaim? && k == OperationKey(c.id)
    ensures ClaimError(s.rows, c.id, c.expected, c.action, c.owner, c.cutoff).None?
    ensures Apply(r, s, c).rows[k].body.op.leaseOwner == c.owner
  {
    if c.DoCreate? || c.DoUpdate? {
      NewRowsHoldNoLease(r, s, c, k);
    } else if !c.DoClaim? {
      OtherCallsStartNoLease(r, s, c, k);
    }
  }

  lemma OtherCallsStartNoLease(r: Rules, s: State, c: Call, k: Key)
    requires !c.DoCreate? && !c.DoUpdate? && !c.DoClaim?
    requires k in Apply(r, s, c).rows && HoldsLease(Apply(r, s, c).rows[k].body)
    ensures k in s.rows && HoldsLease(s.rows[k].body)
  {
  }

  lemma NewRowsHoldNoLease(r: Rules, s: State, c: Call, k: Key)
    requires (c.DoCreate? || c.DoUpdate?) && k in Apply(r, s, c).rows && HoldsLease(Apply(r, s, c).rows[k].body)
    ensures k in s.rows && s.rows[k] == Apply(r, s, c).rows[k]
  {
  }

  /** Claiming, fencing and recovering an operation all overtake the revision a holder knows. */
  lemma TakeoverRaisesRevision(r: Rules, s: State, c: Call, k: Key)
    requires c.DoClaim? || c.DoFence? || c.DoRecover?
    requires k in s.rows && k in Apply(r, s, c).rows && Apply(r, s, c).rows[k] != s.rows[k]
    ensures Apply(r, s, c).rows[k].meta.revision == s.rows[k].meta.revision + 1
  {
  }

  /** Main result: once its revision is overtaken, a lease holder can never again renew, re-claim
      or write the operation with that revision, as long as the row exists. */
  lemma OvertakenHolderIsFenced(r: Rules, s: State, calls: seq<Call>, id: string, held: int, owner: string, now: int,
                                action: string, cutoff: int, sub: Submission, token: string)
    requires PresentThroughout(r, s, calls, OperationKey(id))
    requires held < s.rows[OperationKey(id)].meta.revision
    requires KindOf(sub.body) == KindOperation && sub.id == id
    ensures Renew(Run(r, s, calls), id, held, owner, now) == Run(r, s, calls)
    ensures Claim(Run(r, s, calls), id, held, action, owner, now, cutoff) == Run(r, s, calls)
    ensures Update(r, Run(r, s, calls), sub, held, token, now).0 == Run(r, s, calls)
  {
    RevisionsAdvanceOverRuns(r, s, calls, OperationKey(id));
  }

  // ---------------------------------------------------------------- exactly-once requests

  function ScopeOf(c: Call): Option<Scope> {
    match c
    case DoCreate(sub, token, _, _) => Some(CreateScope(sub, token))
    case DoUpdate(sub, _, token, _) => Some(UpdateScope(sub, token))
    case DoBeginDelete(key, _, token, _) => Some(Scope(Removing, key, token))
    case _ => None
  }

  function RequestOf(c: Call): Request
    requires ScopeOf(c).Some?
  {
    match c
    case DoCreate(sub, _, _, _) => CreateRequest(sub)
    case DoUpdate(sub, expected, _, _) => UpdateRequest(sub, expected)
    case DoBeginDelete(key, expected, _, _) => DeleteRequest(key, expected)
  }

  function ResultOf(r: Rules, s: State, c: Call): Result
    requires ScopeOf(c).Some?
  {
    match c
    case DoCreate(sub, token, freshId, now) => Create(r, s, sub, token, freshId, now).1
    case DoUpdate(sub, expected, token, now) => Update(r, s, sub, expected, token, now).1
    case DoBeginDelete(key, expected, token, now) => BeginDelete(r, s, key, expected, token, now).1
  }

  /** The call drops the record of the scope: pruning retires the records of the audit rows in its batch. */
  ghost predicate Retires(s: State, c: Call, scope: Scope) {
    c.DoPrune? && exists k :: k in c.chosen && Prunable(s, k, c.before) && ReplayScopeOf(s.rows[k].body.op) == scope
  }

  /** No call of the run prunes the row whose creation the scope recorded. */
  ghost predicate Retained(r: Rules, s: State, calls: seq<Call>, scope: Scope)
    decreases |calls|
  {
    calls != [] ==> !Retires(s, calls[0], scope) && Retained(r, Apply(r, s, calls[0]), calls[1..], scope)
  }

  /** How often the calls on one idempotency scope change the table of rows. */
  ghost function Changes(r: Rules, s: State, calls: seq<Call>, scope: Scope): nat
    decreases |calls|
  {
    if calls == [] then 0
    else
      var here: nat := if ScopeOf(calls[0]) == Some(scope) && Apply(r, s, calls[0]).rows != s.rows then 1 else 0;
      here + Changes(r, Apply(r, s, calls[0]), calls[1..], scope)
  }

  lemma RecordSurvives(r: Rules, s: State, c: Call, scope: Scope)
    requires scope.token != "" && scope in s.replays && !Retires(s, c, scope)
    ensures scope in Apply(r, s, c).replays && Apply(r, s, c).replays[scope] == s.replays[scope]
    ensures ScopeOf(c) == Some(scope) ==> Apply(r, s, c) == s
  {
  }

  lemma ChangeLeavesRecord(r: Rules, s: State, c: Call, scope: Scope)
    requires scope.token != "" && ScopeOf(c) == Some(scope) && Apply(r, s, c).rows != s.rows
    ensures scope in Apply(r, s, c).replays && Apply(r, s, c).replays[scope].request == RequestOf(c)
  {
  }

  lemma {:induction false} RecordedScopeIsQuiet(r: Rules, s: State, calls: seq<Call>, scope: Scope)
    requires scope.token != "" && scope in s.replays && Retained(r, s, calls, scope)
    ensures Changes(r, s, calls, scope) == 0
    ensures scope in Run(r, s, calls).replays && Run(r, s, calls).replays[scope] == s.replays[scope]
    decreases |calls|
  {
    if calls != [] {
      RecordSurvives(r, s, calls[0], scope);
      RecordedScopeIsQuiet(r, Apply(r, s, calls[0]), calls[1..], scope);
    }
  }

  /** Main result: any number of submissions under one idempotency key change the store at most once. */
  lemma {:induction false} KeyedRequestsChangeOnce(r: Rules, s: State, calls: seq<Call>, scope: Scope)
    requires scope.token != "" && Retained(r, s, calls, scope)
    ensures Changes(r, s, calls, scope) <= 1
    decreases |calls|
  {
    if calls != [] {
      if ScopeOf(calls[0]) == Some(scope) && Apply(r, s, calls[0]).rows != s.rows {
        ChangeLeavesRecord(r, s, calls[0], scope);
        RecordedScopeIsQuiet(r, Apply(r, s, calls[0]), calls[1..], scope);
      } else {
        KeyedRequestsChangeOnce(r, Apply(r, s, calls[0]), calls[1..], scope);
      }
    }
  }

  /** After a keyed request took effect, any later submission on that key changes nothing: the same
      request gets the recorded row back, a different one is refused. */
  lemma LaterSubmissionsReplay(r: Rules, s: State, first: Call, between: seq<Call>, again: Call, scope: Scope)
    requires scope.token != "" && ScopeOf(first) == Some(scope) && ScopeOf(again) == Some(scope)
    requires Apply(r, s, first).rows != s.rows && Retained(r, Apply(r, s, first), between, scope)
    ensures var t := Run(r, Apply(r, s, first), between);
            && Apply(r, t, again) == t
            && ResultOf(r, t, again) ==
                 if RequestOf(again) == RequestOf(first)
                 then Ok(Apply(r, s, first).replays[scope].key, Apply(r, s, first).replays[scope].row, true)
                 else Err(IdempotencyConflict)
  {
    ChangeLeavesRecord(r, s, first, scope);
    RecordedScopeIsQuiet(r, Apply(r, s, first), between, scope);
  }
}
