/** Who may end a lease: its holder, or time. */
module Leases {
  import opened Model
  import opened Graph
  import opened Store
  import opened StoreEffects
  import StoreInvariants

  /** The row is a reconcile or delete that runs for the given owner. */
  predicate HeldBy(rows: Rows, k: Key, owner: string) {
    k in rows && IsLeaseHeld(rows[k].body) && rows[k].body.op.leaseOwner == owner
  }

  /** The lease of row `k` has not run out at the cutoff. */
  predicate LiveAt(rows: Rows, k: Key, cutoff: int) {
    k in rows && IsLeaseHeld(rows[k].body) && rows[k].body.op.startedAt.Some? && rows[k].meta.updatedAt > cutoff
  }

  lemma LiveLeaseOutlastsClaim(r: Rules, s: State, c: Call, k: Key)
    requires Typed(s.rows) && c.DoClaim? && LiveAt(s.rows, k, c.cutoff)
    ensures k in Apply(r, s, c).rows && Apply(r, s, c).rows[k] == s.rows[k]
    ensures k == Key(KindOperation, c.id) ==> Apply(r, s, c) == s
  {
    ClaimIff(s, c.id, c.expected, c.action, c.owner, c.now, c.cutoff);
  }

  lemma LiveLeaseSurvivesFence(s: State, target: Key, cutoff: int, now: int, k: Key)
    requires Typed(s.rows) && LiveAt(s.rows, k, cutoff)
    ensures k in Fence(s, target, cutoff, now).rows && Fence(s, target, cutoff, now).rows[k] == s.rows[k]
  {
    FenceIff(s, target, cutoff, now, k);
  }

  lemma LiveLeaseSurvivesRecovery(s: State, chosen: set<Key>, cutoff: int, now: int, k: Key)
    requires Typed(s.rows) && LiveAt(s.rows, k, cutoff)
    ensures k in Recover(s, chosen, cutoff, now).rows && Recover(s, chosen, cutoff, now).rows[k] == s.rows[k]
  {
    RecoverIff(s, chosen, cutoff, now, k);
  }

  lemma LiveLeaseOutlastsFence(r: Rules, s: State, c: Call, k: Key)
    requires Typed(s.rows) && (c.DoFence? || c.DoRecover?) && LiveAt(s.rows, k, c.cutoff)
    ensures k in Apply(r, s, c).rows && Apply(r, s, c).rows[k] == s.rows[k]
  {
    match c
    case DoFence(target, cutoff, now) => LiveLeaseSurvivesFence(s, target, cutoff, now, k);
    case DoRecover(chosen, cutoff, now) => LiveLeaseSurvivesRecovery(s, chosen, cutoff, now, k);
  }

  /** No claim, fence or recovery touches an operation whose lease is live. */
  lemma LiveLeaseIsSafe(r: Rules, s: State, c: Call, k: Key)
    requires Typed(s.rows) && (c.DoClaim? || c.DoFence? || c.DoRecover?) && LiveAt(s.rows, k, c.cutoff)
    ensures k in Apply(r, s, c).rows && Apply(r, s, c).rows[k] == s.rows[k]
    ensures c.DoClaim? && k == Key(KindOperation, c.id) ==> Apply(r, s, c) == s
  {
    if c.DoClaim? {
      LiveLeaseOutlastsClaim(r, s, c, k);
    } else {
      LiveLeaseOutlastsFence(r, s, c, k);
    }
  }

  /** A queued operation, or one whose lease has run out, is there for the first claimer that meets it as it is. */
  lemma FreeOperationIsClaimed(r: Rules, s: State, c: Call)
    requires Typed(s.rows) && c.DoClaim? && ValidLeaseOwner(c.owner)
    requires var k := Key(KindOperation, c.id);
             && k in s.rows && s.rows[k].meta.revision == c.expected && s.rows[k].body.op.action == c.action
             && (s.rows[k].body.op.status == Queued || !LiveAt(s.rows, k, c.cutoff))
               && TargetFits(s.rows, s.rows[k].body.op)
    ensures HeldBy(Apply(r, s, c).rows, Key(KindOperation, c.id), c.owner)
    ensures LiveAt(Apply(r, s, c).rows, Key(KindOperation, c.id), c.now - 1)
  {
    ClaimIff(s, c.id, c.expected, c.action, c.owner, c.now, c.cutoff);
  }

  /** The holder ends its lease by an update at the stored revision under its own name. */
  predicate EndedByHolder(s: State, c: Call, k: Key)
    requires k in s.rows && s.rows[k].body.OperationBody?
  {
    && c.DoUpdate? && k == Key(KindOf(c.sub.body), c.sub.id) && c.sub.body.OperationBody?
    && c.expected == s.rows[k].meta.revision && c.sub.body.op.leaseOwner == s.rows[k].body.op.leaseOwner
  }

  /** Time ends it: a claim, fence or recovery whose cutoff the lease did not survive. */
  predicate EndedByTime(s: State, c: Call, k: Key) {
    (c.DoClaim? || c.DoFence? || c.DoRecover?) && !LiveAt(s.rows, k, c.cutoff)
  }

  /** An update leaves a row alone, or was permitted by its lease at its stored revision. */
  lemma UpdateIsPermitted(r: Rules, s: State, c: Call, k: Key)
    requires c.DoUpdate? && k in s.rows
    ensures k in Apply(r, s, c).rows
    ensures Apply(r, s, c).rows[k] == s.rows[k] ||
            (k == Key(KindOf(c.sub.body), c.sub.id) && c.expected == s.rows[k].meta.revision
             && LeasePermits(s.rows[k].body, WithDefaults(c.sub.id, c.sub.body)))
  {
  }

  lemma UpdateLeavesLease(r: Rules, s: State, c: Call, k: Key, owner: string)
    requires Typed(s.rows) && c.DoUpdate? && HeldBy(s.rows, k, owner) && !EndedByHolder(s, c, k)
    ensures HeldBy(Apply(r, s, c).rows, k, owner)
  {
    UpdateIsPermitted(r, s, c, k);
    if k == Key(KindOf(c.sub.body), c.sub.id) {
      assert KindOf(s.rows[k].body) == k.kind == KindOperation;
      assert c.sub.body.OperationBody?;
      DefaultsAre(c.sub.id, c.sub.body);
    }
  }

  lemma OtherCallLeavesLease(r: Rules, s: State, c: Call, k: Key, owner: string)
    requires Typed(s.rows) && !c.DoUpdate? && !c.DoClaim? && !c.DoFence? && !c.DoRecover? && HeldBy(s.rows, k, owner)
    requires k in Apply(r, s, c).rows
    ensures HeldBy(Apply(r, s, c).rows, k, owner)
  {
  }

  /** One call ends a lease, or passes it to another owner, only if its holder asked for it or its time was up. */
  lemma LeaseEndsOnlyByHolderOrTime(r: Rules, s: State, c: Call, k: Key, owner: string)
    requires Typed(s.rows) && HeldBy(s.rows, k, owner) && k in Apply(r, s, c).rows
    ensures HeldBy(Apply(r, s, c).rows, k, owner) || EndedByHolder(s, c, k) || EndedByTime(s, c, k)
  {
    if c.DoClaim? || c.DoFence? || c.DoRecover? {
      if LiveAt(s.rows, k, c.cutoff) {
        LiveLeaseIsSafe(r, s, c, k);
      }
    } else if c.DoUpdate? {
      if !EndedByHolder(s, c, k) {
        UpdateLeavesLease(r, s, c, k, owner);
      }
    } else {
      OtherCallLeavesLease(r, s, c, k, owner);
    }
  }

  /** Along the run the row exists, its holder does not end the lease, and no cutoff catches up with it. */
  ghost predicate Undisturbed(r: Rules, s: State, calls: seq<Call>, k: Key, owner: string)
    decreases |calls|
  {
    calls != [] ==>
      && k in Apply(r, s, calls[0]).rows
      && (HeldBy(s.rows, k, owner) ==> !EndedByHolder(s, calls[0], k)) && !EndedByTime(s, calls[0], k)
      && Undisturbed(r, Apply(r, s, calls[0]), calls[1..], k, owner)
  }

  /** Main result: over any run of store calls by anyone, a lease stays with its owner until the owner ends it, its time
      is up for some claim, fence or recovery, or its row goes away. */
  lemma {:induction false} LeaseStaysWithHolder(r: Rules, s: State, calls: seq<Call>, k: Key, owner: string)
    requires StoreInvariants.Invariant(r, s.rows) && HeldBy(s.rows, k, owner) && Undisturbed(r, s, calls, k, owner)
    ensures HeldBy(Run(r, s, calls).rows, k, owner)
    decreases |calls|
  {
    if calls != [] {
      LeaseEndsOnlyByHolderOrTime(r, s, calls[0], k, owner);
      StoreInvariants.CallKeepsInvariant(r, s, calls[0]);
      LeaseStaysWithHolder(r, Apply(r, s, calls[0]), calls[1..], k, owner);
    }
  }
}
