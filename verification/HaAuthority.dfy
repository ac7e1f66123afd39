/** The order of HA authority.

    Accepting a start is enforceHAAuthorityHistory over the durable operations of the VM followed by
    one write that records the proof.  Between accepts, anything may rewrite the operations. */
module HaAuthority {
  import opened Ports
  import opened Payloads
  import opened Model
  import opened HaRebind
  import opened Lifecycle
  import Text

  type Books = map<string, Operation>

  // ---------------------------------------------------------------- baselines

  function SetOf(proofs: seq<HaProof>): set<HaProof> {
    set p | p in proofs
  }

  /** The proofs an operation holds for a VM. */
  function ProofsOf(op: Operation, vmid: int): set<HaProof> {
    match op.payload
    case HaRebind(h) => if op.action == HA && h.vmid == vmid then SetOf(h.history + [h.proof]) else {}
    case Migration(m) =>
      if op.action == MIGRATION && m.plan.vmid == vmid && m.recovery.Some?
      then SetOf(m.recovery.value.history + [m.recovery.value.proof]) else {}
    case _ => {}
  }

  predicate Baseline(books: Books, vmid: int, p: HaProof) {
    exists id :: id in books && p in ProofsOf(books[id], vmid)
  }

  /** The lifecycle ID is the canonical one of the VM, the target and the service UID. */
  predicate Canonical(start: HaStart, lifecycleId: (int, string, string) -> string) {
    start.lifecycleId == lifecycleId(start.vmid, start.target.name, start.proof.serviceUid)
  }

  /** validateHAAuthoritySuccessor. */
  predicate Succeeds(start: HaStart, baseline: HaProof, lifecycleId: (int, string, string) -> string) {
    if start.proof.serviceUid == baseline.serviceUid then
      && start.proof.serviceId == baseline.serviceId && baseline.serviceNode == start.target.name
        && baseline.lrmNode == start.target.name
      && Renews(start.proof, baseline) && Canonical(start, lifecycleId)
    else start.proof.managerEpoch > baseline.managerEpoch
  }

  /** The newest baseline of the UID is at or above the epoch. */
  ghost predicate Reaches(books: Books, vmid: int, uid: string, epoch: int) {
    exists p :: Baseline(books, vmid, p) && p.serviceUid == uid && epoch <= p.managerEpoch
  }

  /** The UID is new, or no other UID has a baseline above all of its own. */
  ghost predicate NotOvertaken(books: Books, vmid: int, uid: string) {
    (exists p :: Baseline(books, vmid, p) && p.serviceUid == uid) ==>
      forall q :: Baseline(books, vmid, q) && q.serviceUid != uid ==> Reaches(books, vmid, uid, q.managerEpoch)
  }

  /** enforceHAAuthorityHistory. */
  ghost predicate Enforced(books: Books, start: HaStart, lifecycleId: (int, string, string) -> string) {
    && NotOvertaken(books, start.vmid, start.proof.serviceUid)
    && forall p :: Baseline(books, start.vmid, p) ==> Succeeds(start, p, lifecycleId)
  }

  /** The first loop of enforceHAAuthorityHistory: all the proofs on record for the VM. */
  method CollectBaselines(books: Books, vmid: int) returns (baselines: set<HaProof>)
    ensures forall p :: p in baselines <==> Baseline(books, vmid, p)
  {
    baselines := {};
    var todo := books.Keys;
    while todo != {}
      invariant todo <= books.Keys
      invariant forall p :: p in baselines <==>
          exists id :: id in books && id !in todo && p in ProofsOf(books[id], vmid)
      decreases |todo|
    {
      var id :| id in todo;
      todo := todo - {id};
      baselines := baselines + ProofsOf(books[id], vmid);
    }
  }

  /** The newest manager epoch of the UID, or -1. */
  method NewestEpoch(baselines: set<HaProof>, uid: string) returns (newest: int)
    requires forall p :: p in baselines ==> p.managerEpoch >= 0
    ensures newest >= -1 && forall p :: p in baselines && p.serviceUid == uid ==> p.managerEpoch <= newest
    ensures newest >= 0 ==> exists p :: p in baselines && p.serviceUid == uid && p.managerEpoch == newest
  {
    newest := -1;
    var todo := baselines;
    while todo != {}
      invariant todo <= baselines && newest >= -1
      invariant forall p :: p in baselines && p !in todo && p.serviceUid == uid ==> p.managerEpoch <= newest
      invariant newest >= 0 ==> exists p :: p in baselines && p.serviceUid == uid && p.managerEpoch == newest
      decreases |todo|
    {
      var p :| p in todo;
      todo := todo - {p};
      if p.serviceUid == uid && p.managerEpoch > newest {
        newest := p.managerEpoch;
      }
    }
  }

  /** enforceHAAuthorityHistory decides Enforced. */
  method EnforceHistory(books: Books, start: HaStart, lifecycleId: (int, string, string) -> string) returns (ok: bool)
    requires forall p :: Baseline(books, start.vmid, p) ==> p.managerEpoch >= 0
    ensures ok <==> Enforced(books, start, lifecycleId)
  {
    var uid := start.proof.serviceUid;
    var baselines := CollectBaselines(books, start.vmid);
    var newest := NewestEpoch(baselines, uid);
    if p :| p in baselines && newest >= 0 && p.serviceUid != uid && p.managerEpoch > newest {
      assert !Reaches(books, start.vmid, uid, p.managerEpoch);
      return false;
    }
    assert NotOvertaken(books, start.vmid, uid);
    if p :| p in baselines && !Succeeds(start, p, lifecycleId) {
      return false;
    }
    return true;
  }

  // ---------------------------------------------------------------- steps

  datatype Acceptance =
    | TakeOver(id: string, direction: Direction)
    | Reclaim(id: string)
    | Supersede(id: string, ports: map<string, Versioned>, nodes: map<string, NodeRef>)
    | Relocate(id: string, manifest: seq<HaPort>)

  datatype Step =
    | Accept(start: HaStart, how: Acceptance, now: int)
    | Rewrite(id: string, edit: Edit, now: int)
    | Begin(id: string, op: Operation)

  datatype Grant = Grant(vmid: int, proof: HaProof)
  datatype World = World(books: Books, granted: seq<Grant>)

  function NewRelocation(start: HaStart, id: string, ports: seq<HaPort>, now: int): Operation {
    Operation(HA, KindNode, Text.Slot(start.vmid), 1, Running, HA + ":" + id, "", "compute-lifecycle", Some(now), None,
              HaRebind(HaPayloadOf(start, [], ports, None)))
  }

  /** The row an acceptance writes, and where. */
  function Recording(books: Books, start: HaStart, how: Acceptance, now: int): Option<Operation> {
    match how
    case TakeOver(id, direction) =>
      if id in books then Edited(id, books[id], books, HaTakeOver(start, direction), now) else None
    case Reclaim(id) => if id in books then Edited(id, books[id], books, HaReclaim(start), now) else None
    case Supersede(id, ports, nodes) =>
      if id in books then Edited(id, books[id], books, HaSupersede(start, ports, nodes), now) else None
    case Relocate(id, ports) => if id in books then None else Some(NewRelocation(start, id, ports, now))
  }

  /** Edits that accept nothing. */
  predicate Neutral(edit: Edit) {
    !edit.HaTakeOver? && !edit.HaReclaim? && !edit.HaSupersede?
  }

  ghost function Do(w: World, step: Step, lifecycleId: (int, string, string) -> string): World {
    match step
    case Accept(start, how, now) =>
      if Authorized(start) && Enforced(w.books, start, lifecycleId) && Recording(w.books, start, how, now).Some?
      then World(w.books[how.id := Recording(w.books, start, how, now).value],
                 w.granted + [Grant(start.vmid, start.proof)])
      else w
    case Rewrite(id, edit, now) =>
      if id in w.books && Neutral(edit) && Edited(id, w.books[id], w.books, edit, now).Some?
      then w.(books := w.books[id := Edited(id, w.books[id], w.books, edit, now).value])
      else w
    case Begin(id, op) =>
      if id !in w.books && (forall vmid :: ProofsOf(op, vmid) == {}) then w.(books := w.books[id := op]) else w
  }

  ghost function Run(w: World, steps: seq<Step>, lifecycleId: (int, string, string) -> string): World
    decreases |steps|
  {
    if steps == [] then w else Run(Do(w, steps[0], lifecycleId), steps[1..], lifecycleId)
  }

  // ---------------------------------------------------------------- what a rewrite keeps

  /** Same UID, and no epoch below. */
  predicate Dominates(q: HaProof, p: HaProof) {
    && q.serviceUid == p.serviceUid && q.managerEpoch >= p.managerEpoch
    && q.lrmEpoch >= p.lrmEpoch && q.agentLockEpoch >= p.agentLockEpoch
  }

  predicate Covered(proofs: set<HaProof>, p: HaProof) {
    exists q :: q in proofs && Dominates(q, p)
  }

  /** A neutral edit, promotion included, keeps exactly the proofs of every VM. */
  lemma NeutralEditKeepsProofs(id: string, op: Operation, books: Books, edit: Edit, now: int, vmid: int)
    requires Neutral(edit) && Edited(id, op, books, edit, now).Some?
    ensures ProofsOf(Edited(id, op, books, edit, now).value, vmid) == ProofsOf(op, vmid)
  {
  }

  /** The proofs after an accept: the newest of every UID is kept, and only the accepted one is new. */
  ghost predicate Records(before: set<HaProof>, after: set<HaProof>, vmid: int, start: HaStart) {
    && (forall p :: p in before ==> Covered(after, p))
    && (forall p :: p in after ==> p in before || (vmid == start.vmid && p == start.proof))
    && (vmid == start.vmid ==> start.proof in after)
  }

  lemma SwapRecords(history: seq<HaProof>, last: HaProof, vmid: int, start: HaStart)
    requires vmid == start.vmid && last.serviceUid == start.proof.serviceUid && Renews(start.proof, last)
    ensures Records(SetOf(history + [last]), SetOf(history + [start.proof]), vmid, start)
  {
    var after := SetOf(history + [start.proof]);
    assert start.proof in after;
    forall p | p in SetOf(history + [last]) ensures Covered(after, p) {
      if p in history {
        assert p in after && Dominates(p, p);
      } else {
        assert Dominates(start.proof, p);
      }
    }
  }

  lemma PushRecords(history: seq<HaProof>, last: HaProof, vmid: int, start: HaStart)
    requires vmid == start.vmid
    ensures Records(SetOf(history + [last]), SetOf(history + [last] + [start.proof]), vmid, start)
  {
    forall p | p in SetOf(history + [last]) ensures Covered(SetOf(history + [last] + [start.proof]), p) {
      assert p in SetOf(history + [last] + [start.proof]) && Dominates(p, p);
    }
  }

  lemma TakeoverRecords(op: Operation, start: HaStart, direction: Direction, vmid: int)
    requires TakenOver(op, start, direction).Some?
    ensures Records(ProofsOf(op, vmid), ProofsOf(TakenOver(op, start, direction).value, vmid), vmid, start)
  {
    var m := op.payload.migration;
    if vmid == start.vmid && m.recovery.Some? {
      var r := m.recovery.value;
      if r.proof.serviceUid == start.proof.serviceUid {
        SwapRecords(r.history, r.proof, vmid, start);
      } else {
        PushRecords(r.history, r.proof, vmid, start);
      }
    }
  }

  lemma ReclaimRecords(id: string, op: Operation, books: Books, start: HaStart, vmid: int)
    requires CanReclaim(id, op, books, start)
    ensures Records(ProofsOf(op, vmid), ProofsOf(Reclaimed(op, start), vmid), vmid, start)
  {
    if vmid == start.vmid {
      SwapRecords(op.payload.ha.history, op.payload.ha.proof, vmid, start);
    }
  }

  lemma HandoverRecords(op: Operation, next: Operation, start: HaStart, vmid: int)
    requires op.action == HA == next.action && op.payload.HaRebind? && next.payload.HaRebind?
    requires next.payload.ha.history == op.payload.ha.history + [op.payload.ha.proof]
      && next.payload.ha.proof == start.proof
    requires next.payload.ha.vmid == op.payload.ha.vmid == start.vmid
    ensures Records(ProofsOf(op, vmid), ProofsOf(next, vmid), vmid, start)
  {
    if vmid == start.vmid {
      PushRecords(op.payload.ha.history, op.payload.ha.proof, vmid, start);
    }
  }

  lemma SupersessionRecords(id: string, books: Books, start: HaStart, ports: map<string, Versioned>,
                            nodes: map<string, NodeRef>, now: int, vmid: int)
    requires id in books && CanTakeSlot(id, books[id], books, start, ports, nodes)
    ensures Records(ProofsOf(books[id], vmid),
                    ProofsOf(Edited(id, books[id], books, HaSupersede(start, ports, nodes), now).value,
                             vmid), vmid, start)
  {
    HandoverRecords(books[id], Edited(id, books[id], books, HaSupersede(start, ports, nodes), now).value, start, vmid);
  }

  // ---------------------------------------------------------------- the invariant

  /** A granted proof is covered by a baseline, every baseline was granted, and grants are ordered. */
  ghost predicate Backed(books: Books, g: Grant) {
    exists q :: Baseline(books, g.vmid, q) && Dominates(q, g.proof)
  }

  ghost predicate Kept(w: World) {
    forall i :: 0 <= i < |w.granted| ==> Backed(w.books, w.granted[i])
  }

  ghost predicate Accounted(w: World) {
    forall vmid, p :: Baseline(w.books, vmid, p) ==> Grant(vmid, p) in w.granted
  }

  predicate OrderedPair(a: Grant, b: Grant) {
    a.vmid == b.vmid ==>
      && a.proof.managerEpoch <= b.proof.managerEpoch
      && (a.proof.serviceUid != b.proof.serviceUid ==> a.proof.managerEpoch < b.proof.managerEpoch)
      && (a.proof.serviceUid == b.proof.serviceUid ==>
            && SameService(a.proof, b.proof)
            && a.proof.lrmEpoch <= b.proof.lrmEpoch && a.proof.agentLockEpoch <= b.proof.agentLockEpoch
            && (a.proof.managerEpoch == b.proof.managerEpoch && a.proof.lrmEpoch == b.proof.lrmEpoch
                && a.proof.agentLockEpoch == b.proof.agentLockEpoch ==>
                  a.proof == b.proof))
  }

  /** The same service, placed on the same nodes. */
  predicate SameService(a: HaProof, b: HaProof) {
    a.serviceId == b.serviceId && a.serviceNode == b.serviceNode && a.lrmNode == b.lrmNode
  }

  ghost predicate Ordered(granted: seq<Grant>) {
    forall i, j :: 0 <= i < j < |granted| ==> OrderedPair(granted[i], granted[j])
  }

  /** The UID of the first and last grant is interrupted by another one of the same VM. */
  predicate Returns(granted: seq<Grant>, i: nat, j: nat, k: nat)
    requires i < j < k < |granted|
  {
    && granted[i].vmid == granted[j].vmid == granted[k].vmid
    && granted[i].proof.serviceUid == granted[k].proof.serviceUid != granted[j].proof.serviceUid
  }

  ghost predicate NoReturn(granted: seq<Grant>) {
    forall i: nat, j: nat, k: nat :: i < j < k < |granted| ==> !Returns(granted, i, j, k)
  }

  ghost predicate Inv(w: World) {
    Kept(w) && Accounted(w) && Ordered(w.granted) && NoReturn(w.granted)
  }

  // ---------------------------------------------------------------- accepting keeps the order

  /** A granted proof that is dominated by another granted one of its UID with equal epochs is that one. */
  lemma EqualEpochsEqualProofs(granted: seq<Grant>, i: nat, j: nat)
    requires Ordered(granted) && i < |granted| && j < |granted|
    requires granted[i].vmid == granted[j].vmid && granted[i].proof.serviceUid == granted[j].proof.serviceUid
    requires granted[i].proof.managerEpoch == granted[j].proof.managerEpoch
      && granted[i].proof.lrmEpoch == granted[j].proof.lrmEpoch
      && granted[i].proof.agentLockEpoch == granted[j].proof.agentLockEpoch
    ensures granted[i].proof == granted[j].proof
  {
    assert i < j ==> OrderedPair(granted[i], granted[j]);
    assert j < i ==> OrderedPair(granted[j], granted[i]);
  }

  /** Two grants of one UID are of one service, and one of them renews the other. */
  lemma GrantsOfOneUid(granted: seq<Grant>, i: nat, j: nat)
    requires Ordered(granted) && i < |granted| && j < |granted|
    requires granted[i].vmid == granted[j].vmid && granted[i].proof.serviceUid == granted[j].proof.serviceUid
    ensures SameService(granted[i].proof, granted[j].proof)
    ensures Renews(granted[i].proof, granted[j].proof) || Renews(granted[j].proof, granted[i].proof)
  {
    assert i < j ==> OrderedPair(granted[i], granted[j]);
    assert j < i ==> OrderedPair(granted[j], granted[i]);
  }

  /** A start that succeeds the baseline of a granted proof comes after that proof. */
  lemma SuccessorIsOrdered(p: HaProof, q: HaProof, start: HaStart, lifecycleId: (int, string, string) -> string)
    requires Authorized(start) && Succeeds(start, q, lifecycleId) && Dominates(q, p)
    requires SameService(p, q) && (Renews(q, p) || Renews(p, q))
    ensures OrderedPair(Grant(start.vmid, p), Grant(start.vmid, start.proof))
  {
  }

  lemma NewGrantIsOrdered(w: World, start: HaStart, lifecycleId: (int, string, string) -> string)
    requires Kept(w) && Accounted(w) && Ordered(w.granted) && Authorized(start) && Enforced(w.books, start, lifecycleId)
    ensures Ordered(w.granted + [Grant(start.vmid, start.proof)])
  {
    forall i: nat | i < |w.granted| ensures OrderedPair(w.granted[i], Grant(start.vmid, start.proof)) {
      if w.granted[i].vmid == start.vmid {
        GrantedBefore(w, start, lifecycleId, i);
      }
    }
  }

  lemma GrantedBefore(w: World, start: HaStart, lifecycleId: (int, string, string) -> string, i: nat)
    requires Kept(w) && Accounted(w) && Ordered(w.granted) && Authorized(start) && Enforced(w.books, start, lifecycleId)
    requires i < |w.granted| && w.granted[i].vmid == start.vmid
    ensures OrderedPair(w.granted[i], Grant(start.vmid, start.proof))
  {
    assert Backed(w.books, w.granted[i]);
    var q :| Baseline(w.books, start.vmid, q) && Dominates(q, w.granted[i].proof);
    assert Grant(start.vmid, q) in w.granted;
    var j: nat :| j < |w.granted| && w.granted[j] == Grant(start.vmid, q);
    GrantsOfOneUid(w.granted, i, j);
    SuccessorIsOrdered(w.granted[i].proof, q, start, lifecycleId);
  }

  /** An overtaken UID is refused: its own baselines all lie below the one that overtook it. */
  lemma OvertakenUidIsRefused(w: World, start: HaStart, i: nat, j: nat)
    requires Inv(w) && NotOvertaken(w.books, start.vmid, start.proof.serviceUid) && i < j < |w.granted|
    requires w.granted[i].vmid == w.granted[j].vmid == start.vmid
    requires w.granted[i].proof.serviceUid == start.proof.serviceUid
    ensures w.granted[j].proof.serviceUid == start.proof.serviceUid
  {
    var uid := start.proof.serviceUid;
    assert Backed(w.books, w.granted[i]) && Backed(w.books, w.granted[j]);
    var a :| Baseline(w.books, start.vmid, a) && Dominates(a, w.granted[i].proof);
    var b :| Baseline(w.books, start.vmid, b) && Dominates(b, w.granted[j].proof);
    if b.serviceUid != uid {
      assert Reaches(w.books, start.vmid, uid, b.managerEpoch);
      OvertakenUidIsBelow(w, start.vmid, i, j, b.managerEpoch);
    }
  }

  lemma OvertakenUidIsBelow(w: World, vmid: int, i: nat, j: nat, epoch: int)
    requires Accounted(w) && Ordered(w.granted) && NoReturn(w.granted) && i < j < |w.granted|
    requires w.granted[i].vmid == w.granted[j].vmid == vmid && epoch >= w.granted[j].proof.managerEpoch
    requires w.granted[i].proof.serviceUid != w.granted[j].proof.serviceUid
    ensures !Reaches(w.books, vmid, w.granted[i].proof.serviceUid, epoch)
  {
    forall p | Baseline(w.books, vmid, p)
      && p.serviceUid == w.granted[i].proof.serviceUid
      ensures p.managerEpoch < epoch
    {
      assert Grant(vmid, p) in w.granted;
      var k :| 0 <= k < |w.granted| && w.granted[k] == Grant(vmid, p);
      OvertakenGrantIsOlder(w.granted, i, j, k);
    }
  }

  /** Every grant of an overtaken UID lies below the grant that overtook it. */
  lemma OvertakenGrantIsOlder(granted: seq<Grant>, i: nat, j: nat, k: nat)
    requires Ordered(granted) && NoReturn(granted) && i < j < |granted| && k < |granted|
    requires granted[i].vmid == granted[j].vmid == granted[k].vmid
    requires granted[i].proof.serviceUid == granted[k].proof.serviceUid != granted[j].proof.serviceUid
    ensures granted[k].proof.managerEpoch < granted[j].proof.managerEpoch
  {
    assert k > j ==> Returns(granted, i, j, k);
    assert OrderedPair(granted[k], granted[j]);
  }

  lemma NewGrantReturnsNothing(w: World, start: HaStart)
    requires Inv(w) && NotOvertaken(w.books, start.vmid, start.proof.serviceUid)
    ensures NoReturn(w.granted + [Grant(start.vmid, start.proof)])
  {
    var granted := w.granted + [Grant(start.vmid, start.proof)];
    forall i: nat, j: nat, k: nat | i < j < k < |granted| ensures !Returns(granted, i, j, k) {
      if k < |w.granted| {
        assert !Returns(w.granted, i, j, k);
      } else if granted[i].vmid == granted[j].vmid == granted[k].vmid
        && granted[i].proof.serviceUid == granted[k].proof.serviceUid {
        OvertakenUidIsRefused(w, start, i, j);
      }
    }
  }

  // ---------------------------------------------------------------- writing keeps the baselines

  /** Replacing one operation keeps covered baselines covered. */
  lemma ReplaceKeepsBaseline(books: Books, id: string, next: Operation, vmid: int, q: HaProof)
    requires Baseline(books, vmid, q)
    requires id in books ==> forall p :: p in ProofsOf(books[id], vmid) ==> Covered(ProofsOf(next, vmid), p)
    ensures exists r :: Baseline(books[id := next], vmid, r) && Dominates(r, q)
  {
    var k :| k in books && q in ProofsOf(books[k], vmid);
    var after := books[id := next];
    if k == id {
      var r :| r in ProofsOf(next, vmid) && Dominates(r, q);
      assert id in after && r in ProofsOf(after[id], vmid);
      assert Baseline(after, vmid, r);
    } else {
      assert k in after && q in ProofsOf(after[k], vmid);
      assert Baseline(after, vmid, q) && Dominates(q, q);
    }
  }

  lemma ReplaceKeepsKept(w: World, id: string, next: Operation)
    requires Kept(w)
    requires id in w.books ==> forall vmid, p :: p in ProofsOf(w.books[id], vmid) ==> Covered(ProofsOf(next, vmid), p)
    ensures Kept(w.(books := w.books[id := next]))
  {
    forall i | 0 <= i < |w.granted| ensures Backed(w.books[id := next], w.granted[i]) {
      assert Backed(w.books, w.granted[i]);
      var q :| Baseline(w.books, w.granted[i].vmid, q) && Dominates(q, w.granted[i].proof);
      ReplaceKeepsBaseline(w.books, id, next, w.granted[i].vmid, q);
      var r :| Baseline(w.books[id := next], w.granted[i].vmid, r) && Dominates(r, q);
      assert Dominates(r, w.granted[i].proof);
    }
  }

  lemma BaselineAfter(books: Books, id: string, next: Operation, vmid: int, p: HaProof)
    requires Baseline(books[id := next], vmid, p)
    ensures p in ProofsOf(next, vmid) || Baseline(books, vmid, p)
  {
    var k :| k in books[id := next] && p in ProofsOf(books[id := next][k], vmid);
    assert k != id ==> k in books && p in ProofsOf(books[k], vmid);
  }

  lemma AcceptRecords(books: Books, start: HaStart, how: Acceptance, now: int, vmid: int)
    requires Recording(books, start, how, now).Some?
    ensures Records(if how.id in books then ProofsOf(books[how.id], vmid) else {},
                    ProofsOf(Recording(books, start, how, now).value, vmid), vmid, start)
  {
    match how
    case TakeOver(id, direction) => TakeoverRecords(books[id], start, direction, vmid);
    case Reclaim(id) => ReclaimRecords(id, books[id], books, start, vmid);
    case Supersede(id, ports, nodes) => SupersessionRecords(id, books, start, ports, nodes, now, vmid);
    case Relocate(_, _) => assert [] + [start.proof] == [start.proof];
  }

  lemma AcceptKeepsInv(w: World, start: HaStart, how: Acceptance, now: int,
                       lifecycleId: (int, string, string) -> string)
    requires Inv(w) && Authorized(start) && Enforced(w.books, start, lifecycleId)
    requires Recording(w.books, start, how, now).Some?
    ensures Inv(World(w.books[how.id := Recording(w.books, start, how, now).value],
                      w.granted + [Grant(start.vmid, start.proof)]))
  {
    var next := Recording(w.books, start, how, now).value;
    var books := w.books[how.id := next];
    var g := Grant(start.vmid, start.proof);
    forall vmid
      ensures Records(if how.id in w.books then ProofsOf(w.books[how.id], vmid) else {},
                      ProofsOf(next, vmid), vmid, start)
    {
      AcceptRecords(w.books, start, how, now, vmid);
    }
    NewGrantIsOrdered(w, start, lifecycleId);
    NewGrantReturnsNothing(w, start);
    ReplaceKeepsKept(w, how.id, next);
    assert how.id in books && start.proof in ProofsOf(books[how.id], start.vmid);
    assert Baseline(books, start.vmid, start.proof) && Dominates(start.proof, start.proof);
    assert Backed(books, g);
    forall vmid, p | Baseline(books, vmid, p) ensures Grant(vmid, p) in w.granted + [g] {
      BaselineAfter(w.books, how.id, next, vmid, p);
      assert how.id in w.books && p in ProofsOf(w.books[how.id], vmid) ==> Baseline(w.books, vmid, p);
    }
  }

  lemma NeutralKeepsInv(w: World, id: string, next: Operation)
    requires Inv(w) && forall vmid :: ProofsOf(next, vmid) == if id in w.books then ProofsOf(w.books[id], vmid) else {}
    ensures Inv(w.(books := w.books[id := next]))
  {
    forall vmid, p | id in w.books && p in ProofsOf(w.books[id], vmid) ensures Covered(ProofsOf(next, vmid), p) {
      assert p in ProofsOf(next, vmid) && Dominates(p, p);
    }
    ReplaceKeepsKept(w, id, next);
    forall vmid, p | Baseline(w.books[id := next], vmid, p) ensures Grant(vmid, p) in w.granted {
      BaselineAfter(w.books, id, next, vmid, p);
      assert p in ProofsOf(next, vmid) ==> id in w.books && p in ProofsOf(w.books[id], vmid);
    }
  }

  lemma StepKeepsInv(w: World, step: Step, lifecycleId: (int, string, string) -> string)
    requires Inv(w)
    ensures Inv(Do(w, step, lifecycleId))
  {
    if Do(w, step, lifecycleId) != w {
      match step
      case Accept(start, how, now) => AcceptKeepsInv(w, start, how, now, lifecycleId);
      case Rewrite(id, edit, now) =>
        forall vmid
          ensures ProofsOf(Edited(id, w.books[id], w.books, edit, now).value, vmid) == ProofsOf(w.books[id], vmid)
        {
          NeutralEditKeepsProofs(id, w.books[id], w.books, edit, now, vmid);
        }
        NeutralKeepsInv(w, id, Edited(id, w.books[id], w.books, edit, now).value);
      case Begin(id, op) => NeutralKeepsInv(w, id, op);
    }
  }

  lemma {:induction false} RunKeepsInv(w: World, steps: seq<Step>, lifecycleId: (int, string, string) -> string)
    requires Inv(w)
    ensures Inv(Run(w, steps, lifecycleId))
    decreases |steps|
  {
    if steps != [] {
      StepKeepsInv(w, steps[0], lifecycleId);
      RunKeepsInv(Do(w, steps[0], lifecycleId), steps[1..], lifecycleId);
    }
  }

  /** Main result: whatever happens between them, the starts granted to one VM are totally ordered.
      Manager epochs never fall and rise strictly with a new UID; LRM and lock epochs never fall within
      one UID; and a UID that was overtaken is never granted again. */
  lemma AuthorityIsOrdered(steps: seq<Step>, lifecycleId: (int, string, string) -> string)
    ensures var granted := Run(World(map[], []), steps, lifecycleId).granted;
            Ordered(granted) && NoReturn(granted)
  {
    RunKeepsInv(World(map[], []), steps, lifecycleId);
  }

  // ---------------------------------------------------------------- exactly which starts are granted

  /** The last grant of the VM. */
  predicate IsLast(granted: seq<Grant>, vmid: int, i: nat) {
    i < |granted| && granted[i].vmid == vmid && forall j :: i < j < |granted| ==> granted[j].vmid != vmid
  }

  /** The start renews the proof: same service on the same target, no epoch below, its canonical lifecycle. */
  predicate Follows(start: HaStart, last: HaProof, lifecycleId: (int, string, string) -> string) {
    && start.proof.serviceUid == last.serviceUid && start.proof.serviceId == last.serviceId
    && last.serviceNode == start.target.name && last.lrmNode == start.target.name
    && Renews(start.proof, last) && Canonical(start, lifecycleId)
  }

  /** A UID that the VM was never granted, above all the epochs it was. */
  predicate IsNew(granted: seq<Grant>, start: HaStart) {
    forall i :: 0 <= i < |granted| && granted[i].vmid == start.vmid ==>
      granted[i].proof.serviceUid != start.proof.serviceUid
      && granted[i].proof.managerEpoch < start.proof.managerEpoch
  }

  /** The last grant itself is a baseline. */
  lemma LastGrantIsBaseline(w: World, vmid: int, i: nat)
    requires Inv(w) && IsLast(w.granted, vmid, i)
    ensures Baseline(w.books, vmid, w.granted[i].proof)
  {
    assert Backed(w.books, w.granted[i]);
    var q :| Baseline(w.books, vmid, q) && Dominates(q, w.granted[i].proof);
    var j :| 0 <= j < |w.granted| && w.granted[j] == Grant(vmid, q);
    assert j < i ==> OrderedPair(w.granted[j], w.granted[i]);
    EqualEpochsEqualProofs(w.granted, i, j);
  }

  lemma {:induction false} LastExists(granted: seq<Grant>, vmid: int, i: nat)
    requires i < |granted| && granted[i].vmid == vmid
    ensures exists l: nat :: i <= l && IsLast(granted, vmid, l)
    decreases |granted| - i
  {
    if j :| i < j < |granted| && granted[j].vmid == vmid {
      LastExists(granted, vmid, j);
    } else {
      assert IsLast(granted, vmid, i);
    }
  }

  lemma NewIsEnforced(w: World, start: HaStart, lifecycleId: (int, string, string) -> string)
    requires Inv(w) && IsNew(w.granted, start)
    ensures Enforced(w.books, start, lifecycleId)
  {
    forall p | Baseline(w.books, start.vmid, p)
      ensures p.serviceUid != start.proof.serviceUid && p.managerEpoch < start.proof.managerEpoch
    {
      var i :| 0 <= i < |w.granted| && w.granted[i] == Grant(start.vmid, p);
    }
  }

  lemma FollowerIsEnforced(w: World, start: HaStart, i: nat, lifecycleId: (int, string, string) -> string)
    requires Inv(w) && IsLast(w.granted, start.vmid, i) && Follows(start, w.granted[i].proof, lifecycleId)
    ensures Enforced(w.books, start, lifecycleId)
  {
    var last := w.granted[i].proof;
    LastGrantIsBaseline(w, start.vmid, i);
    forall p | Baseline(w.books, start.vmid, p) ensures Succeeds(start, p, lifecycleId)
      ensures p.managerEpoch <= last.managerEpoch
    {
      var j :| 0 <= j < |w.granted| && w.granted[j] == Grant(start.vmid, p);
      assert j < i ==> OrderedPair(w.granted[j], w.granted[i]);
    }
    assert forall epoch :: epoch <= last.managerEpoch ==>
        Reaches(w.books, start.vmid, start.proof.serviceUid, epoch);
  }

  lemma EnforcedFollowsLast(w: World, start: HaStart, i: nat, lifecycleId: (int, string, string) -> string)
    requires Inv(w) && Enforced(w.books, start, lifecycleId)
    requires i < |w.granted| && w.granted[i].vmid == start.vmid
      && w.granted[i].proof.serviceUid == start.proof.serviceUid
    ensures exists l: nat :: IsLast(w.granted, start.vmid, l) && Follows(start, w.granted[l].proof, lifecycleId)
  {
    LastExists(w.granted, start.vmid, i);
    var l: nat :| i <= l && IsLast(w.granted, start.vmid, l);
    if i < l {
      OvertakenUidIsRefused(w, start, i, l);
    }
    LastGrantIsBaseline(w, start.vmid, l);
    assert Succeeds(start, w.granted[l].proof, lifecycleId);
  }

  lemma EnforcedIsNew(w: World, start: HaStart, lifecycleId: (int, string, string) -> string)
    requires Inv(w) && Enforced(w.books, start, lifecycleId)
    requires forall i :: 0 <= i < |w.granted| && w.granted[i].vmid == start.vmid ==>
               w.granted[i].proof.serviceUid != start.proof.serviceUid
    ensures IsNew(w.granted, start)
  {
    forall i | 0 <= i < |w.granted| && w.granted[i].vmid == start.vmid
      ensures w.granted[i].proof.managerEpoch < start.proof.managerEpoch
    {
      assert Backed(w.books, w.granted[i]);
      var q :| Baseline(w.books, start.vmid, q) && Dominates(q, w.granted[i].proof);
      assert Succeeds(start, q, lifecycleId);
    }
  }

  /** Main result on acceptance: after any run the check over all durable records passes exactly the starts that either
      bring a UID the VM was never granted, above every epoch it was, or renew the VM's last grant. */
  lemma EnforcedIff(steps: seq<Step>, start: HaStart, lifecycleId: (int, string, string) -> string)
    ensures var w := Run(World(map[], []), steps, lifecycleId);
            Enforced(w.books, start, lifecycleId) <==>
              || IsNew(w.granted, start)
              || exists i: nat :: IsLast(w.granted, start.vmid, i) && Follows(start, w.granted[i].proof, lifecycleId)
  {
    var w := Run(World(map[], []), steps, lifecycleId);
    RunKeepsInv(World(map[], []), steps, lifecycleId);
    if IsNew(w.granted, start) {
      NewIsEnforced(w, start, lifecycleId);
    } else if i: nat :| IsLast(w.granted, start.vmid, i) && Follows(start, w.granted[i].proof, lifecycleId) {
      FollowerIsEnforced(w, start, i, lifecycleId);
    }
    if Enforced(w.books, start, lifecycleId) {
      if i: nat :| i < |w.granted| && w.granted[i].vmid == start.vmid
                   && w.granted[i].proof.serviceUid == start.proof.serviceUid {
        EnforcedFollowsLast(w, start, i, lifecycleId);
      } else {
        EnforcedIsNew(w, start, lifecycleId);
      }
    }
  }
}
