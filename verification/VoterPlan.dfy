/** The voter plan of the central database: every usable node votes, healthy voters keep their places. */
module VoterPlan {
  import opened Ports
  import opened Text

  datatype Node = Node(name: string, online: bool, eligible: bool, order: int)
  datatype Mode = Standalone | Raft
  datatype Plan = Plan(mode: Mode, voters: seq<string>, target: nat, requiresPromotion: bool)

  // ---------------------------------------------------------------- enrollment order

  predicate Precedes(a: Node, b: Node) {
    a.order < b.order || (a.order == b.order && NameLess(a.name, b.name))
  }

  predicate Sorted(s: seq<Node>) {
    forall i, j :: 0 <= i < j < |s| ==> Precedes(s[i], s[j])
  }

  function Insert(n: Node, s: seq<Node>): seq<Node> {
    if s == [] || Precedes(n, s[0]) then [n] + s else [s[0]] + Insert(n, s[1..])
  }

  /** The nodes in enrollment order, by name where the order is equal. */
  function Enrolled(s: seq<Node>): seq<Node> {
    if s == [] then [] else Insert(s[0], Enrolled(s[1..]))
  }

  predicate DistinctNames(s: seq<Node>) {
    forall i, j :: 0 <= i < j < |s| ==> s[i].name != s[j].name
  }

  lemma {:induction false} InsertPermutes(n: Node, s: seq<Node>)
    ensures multiset(Insert(n, s)) == multiset([n] + s)
  {
    if s != [] && !Precedes(n, s[0]) {
      InsertPermutes(n, s[1..]);
      assert s == [s[0]] + s[1..];
    }
  }

  lemma {:induction false} InsertSorts(n: Node, s: seq<Node>)
    requires Sorted(s) && forall i :: 0 <= i < |s| ==> s[i].name != n.name
    ensures Sorted(Insert(n, s))
  {
    if s != [] {
      NamesAreTotal(n.name, s[0].name);
      if Precedes(n, s[0]) {
        forall i | 0 <= i < |s| ensures Precedes(n, s[i]) {
          if i > 0 && n.order == s[i].order {
            NamesAreTransitive(n.name, s[0].name, s[i].name);
          }
        }
      } else {
        InsertSorts(n, s[1..]);
        InsertPermutes(n, s[1..]);
        var rest := Insert(n, s[1..]);
        forall i | 0 <= i < |rest| ensures Precedes(s[0], rest[i]) {
          assert rest[i] in multiset(rest);
          assert rest[i] == n || rest[i] in s[1..];
        }
      }
    }
  }

  lemma {:induction false} EnrolledSorts(s: seq<Node>)
    requires DistinctNames(s)
    ensures multiset(Enrolled(s)) == multiset(s) && Sorted(Enrolled(s)) && |Enrolled(s)| == |s|
  {
    if s != [] {
      var rest := Enrolled(s[1..]);
      EnrolledSorts(s[1..]);
      forall i | 0 <= i < |rest| ensures rest[i].name != s[0].name {
        assert rest[i] in multiset(rest);
        assert rest[i] in s[1..];
      }
      InsertPermutes(s[0], rest);
      InsertSorts(s[0], rest);
      assert s == [s[0]] + s[1..];
      assert |multiset(Enrolled(s))| == |multiset(s)|;
    }
  }

  lemma SameFirst(s: seq<Node>, t: seq<Node>)
    requires Sorted(s) && Sorted(t) && multiset(s) == multiset(t) && s != [] && t != []
    ensures s[0] == t[0]
  {
    assert s[0] in multiset(s) && t[0] in multiset(t);
    var i :| 0 <= i < |t| && t[i] == s[0];
    var j :| 0 <= j < |s| && s[j] == t[0];
    NamesAreTotal(s[0].name, t[0].name);
    assert i > 0 ==> Precedes(t[0], s[0]);
    assert j > 0 ==> Precedes(s[0], t[0]);
  }

  lemma TailMultiset(s: seq<Node>)
    requires s != []
    ensures multiset(s[1..]) == multiset(s) - multiset{s[0]}
  {
    assert s == [s[0]] + s[1..];
  }

  /** There is only one order to put distinct nodes in. */
  lemma {:induction false} SortedIsUnique(s: seq<Node>, t: seq<Node>)
    requires Sorted(s) && Sorted(t) && multiset(s) == multiset(t)
    ensures s == t
    decreases |s|
  {
    assert |multiset(s)| == |s| && |multiset(t)| == |t|;
    if s != [] {
      SameFirst(s, t);
      TailMultiset(s);
      TailMultiset(t);
      SortedIsUnique(s[1..], t[1..]);
      assert s == [s[0]] + s[1..] && t == [t[0]] + t[1..];
    }
  }

  // ---------------------------------------------------------------- the plan

  predicate Usable(n: Node) {
    n.online && n.eligible
  }

  function UsableNodes(nodes: seq<Node>): seq<Node> {
    if nodes == [] then []
    else var rest := UsableNodes(nodes[..|nodes| - 1]);
      if Usable(nodes[|nodes| - 1]) then rest + [nodes[|nodes| - 1]] else rest
  }

  function NamesOf(s: seq<Node>): seq<string> {
    seq(|s|, i requires 0 <= i < |s| => s[i].name)
  }

  function NameSet(s: seq<Node>): set<string> {
    set i | 0 <= i < |s| :: s[i].name
  }

  predicate Named(nodes: seq<Node>) {
    forall i :: 0 <= i < |nodes| ==> nodes[i].name != ""
  }

  /** Healthy voters, each once, in their present order. */
  function Healthy(existing: seq<string>, usable: set<string>): seq<string> {
    if existing == [] then []
    else
      var last, rest := existing[|existing| - 1], Healthy(existing[..|existing| - 1], usable);
      if last in usable && last !in rest then rest + [last] else rest
  }

  /** The names that are not taken yet, in the given order. */
  function Remaining(names: seq<string>, taken: seq<string>): seq<string> {
    if names == [] then []
    else
      var last, rest := names[|names| - 1], Remaining(names[..|names| - 1], taken);
      if last in taken then rest else rest + [last]
  }

  predicate Odd(count: nat) {
    count >= 1 && count % 2 == 1
  }

  /** The plan for the given nodes and voters; None where Select reports an error. */
  function PlanFor(nodes: seq<Node>, existing: seq<string>): Option<Plan> {
    var usable := UsableNodes(nodes);
    if !Named(nodes) || !DistinctNames(usable) || !Odd(|usable|) then None
    else
      var kept := Healthy(existing, NameSet(usable));
      var voters := kept + Remaining(NamesOf(Enrolled(usable)), kept);
      Some(Plan(if |usable| == 1 then Standalone else Raft, voters, |usable|, multiset(voters) != multiset(existing)))
  }

  // ---------------------------------------------------------------- what the plan guarantees

  predicate NoRepeats(s: seq<string>) {
    forall i, j :: 0 <= i < j < |s| ==> s[i] != s[j]
  }

  lemma {:induction false} HealthyFacts(existing: seq<string>, usable: set<string>)
    ensures NoRepeats(Healthy(existing, usable))
    ensures forall x :: x in Healthy(existing, usable) <==> x in existing && x in usable
    decreases |existing|
  {
    if existing != [] {
      var front := existing[..|existing| - 1];
      HealthyFacts(front, usable);
      assert existing == front + [existing[|existing| - 1]];
    }
  }

  lemma {:induction false} RemainingFacts(names: seq<string>, taken: seq<string>)
    requires NoRepeats(names)
    ensures NoRepeats(Remaining(names, taken))
    ensures forall x :: x in Remaining(names, taken) <==> x in names && x !in taken
    decreases |names|
  {
    if names != [] {
      var front := names[..|names| - 1];
      RemainingFacts(front, taken);
      assert names == front + [names[|names| - 1]];
      assert names[|names| - 1] !in front;
    }
  }

  lemma EnrolledNames(s: seq<Node>)
    requires DistinctNames(s)
    ensures NoRepeats(NamesOf(Enrolled(s))) && |Enrolled(s)| == |s|
    ensures forall x :: x in NamesOf(Enrolled(s)) <==> x in NameSet(s)
  {
    EnrolledSorts(s);
    var e := Enrolled(s);
    forall i, j | 0 <= i < j < |e| ensures e[i].name != e[j].name {
      assert Precedes(e[i], e[j]);
      SameNameSameNode(s, e, i, j);
    }
    forall x ensures x in NamesOf(e) <==> x in NameSet(s) {
      if x in NamesOf(e) {
        var i :| 0 <= i < |e| && e[i].name == x;
        assert e[i] in multiset(e);
        assert e[i] in s;
      }
      if x in NameSet(s) {
        var i :| 0 <= i < |s| && s[i].name == x;
        assert s[i] in multiset(s);
        assert s[i] in e;
        var k :| 0 <= k < |e| && e[k] == s[i];
        assert NamesOf(e)[k] == x;
      }
    }
  }

  lemma SameNameSameNode(s: seq<Node>, e: seq<Node>, i: nat, j: nat)
    requires DistinctNames(s) && multiset(e) == multiset(s) && i < j < |e| && Precedes(e[i], e[j])
    ensures e[i].name != e[j].name
  {
    assert e[i] in multiset(e) && e[j] in multiset(e);
    var a :| 0 <= a < |s| && s[a] == e[i];
    var b :| 0 <= b < |s| && s[b] == e[j];
    NamesAreTotal(e[i].name, e[j].name);
    assert e[i] != e[j];
    assert a != b;
  }

  /** The node of that name enrolled earlier, or at the same time under the smaller name. */
  ghost predicate EnrolledBefore(nodes: seq<Node>, x: string, y: string) {
    exists a, b :: a in nodes && b in nodes && a.name == x && b.name == y
      && (a.order < b.order || (a.order == b.order && NameLess(x, y)))
  }

  ghost predicate InEnrollmentOrder(nodes: seq<Node>, names: seq<string>) {
    forall i, j :: 0 <= i < j < |names| ==> EnrolledBefore(nodes, names[i], names[j])
  }

  lemma EnrolledInOrder(s: seq<Node>)
    requires DistinctNames(s)
    ensures InEnrollmentOrder(s, NamesOf(Enrolled(s)))
  {
    EnrolledSorts(s);
    var e := Enrolled(s);
    forall i, j | 0 <= i < j < |e| ensures EnrolledBefore(s, e[i].name, e[j].name) {
      assert e[i] in multiset(e) && e[j] in multiset(e);
      assert e[i] in s && e[j] in s && Precedes(e[i], e[j]);
    }
  }

  lemma {:induction false} RemainingInOrder(nodes: seq<Node>, names: seq<string>, taken: seq<string>)
    requires InEnrollmentOrder(nodes, names)
    ensures InEnrollmentOrder(nodes, Remaining(names, taken))
    ensures forall x :: x in Remaining(names, taken) ==> x in names
    decreases |names|
  {
    if names != [] {
      var front, last := names[..|names| - 1], names[|names| - 1];
      RemainingInOrder(nodes, front, taken);
      var rest := Remaining(front, taken);
      forall i | 0 <= i < |rest| ensures EnrolledBefore(nodes, rest[i], last) {
        assert rest[i] in front;
        var k :| 0 <= k < |front| && front[k] == rest[i];
        assert names[k] == front[k];
      }
      forall x | x in front ensures x in names {
      }
    }
  }

  /** The name stands there, and nowhere before. */
  predicate StandsAt(s: seq<string>, k: nat, x: string) {
    k < |s| && s[k] == x && x !in s[..k]
  }

  /** The first name first stands before the second one does. */
  ghost predicate StandsBefore(s: seq<string>, x: string, y: string) {
    exists k: nat, l: nat :: k < l && StandsAt(s, k, x) && StandsAt(s, l, y)
  }

  lemma StandsInFront(s: seq<string>, k: nat, x: string)
    requires s != [] && StandsAt(s[..|s| - 1], k, x)
    ensures StandsAt(s, k, x)
  {
    assert s[..|s| - 1][..k] == s[..k];
  }

  lemma {:induction false} FirstPlace(s: seq<string>, x: string)
    requires x in s
    ensures exists k: nat :: StandsAt(s, k, x)
    decreases |s|
  {
    var front := s[..|s| - 1];
    assert s == front + [s[|s| - 1]];
    if x in front {
      FirstPlace(front, x);
      var k: nat :| StandsAt(front, k, x);
      StandsInFront(s, k, x);
    } else {
      assert s[..|s| - 1] == front && StandsAt(s, |s| - 1, x);
    }
  }

  /** The voters that stay, in the order in which they first stand among the present ones. */
  lemma {:induction false} HealthyInOrder(existing: seq<string>, usable: set<string>, i: nat, j: nat)
    requires i < j < |Healthy(existing, usable)|
    ensures StandsBefore(existing, Healthy(existing, usable)[i], Healthy(existing, usable)[j])
    decreases |existing|
  {
    var front := existing[..|existing| - 1];
    var kept := Healthy(front, usable);
    HealthyFacts(front, usable);
    assert kept <= Healthy(existing, usable);
    if j < |kept| {
      HealthyInOrder(front, usable, i, j);
      var k: nat, l: nat :| k < l && StandsAt(front, k, kept[i]) && StandsAt(front, l, kept[j]);
      StandsInFront(existing, k, kept[i]);
      StandsInFront(existing, l, kept[j]);
    } else {
      assert kept[i] in kept;
      FirstPlace(front, kept[i]);
      var k: nat :| StandsAt(front, k, kept[i]);
      StandsInFront(existing, k, kept[i]);
      assert StandsAt(existing, |existing| - 1, existing[|existing| - 1]);
    }
  }

  /** A plan exists exactly when every node has a name, no two usable nodes share one, and an odd number is usable. */
  lemma PlanExistsIff(nodes: seq<Node>, existing: seq<string>)
    ensures PlanFor(nodes, existing).Some? <==>
              && (forall i :: 0 <= i < |nodes| ==> nodes[i].name != "")
              && (forall i, j :: 0 <= i < j < |UsableNodes(nodes)| ==>
                    UsableNodes(nodes)[i].name != UsableNodes(nodes)[j].name)
              && |UsableNodes(nodes)| % 2 == 1
  {
  }

  /** Main result: the voters are the names of all usable nodes, an odd number, each once; one voter stands alone, more
      form a cluster of that size; and a promotion is needed exactly when the present voters are not already these. */
  lemma PlanIsAPermutation(nodes: seq<Node>, existing: seq<string>)
    requires PlanFor(nodes, existing).Some?
    ensures var plan, usable := PlanFor(nodes, existing).value, UsableNodes(nodes);
            && NoRepeats(plan.voters) && (forall x :: x in plan.voters <==> x in NameSet(usable))
            && |plan.voters| == |usable| == plan.target && plan.target % 2 == 1
            && (plan.mode == Standalone <==> plan.target == 1)
            && (plan.requiresPromotion <==> multiset(plan.voters) != multiset(existing))
  {
    var usable := UsableNodes(nodes);
    var kept := Healthy(existing, NameSet(usable));
    HealthyFacts(existing, NameSet(usable));
    EnrolledNames(usable);
    RemainingFacts(NamesOf(Enrolled(usable)), kept);
    ConcatNoRepeats(kept, Remaining(NamesOf(Enrolled(usable)), kept));
    VotersAreAll(kept + Remaining(NamesOf(Enrolled(usable)), kept), usable);
  }

  lemma AddedInOrder(usable: seq<Node>, kept: seq<string>)
    requires DistinctNames(usable)
    ensures InEnrollmentOrder(usable, Remaining(NamesOf(Enrolled(usable)), kept))
    ensures forall x :: x in Remaining(NamesOf(Enrolled(usable)), kept) <==> x in NameSet(usable) && x !in kept
  {
    EnrolledNames(usable);
    EnrolledInOrder(usable);
    RemainingFacts(NamesOf(Enrolled(usable)), kept);
    RemainingInOrder(usable, NamesOf(Enrolled(usable)), kept);
  }

  /** Main result on the order: the present voters that are usable come first and keep their order, and the added ones
      follow in enrollment order. */
  lemma PlanKeepsOrder(nodes: seq<Node>, existing: seq<string>)
    requires PlanFor(nodes, existing).Some?
    ensures var voters, usable := PlanFor(nodes, existing).value.voters, UsableNodes(nodes);
            var kept := Healthy(existing, NameSet(usable));
            && kept <= voters
            && (forall x :: x in kept <==> x in existing && x in NameSet(usable))
            && (forall i: nat, j: nat :: i < j < |kept| ==> StandsBefore(existing, kept[i], kept[j]))
            && (forall x :: x in voters[|kept|..] ==> x !in existing)
            && InEnrollmentOrder(usable, voters[|kept|..])
  {
    var usable := UsableNodes(nodes);
    var kept := Healthy(existing, NameSet(usable));
    var added := Remaining(NamesOf(Enrolled(usable)), kept);
    HealthyFacts(existing, NameSet(usable));
    AddedInOrder(usable, kept);
    assert PlanFor(nodes, existing).value.voters == kept + added;
    assert (kept + added)[|kept|..] == added;
    forall i: nat, j: nat | i < j < |kept| ensures StandsBefore(existing, kept[i], kept[j]) {
      HealthyInOrder(existing, NameSet(usable), i, j);
    }
  }

  lemma VotersAreAll(voters: seq<string>, usable: seq<Node>)
    requires NoRepeats(voters) && DistinctNames(usable) && forall x :: x in voters <==> x in NameSet(usable)
    ensures |voters| == |usable|
  {
    SetSize(voters);
    NameSetSize(usable);
    assert (set v | v in voters) == NameSet(usable);
  }

  lemma ConcatNoRepeats(a: seq<string>, b: seq<string>)
    requires NoRepeats(a) && NoRepeats(b) && forall x :: x in b ==> x !in a
    ensures NoRepeats(a + b)
  {
    forall i, j | 0 <= i < |a| && 0 <= j < |b| ensures a[i] != b[j] {
      assert b[j] in b;
    }
  }

  /** Main result on determinism: the plan does not depend on the order in which the nodes are listed. */
  lemma PlanIgnoresListing(nodes: seq<Node>, listed: seq<Node>, existing: seq<string>)
    requires multiset(nodes) == multiset(listed)
    ensures PlanFor(nodes, existing) == PlanFor(listed, existing)
  {
    UsableMultiset(nodes);
    UsableMultiset(listed);
    var a, b := UsableNodes(nodes), UsableNodes(listed);
    assert multiset(a) == multiset(b);
    SameNames(nodes, listed);
    assert |multiset(a)| == |a| && |multiset(b)| == |b|;
    SameDistinct(a, b);
    SameDistinct(b, a);
    if DistinctNames(a) {
      EnrolledSorts(a);
      EnrolledSorts(b);
      SortedIsUnique(Enrolled(a), Enrolled(b));
      SameNameSet(a, b);
    }
  }

  /** Filtering keeps the count of every usable node and drops the others. */
  lemma {:induction false} UsableMultiset(nodes: seq<Node>)
    ensures forall n :: multiset(UsableNodes(nodes))[n] == if Usable(n) then multiset(nodes)[n] else 0
    decreases |nodes|
  {
    if nodes != [] {
      UsableMultiset(nodes[..|nodes| - 1]);
      assert nodes == nodes[..|nodes| - 1] + [nodes[|nodes| - 1]];
    }
  }

  lemma SameNames(a: seq<Node>, b: seq<Node>)
    requires multiset(a) == multiset(b)
    ensures Named(a) <==> Named(b)
  {
    forall i | 0 <= i < |a| ensures a[i] in b {
      assert a[i] in multiset(a);
    }
    forall i | 0 <= i < |b| ensures b[i] in a {
      assert b[i] in multiset(b);
    }
  }

  lemma SameNameSet(a: seq<Node>, b: seq<Node>)
    requires multiset(a) == multiset(b)
    ensures NameSet(a) == NameSet(b)
  {
    forall i | 0 <= i < |a| ensures a[i] in b {
      assert a[i] in multiset(a);
    }
    forall i | 0 <= i < |b| ensures b[i] in a {
      assert b[i] in multiset(b);
    }
  }

  lemma {:induction false} DistinctCount(a: seq<Node>, n: Node)
    requires DistinctNames(a)
    ensures multiset(a)[n] <= 1
  {
    if a != [] {
      DistinctCount(a[1..], n);
      assert a == [a[0]] + a[1..];
      if n == a[0] {
        assert n !in a[1..];
      }
    }
  }

  lemma RepeatCount(b: seq<Node>, i: nat, j: nat)
    requires i < j < |b| && b[i] == b[j]
    ensures multiset(b)[b[i]] >= 2
  {
    assert b == b[..j] + [b[j]] + b[j + 1..];
    assert b[..j][i] == b[i];
    assert b[i] in multiset(b[..j]);
  }

  lemma SameDistinct(a: seq<Node>, b: seq<Node>)
    requires multiset(a) == multiset(b)
    ensures DistinctNames(a) ==> DistinctNames(b)
  {
    if DistinctNames(a) {
      forall i, j | 0 <= i < j < |b| ensures b[i].name != b[j].name {
        assert b[i] in multiset(b) && b[j] in multiset(b);
        var k :| 0 <= k < |a| && a[k] == b[i];
        var l :| 0 <= l < |a| && a[l] == b[j];
        DistinctCount(a, b[i]);
        if b[i] == b[j] {
          RepeatCount(b, i, j);
        }
      }
    }
  }

  // ---------------------------------------------------------------- the imperative form

  /** sameSet: counts up over one list and down over the other. */
  method SameSet(a: seq<string>, b: seq<string>) returns (same: bool)
    ensures same <==> multiset(a) == multiset(b)
  {
    if |a| != |b| {
      assert |multiset(a)| == |a| && |multiset(b)| == |b|;
      return false;
    }
    var counts: multiset<string> := multiset{};
    for i := 0 to |a|
      invariant counts == multiset(a[..i])
    {
      assert a[..i + 1] == a[..i] + [a[i]];
      counts := counts + multiset{a[i]};
    }
    assert a[..|a|] == a && b[..|b|] == b;
    for i := 0 to |b|
      invariant counts + multiset(b[..i]) == multiset(a)
    {
      assert b[..i + 1] == b[..i] + [b[i]] && b == b[..i + 1] + b[i + 1..];
      if b[i] !in counts {
        assert multiset(a)[b[i]] == multiset(b[..i])[b[i]] < multiset(b[..i + 1])[b[i]] <= multiset(b)[b[i]];
        return false;
      }
      counts := counts - multiset{b[i]};
    }
    assert |counts| == |multiset(a)| - |multiset(b)|;
    return true;
  }

  /** The first loop of Select: usable nodes, unless a name is missing or repeated. */
  method CollectUsable(nodes: seq<Node>) returns (ordered: Option<seq<Node>>)
    ensures ordered == if Named(nodes) && DistinctNames(UsableNodes(nodes)) then Some(UsableNodes(nodes)) else None
  {
    var found: seq<Node> := [];
    for i := 0 to |nodes|
      invariant found == UsableNodes(nodes[..i]) && Named(nodes[..i]) && DistinctNames(found)
    {
      var node := nodes[i];
      assert nodes[..i + 1] == nodes[..i] + [node] && nodes[..i + 1][..i] == nodes[..i];
      if node.name == "" {
        return None;
      }
      if Usable(node) {
        if k :| 0 <= k < |found| && found[k].name == node.name {
          RepeatedName(nodes, i, k);
          return None;
        }
        found := found + [node];
      }
    }
    assert nodes[..|nodes|] == nodes;
    return Some(found);
  }

  lemma {:induction false} UsableExtends(nodes: seq<Node>, i: nat)
    requires i <= |nodes|
    ensures UsableNodes(nodes[..i]) <= UsableNodes(nodes)
    decreases |nodes| - i
  {
    if i < |nodes| {
      assert nodes[..i + 1][..i] == nodes[..i];
      assert UsableNodes(nodes[..i]) <= UsableNodes(nodes[..i + 1]);
      UsableExtends(nodes, i + 1);
    } else {
      assert nodes[..i] == nodes;
    }
  }

  lemma RepeatedName(nodes: seq<Node>, i: nat, k: nat)
    requires i < |nodes| && Usable(nodes[i]) && k < |UsableNodes(nodes[..i])|
      && UsableNodes(nodes[..i])[k].name == nodes[i].name
    ensures !DistinctNames(UsableNodes(nodes))
  {
    var found := UsableNodes(nodes[..i]);
    assert nodes[..i + 1][..i] == nodes[..i];
    assert UsableNodes(nodes[..i + 1]) == found + [nodes[i]];
    UsableExtends(nodes, i + 1);
    assert UsableNodes(nodes)[|found|] == nodes[i] && UsableNodes(nodes)[k] == found[k];
  }

  /** With all usable names taken, nothing more is healthy or remains. */
  lemma FullMeansAll(voters: seq<string>, names: set<string>, x: string)
    requires NoRepeats(voters) && (forall v :: v in voters ==> v in names) && |voters| == |names| && x in names
    ensures x in voters
  {
    var s := set v | v in voters;
    SetSize(voters);
    if x !in voters {
      assert s <= names - {x};
      SubsetSize(s, names - {x});
    }
  }

  lemma {:induction false} SetSize(s: seq<string>)
    requires NoRepeats(s)
    ensures |(set v | v in s)| == |s|
  {
    if s != [] {
      SetSize(s[1..]);
      assert (set v | v in s) == (set v | v in s[1..]) + {s[0]};
      assert s[0] !in s[1..];
    }
  }

  lemma {:induction false} SubsetSize(a: set<string>, b: set<string>)
    requires a <= b
    ensures |a| <= |b|
    decreases |a|
  {
    if x :| x in a {
      SubsetSize(a - {x}, b - {x});
    }
  }

  lemma NameSetSize(s: seq<Node>)
    requires DistinctNames(s)
    ensures |NameSet(s)| == |s|
  {
    SetSize(NamesOf(s));
    forall x ensures x in NameSet(s) <==> x in NamesOf(s) {
      if x in NameSet(s) {
        var i :| 0 <= i < |s| && s[i].name == x;
        assert NamesOf(s)[i] == x;
      }
    }
    assert NameSet(s) == set v | v in NamesOf(s);
  }

  /** The second loop: healthy voters, as long as there is room. */
  method KeepHealthy(existing: seq<string>, usable: seq<Node>) returns (voters: seq<string>)
    requires DistinctNames(usable)
    ensures voters == Healthy(existing, NameSet(usable))
  {
    voters := [];
    var names := NameSet(usable);
    NameSetSize(usable);
    for i := 0 to |existing|
      invariant voters == Healthy(existing[..i], names)
    {
      assert existing[..i + 1][..i] == existing[..i];
      HealthyFacts(existing[..i], names);
      var name := existing[i];
      if name !in names {
        continue;
      }
      if |voters| == |usable| {
        FullMeansAll(voters, names, name);
        continue;
      }
      if name !in voters {
        voters := voters + [name];
      }
    }
    assert existing[..|existing|] == existing;
  }

  /** The third loop: free places go to the other nodes in enrollment order. */
  method FillPlaces(kept: seq<string>, usable: seq<Node>) returns (voters: seq<string>)
    requires DistinctNames(usable) && NoRepeats(kept) && forall x :: x in kept ==> x in NameSet(usable)
    ensures voters == kept + Remaining(NamesOf(Enrolled(usable)), kept)
  {
    EnrolledNames(usable);
    NameSetSize(usable);
    var names := NamesOf(Enrolled(usable));
    voters := kept;
    var i := 0;
    while i < |names|
      invariant i <= |names| && voters == kept + Remaining(names[..i], kept)
    {
      RemainingFacts(names[..i], kept);
      ConcatNoRepeats(kept, Remaining(names[..i], kept));
      if |voters| == |usable| {
        NothingRemains(names, kept, i, NameSet(usable));
        return;
      }
      assert names[..i + 1][..i] == names[..i];
      assert names[i] !in names[..i];
      if names[i] !in voters {
        voters := voters + [names[i]];
      }
      i := i + 1;
    }
    assert names[..|names|] == names;
  }

  lemma {:induction false} NothingRemains(names: seq<string>, kept: seq<string>, i: nat, all: set<string>)
    requires NoRepeats(names) && i <= |names| && (forall x :: x in names ==> x in all)
      && (forall x :: x in kept ==> x in all)
    requires NoRepeats(kept + Remaining(names[..i], kept)) && |kept + Remaining(names[..i], kept)| == |all|
    ensures Remaining(names, kept) == Remaining(names[..i], kept)
    decreases |names| - i
  {
    if i == |names| {
      assert names[..i] == names;
    } else {
      RemainingFacts(names[..i], kept);
      FullMeansAll(kept + Remaining(names[..i], kept), all, names[i]);
      assert names[i] !in names[..i];
      assert names[..i + 1][..i] == names[..i];
      NothingRemains(names, kept, i + 1, all);
    }
  }

  /** Select. */
  method Select(nodes: seq<Node>, existing: seq<string>) returns (plan: Option<Plan>)
    ensures plan == PlanFor(nodes, existing)
  {
    var ordered := CollectUsable(nodes);
    if ordered.None? || !Odd(|ordered.value|) {
      return None;
    }
    var usable := ordered.value;
    var kept := KeepHealthy(existing, usable);
    HealthyFacts(existing, NameSet(usable));
    var voters := FillPlaces(kept, usable);
    var same := SameSet(voters, existing);
    return Some(Plan(if |usable| == 1 then Standalone else Raft, voters, |usable|, !same));
  }
}
