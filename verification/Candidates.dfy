/** The iterator over the address candidates of a subnet, and the reservation that uses it. */
module Candidates {
  import opened Ports
  import opened AddressPool
  import opened Model
  import opened Store
  import opened MemoryStore

  datatype Range = Range(first: Address, last: Address)

  /** What provisioning needs of a subnet: its prefix, its effective gateway if it has a valid one, its pools. */
  datatype Pool = Pool(prefix: Prefix, gateway: Option<Address>, pools: seq<Range>)

  predicate PoolOk(pool: Pool) {
    Masked(pool.prefix) && forall i :: 0 <= i < |pool.pools| ==> pool.pools[i].first <= pool.pools[i].last
  }

  /** usableProvisionAddress. */
  predicate Usable(pool: Pool, a: Address)
    requires Masked(pool.prefix)
  {
    && Contains(pool.prefix, a) && a != Bounds(pool.prefix).0 && a != Bounds(pool.prefix).1
    && pool.gateway.Some? && a != pool.gateway.value
  }

  predicate InPools(pool: Pool, a: Address) {
    exists i :: 0 <= i < |pool.pools| && pool.pools[i].first <= a <= pool.pools[i].last
  }

  /** provisionAddressCandidates: the ranges to search, or None for an unusable manual address. */
  function Ranges(pool: Pool, manual: Option<Address>): Option<seq<Range>>
    requires PoolOk(pool)
  {
    BoundsAreTheBlock(pool.prefix);
    if manual.Some? then
      if Usable(pool, manual.value) && (pool.pools != [] ==> InPools(pool, manual.value))
      then Some([Range(manual.value, manual.value)]) else None
    else if pool.pools != [] then Some(pool.pools)
    else
      var (network, broadcast) := Bounds(pool.prefix);
      if broadcast - network > 1 then Some([Range(network + 1, broadcast - 1)]) else Some([])
  }

  // ---------------------------------------------------------------- the simple form

  /** All addresses from a through b. */
  function Span(a: nat, b: Address): seq<Address> {
    if a > b then [] else seq(b + 1 - a, i requires 0 <= i < b + 1 - a => a + i)
  }

  lemma SpanHead(a: nat, b: Address)
    requires a <= b
    ensures Span(a, b) == [a] + Span(a + 1, b)
  {
  }

  /** The addresses of the ranges from the i-th on. */
  function Addresses(ranges: seq<Range>, i: nat): seq<Address>
    requires i <= |ranges|
    decreases |ranges| - i
  {
    if i == |ranges| then [] else Span(ranges[i].first, ranges[i].last) + Addresses(ranges, i + 1)
  }

  function Keep(pool: Pool, s: seq<Address>): seq<Address>
    requires Masked(pool.prefix)
  {
    if s == [] then [] else if Usable(pool, s[0]) then [s[0]] + Keep(pool, s[1..]) else Keep(pool, s[1..])
  }

  lemma KeepHead(pool: Pool, x: Address, s: seq<Address>)
    requires Masked(pool.prefix)
    ensures Keep(pool, [x] + s) == if Usable(pool, x) then [x] + Keep(pool, s) else Keep(pool, s)
  {
    assert ([x] + s)[1..] == s;
  }

  predicate Ordered(ranges: seq<Range>) {
    forall i :: 0 <= i < |ranges| ==> ranges[i].first <= ranges[i].last
  }

  /** Addresses not visited yet by an iterator in the given state. */
  function Unvisited(ranges: seq<Range>, rangeAt: int, current: Address, ready: bool): seq<Address>
    requires -1 <= rangeAt < |ranges| && (ready ==> rangeAt >= 0)
  {
    if ready then Span(current + 1, ranges[rangeAt].last) + Addresses(ranges, rangeAt + 1)
    else Addresses(ranges, rangeAt + 1)
  }

  lemma EntersRange(ranges: seq<Range>, at: nat)
    requires Ordered(ranges) && at < |ranges|
    ensures Addresses(ranges, at) == [ranges[at].first] + Unvisited(ranges, at, ranges[at].first, true)
  {
    var r := ranges[at];
    SpanHead(r.first, r.last);
    Prepend(r.first, Span(r.first + 1, r.last), Addresses(ranges, at + 1));
  }

  lemma Prepend(x: Address, s: seq<Address>, t: seq<Address>)
    ensures ([x] + s) + t == [x] + (s + t)
  {
  }

  lemma StaysInRange(ranges: seq<Range>, at: nat, current: Address)
    requires at < |ranges| && current < ranges[at].last
    ensures (current + 1) % LIMIT == current + 1
    ensures Unvisited(ranges, at, current, true) == [current + 1] + Unvisited(ranges, at, current + 1, true)
  {
    SpanHead(current + 1, ranges[at].last);
    Prepend(current + 1, Span(current + 2, ranges[at].last), Addresses(ranges, at + 1));
  }

  lemma RangeIsDone(ranges: seq<Range>, at: nat)
    requires at < |ranges|
    ensures Unvisited(ranges, at, ranges[at].last, true) == Addresses(ranges, at + 1)
  {
    EmptyPrefix(Addresses(ranges, at + 1));
  }

  lemma EmptyPrefix(s: seq<Address>)
    ensures [] + s == s
  {
  }

  // ---------------------------------------------------------------- the iterator

  class Iterator {
    const pool: Pool
    const ranges: seq<Range>
    var rangeAt: int
    var current: Address
    var ready: bool

    /** Between calls; `Exhausted` once Next has answered false. */
    ghost predicate Valid()
      reads this
    {
      Masked(pool.prefix) && Ordered(ranges) && Placed()
    }

    /** The iterator stands before its first range or inside one of them. */
    ghost predicate Placed()
      reads this
    {
      && -1 <= rangeAt < |ranges| && (ready <==> rangeAt >= 0)
      && (ready ==> ranges[rangeAt].first <= current <= ranges[rangeAt].last)
    }

    ghost predicate Exhausted()
      reads this
    {
      rangeAt == |ranges|
    }

    /** Addresses not visited yet. */
    ghost function Todo(): seq<Address>
      requires Placed()
      reads this
    {
      Unvisited(ranges, rangeAt, current, ready)
    }

    /** Addresses still to be yielded. */
    ghost function Ahead(): seq<Address>
      requires Valid()
      reads this
    {
      Keep(pool, Todo())
    }

    constructor (pool: Pool, ranges: seq<Range>)
      requires Masked(pool.prefix) && Ordered(ranges)
      ensures this.pool == pool && this.ranges == ranges && Valid() && Ahead() == Keep(pool, Addresses(ranges, 0))
    {
      this.pool := pool;
      this.ranges := ranges;
      rangeAt := -1;
      current := 0;
      ready := false;
    }

    /** On to the next range, if there is one. */
    method EnterRange() returns (more: bool)
      requires Ordered(ranges) && Placed() && (ready ==> current == ranges[rangeAt].last)
      modifies this
      ensures more ==> Placed() && ready && old(Todo()) == [current] + Todo()
      ensures !more ==> Exhausted() && old(Todo()) == []
    {
      if ready {
        RangeIsDone(ranges, rangeAt);
      }
      assert Todo() == Addresses(ranges, rangeAt + 1);
      rangeAt := rangeAt + 1;
      if rangeAt >= |ranges| {
        return false;
      }
      EntersRange(ranges, rangeAt);
      current := ranges[rangeAt].first;
      ready := true;
      return true;
    }

    /** On to the next address of the range; the 32-bit increment does not wrap. */
    method StepInRange()
      requires Placed() && ready && current != ranges[rangeAt].last
      modifies this
      ensures Placed() && ready && current == old(current) + 1 && old(Todo()) == [current] + Todo()
    {
      StaysInRange(ranges, rangeAt, current);
      current := (current + 1) % LIMIT;
    }

    /** The next address of the ranges, usable or not. */
    method Advance() returns (more: bool)
      requires Ordered(ranges) && Placed()
      modifies this
      ensures more ==> Placed() && ready && old(Todo()) == [current] + Todo()
      ensures !more ==> Exhausted() && old(Todo()) == []
    {
      if !ready || current == ranges[rangeAt].last {
        more := EnterRange();
      } else {
        StepInRange();
        return true;
      }
    }

    /** Main result on the iterator: it yields, in order, exactly the usable addresses of its ranges,
        and never steps past the last address. */
    method Next() returns (more: bool)
      requires Valid()
      modifies this
      ensures more <==> old(Ahead()) != []
      ensures more ==> Valid() && ready && current == old(Ahead())[0] && Ahead() == old(Ahead())[1..]
      ensures !more ==> Exhausted()
    {
      while true
        invariant Valid() && Ahead() == old(Ahead())
        decreases |Todo()|
      {
        ghost var todo := Todo();
        more := Advance();
        if !more {
          return;
        }
        KeepHead(pool, current, Todo());
        if Usable(pool, current) {
          return true;
        }
      }
    }
  }

  // ---------------------------------------------------------------- what is yielded

  lemma {:induction false} KeptExactly(pool: Pool, s: seq<Address>, a: Address)
    requires Masked(pool.prefix)
    ensures a in Keep(pool, s) <==> a in s && Usable(pool, a)
    decreases |s|
  {
    if s != [] {
      KeptExactly(pool, s[1..], a);
      assert a in s <==> a == s[0] || a in s[1..];
    }
  }

  lemma SpanMembers(a: nat, b: Address, x: Address)
    ensures x in Span(a, b) <==> a <= x <= b
  {
    if a <= x <= b {
      assert Span(a, b)[x - a] == x;
    }
  }

  lemma {:induction false} AddressMembers(ranges: seq<Range>, from: nat, a: Address)
    requires from <= |ranges|
    ensures a in Addresses(ranges, from) <==> exists i :: from <= i < |ranges| && ranges[i].first <= a <= ranges[i].last
    decreases |ranges| - from
  {
    if from < |ranges| {
      SpanMembers(ranges[from].first, ranges[from].last, a);
      AddressMembers(ranges, from + 1, a);
    }
  }

  /** Main result on what is yielded: exactly the usable addresses that lie in one of the ranges. */
  lemma YieldedExactly(pool: Pool, ranges: seq<Range>, a: Address)
    requires Masked(pool.prefix)
    ensures a in Keep(pool, Addresses(ranges, 0)) <==>
              Usable(pool, a) && exists i :: 0 <= i < |ranges| && ranges[i].first <= a <= ranges[i].last
  {
    KeptExactly(pool, Addresses(ranges, 0), a);
    AddressMembers(ranges, 0, a);
  }

  /** A host address of the block: neither its first nor its last address, nor the gateway. */
  predicate IsHost(pool: Pool, a: Address)
    requires pool.prefix.bits <= 32
  {
    && pool.prefix.network < a < pool.prefix.network + Pow2(32 - pool.prefix.bits) - 1
    && pool.gateway.Some? && a != pool.gateway.value
  }

  lemma UsableIsHost(pool: Pool, a: Address)
    requires Masked(pool.prefix)
    ensures Usable(pool, a) <==> IsHost(pool, a)
  {
    BoundsAreTheBlock(pool.prefix);
  }

  /** The candidates of a subnet, for every prefix length: a manual address alone, if it is a host and in the pools;
      otherwise all hosts in the pools; otherwise all hosts of the block. */
  lemma CandidatesAreExactly(pool: Pool, manual: Option<Address>, a: Address)
    requires PoolOk(pool)
    ensures Ranges(pool, manual).None? <==>
              manual.Some? && !(IsHost(pool, manual.value) && (pool.pools != [] ==> InPools(pool, manual.value)))
    ensures Ranges(pool, manual).Some? ==>
              (a in Keep(pool, Addresses(Ranges(pool, manual).value, 0)) <==>
                 IsHost(pool, a) && (manual.Some? ==> a == manual.value) && (pool.pools != [] ==> InPools(pool, a)))
  {
    BoundsAreTheBlock(pool.prefix);
    UsableIsHost(pool, a);
    if manual.Some? {
      UsableIsHost(pool, manual.value);
    }
    if Ranges(pool, manual).Some? {
      var ranges := Ranges(pool, manual).value;
      YieldedExactly(pool, ranges, a);
      assert manual.Some? ==> ranges[0] == Range(manual.value, manual.value);
    }
  }

  // ---------------------------------------------------------------- reservation

  datatype Reservation =
    | Reserved(index: nat, row: Row)
    | Existing(row: Row)             // the allocation is there and matches the request
    | Mismatched                     // the allocation is there and does not
    | Full
    | Unusable                       // the manual address is no candidate
    | Refused(failure: Failure)

  const NoMeta := Meta(0, 0, Pending, "", 0, 0)

  function Wanted(allocationId: string, subnetId: string, address: string): Submission {
    Submission(allocationId, NoMeta, IPAllocation(subnetId, "", address, Model.Reserved))
  }

  /** usedProvisionAddresses. */
  function UsedAddresses(rows: Rows, subnetId: string, ownPortId: string): set<string> {
    (set k | k in rows && rows[k].body.IPAllocation? && rows[k].body.subnetId == subnetId :: rows[k].body.address)
    + (set k, i | k in rows && rows[k].body.PortBody? && k.id != ownPortId && 0 <= i < |rows[k].body.port.fixedIPs|
                  && rows[k].body.port.fixedIPs[i].subnetId == subnetId && rows[k].body.port.fixedIPs[i].address != ""
         :: rows[k].body.port.fixedIPs[i].address)
  }

  /** An address is used exactly when an allocation of the subnet or a fixed IP of another port has it. */
  lemma UsedIff(rows: Rows, subnetId: string, ownPortId: string, address: string)
    ensures address in UsedAddresses(rows, subnetId, ownPortId) <==>
              || (exists k :: k in rows && rows[k].body.IPAllocation? && rows[k].body.subnetId == subnetId
                           && rows[k].body.address == address)
              || (address != "" && exists k :: k in rows && rows[k].body.PortBody? && k.id != ownPortId
                                            && FixedIP(subnetId, address) in rows[k].body.port.fixedIPs)
  {
    if k :| k in rows && rows[k].body.PortBody? && k.id != ownPortId
            && FixedIP(subnetId, address) in rows[k].body.port.fixedIPs {
      var i :| 0 <= i < |rows[k].body.port.fixedIPs| && rows[k].body.port.fixedIPs[i] == FixedIP(subnetId, address);
    }
  }

  /** The address is taken: listed as used, or refused by the store as a duplicate. */
  predicate Taken(r: Rules, rows: Rows, allocationId: Name, subnetId: string, used: set<string>, address: string) {
    address in used || CreateError(r, rows, Wanted(allocationId, subnetId, address), "",
                                   allocationId) == Some(AlreadyExists)
  }

  ghost predicate TakenUpTo(r: Rules, rows: Rows, allocationId: Name, subnetId: string, used: set<string>,
                            text: Address -> string, candidates: seq<Address>, n: nat) {
    forall j :: 0 <= j < n && j < |candidates| ==> Taken(r, rows, allocationId, subnetId, used, text(candidates[j]))
  }

  /** validateProvisionAllocation. */
  predicate Reusable(row: Row, subnetId: string, portId: string, manual: Option<string>) {
    && row.body.IPAllocation? && row.body.subnetId == subnetId && (manual.Some? ==> row.body.address == manual.value)
    && (row.body.allocation == Model.Reserved || (row.body.allocation == Allocated && row.body.portId == portId))
  }

  /** A stored allocation answers a request exactly when it is of the subnet and has the manual address, if there is
      one,
      and is not in use for another port. */
  lemma ReusableIff(row: Row, subnetId: string, portId: string, manual: Option<string>)
    ensures Reusable(row, subnetId, portId, manual) <==>
              && row.body.IPAllocation? && row.body.subnetId == subnetId && row.body.allocation != StateUnset
              && (manual == None || manual == Some(row.body.address))
              && !(row.body.allocation == Allocated && row.body.portId != portId)
  {
  }

  function ManualText(manual: Option<Address>, text: Address -> string): Option<string> {
    if manual.Some? then Some(text(manual.value)) else None
  }

  /** validateProvisionAllocation of a stored allocation. */
  function Checked(row: Row, subnetId: string, portId: string, manual: Option<string>): Reservation {
    if Reusable(row, subnetId, portId, manual) then Existing(row) else Mismatched
  }

  /** Tries one address that is not listed as used; None if it is taken after all and the search goes on. */
  method TryAddress(store: Memory, allocationId: Name, subnetId: string, portId: string, address: string,
                    manual: Option<string>, n: nat, now: int)
    returns (outcome: Option<Reservation>)
    modifies store
    ensures var rows, key := old(store.resources), Key(KindIPAllocation, allocationId);
            var error := CreateError(store.rules, rows, Wanted(allocationId, subnetId, address), "", allocationId);
            && (key in rows ==> outcome == Some(Checked(rows[key], subnetId, portId, manual)))
            && (key !in rows && error.None? ==>
                  && outcome.Some? && outcome.value.Reserved? && outcome.value.index == n
                  && outcome.value.row.body == IPAllocation(subnetId, "", address, Model.Reserved)
                  && store.resources == rows[key := outcome.value.row])
            && (key !in rows && error.Some? ==>
                  outcome == if error.value == AlreadyExists && manual.None? then None else Some(Refused(error.value)))
            && (outcome.Some? && outcome.value.Reserved? ==> key !in rows && error.None?)
            && (!(outcome.Some? && outcome.value.Reserved?) ==> store.resources == rows)
  {
    var key := Key(KindIPAllocation, allocationId);
    var result := store.Create(Wanted(allocationId, subnetId, address), "", allocationId, now);
    if result.Ok? {
      return Some(Reservation.Reserved(n, result.row));
    }
    if result.failure == AlreadyExists {
      if key in store.resources {
        return Some(Checked(store.resources[key], subnetId, portId, manual));
      }
      if manual.None? {
        return None;
      }
    }
    return Some(Refused(result.failure));
  }

  /** All candidates up to the n-th are taken, and that one is tried: it is a manual address listed as used, or the
      store
      refuses it for the given reason. */
  ghost predicate Fails(r: Rules, rows: Rows, allocationId: Name, subnetId: string, used: set<string>,
                        text: Address -> string, manual: Option<Address>, candidates: seq<Address>, n: nat,
                        failure: Failure) {
    && n < |candidates| && TakenUpTo(r, rows, allocationId, subnetId, used, text, candidates, n)
    && var address := text(candidates[n]);
       if address in used then manual.Some? && failure == AlreadyExists
       else && CreateError(r, rows, Wanted(allocationId, subnetId, address), "", allocationId) == Some(failure)
            && (failure == AlreadyExists ==> manual.Some?)
  }

  /** The loop over the candidates, for any listing of used addresses: other managers may have written since it was
      made.
      It reserves the first candidate that is not taken and reports the subnet full only when every candidate is; it
      gives
      up only on a taken manual address and on a candidate the store refuses for another reason.  If the allocation
      itself
      has come into being, it answers with that one or that it does not match. */
  method TryCandidates(store: Memory, pool: Pool, ranges: seq<Range>, subnetId: string, portId: string,
                       allocationId: Name, manual: Option<Address>, text: Address -> string, now: int,
                       listed: set<string>)
    returns (outcome: Reservation)
    requires PoolOk(pool) && Ordered(ranges)
    modifies store
    ensures Tried(store.rules, old(store.resources), store.resources, Keep(pool, Addresses(ranges, 0)), subnetId,
                  portId,
                  allocationId, manual, text, listed, outcome)
  {
    ghost var rows := store.resources;
    var used := listed;
    var it := new Iterator(pool, ranges);
    ghost var candidates := Keep(pool, Addresses(ranges, 0));
    var n := 0;
    assert candidates[0..] == candidates;
    while true
      invariant it.Valid() && n <= |candidates| && it.Ahead() == candidates[n..]
      invariant store.resources == rows && listed <= used
      invariant TakenUpTo(store.rules, rows, allocationId, subnetId, listed, text, candidates, n)
      invariant forall a :: a in used && a !in listed ==>
          && Key(KindIPAllocation, allocationId) !in rows && manual.None?
          && Taken(store.rules, rows, allocationId, subnetId, listed, a)
      decreases |candidates| - n
    {
      var more := it.Next();
      if !more {
        return Full;
      }
      assert it.current == candidates[n] && candidates[n..][1..] == candidates[n + 1..];
      var address := text(it.current);
      if address in used {
        if manual.Some? {
          assert Fails(store.rules, rows, allocationId, subnetId, listed, text, manual, candidates, n, AlreadyExists);
          return Refused(AlreadyExists);
        }
      } else {
        var answer := TryAddress(store, allocationId, subnetId, portId, address, ManualText(manual, text), n, now);
        if answer.Some? {
          assert answer.value.Refused? ==>
              Fails(store.rules, rows, allocationId, subnetId, listed, text, manual, candidates, n,
                    answer.value.failure);
          return answer.value;
        }
        used := used + {address};
      }
      n := n + 1;
    }
  }

  /** What an outcome of the loop means. */
  ghost predicate Tried(r: Rules, rows: Rows, after: Rows, candidates: seq<Address>, subnetId: string, portId: string,
                        allocationId: Name, manual: Option<Address>, text: Address -> string, listed: set<string>,
                        outcome: Reservation) {
    var key := Key(KindIPAllocation, allocationId);
    match outcome
    case Reserved(n, row) =>
      && key !in rows && n < |candidates| && !Taken(r, rows, allocationId, subnetId, listed, text(candidates[n]))
      && TakenUpTo(r, rows, allocationId, subnetId, listed, text, candidates, n)
      && row.body == IPAllocation(subnetId, "", text(candidates[n]), Model.Reserved) && after == rows[key := row]
    case Existing(row) =>
      after == rows && key in rows && row == rows[key] && Reusable(row, subnetId, portId, ManualText(manual, text))
    case Mismatched =>
      after == rows && key in rows && !Reusable(rows[key], subnetId, portId, ManualText(manual, text))
    case Full =>
      after == rows && TakenUpTo(r, rows, allocationId, subnetId, listed, text, candidates, |candidates|)
    case Unusable => false
    case Refused(failure) =>
      && after == rows
      && exists n: nat :: Fails(r, rows, allocationId, subnetId, listed, text, manual, candidates, n, failure)
  }

  /** Main result on reservation (reserveProvisionAddress), undisturbed: a stored allocation is the answer if it
      matches;
      otherwise the first candidate that no other allocation and no other port has is reserved, the subnet is full only
      when there is none, and the request is refused only for an unusable or taken manual address or for what the store
      has against the first free candidate. */
  method ReserveAddress(store: Memory, pool: Pool, subnetId: string, portId: string, allocationId: Name,
                        manual: Option<Address>, text: Address -> string, now: int)
    returns (outcome: Reservation)
    requires PoolOk(pool)
    modifies store
    ensures var rows, key := old(store.resources), Key(KindIPAllocation, allocationId);
            if key in rows then
              outcome == Checked(rows[key], subnetId, portId, ManualText(manual, text)) && store.resources == rows
            else if Ranges(pool, manual).None? then outcome == Unusable && store.resources == rows
            else Tried(store.rules, rows, store.resources, Keep(pool, Addresses(Ranges(pool, manual).value, 0)),
                       subnetId,
                       portId, allocationId, manual, text, UsedAddresses(rows, subnetId, portId), outcome)
  {
    var key := Key(KindIPAllocation, allocationId);
    if key in store.resources {
      return Checked(store.resources[key], subnetId, portId, ManualText(manual, text));
    }
    var used := UsedAddresses(store.resources, subnetId, portId);
    var ranges := Ranges(pool, manual);
    if ranges.None? {
      return Unusable;
    }
    RangesAreOrdered(pool, manual);
    outcome := TryCandidates(store, pool, ranges.value, subnetId, portId, allocationId, manual, text, now, used);
  }

  lemma RangesAreOrdered(pool: Pool, manual: Option<Address>)
    requires PoolOk(pool) && Ranges(pool, manual).Some?
    ensures Ordered(Ranges(pool, manual).value)
  {
    BoundsAreTheBlock(pool.prefix);
  }
}
