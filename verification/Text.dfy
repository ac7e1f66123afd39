/** Decimal numbers and the target names of lifecycle operations.

    A running lifecycle operation of VM n targets `compute-vm:n`; a finished one targets
    `compute-vm:n:history:ID`, so that it no longer occupies the VM's slot. */
module Text {

  function Digit(n: nat): char
    requires n < 10
  {
    ['0', '1', '2', '3', '4', '5', '6', '7', '8', '9'][n]
  }

  function Decimal(n: nat): string {
    if n < 10 then [Digit(n)] else Decimal(n / 10) + [Digit(n % 10)]
  }

  /** What a lifecycle writes for a VM number. */
  function Number(vmid: int): string {
    if vmid < 0 then "-" + Decimal(-vmid) else Decimal(vmid)
  }

  const SLOT := "compute-vm:"
  const HISTORY := ":history:"

  function Slot(vmid: int): string {
    SLOT + Number(vmid)
  }

  predicate MarkerAt(target: string, i: nat) {
    i + |HISTORY| <= |target| && target[i..i + |HISTORY|] == HISTORY
  }

  /** Where the first history marker is; the length of the target if it has none. */
  function FirstMarker(target: string, from: nat): (i: nat)
    requires from <= |target|
    ensures from <= i <= |target| && (i < |target| ==> MarkerAt(target, i))
    ensures forall k :: from <= k < i ==> !MarkerAt(target, k)
    decreases |target| - from
  {
    if from == |target| || MarkerAt(target, from) then from else FirstMarker(target, from + 1)
  }

  /** computeHistoryOperationTarget: an earlier history suffix is cut off first. */
  function HistoryTarget(active: string, id: string): string {
    active[..FirstMarker(active, 0)] + HISTORY + id
  }

  // ---------------------------------------------------------------- numbers

  predicate IsDigit(c: char) {
    '0' <= c <= '9'
  }

  lemma {:induction false} DecimalDigits(n: nat)
    ensures Decimal(n) != "" && forall i :: 0 <= i < |Decimal(n)| ==> IsDigit(Decimal(n)[i])
  {
    if n >= 10 {
      DecimalDigits(n / 10);
    }
  }

  lemma {:induction false} DecimalInjective(a: nat, b: nat)
    requires Decimal(a) == Decimal(b)
    ensures a == b
  {
    DecimalLast(a);
    DecimalLast(b);
    if a >= 10 && b >= 10 {
      assert Decimal(a)[..|Decimal(a)| - 1] == Decimal(a / 10);
      assert Decimal(b)[..|Decimal(b)| - 1] == Decimal(b / 10);
      DecimalInjective(a / 10, b / 10);
    } else if a >= 10 {
      DecimalDigits(a / 10);
    } else if b >= 10 {
      DecimalDigits(b / 10);
    }
  }

  lemma DecimalLast(n: nat)
    ensures Decimal(n) != "" && Decimal(n)[|Decimal(n)| - 1] == Digit(n % 10)
  {
  }

  lemma NumberInjective(a: int, b: int)
    requires Number(a) == Number(b)
    ensures a == b
  {
    if a >= 0 {
      DecimalDigits(a);
    }
    if b >= 0 {
      DecimalDigits(b);
    }
    assert (a < 0 <==> Number(a)[0] == '-') && (b < 0 <==> Number(b)[0] == '-');
    if a < 0 {
      assert Number(a)[1..] == Decimal(-a) && Number(b)[1..] == Decimal(-b);
      DecimalInjective(-a, -b);
    } else {
      DecimalInjective(a, b);
    }
  }

  lemma NumberHasNoColon(vmid: int)
    ensures Number(vmid) != "" && forall i :: 0 <= i < |Number(vmid)| ==> Number(vmid)[i] != ':'
  {
    if vmid < 0 {
      DecimalDigits(-vmid);
    } else {
      DecimalDigits(vmid);
    }
  }

  // ---------------------------------------------------------------- slots and history targets

  /** Different VMs have different slots. */
  lemma SlotInjective(a: int, b: int)
    requires Slot(a) == Slot(b)
    ensures a == b
  {
    assert Slot(a)[|SLOT|..] == Number(a) && Slot(b)[|SLOT|..] == Number(b);
    NumberInjective(a, b);
  }

  lemma MarkerStart(target: string, k: nat)
    requires MarkerAt(target, k)
    ensures k + 1 < |target| && target[k] == ':' && target[k + 1] == 'h'
  {
    var marker := target[k..k + |HISTORY|];
    assert marker[0] == ':' && marker[1] == 'h';
  }

  /** Whatever follows a slot, no history marker starts inside it. */
  lemma SlotHidesNoMarker(vmid: int, rest: string, k: nat)
    requires k < |Slot(vmid)|
    ensures !MarkerAt(Slot(vmid) + rest, k)
  {
    var target := Slot(vmid) + rest;
    NumberHasNoColon(vmid);
    assert target[|SLOT|] == Number(vmid)[0];
    assert target[k] == if k < |SLOT| then SLOT[k] else Number(vmid)[k - |SLOT|];
    assert Number(vmid)[0] != 'h' by {
      if vmid >= 0 {
        DecimalDigits(vmid);
      }
    }
    if MarkerAt(target, k) {
      MarkerStart(target, k);
    }
  }

  lemma SlotMarker(vmid: int)
    ensures FirstMarker(Slot(vmid), 0) == |Slot(vmid)|
  {
    assert Slot(vmid) + "" == Slot(vmid);
    forall k: nat | k < |Slot(vmid)| ensures !MarkerAt(Slot(vmid), k) {
      SlotHidesNoMarker(vmid, "", k);
    }
  }

  /** The first marker of a history target is right after its slot. */
  lemma HistoryMarker(vmid: int, id: string)
    ensures FirstMarker(Slot(vmid) + HISTORY + id, 0) == |Slot(vmid)|
  {
    var target := Slot(vmid) + HISTORY + id;
    assert target == Slot(vmid) + (HISTORY + id);
    forall k: nat | k < |Slot(vmid)| ensures !MarkerAt(target, k) {
      SlotHidesNoMarker(vmid, HISTORY + id, k);
    }
    assert MarkerAt(target, |Slot(vmid)|);
  }

  /** Finishing an operation, from its slot or from an earlier history target, gives it its own history target. */
  lemma HistoryOfSlot(vmid: int, id: string, other: string)
    ensures HistoryTarget(Slot(vmid), id) == Slot(vmid) + HISTORY + id
    ensures HistoryTarget(Slot(vmid) + HISTORY + other, id) == Slot(vmid) + HISTORY + id
  {
    SlotMarker(vmid);
    HistoryMarker(vmid, other);
    var slot := Slot(vmid);
    assert slot[..|slot|] == slot;
    assert (slot + HISTORY + other)[..|slot|] == slot;
  }

  /** A history target occupies no VM's slot. */
  lemma HistoryIsNoSlot(vmid: int, id: string, other: int)
    ensures Slot(vmid) + HISTORY + id != Slot(other)
  {
    var target := Slot(vmid) + HISTORY + id;
    assert target == Slot(vmid) + (HISTORY + id);
    assert MarkerAt(target, |Slot(vmid)|);
    assert Slot(other) + "" == Slot(other);
    if target == Slot(other) {
      SlotHidesNoMarker(other, "", |Slot(vmid)|);
    }
  }

  /** Different operations, or operations of different VMs, have different history targets. */
  lemma HistoryInjective(a: int, x: string, b: int, y: string)
    requires Slot(a) + HISTORY + x == Slot(b) + HISTORY + y
    ensures a == b && x == y
  {
    var target := Slot(a) + HISTORY + x;
    HistoryMarker(a, x);
    HistoryMarker(b, y);
    assert target[..|Slot(a)|] == Slot(a);
    SlotInjective(a, b);
    assert target[|Slot(a)| + |HISTORY|..] == x;
  }

  // ---------------------------------------------------------------- order of names

  predicate NameLess(a: string, b: string)
    decreases |a|
  {
    if b == "" then false
    else if a == "" then true
    else a[0] < b[0] || (a[0] == b[0] && NameLess(a[1..], b[1..]))
  }

  lemma {:induction false} NamesAreTotal(a: string, b: string)
    ensures NameLess(a, b) || NameLess(b, a) || a == b
    ensures !(NameLess(a, b) && NameLess(b, a)) && !NameLess(a, a)
    decreases |a|
  {
    if a != "" {
      NamesAreTotal(a[1..], a[1..]);
      if b != "" && a[0] == b[0] {
        NamesAreTotal(a[1..], b[1..]);
        assert a == [a[0]] + a[1..] && b == [b[0]] + b[1..];
      }
    }
  }

  lemma {:induction false} NamesAreTransitive(a: string, b: string, c: string)
    requires NameLess(a, b) && NameLess(b, c)
    ensures NameLess(a, c)
    decreases |a|
  {
    if a != "" && a[0] == b[0] == c[0] {
      NamesAreTransitive(a[1..], b[1..], c[1..]);
    }
  }

  /** The strings agree up to `i`, where the first one ends or has the smaller character. */
  predicate DifferAt(a: string, b: string, i: nat) {
    i <= |a| && i < |b| && a[..i] == b[..i] && (i == |a| || a[i] < b[i])
  }

  /** The order is the lexicographic one. */
  lemma {:induction false} NamesAreLexicographic(a: string, b: string)
    ensures NameLess(a, b) <==> exists i: nat :: DifferAt(a, b, i)
    decreases |a|
  {
    if a == "" || b == "" {
      assert b != "" ==> DifferAt(a, b, 0);
    } else {
      NamesAreLexicographic(a[1..], b[1..]);
      if i: nat :| DifferAt(a[1..], b[1..], i) && a[0] == b[0] {
        assert a[..i + 1] == [a[0]] + a[1..][..i] && b[..i + 1] == [b[0]] + b[1..][..i];
        assert DifferAt(a, b, i + 1);
      }
      assert a[0] < b[0] ==> DifferAt(a, b, 0);
      if i: nat :| DifferAt(a, b, i) && i > 0 {
        assert a[0] == a[..i][0] == b[..i][0] == b[0];
        assert a[1..][..i - 1] == a[..i][1..] && b[1..][..i - 1] == b[..i][1..];
        assert DifferAt(a[1..], b[1..], i - 1);
      }
    }
  }
}
