/** Slots of VMs in the store: which operation rows occupy one, and what store calls do to them. */
module Slots {
  import opened Ports
  import opened Payloads
  import opened Model
  import opened Graph
  import Store
  import Text

  predicate ComputeAction(action: string) {
    || action == MIGRATION || action == HA || action == SNAPSHOT || action == "compute-clone"
      || action == "compute-template"
    || action == "compute-snapshot-mutation" || action == "compute-destroy"
  }

  /** The seven kinds of lifecycle operation that take the slot of a VM. */
  lemma ComputeActionIff(action: string)
    ensures ComputeAction(action) <==>
              action in {"compute-migration", "compute-ha-rebind", "compute-clone", "compute-template",
                         "compute-snapshot",
                         "compute-snapshot-mutation", "compute-destroy"}
  {
  }

  function VmOf(p: Payload): Option<int> {
    match p
    case NoPayload => None
    case Migration(m) => Some(m.plan.vmid)
    case HaRebind(h) => Some(h.vmid)
    case Lifecycle(vmid, _, _) => Some(vmid)
  }

  predicate HoldsSlot(op: Operation, vmid: int) {
    op.targetKind == KindNode && op.targetId == Text.Slot(vmid) && op.targetRevision == 1
  }

  predicate InProgress(op: Operation) {
    ComputeAction(op.action) && op.status == Running
  }

  /** An active lifecycle operation names a VM and holds its slot. */
  predicate SlotOk(op: Operation) {
    InProgress(op) ==> VmOf(op.payload).Some? && HoldsSlot(op, VmOf(op.payload).value)
  }

  predicate RowOk(b: Body) {
    b.OperationBody? ==> SlotOk(b.op) && (ComputeAction(b.op.action) ==> b.op.targetKind == KindNode)
  }

  ghost predicate SlotsOk(rows: Rows) {
    forall k :: k in rows ==> RowOk(rows[k].body)
  }

  // ---------------------------------------------------------------- store calls

  /** The body a call submits, if it submits one. */
  function Submitted(c: Store.Call): Option<Body> {
    match c
    case DoCreate(sub, _, _, _) => Some(sub.body)
    case DoUpdate(sub, _, _, _) => Some(sub.body)
    case _ => None
  }

  /** Leases, recoveries and reconciliations change no operation but reconciles and deletes. */
  lemma OtherCallEffect(r: Rules, s: Store.State, c: Store.Call, k: Key)
    requires Submitted(c).None? && k in Store.Apply(r, s, c).rows && Store.Apply(r, s, c).rows[k].body.OperationBody?
    ensures k in s.rows && s.rows[k].body.OperationBody?
    ensures Store.Apply(r, s, c).rows[k].body == s.rows[k].body
      || LeaseProtected(Store.Apply(r, s, c).rows[k].body.op.action)
  {
  }

  lemma OtherCallsKeepSlots(r: Rules, s: Store.State, c: Store.Call, k: Key)
    requires SlotsOk(s.rows) && Submitted(c).None? && k in Store.Apply(r, s, c).rows
    ensures RowOk(Store.Apply(r, s, c).rows[k].body)
  {
    if Store.Apply(r, s, c).rows[k].body.OperationBody? {
      OtherCallEffect(r, s, c, k);
    }
  }

  /** What a create or an update leaves of a row: the row itself, or the submitted body with its defaults. */
  lemma SubmissionEffect(r: Rules, s: Store.State, c: Store.Call, k: Key)
    requires Submitted(c).Some? && k in Store.Apply(r, s, c).rows
    ensures var after := Store.Apply(r, s, c).rows[k].body;
            || (k in s.rows && after == s.rows[k].body)
            || (c.DoCreate? && after == Store.CreateBody(c.sub, c.token, k.id))
            || (c.DoUpdate? && after == WithDefaults(k.id, c.sub.body))
  {
  }

  lemma DefaultsKeepRowOk(sub: Store.Submission, token: string, id: string)
    requires RowOk(sub.body)
    ensures RowOk(Store.CreateBody(sub, token, id)) && RowOk(WithDefaults(id, sub.body))
  {
  }

  lemma SubmissionKeepsSlots(r: Rules, s: Store.State, c: Store.Call, k: Key)
    requires SlotsOk(s.rows) && Submitted(c).Some? && RowOk(Submitted(c).value) && k in Store.Apply(r, s, c).rows
    ensures RowOk(Store.Apply(r, s, c).rows[k].body)
  {
    SubmissionEffect(r, s, c, k);
    DefaultsKeepRowOk(c.sub, c.token, k.id);
  }

  lemma CallKeepsSlots(r: Rules, s: Store.State, c: Store.Call)
    requires SlotsOk(s.rows) && (Submitted(c).Some? ==> RowOk(Submitted(c).value))
    ensures SlotsOk(Store.Apply(r, s, c).rows)
  {
    forall k | k in Store.Apply(r, s, c).rows ensures RowOk(Store.Apply(r, s, c).rows[k].body) {
      if Submitted(c).Some? {
        SubmissionKeepsSlots(r, s, c, k);
      } else {
        OtherCallsKeepSlots(r, s, c, k);
      }
    }
  }

  // ---------------------------------------------------------------- exclusion

  predicate ActiveFor(rows: Rows, id: string, vmid: int) {
    Store.IsOperation(rows, id) && InProgress(rows[Store.OperationKey(id)].body.op)
    && VmOf(rows[Store.OperationKey(id)].body.op.payload) == Some(vmid)
  }

  lemma SlotIsExclusive(r: Rules, rows: Rows, vmid: int, a: string, b: string)
    requires AllUnique(r, rows) && SlotsOk(rows) && ActiveFor(rows, a, vmid) && ActiveFor(rows, b, vmid)
    ensures a == b
  {
    var x, y := Store.OperationKey(a), Store.OperationKey(b);
    assert RowOk(rows[x].body) && RowOk(rows[y].body);
    assert Conflicts(r, rows[x].body, rows[y].body);
    assert UniqueAt(r, rows, x, rows[x].body);
  }

  /** While an operation holds the slot, no other operation can be created in it or take it back. */
  lemma OccupiedSlotIsRefused(r: Rules, s: Store.State, c: Store.Call, holder: string, vmid: int)
    requires Store.IsOperation(s.rows, holder) && HoldsSlot(s.rows[Store.OperationKey(holder)].body.op, vmid)
    requires c.DoCreate? || c.DoUpdate?
    requires c.sub.body.OperationBody? && HoldsSlot(c.sub.body.op, vmid) && c.sub.id != holder && c.sub.id != ""
    ensures Store.Apply(r, s, c) == s
  {
    if c.DoCreate? {
      OccupiedSlotRefusesCreate(r, s, c.sub, c.token, c.freshId, c.now, holder, vmid);
    } else {
      OccupiedSlotRefusesUpdate(r, s, c.sub, c.expected, c.token, c.now, holder, vmid);
    }
  }

  lemma OccupiedSlotRefusesCreate(r: Rules, s: Store.State, sub: Store.Submission, token: string, freshId: Store.Name,
                                  now: int,
                                  holder: string, vmid: int)
    requires Store.IsOperation(s.rows, holder) && HoldsSlot(s.rows[Store.OperationKey(holder)].body.op, vmid)
    requires sub.body.OperationBody? && HoldsSlot(sub.body.op, vmid) && sub.id != holder && sub.id != ""
    ensures Store.Create(r, s, sub, token, freshId, now).0 == s
  {
    SlotConflicts(r, s.rows, holder, vmid, sub.id, Store.CreateBody(sub, token, sub.id));
  }

  lemma OccupiedSlotRefusesUpdate(r: Rules, s: Store.State, sub: Store.Submission, expected: int, token: string,
                                  now: int,
                                  holder: string, vmid: int)
    requires Store.IsOperation(s.rows, holder) && HoldsSlot(s.rows[Store.OperationKey(holder)].body.op, vmid)
    requires sub.body.OperationBody? && HoldsSlot(sub.body.op, vmid) && sub.id != holder && sub.id != ""
    ensures Store.Update(r, s, sub, expected, token, now).0 == s
  {
    SlotConflicts(r, s.rows, holder, vmid, sub.id, WithDefaults(sub.id, sub.body));
  }

  lemma SlotConflicts(r: Rules, rows: Rows, holder: string, vmid: int, id: string, b: Body)
    requires Store.IsOperation(rows, holder) && HoldsSlot(rows[Store.OperationKey(holder)].body.op, vmid)
    requires b.OperationBody? && HoldsSlot(b.op, vmid) && id != holder
    ensures !UniqueAt(r, rows, Store.OperationKey(id), b)
  {
    assert Conflicts(r, b, rows[Store.OperationKey(holder)].body);
  }

  /** Once an operation has left its slot, no row holds it, so the VM is free for its next operation. */
  lemma FinishedSlotIsFree(r: Rules, rows: Rows, id: string, next: Row, vmid: int, k: Key)
    requires AllUnique(r, rows) && Typed(rows) && Store.IsOperation(rows, id)
      && HoldsSlot(rows[Store.OperationKey(id)].body.op, vmid)
    requires next.body.OperationBody? && !HoldsSlot(next.body.op, vmid)
    requires k in rows[Store.OperationKey(id) := next] && rows[Store.OperationKey(id) := next][k].body.OperationBody?
    ensures !HoldsSlot(rows[Store.OperationKey(id) := next][k].body.op, vmid)
  {
    var key := Store.OperationKey(id);
    if k != key {
      assert UniqueAt(r, rows, key, rows[key].body);
      assert KindOf(rows[k].body) == k.kind;
    }
  }
}
