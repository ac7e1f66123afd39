/** One lifecycle operation per VM.

    A running lifecycle operation targets the slot of its VM at revision 1.  Operation targets are
    unique in the store, so the slot is a lock that survives its managers. */
module VmSlot {
  import opened Ports
  import opened Payloads
  import opened Model
  import opened Slots
  import Store
  import StoreInvariants
  import Graph
  import opened Lifecycle
  import Text

  // ---------------------------------------------------------------- changes of an operation

  datatype Change =
    | Transaction(edit: Edit)
    | Progress(payload: Payload, failure: string)                                   // claim a phase, note an error
    // parked: recovery-required keeps its target
    | Close(payload: Payload, status: OperationStatus, failure: string, parked: bool)
    | Reopen(payload: Payload)                                                       // claimSnapshotOperation
    // deleteSnapshotManifestExact, consumeTemplateBlueprint: a finished operation moves on
    | Amend(payload: Payload)
    | Retire(payload: Payload)     // deleteSnapshotOperation: the manifest is deleted where it is

  function Changed(id: string, op: Operation, archive: map<string, Operation>, change: Change,
                   now: int): Option<Operation> {
    match change
    case Transaction(edit) => Edited(id, op, archive, edit, now)
    case Progress(p, failure) =>
      if InProgress(op) && VmOf(p) == VmOf(op.payload) then Some(op.(payload := p, error := failure)) else None
    case Close(p, status, failure, parked) =>
      if InProgress(op) && VmOf(p) == VmOf(op.payload) && (status == Succeeded || status == Failed)
      then Some(op.(payload := p, status := status, error := failure, completedAt := Some(now),
                    targetId := if parked then op.targetId else Text.HistoryTarget(op.targetId, id),
                    targetRevision := if parked then op.targetRevision else 1))
      else None
    case Reopen(p) =>
      if op.action == SNAPSHOT && op.status in {Running, Succeeded, Failed} && op.targetKind == KindNode
         && VmOf(op.payload).Some? && VmOf(p) == VmOf(op.payload)
      then Some(op.(payload := p, status := Running, targetId := Text.Slot(VmOf(p).value), targetRevision := 1,
                    error := "", completedAt := None))
      else None
    case Amend(p) =>
      if ComputeAction(op.action) && op.status == Succeeded && VmOf(p) == VmOf(op.payload)
      then Some(op.(payload := p, completedAt := if op.action == SNAPSHOT then Some(now) else op.completedAt)) else None
    case Retire(p) =>
      if op.action == SNAPSHOT && (op.status == Succeeded || op.status == Running) && VmOf(p) == VmOf(op.payload)
      then Some(op.(payload := p, status := Succeeded, error := "", completedAt := Some(now))) else None
  }

  /** Changes that end an operation where it is: recovery-required, and retiring a snapshot manifest. */
  predicate KeepsTarget(change: Change) {
    (change.Close? && change.parked) || change.Retire?
  }

  lemma EditKeepsSlot(id: string, op: Operation, archive: map<string, Operation>, edit: Edit, now: int)
    requires SlotOk(op) && op.targetKind == KindNode && Edited(id, op, archive, edit, now).Some?
    ensures SlotOk(Edited(id, op, archive, edit, now).value)
    ensures Edited(id, op, archive, edit, now).value.targetKind == KindNode
  {
  }

  lemma ChangeKeepsSlot(id: string, op: Operation, archive: map<string, Operation>, change: Change, now: int)
    requires SlotOk(op) && op.targetKind == KindNode && Changed(id, op, archive, change, now).Some?
    ensures SlotOk(Changed(id, op, archive, change, now).value)
    ensures Changed(id, op, archive, change, now).value.targetKind == KindNode
  {
    if change.Transaction? {
      EditKeepsSlot(id, op, archive, change.edit, now);
    }
  }

  // ---------------------------------------------------------------- managers on the store

  datatype Held = Held(id: string, row: Row)
  datatype World = World(store: Store.State, held: set<Held>)

  datatype Step =
    | Call(call: Store.Call)                                                         // anyone else
    | Hold(target: string)                                                             // a manager reads an operation
    | Open(id: Store.Name, action: string, payload: Payload, now: int)               // createComputeOperation
    | File(id: Store.Name, op: Operation, now: int)                                  // a finished audit row
    | Write(held: Held, change: Change, token: string, now: int)

  /** The call does not write a lifecycle operation. */
  predicate Foreign(c: Store.Call) {
    match c
    case DoCreate(sub, _, _, _) => !(sub.body.OperationBody? && ComputeAction(sub.body.op.action))
    case DoUpdate(sub, _, _, _) => !(sub.body.OperationBody? && ComputeAction(sub.body.op.action))
    case _ => true
  }

  function NewOperation(id: string, action: string, payload: Payload, vmid: int, now: int): Operation {
    Operation(action, KindNode, Text.Slot(vmid), 1, Running, action + ":" + id, "", "compute-lifecycle", Some(now),
              None, payload)
  }

  function Submit(id: string, op: Operation, meta: Meta): Store.Submission {
    Store.Submission(id, meta, OperationBody(op))
  }

  const NoMeta := Meta(0, 0, Pending, "", 0, 0)

  function Operations(rows: Rows): map<string, Operation> {
    map k | k in rows && k.kind == KindOperation && rows[k].body.OperationBody? :: k.id := rows[k].body.op
  }

  /** The store call a step makes, if any. */
  function CallOf(w: World, step: Step): Option<Store.Call> {
    match step
    case Call(c) => if Foreign(c) then Some(c) else None
    case Hold(_) => None
    case Open(id, action, payload, now) =>
      if ComputeAction(action) && VmOf(payload).Some?
      then var op := NewOperation(id, action, payload, VmOf(payload).value, now);
           Some(Store.DoCreate(Submit(id, op, NoMeta), op.idempotencyKey, id, now))
      else None
    case File(id, op, now) =>
      if op.status != Running && op.targetKind == KindNode
      then Some(Store.DoCreate(Submit(id, op, NoMeta), op.idempotencyKey, id, now)) else None
    case Write(h, change, token, now) =>
      if h in w.held && h.row.body.OperationBody?
        && Changed(h.id, h.row.body.op, Operations(w.store.rows), change, now).Some?
      then Some(Store.DoUpdate(Submit(h.id, Changed(h.id, h.row.body.op, Operations(w.store.rows), change, now).value,
                                      h.row.meta),
                               h.row.meta.revision, token, now))
      else None
  }

  function Do(r: Rules, w: World, step: Step): World {
    match step
    case Hold(id) =>
      if Store.IsOperation(w.store.rows, id) && ComputeAction(w.store.rows[Store.OperationKey(id)].body.op.action)
      then w.(held := w.held + {Held(id, w.store.rows[Store.OperationKey(id)])}) else w
    case _ => if CallOf(w, step).Some? then w.(store := Store.Apply(r, w.store, CallOf(w, step).value)) else w
  }

  function Run(r: Rules, w: World, steps: seq<Step>): World
    decreases |steps|
  {
    if steps == [] then w else Run(r, Do(r, w, steps[0]), steps[1..])
  }

  // ---------------------------------------------------------------- the invariant

  ghost predicate Inv(r: Rules, w: World) {
    && StoreInvariants.Invariant(r, w.store.rows) && SlotsOk(w.store.rows)
    && forall h :: h in w.held ==> RowOk(h.row.body) && h.row.body.OperationBody? && ComputeAction(h.row.body.op.action)
  }

  lemma StepsSubmitWell(w: World, step: Step)
    requires forall h :: h in w.held ==>
        RowOk(h.row.body) && h.row.body.OperationBody? && ComputeAction(h.row.body.op.action)
    requires CallOf(w, step).Some? && Submitted(CallOf(w, step).value).Some?
    ensures RowOk(Submitted(CallOf(w, step).value).value)
  {
    if step.Write? {
      ChangeKeepsSlot(step.held.id, step.held.row.body.op, Operations(w.store.rows), step.change, step.now);
    }
  }

  lemma CallKeepsInv(r: Rules, w: World, c: Store.Call)
    requires Inv(r, w) && (Submitted(c).Some? ==> RowOk(Submitted(c).value))
    ensures Inv(r, w.(store := Store.Apply(r, w.store, c)))
  {
    CallKeepsSlots(r, w.store, c);
    StoreInvariants.CallKeepsInvariant(r, w.store, c);
  }

  lemma StepKeepsInv(r: Rules, w: World, step: Step)
    requires Inv(r, w)
    ensures Inv(r, Do(r, w, step))
  {
    if !step.Hold? && CallOf(w, step).Some? {
      if Submitted(CallOf(w, step).value).Some? {
        StepsSubmitWell(w, step);
      }
      CallKeepsInv(r, w, CallOf(w, step).value);
    }
  }

  lemma {:induction false} RunKeepsInv(r: Rules, w: World, steps: seq<Step>)
    requires Inv(r, w)
    ensures Inv(r, Run(r, w, steps))
    decreases |steps|
  {
    if steps != [] {
      StepKeepsInv(r, w, steps[0]);
      RunKeepsInv(r, Do(r, w, steps[0]), steps[1..]);
    }
  }

  // ---------------------------------------------------------------- main results

  /** Main result: in every state that any interleaving of managers and other store clients can
      reach, each VM has at most one running lifecycle operation. */
  lemma OneOperationPerVm(r: Rules, steps: seq<Step>, vmid: int, a: string, b: string)
    requires ActiveFor(Run(r, World(Store.Empty, {}), steps).store.rows, a, vmid)
    requires ActiveFor(Run(r, World(Store.Empty, {}), steps).store.rows, b, vmid)
    ensures a == b
  {
    RunKeepsInv(r, World(Store.Empty, {}), steps);
    SlotIsExclusive(r, Run(r, World(Store.Empty, {}), steps).store.rows, vmid, a, b);
  }

  /** Finishing an operation moves it to a target that is nobody's slot, unless the change is one of the two
      that keep the target; then, and only then, the finished operation still holds its slot. */
  lemma FinishingLeavesTheSlotIff(id: string, op: Operation, archive: map<string, Operation>, change: Change,
                                  now: int, vmid: int)
    requires SlotOk(op) && InProgress(op) && Changed(id, op, archive, change, now).Some?
    requires !InProgress(Changed(id, op, archive, change, now).value)
    ensures var next := Changed(id, op, archive, change, now).value;
            && (HoldsSlot(next, VmOf(op.payload).value) <==> KeepsTarget(change))
            && (!KeepsTarget(change) ==>
                  next.targetId == Text.Slot(VmOf(op.payload).value) + Text.HISTORY + id && !HoldsSlot(next, vmid))
  {
    var vm := VmOf(op.payload).value;
    Text.HistoryOfSlot(vm, id, "");
    Text.HistoryIsNoSlot(vm, id, vmid);
    Text.HistoryIsNoSlot(vm, id, vm);
    if change.Transaction? {
      FinishingEditLeavesTheSlot(id, op, archive, change.edit, now);
    }
  }

  lemma FinishingEditLeavesTheSlot(id: string, op: Operation, archive: map<string, Operation>, edit: Edit, now: int)
    requires SlotOk(op) && InProgress(op) && Edited(id, op, archive, edit, now).Some?
    ensures var next := Edited(id, op, archive, edit, now).value;
            !InProgress(next) ==> next.targetId == Text.HistoryTarget(Text.Slot(VmOf(op.payload).value), id)
  {
  }

  // ---------------------------------------------------------------- taking a slot

  /** No stored operation holds the slot of the VM. */
  ghost predicate SlotFree(rows: Rows, vmid: int) {
    forall k :: k in rows && k.kind == KindOperation && rows[k].body.OperationBody? ==>
        !HoldsSlot(rows[k].body.op, vmid)
  }

  /** The ID and the idempotency key of a new operation are unused. */
  ghost predicate NewToStore(s: Store.State, id: Store.Name, key: string) {
    && Store.OperationKey(id) !in s.rows && Store.Scope(Store.Creating, Key(KindOperation, ""), key) !in s.replays
    && forall k :: k in s.rows && k.kind == KindOperation && s.rows[k].body.OperationBody? ==>
         s.rows[k].body.op.idempotencyKey != key
  }

  /** A new operation collides with the stored ones exactly where one of them holds the slot. */
  lemma UniqueIffFree(r: Rules, rows: Rows, id: Store.Name, op: Operation, vmid: int)
    requires Graph.Typed(rows) && HoldsSlot(op, vmid) && Store.OperationKey(id) !in rows
    requires forall k :: k in rows && k.kind == KindOperation && rows[k].body.OperationBody? ==>
               rows[k].body.op.idempotencyKey != op.idempotencyKey
    ensures Graph.UniqueAt(r, rows, Store.OperationKey(id), OperationBody(op)) <==> SlotFree(rows, vmid)
  {
    if !SlotFree(rows, vmid) {
      var k :| k in rows && k.kind == KindOperation && rows[k].body.OperationBody? && HoldsSlot(rows[k].body.op, vmid);
      assert Graph.Conflicts(r, OperationBody(op), rows[k].body);
    }
  }

  /** Main result on acquiring: under a new ID and key, an operation on a VM begins exactly when no stored operation
      holds the slot of the VM; it then runs, and otherwise nothing changes. */
  lemma OpenTakesFreeSlot(r: Rules, w: World, id: Store.Name, action: string, payload: Payload, now: int)
    requires Inv(r, w) && ComputeAction(action) && VmOf(payload).Some?
    requires NewToStore(w.store, id, action + ":" + id)
    requires Validates(r, OperationBody(NewOperation(id, action, payload, VmOf(payload).value, now)))
    ensures var after, vmid := Do(r, w, Open(id, action, payload, now)).store, VmOf(payload).value;
            if SlotFree(w.store.rows, vmid)
            then ActiveFor(after.rows, id, vmid)
                 && after.rows[Store.OperationKey(id)].body.op == NewOperation(id, action, payload, vmid, now)
            else after == w.store
  {
    var vmid := VmOf(payload).value;
    var op := NewOperation(id, action, payload, vmid, now);
    UniqueIffFree(r, w.store.rows, id, op, vmid);
    OpenCreates(r, w.store, id, op, now);
  }

  lemma OpenCreates(r: Rules, s: Store.State, id: Store.Name, op: Operation, now: int)
    requires NewToStore(s, id, op.idempotencyKey) && op.status == Running && ComputeAction(op.action)
    requires op.idempotencyKey != "" && Validates(r, OperationBody(op))
    ensures var (after, result) := Store.Create(r, s, Submit(id, op, NoMeta), op.idempotencyKey, id, now);
            if Graph.UniqueAt(r, s.rows, Store.OperationKey(id), OperationBody(op))
            then after.rows == s.rows[Store.OperationKey(id) :=
                                      Row(Meta(1, 0, Pending, "", now, now), OperationBody(op))]
            else after == s
  {
  }
}
