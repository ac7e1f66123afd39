/** Attach, detach and report: the port state machine and its handlers. */
module PortLifecycle {
  import opened Ports
  import opened Model
  import opened Store
  import opened Replays
  import opened MemoryStore
  import opened SourcePorts
  import Payloads

  const MAX_INT64 := 0x7fff_ffff_ffff_ffff

  /** An attach request with its node already resolved. */
  datatype AttachRequest = AttachRequest(expected: int, generation: int, nodeId: string, chassis: string, vmid: int,
                                         nic: string)

  function AttachDesired(req: AttachRequest, p: Port): Port {
    p.(nodeId := req.nodeId, vmid := req.vmid, nic := req.nic, chassis := [req.chassis], status := Binding,
       generation := req.generation + 1)
  }

  predicate SameAttachment(a: Port, b: Port) {
    a.nodeId == b.nodeId && a.vmid == b.vmid && a.nic == b.nic && a.chassis == b.chassis
  }

  predicate AttachValid(req: AttachRequest) {
    1 <= req.generation < MAX_INT64
  }

  /** The first attempt: the port is unbound at the revision and generation the caller saw. */
  predicate AttachFresh(req: AttachRequest, v: Versioned) {
    v.port.adminUp && v.revision == req.expected && v.port.generation == req.generation && v.port.status == Unbound
  }

  /** A retry: the port is already attached as requested, one generation later. */
  predicate AttachReplay(req: AttachRequest, v: Versioned) {
    && v.port.adminUp && v.revision > req.expected && v.port.generation == req.generation + 1
    && SameAttachment(v.port, AttachDesired(req, v.port)) && BindingReady(v.port.status)
  }

  function DetachDesired(p: Port): Port {
    p.(status := Detaching)
  }

  predicate PortAttached(p: Port) {
    p.nodeId != "" || p.vmid != 0 || p.nic != "" || p.chassis != [] || (p.status != Unset && p.status != Unbound)
  }

  predicate DetachFresh(expected: int, generation: int, v: Versioned) {
    && v.revision == expected && v.port.generation == generation
    && v.port.status in {Binding, Bound, BindingError} && PortAttached(v.port)
  }

  predicate DetachReplay(expected: int, generation: int, v: Versioned) {
    v.revision > expected && v.port.generation == generation && v.port.status in {Detaching, Unbound}
  }

  /** What a report makes of a port, if it is accepted and changes anything. */
  function ReportDesired(generation: int, bound: bool, p: Port): Option<Port> {
    if p.generation != generation then None
    else if bound && p.status == Binding then Some(p.(status := Bound))
    else if !bound && p.status == Detaching
      then Some(p.(status := Unbound, nodeId := "", vmid := 0, nic := "", chassis := []))
    else None
  }

  // ---------------------------------------------------------------- what each step leaves

  /** The whole effect of an attach: an enabled, unbound port at the revision and generation the caller saw is bound to
      the requested place, one generation later. */
  predicate AttachLanded(req: AttachRequest, v: Versioned, after: Versioned) {
    && v.port.adminUp && v.port.status == Unbound
    && req.expected == v.revision && req.generation == v.port.generation
    && after == Versioned(v.revision + 1,
                          v.port.(nodeId := req.nodeId, vmid := req.vmid, nic := req.nic, chassis := [req.chassis],
                                  status := Binding, generation := v.port.generation + 1))
  }

  /** The whole effect of a detach: the attached port starts detaching and stays where it is. */
  predicate DetachLanded(expected: int, generation: int, v: Versioned, after: Versioned) {
    && expected == v.revision && generation == v.port.generation
    && (v.port.status == Binding || v.port.status == Bound || v.port.status == BindingError)
    && after == Versioned(v.revision + 1, v.port.(status := Detaching))
  }

  /** The port without its place. */
  function Vacated(p: Port): Port {
    p.(nodeId := "", vmid := 0, nic := "", chassis := [], status := Unbound)
  }

  /** The whole effect of a report: binding becomes bound, or detaching becomes unbound and loses its place. */
  predicate ReportLanded(generation: int, bound: bool, v: Versioned, after: Versioned) {
    && generation == v.port.generation && after.revision == v.revision + 1
    && (bound ==> v.port.status == Binding && after.port == v.port.(status := Bound))
    && (!bound ==> v.port.status == Detaching && after.port == Vacated(v.port))
  }

  /** A vacated port is attached to nothing, so no VM lists it. */
  lemma VacatedIsFree(p: Port)
    ensures !PortAttached(Vacated(p)) && (!PortAttached(p) && p.status == Unbound ==> Vacated(p) == p)
    ensures ConfigOf(Vacated(p)) == ConfigOf(p) && Vacated(p).generation == p.generation
  {
  }

  /** Main result on the cycle: attach, bound, detach and unbound, with or without the bound report, give back the
      port one generation later; it is free again, the next attach finds it so, and the requests of the cycle are
      spent. */
  lemma CycleGivesBackThePort(req: AttachRequest, next: AttachRequest, v: Versioned, binding: Versioned,
                              attached: Versioned, detaching: Versioned, after: Versioned)
    requires AttachValid(req) && AttachLanded(req, v, binding)
    requires attached == binding || ReportLanded(binding.port.generation, true, binding, attached)
    requires DetachLanded(attached.revision, attached.port.generation, attached, detaching)
    requires ReportLanded(detaching.port.generation, false, detaching, after)
    ensures after.port == Vacated(v.port).(generation := v.port.generation + 1) && !PortAttached(after.port)
    ensures !PortAttached(v.port) ==> after.port == v.port.(generation := v.port.generation + 1)
    ensures AttachFresh(next.(expected := after.revision, generation := after.port.generation), after)
    ensures !AttachFresh(req, after) && !AttachReplay(req, after)
    ensures ReportDesired(req.generation, true, after.port).None?
      && ReportDesired(req.generation, false, after.port).None?
  {
  }

  // ---------------------------------------------------------------- retries of one attach

  /** Once attached, the port answers retries as replays, also after its agent reported it bound; and a
      retry submits exactly the request of the first attempt, so its idempotency record matches. */
  lemma RetryIsReplay(req: AttachRequest, v: Versioned, after: Versioned)
    requires AttachValid(req) && AttachFresh(req, v) && after.revision > v.revision
    requires after.port == AttachDesired(req, v.port) || after.port == Reported(AttachDesired(req, v.port))
    ensures AttachReplay(req, after) && !AttachFresh(req, after)
    ensures AttachDesired(req, after.port) == AttachDesired(req, v.port)
  {
  }

  // ---------------------------------------------------------------- the handlers on the store

  /** How an attempt ended.  `Stopped` is a crash of the manager. */
  datatype Ending = Refused | Stopped | Applied | Answered

  predicate IsPortRow(rows: Rows, id: string) {
    PortKey(id) in rows && rows[PortKey(id)].body.PortBody?
  }

  function At(rows: Rows, id: string): Versioned
    requires IsPortRow(rows, id)
  {
    Versioned(rows[PortKey(id)].meta.revision, rows[PortKey(id)].body.port)
  }

  /** What stored ports satisfy: the API defaults have been filled in. */
  predicate Defaulted(p: Port) {
    p.status != Unset && p.generation >= 1 && p.lspName != ""
  }

  lemma CreateFrame(r: Rules, s: State, sub: Submission, token: string, freshId: Name, now: int)
    requires sub.body.OperationBody?
    ensures forall k: Key :: k.kind == KindPort && k in s.rows ==>
              k in Create(r, s, sub, token, freshId, now).0.rows
                && Create(r, s, sub, token, freshId, now).0.rows[k] == s.rows[k]
  {
  }

  /** An update at a revision the row has left behind changes nothing. */
  lemma LateUpdateIsVoid(r: Rules, s: State, sub: Submission, expected: int, token: string, now: int)
    requires Key(KindOf(sub.body), sub.id) in s.rows && s.rows[Key(KindOf(sub.body), sub.id)].meta.revision != expected
    ensures Update(r, s, sub, expected, token, now).0 == s
  {
  }

  /** The port row is as it was, or the fresh port has been attached as requested. */
  ghost predicate AttachedOnce(req: AttachRequest, before: Rows, after: Rows, id: string)
    requires IsPortRow(before, id)
  {
    && IsPortRow(after, id)
    && (|| after[PortKey(id)] == before[PortKey(id)]
        || AttachLanded(req, At(before, id), At(after, id)))
  }

  function ActionOperation(id: string, key: Name, action: string, slot: int): Operation {
    Operation(action, KindPort, id, slot, Queued, key, "", "", None, None, Payloads.NoPayload)
  }

  /** The request that records an action, and the one that carries it out. */
  function ActionSubmission(op: Operation): Submission { Submission("", NoMeta, OperationBody(op)) }
  function PortSubmission(id: string, p: Port): Submission { Submission(id, NoMeta, PortBody(p)) }
  function ActionToken(op: Key): string { "port-action-" + op.id }

  /** The ID was never given to an operation that was updated. */
  ghost predicate Unused(s: State, freshId: Name) {
    forall sc :: sc in s.replays && sc.verb == Updating ==> sc.key != OperationKey(freshId)
  }

  /** The store calls of one action: who asks, what is recorded, and which port is written at which revision. */
  datatype Action = Action(id: string, key: Name, op: Operation, expected: int, desired: Port, now: int)

  function Recording(r: Rules, s: State, a: Action, freshId: Name): (State, Result) {
    Create(r, s, ActionSubmission(a.op), a.key, freshId, a.now)
  }

  function Writing(r: Rules, s: State, a: Action, op: Key): (State, Result) {
    Update(r, s, PortSubmission(a.id, a.desired), a.expected, ActionToken(op), a.now)
  }

  function ActionScope(a: Action): Scope { CreateScope(ActionSubmission(a.op), a.key) }
  function CarryScope(a: Action, op: Key): Scope { UpdateScope(PortSubmission(a.id, a.desired), ActionToken(op)) }

  /** The action is on record under the given operation. */
  ghost predicate OnRecord(s: State, a: Action, op: Key) {
    && ActionScope(a) in s.replays && s.replays[ActionScope(a)].request == CreateRequest(ActionSubmission(a.op))
    && s.replays[ActionScope(a)].key == op && op in s.rows && op.kind == KindOperation && s.rows[op].body.OperationBody?
  }

  /** The action is on record and did not succeed before its port was written, and the store accepts the write, for the
      first time or again. */
  ghost predicate Underway(r: Rules, s: State, a: Action, op: Key) {
    && OnRecord(s, a, op) && ReplaysBehind(s) && IsPortRow(s.rows, a.id)
    && (s.rows[op].body.op.status == Succeeded ==> At(s.rows, a.id).port.generation == a.desired.generation)
    && Writing(r, s, a, op).1.Ok?
  }

  /** The key is new, and the store is ready to record the action and to accept its write. */
  ghost predicate Begins(r: Rules, s: State, a: Action, freshId: Name) {
    && ActionScope(a) !in s.replays && ReplaysBehind(s) && Unused(s, freshId)
    && Recording(r, s, a, freshId).1.Ok?
    && Writing(r, Recording(r, s, a, freshId).0, a, OperationKey(freshId)).1.Ok?
  }

  ghost predicate IsUnderway(r: Rules, s: State, a: Action) {
    exists op :: Underway(r, s, a, op)
  }

  ghost predicate Ready(r: Rules, s: State, a: Action, freshId: Name) {
    Begins(r, s, a, freshId) || IsUnderway(r, s, a)
  }

  /** Recording an action again changes nothing. */
  lemma RecordedOnce(r: Rules, s: State, a: Action, op: Key, freshId: Name)
    requires OnRecord(s, a, op)
    ensures Recording(r, s, a, freshId).0 == s
      && Recording(r, s, a, freshId).1 == Ok(op, s.replays[ActionScope(a)].row, true)
  {
  }

  lemma RecordedNew(r: Rules, s: State, a: Action, freshId: Name)
    requires ActionScope(a) !in s.replays && a.op.status == Queued && Recording(r, s, a, freshId).1.Ok?
    ensures var (after, result) := Recording(r, s, a, freshId);
            && OnRecord(after, a, OperationKey(freshId)) && after.rows[OperationKey(freshId)].body.op.status == Queued
            && result.key == OperationKey(freshId) && !result.replayed
  {
  }

  /** What recording an action leaves, for the first time and again. */
  lemma RecordingFacts(r: Rules, s: State, a: Action, freshId: Name)
    requires a.op.status == Queued
    ensures var (after, result) := Recording(r, s, a, freshId);
            && (forall k: Key :: k.kind == KindPort && k in s.rows ==> k in after.rows && after.rows[k] == s.rows[k])
            && (result.Ok? && !result.replayed ==> result.key.kind == KindOperation && result.key in after.rows)
  {
    CreateFrame(r, s, ActionSubmission(a.op), a.key, freshId, a.now);
  }

  lemma RecordingKeepsReplaysBehind(r: Rules, s: State, a: Action, freshId: Name)
    requires ReplaysBehind(s) && Unused(s, freshId)
    ensures ReplaysBehind(Recording(r, s, a, freshId).0)
  {
    CallKeepsReplaysBehind(r, s, DoCreate(ActionSubmission(a.op), a.key, freshId, a.now));
  }

  lemma RecordingIsUnderway(r: Rules, s: State, a: Action, freshId: Name)
    requires a.op.status == Queued && IsPortRow(s.rows, a.id) && Begins(r, s, a, freshId)
    ensures var (after, result) := Recording(r, s, a, freshId);
            && Underway(r, after, a, OperationKey(freshId))
            && result.Ok? && result.key == OperationKey(freshId) && !result.replayed
  {
    RecordingFacts(r, s, a, freshId);
    RecordingKeepsReplaysBehind(r, s, a, freshId);
    RecordedNew(r, s, a, freshId);
    assert PortKey(a.id).kind == KindPort;
  }

  /** Once written, the write is answered from the replay table. */
  lemma WrittenAgain(r: Rules, s: State, a: Action, op: Key)
    requires OnRecord(s, a, op) && Writing(r, s, a, op).1.Ok?
    ensures var after := Writing(r, s, a, op).0;
            && CarryScope(a, op) in after.replays && Writing(r, after, a, op).1.Ok? && OnRecord(after, a, op)
            && after.rows[op] == s.rows[op]
  {
  }

  /** A recorded write is answered from the replay table, whatever else has happened. */
  lemma AnsweredAgain(r: Rules, s: State, after: State, a: Action, op: Key)
    requires CarryScope(a, op) in s.replays && Writing(r, s, a, op).1.Ok?
    requires CarryScope(a, op) in after.replays && after.replays[CarryScope(a, op)] == s.replays[CarryScope(a, op)]
    ensures Writing(r, after, a, op).1.Ok?
  {
  }

  /** beginPortAction. */
  method BeginAction(store: Memory, a: Action, freshId: Name) returns (recorded: Option<Key>, succeeded: bool)
    requires a.op.status == Queued && IsPortRow(store.resources, a.id)
    modifies store
    ensures forall k: Key :: k.kind == KindPort && k in old(store.resources) ==>
              k in store.resources && store.resources[k] == old(store.resources)[k]
    ensures recorded.Some? ==> recorded.value in store.resources && recorded.value.kind == KindOperation
    ensures succeeded ==> recorded.Some? && store.resources[recorded.value].body.OperationBody?
                          && store.resources[recorded.value].body.op.status == Succeeded
    ensures ReplaysBehind(old(store.Current())) && Unused(old(store.Current()), freshId) ==>
        ReplaysBehind(store.Current())
    ensures Begins(store.rules, old(store.Current()), a, freshId) ==>
        recorded == Some(OperationKey(freshId)) && Underway(store.rules, store.Current(), a, OperationKey(freshId))
    ensures forall op :: OnRecord(old(store.Current()), a, op) ==>
        && recorded == Some(op) && store.Current() == old(store.Current())
        && (succeeded <==> store.resources[op].body.op.status == Succeeded)
  {
    var sub := ActionSubmission(a.op);
    ghost var before := store.Current();
    RecordingFacts(store.rules, before, a, freshId);
    if ReplaysBehind(before) && Unused(before, freshId) {
      RecordingKeepsReplaysBehind(store.rules, before, a, freshId);
    }
    if Begins(store.rules, before, a, freshId) {
      RecordingIsUnderway(store.rules, before, a, freshId);
    }
    forall op | OnRecord(before, a, op)
      ensures Recording(store.rules, before, a, freshId).0 == before
      ensures Recording(store.rules, before, a, freshId).1 == Ok(op, before.replays[ActionScope(a)].row, true)
    {
      RecordedOnce(store.rules, before, a, op, freshId);
    }
    var result := store.Create(sub, a.key, freshId, a.now);
    if result.Err? {
      return None, false;
    }
    var op := OperationKey(result.key.id);
    if result.replayed {
      if op !in store.resources {
        return None, false;
      }
      return Some(op), store.resources[op].body.OperationBody? && store.resources[op].body.op.status == Succeeded;
    }
    return Some(op), false;
  }

  /** Only the row of one operation and its update records may differ. */
  ghost predicate OnlyOperation(before: State, after: State, op: Key) {
    && SameElsewhere(before.rows, after.rows, {op}) && (op in before.rows ==> op in after.rows)
    && (op in before.rows && before.rows[op].body.OperationBody? ==> after.rows[op].body.OperationBody?)
    && forall sc :: sc in before.replays && (sc.verb != Updating || sc.key != op) ==>
         sc in after.replays && after.replays[sc] == before.replays[sc]
  }

  lemma CompletingTouchesOnly(r: Rules, s: State, op: Key, o: Operation, m: Meta, token: string, now: int)
    requires op in s.rows && op.kind == KindOperation
    ensures OnlyOperation(s, Update(r, s, Submission(op.id, m, OperationBody(o)), s.rows[op].meta.revision, token,
                                    now).0, op)
  {
  }

  predicate HasSucceeded(rows: Rows, op: Key) {
    op in rows && rows[op].body.OperationBody? && rows[op].body.op.status == Succeeded
  }

  /** The operation has succeeded, or the store takes it as succeeded. */
  ghost predicate Completes(r: Rules, s: State, op: Key, now: int) {
    || HasSucceeded(s.rows, op)
    || (&& op in s.rows && s.rows[op].body.OperationBody?
        && var done := s.rows[op].body.op.(status := Succeeded, completedAt := Some(now), error := "");
           Update(r, s, Submission(op.id, s.rows[op].meta, OperationBody(done)), s.rows[op].meta.revision,
                  "complete-port-action-" + op.id, now).1.Ok?)
  }

  /** completePortAction: the operation has succeeded, unless the store refuses that. */
  method CompleteAction(store: Memory, op: Key, now: int)
    requires op.kind == KindOperation
    modifies store
    ensures ReplaysBehind(old(store.Current())) && Completes(store.rules, old(store.Current()), op, now) ==>
              HasSucceeded(store.resources, op)
    ensures OnlyOperation(old(store.Current()), store.Current(), op)
    ensures ReplaysBehind(old(store.Current())) ==> ReplaysBehind(store.Current())
  {
    if op in store.resources && store.resources[op].body.OperationBody?
      && store.resources[op].body.op.status != Succeeded {
      var row := store.resources[op];
      var done := row.body.op.(status := Succeeded, completedAt := Some(now), error := "");
      var sub := Submission(op.id, row.meta, OperationBody(done));
      var token := "complete-port-action-" + op.id;
      CompletingTouchesOnly(store.rules, store.Current(), op, done, row.meta, token, now);
      if ReplaysBehind(store.Current()) {
        UpdateIsCompareAndSwap(store.rules, store.Current(), sub, token, now);
      }
      var _ := store.Update(sub, row.meta.revision, token, now);
    }
  }

  /** The update of a port action: at the expected revision it may land, at any later one it is void. */
  method WriteAction(store: Memory, a: Action, op: Key) returns (ok: bool)
    requires IsPortRow(store.resources, a.id) && Defaulted(a.desired)
    modifies store
    ensures IsPortRow(store.resources, a.id)
    ensures ok <==> Writing(store.rules, old(store.Current()), a, op).1.Ok?
    ensures store.Current() == Writing(store.rules, old(store.Current()), a, op).0
    ensures || store.resources[PortKey(a.id)] == old(store.resources)[PortKey(a.id)]
            || (ok && old(At(store.resources, a.id)).revision == a.expected
                && At(store.resources, a.id) == Versioned(a.expected + 1, a.desired))
    ensures ok && ReplaysBehind(old(store.Current())) && old(At(store.resources, a.id)).revision == a.expected ==>
              At(store.resources, a.id) == Versioned(a.expected + 1, a.desired)
    ensures ReplaysBehind(old(store.Current())) ==> ReplaysBehind(store.Current())
  {
    var sub := PortSubmission(a.id, a.desired);
    assert WithDefaults(a.id, PortBody(a.desired)) == PortBody(a.desired);
    if ReplaysBehind(store.Current()) {
      CallKeepsReplaysBehind(store.rules, store.Current(), DoUpdate(sub, a.expected, ActionToken(op), a.now));
    }
    if At(store.resources, a.id).revision != a.expected {
      LateUpdateIsVoid(store.rules, store.Current(), sub, a.expected, ActionToken(op), a.now);
    } else if ReplaysBehind(store.Current()) {
      UpdateIsCompareAndSwap(store.rules, store.Current(), sub, ActionToken(op), a.now);
    }
    var result := store.Update(sub, a.expected, ActionToken(op), a.now);
    return result.Ok?;
  }

  /** The port is the one it was, or the one the action asks for, written at the revision the action expects. */
  ghost predicate WrittenOnce(a: Action, before: Rows, after: Rows) {
    && IsPortRow(before, a.id) && IsPortRow(after, a.id)
    && (|| after[PortKey(a.id)] == before[PortKey(a.id)]
        || (At(before, a.id).revision == a.expected && At(after, a.id) == Versioned(a.expected + 1, a.desired)))
  }

  /** The update and the completion of a recorded action. */
  method FinishAction(store: Memory, a: Action, op: Key, crash: nat) returns (ending: Ending)
    requires IsPortRow(store.resources, a.id) && Defaulted(a.desired) && op.kind == KindOperation
    modifies store
    ensures WrittenOnce(a, old(store.resources), store.resources)
    ensures ending == Refused ==> store.resources[PortKey(a.id)] == old(store.resources)[PortKey(a.id)]
    ensures ending == Applied && old(At(store.resources, a.id)).revision == a.expected
            && ReplaysBehind(old(store.Current())) ==>
              At(store.resources, a.id).port == a.desired
    ensures ending != Answered
    ensures Underway(store.rules, old(store.Current()), a, op)
            && (old(At(store.resources, a.id)).revision == a.expected
                || old(At(store.resources, a.id)).port.generation == a.desired.generation) ==>
              && Underway(store.rules, store.Current(), a, op)
              && (crash != 2 ==> ending == Applied && At(store.resources, a.id).port.generation == a.desired.generation)
  {
    ghost var before := store.Current();
    ghost var promised := Underway(store.rules, before, a, op);
    var ok := WriteAction(store, a, op);
    ghost var written := store.Current();
    if promised {
      WrittenAgain(store.rules, before, a, op);
    }
    if !ok || crash == 2 {
      return if ok then Stopped else Refused;
    }
    CompleteAction(store, op, a.now);
    if promised {
      AnsweredAgain(store.rules, written, store.Current(), a, op);
    }
    return Applied;
  }

  /** What attachPort and detachPort do once the port is checked: they record the operation, write the port and complete
      the operation, up to the store write after which the manager crashes: 1 is the operation, 2 the port.  An action
      that the store is ready for, or that is underway, is carried out by every attempt that does not crash. */
  method CarryOut(store: Memory, a: Action, freshId: Name, crash: nat) returns (ending: Ending)
    requires IsPortRow(store.resources, a.id) && Defaulted(a.desired) && a.op.status == Queued
    modifies store
    ensures WrittenOnce(a, old(store.resources), store.resources)
    ensures ending == Refused || ending == Answered ==>
              store.resources[PortKey(a.id)] == old(store.resources)[PortKey(a.id)]
    ensures ending == Applied && old(At(store.resources, a.id)).revision == a.expected
            && ReplaysBehind(old(store.Current())) && Unused(old(store.Current()), freshId) ==>
              At(store.resources, a.id).port == a.desired
    ensures && (old(At(store.resources, a.id)).revision == a.expected
                || old(At(store.resources, a.id)).port.generation == a.desired.generation)
            && Ready(store.rules, old(store.Current()), a, freshId) ==>
              && IsUnderway(store.rules, store.Current(), a)
              && (crash != 1 && crash != 2 ==>
                    && (ending == Applied || ending == Answered)
                    && At(store.resources, a.id).port.generation == a.desired.generation)
  {
    var op, succeeded := BeginAction(store, a, freshId);
    if op.None? || crash == 1 {
      return if op.None? then Refused else Stopped;
    }
    if succeeded {
      return Answered;
    }
    ending := FinishAction(store, a, op.value, crash);
  }

  /** The action that attaches the given port. */
  function Attaching(id: string, req: AttachRequest, key: Name, action: string, slot: int, p: Port, now: int): Action {
    Action(id, key, ActionOperation(id, key, action, slot), req.expected, AttachDesired(req, p), now)
  }

  /** attachPort, up to the store write after which the manager crashes: 1 is the operation, 2 the port.  An action that
      the store is ready for, or that is underway, attaches the port in every attempt that does not crash. */
  method AttachPort(store: Memory, id: string, req: AttachRequest, key: Name, action: string, slot: int,
                    freshId: Name, now: int, crash: nat)
    returns (ending: Ending)
    requires IsPortRow(store.resources, id) && Defaulted(At(store.resources, id).port)
    modifies store
    ensures AttachedOnce(req, old(store.resources), store.resources, id)
    ensures ending == Refused || ending == Answered ==>
              store.resources[PortKey(id)] == old(store.resources)[PortKey(id)]
    ensures ending == Applied && ReplaysBehind(old(store.Current())) && Unused(old(store.Current()), freshId) ==>
              At(store.resources, id).port.generation == req.generation + 1
    ensures var v := old(At(store.resources, id));
            var a := Attaching(id, req, key, action, slot, v.port, now);
            && AttachValid(req) && v.port.adminUp
            && (|| (v.revision == req.expected && v.port.generation == req.generation && v.port.status == Unbound)
                || (v.revision > req.expected && v.port == a.desired)
                || (v.revision > req.expected && v.port == Reported(a.desired)))
            && Ready(store.rules, old(store.Current()), a, freshId) ==>
              && IsUnderway(store.rules, store.Current(), a)
              && (crash != 1 && crash != 2 ==>
                    && (ending == Applied || ending == Answered)
                    && At(store.resources, id).port.generation == req.generation + 1)
  {
    if !AttachValid(req) {
      return Refused;
    }
    var v := At(store.resources, id);
    if !AttachFresh(req, v) && !AttachReplay(req, v) {
      return Refused;
    }
    ending := CarryOut(store, Attaching(id, req, key, action, slot, v.port, now), freshId, crash);
  }

  /** An attempt after others of the same request: it is still fresh, or a replay of the same action. */
  lemma AttemptIsTheSame(req: AttachRequest, start: Rows, rows: Rows, id: string)
    requires IsPortRow(start, id) && AttachFresh(req, At(start, id)) && AttachedOnce(req, start, rows, id)
    ensures AttachFresh(req, At(rows, id)) || AttachReplay(req, At(rows, id))
    ensures AttachDesired(req, At(rows, id).port) == AttachDesired(req, At(start, id).port)
    ensures Defaulted(At(start, id).port) ==> Defaulted(At(rows, id).port)
    ensures At(rows, id).port.generation == req.generation + 1 ==> AttachLanded(req, At(start, id), At(rows, id))
  {
  }

  lemma AttemptsCompose(req: AttachRequest, start: Rows, before: Rows, after: Rows, id: string)
    requires IsPortRow(start, id) && AttachFresh(req, At(start, id))
    requires AttachedOnce(req, start, before, id) && AttachedOnce(req, before, after, id)
    ensures AttachedOnce(req, start, after, id)
    ensures At(before, id).port.generation == req.generation + 1 ==> At(after, id) == At(before, id)
  {
  }

  /** One of several attempts with the same request, after any number of others. */
  method AttachAgain(store: Memory, id: string, req: AttachRequest, key: Name, action: string, slot: int,
                     freshId: Name, now: int, crash: nat, ghost start: Rows)
    returns (ending: Ending)
    requires IsPortRow(start, id) && Defaulted(At(start, id).port) && AttachFresh(req, At(start, id))
    requires AttachedOnce(req, start, store.resources, id)
    modifies store
    ensures AttachedOnce(req, start, store.resources, id)
    ensures AttachLanded(req, At(start, id), old(At(store.resources, id))) ==>
              AttachLanded(req, At(start, id), At(store.resources, id))
    ensures var a := Attaching(id, req, key, action, slot, At(start, id).port, now);
            AttachValid(req) && Ready(store.rules, old(store.Current()), a, freshId) ==>
              && IsUnderway(store.rules, store.Current(), a)
              && (crash != 1 && crash != 2 ==>
                    (ending == Applied || ending == Answered)
                    && AttachLanded(req, At(start, id), At(store.resources, id)))
  {
    ghost var before := store.resources;
    AttemptIsTheSame(req, start, before, id);
    ending := AttachPort(store, id, req, key, action, slot, freshId, now, crash);
    AttemptsCompose(req, start, before, store.resources, id);
    AttemptIsTheSame(req, start, store.resources, id);
  }

  /** Main result on retries: however often one attach is resubmitted and wherever each attempt crashes,
      the port is attached at most once: its generation is the requested one or exactly the next.  Where the store was
      ready for the first attempt, the last one finds or leaves the port attached unless it crashes.  `start` are the
      rows before the first attempt of all. */
  method RetryAttach(store: Memory, id: string, req: AttachRequest, key: Name, action: string, slot: int,
                     freshIds: seq<Name>, now: int,
                     crashes: seq<nat>, ghost start: Rows)
    returns (ending: Ending)
    requires IsPortRow(start, id) && Defaulted(At(start, id).port) && AttachFresh(req, At(start, id))
    requires AttachedOnce(req, start, store.resources, id) && |freshIds| == |crashes|
    modifies store
    ensures AttachedOnce(req, start, store.resources, id)
    ensures At(store.resources, id).port.generation in {req.generation, req.generation + 1}
    ensures && AttachValid(req) && |crashes| > 0
            && Ready(store.rules, old(store.Current()),
                     Attaching(id, req, key, action, slot, At(start, id).port, now), freshIds[0])
            && crashes[|crashes| - 1] != 1 && crashes[|crashes| - 1] != 2 ==>
              (ending == Applied || ending == Answered) && AttachLanded(req, At(start, id), At(store.resources, id))
    decreases |crashes|
  {
    if crashes == [] {
      return Refused;
    }
    ending := AttachAgain(store, id, req, key, action, slot, freshIds[0], now, crashes[0], start);
    if |crashes| > 1 {
      ending := RetryAttach(store, id, req, key, action, slot, freshIds[1..], now, crashes[1..], start);
    }
  }

  /** reportPort: an accepted report writes the port at the revision it loaded.  With a matching generation it succeeds
      exactly when the reported status is the stored one afterwards. */
  method ReportPort(store: Memory, id: string, generation: int, bound: bool, token: string, now: int) returns (ok: bool)
    requires ReplaysBehind(store.Current()) && IsPortRow(store.resources, id) && Defaulted(At(store.resources, id).port)
    modifies store
    ensures ReplaysBehind(store.Current()) && IsPortRow(store.resources, id)
    ensures SameElsewhere(old(store.resources), store.resources, {PortKey(id)})
    ensures old(At(store.resources, id)).port.generation != generation ==>
        store.resources == old(store.resources) && !ok
    ensures store.resources != old(store.resources) ==>
              ok && ReportLanded(generation, bound, old(At(store.resources, id)), At(store.resources, id))
    ensures old(At(store.resources, id)).port.generation == generation ==>
              (ok <==> At(store.resources, id).port.status == if bound then Bound else Unbound)
    ensures var v := old(At(store.resources, id));
            && v.port.generation == generation && v.port.status == (if bound then Binding else Detaching)
            && Fits(store.rules, old(store.resources), id, if bound then Reported(v.port) else Vacated(v.port))
            && WriteScope(id, token) !in old(store.idempotency) ==>
              ok
  {
    var p := At(store.resources, id).port;
    if p.generation != generation {
      return false;
    }
    if p.status == (if bound then Bound else Unbound) {
      return true;
    }
    var desired := ReportDesired(generation, bound, p);
    if desired.None? {
      return false;
    }
    ok := WritePort(store, id, desired.value, token, now);
  }

  /** The port row is as it was, or the attached port has started to detach. */
  ghost predicate DetachedOnce(expected: int, generation: int, before: Rows, after: Rows, id: string)
    requires IsPortRow(before, id)
  {
    && IsPortRow(after, id)
    && (|| after[PortKey(id)] == before[PortKey(id)]
        || DetachLanded(expected, generation, At(before, id), At(after, id)))
  }

  /** The action that detaches the given port. */
  function Releasing(id: string, expected: int, key: Name, action: string, slot: int, p: Port, now: int): Action {
    Action(id, key, ActionOperation(id, key, action, slot), expected, p.(status := Detaching), now)
  }

  /** detachPort, up to the store write after which the manager crashes.  An action that the store is ready for, or
      that is underway, is carried out by every attempt that does not crash. */
  method DetachPort(store: Memory, id: string, expected: int, generation: int, key: Name, action: string, slot: int,
                    freshId: Name, now: int,
                    crash: nat)
    returns (ending: Ending)
    requires IsPortRow(store.resources, id) && Defaulted(At(store.resources, id).port)
    modifies store
    ensures DetachedOnce(expected, generation, old(store.resources), store.resources, id)
    ensures ending == Refused || ending == Answered ==>
              store.resources[PortKey(id)] == old(store.resources)[PortKey(id)]
    ensures ending == Applied && ReplaysBehind(old(store.Current())) && Unused(old(store.Current()), freshId) ==>
              At(store.resources, id).port.status == Detaching
    ensures var v := old(At(store.resources, id));
            var a := Releasing(id, expected, key, action, slot, v.port, now);
            && v.port.generation == generation
            && (|| (v.revision == expected && v.port.status in {Binding, Bound, BindingError})
                || (v.revision > expected && v.port.status == Detaching))
            && Ready(store.rules, old(store.Current()), a, freshId) ==>
              && IsUnderway(store.rules, store.Current(), a)
              && (crash != 1 && crash != 2 ==> ending == Applied || ending == Answered)
    ensures var v := old(At(store.resources, id));
            var a := Releasing(id, expected, key, action, slot, v.port, now);
            v.revision > expected && v.port.generation == generation && v.port.status == Unbound && crash != 1 ==>
              forall op :: OnRecord(old(store.Current()), a, op) ==>
                ending == if old(store.resources)[op].body.op.status == Succeeded then Answered else Refused
  {
    var v := At(store.resources, id);
    if !DetachFresh(expected, generation, v) && !DetachReplay(expected, generation, v) {
      return Refused;
    }
    if DetachReplay(expected, generation, v) && v.port.status == Unbound {
      // A completed detach: only an exact, durable replay is answered.
      var op, succeeded := BeginAction(store, Releasing(id, expected, key, action, slot, v.port, now), freshId);
      return if op.None? then Refused else if crash == 1 then Stopped else if succeeded then Answered else Refused;
    }
    ending := CarryOut(store, Releasing(id, expected, key, action, slot, v.port, now), freshId, crash);
  }
}
