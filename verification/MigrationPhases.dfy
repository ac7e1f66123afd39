/** Any number of managers reading one lifecycle operation and writing it by compare-and-swap.

    A manager may stop after its read, or come back with it much later; then its write no longer
    finds the revision it read.  The operation's whole durable history is kept. */
module MigrationPhases {
  import opened Ports
  import opened Payloads
  import opened Model
  import opened Lifecycle

  datatype Snapshot = Snapshot(revision: int, op: Operation)

  datatype World = World(
    current: Snapshot,
    read: set<Snapshot>,                 // what managers hold
    archive: map<string, Operation>,     // takeover audit rows
    written: seq<Operation>)             // every value the operation ever had

  datatype Step =
    | Read
    | Write(snapshot: Snapshot, edit: Edit, now: int)
    | Archive(snapshot: Snapshot, historyId: string, error: string, now: int)

  function Do(id: string, w: World, step: Step): World {
    match step
    case Read => w.(read := w.read + {w.current})
    case Write(s, edit, now) =>
      if s in w.read && s.revision == w.current.revision && Edited(id, s.op, w.archive, edit, now).Some? then
        var next := Edited(id, s.op, w.archive, edit, now).value;
        w.(current := Snapshot(s.revision + 1, next), written := w.written + [next])
      else w
    case Archive(s, historyId, error, now) =>
      if s in w.read && s.op.payload.Migration? && s.op.payload.migration.recovery.Some? && historyId != ""
        && historyId !in w.archive
      then w.(archive := w.archive[historyId :=
                                   ArchiveRow(s.op, historyId, Original(s.op.payload.migration), error, now)])
      else w
  }

  function Run(id: string, w: World, steps: seq<Step>): World
    decreases |steps|
  {
    if steps == [] then w else Run(id, Do(id, w, steps[0]), steps[1..])
  }

  function Begin(op: Operation, revision: int): World {
    World(Snapshot(revision, op), {}, map[], [op])
  }

  // ---------------------------------------------------------------- compare-and-swap

  predicate Remembers(w: World, s: Snapshot) {
    s.revision <= w.current.revision && (s.revision == w.current.revision ==> s == w.current)
  }

  ghost predicate Sound(w: World) {
    && (forall s :: s in w.read ==> Remembers(w, s))
    && |w.written| > 0 && w.written[|w.written| - 1] == w.current.op
  }

  /** A write that lands was computed from the current value, so it is one edit away from it. */
  lemma StepIsOneEdit(id: string, w: World, step: Step)
    requires Sound(w)
    ensures Sound(Do(id, w, step))
    ensures var w' := Do(id, w, step);
            || (w'.current == w.current && w'.written == w.written)
            || (exists edit, now :: Edited(id, w.current.op, w.archive, edit, now) == Some(w'.current.op)
                                   && w'.written == w.written + [w'.current.op])
  {
    if step.Write? && Do(id, w, step) != w {
      assert Remembers(w, step.snapshot);
      assert Edited(id, w.current.op, w.archive, step.edit, step.now) == Some(Do(id, w, step).current.op);
    }
  }

  // ---------------------------------------------------------------- direction

  /** The side a phase has chosen. */
  function SideOfPhase(phase: MigrationPhase): Option<Direction> {
    match phase
    case Compensating => Some(ToSource)
    case Compensated => Some(ToSource)
    case Aborting => Some(ToSource)
    case Aborted => Some(ToSource)
    case HaRecoveringSource => Some(ToSource)
    case Committing => Some(ToTarget)
    case Finalized => Some(ToTarget)
    case HaRecoveringTarget => Some(ToTarget)
    case _ => None
  }

  /** After a promotion the audit remembers the side. */
  function SideOf(op: Operation): Option<Direction> {
    match op.payload
    case Migration(m) => SideOfPhase(m.phase)
    case HaRebind(h) => if h.audit.Some? then Some(h.audit.value.direction) else None
    case _ => None
  }

  lemma HaEditKeepsSide(id: string, op: Operation, archive: map<string, Operation>, edit: Edit, now: int)
    requires Edited(id, op, archive, edit, now).Some? && op.payload.HaRebind?
    ensures Edited(id, op, archive, edit, now).value.payload.HaRebind?
    ensures Edited(id, op, archive, edit, now).value.payload.ha.audit == op.payload.ha.audit
  {
  }

  lemma PromotionKeepsSide(id: string, op: Operation, archive: map<string, Operation>, edit: Edit, now: int)
    requires edit.HaPromote? && Edited(id, op, archive, edit, now).Some?
    ensures op.payload.Migration? && SideOf(Edited(id, op, archive, edit, now).value) == SideOf(op)
  {
  }

  lemma EditKeepsSide(id: string, op: Operation, archive: map<string, Operation>, edit: Edit, now: int)
    requires Edited(id, op, archive, edit, now).Some? && SideOf(op).Some?
    ensures SideOf(Edited(id, op, archive, edit, now).value) == SideOf(op)
  {
    if op.payload.HaRebind? {
      HaEditKeepsSide(id, op, archive, edit, now);
    } else if edit.HaPromote? {
      PromotionKeepsSide(id, op, archive, edit, now);
    }
  }

  ghost predicate Settled(written: seq<Operation>) {
    forall i, j :: 0 <= i < j < |written| && SideOf(written[i]).Some? ==> SideOf(written[j]) == SideOf(written[i])
  }

  lemma AppendKeepsSettled(written: seq<Operation>, next: Operation)
    requires Settled(written) && |written| > 0
    requires SideOf(written[|written| - 1]).Some? ==> SideOf(next) == SideOf(written[|written| - 1])
    ensures Settled(written + [next])
  {
  }

  lemma StepKeepsSettled(id: string, w: World, step: Step)
    requires Sound(w) && Settled(w.written)
    ensures Sound(Do(id, w, step)) && Settled(Do(id, w, step).written)
  {
    StepIsOneEdit(id, w, step);
    var w' := Do(id, w, step);
    if w'.written != w.written {
      var edit, now :| Edited(id, w.current.op, w.archive, edit, now) == Some(w'.current.op)
                    && w'.written == w.written + [w'.current.op];
      if SideOf(w.current.op).Some? {
        EditKeepsSide(id, w.current.op, w.archive, edit, now);
      }
      AppendKeepsSettled(w.written, w'.current.op);
    }
  }

  lemma {:induction false} RunKeepsSettled(id: string, w: World, steps: seq<Step>)
    requires Sound(w) && Settled(w.written)
    ensures Sound(Run(id, w, steps)) && Settled(Run(id, w, steps).written)
    decreases |steps|
  {
    if steps != [] {
      StepKeepsSettled(id, w, steps[0]);
      RunKeepsSettled(id, Do(id, w, steps[0]), steps[1..]);
    }
  }

  predicate SourcePhase(phase: MigrationPhase) {
    phase == Compensating || phase == Compensated || phase == Aborting || phase == Aborted
      || phase == HaRecoveringSource
  }
  predicate TargetPhase(phase: MigrationPhase) {
    phase == Committing || phase == Finalized || phase == HaRecoveringTarget
  }

  /** Main result: whatever the managers do, the durable history of one operation never holds both a
      target-side and a source-side phase, and a relocation that took it over remembers its side. */
  lemma MigrationNeverReverses(id: string, op: Operation, revision: int, steps: seq<Step>, i: nat, j: nat)
    requires op.payload.Migration? && op.payload.migration.phase == Preparing
    requires i < |Run(id, Begin(op, revision), steps).written| && j < |Run(id, Begin(op, revision), steps).written|
    ensures var written := Run(id, Begin(op, revision), steps).written;
            && !(written[i].payload.Migration? && written[j].payload.Migration?
                 && TargetPhase(written[i].payload.migration.phase) && SourcePhase(written[j].payload.migration.phase))
            && (written[i].payload.Migration? && written[j].payload.HaRebind? && written[j].payload.ha.audit.Some? ==>
                  SideOfPhase(written[i].payload.migration.phase)
                    in {None, Some(written[j].payload.ha.audit.value.direction)})
  {
    RunKeepsSettled(id, Begin(op, revision), steps);
    HistoryIsMigrationThenHa(id, Begin(op, revision), steps);
  }

  /** A migration operation is never a relocation first. */
  ghost predicate MigrationFirst(written: seq<Operation>) {
    forall i, j :: 0 <= i < j < |written| && written[i].payload.HaRebind? ==> written[j].payload.HaRebind?
  }

  lemma {:induction false} HistoryIsMigrationThenHa(id: string, w: World, steps: seq<Step>)
    requires Sound(w) && MigrationFirst(w.written)
    ensures MigrationFirst(Run(id, w, steps).written)
    decreases |steps|
  {
    if steps != [] {
      StepIsOneEdit(id, w, steps[0]);
      var w' := Do(id, w, steps[0]);
      if w'.written != w.written {
        var edit, now :| Edited(id, w.current.op, w.archive, edit, now) == Some(w'.current.op)
                      && w'.written == w.written + [w'.current.op];
        if w.current.op.payload.HaRebind? {
          HaEditKeepsSide(id, w.current.op, w.archive, edit, now);
        }
      }
      HistoryIsMigrationThenHa(id, w', steps[1..]);
    }
  }
}
