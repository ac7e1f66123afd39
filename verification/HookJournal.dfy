/** The journalled commit of the hook injector: several files are replaced, one atomic replace each, under a
    journal that appears as a whole and is removed entry by entry. */
module HookJournal {
  import opened Ports

  type Files = map<string, string>

  /** Where the running process is; Idle also means that none is running. */
  datatype Place = Idle | Replacing(done: nat) | Recovering(done: nat) | Removing

  /** What is in the journal directory. */
  datatype Journal = Journal(manifest: bool, backups: Files)

  datatype World = World(files: Files, journal: Option<Journal>, place: Place, originals: Files, staged: Files)

  datatype Step =
    | Begin(staged: Files) | Replace | Commit | GiveUp | Crash
    | StartRecovery | Restore | FinishRecovery
    | RemoveManifest | RemoveBackup(name: string) | FinishRemoval

  predicate Covers(files: Files, names: seq<string>) {
    forall i :: 0 <= i < |names| ==> names[i] in files
  }

  predicate Agree(a: Files, b: Files, names: seq<string>) {
    forall i :: 0 <= i < |names| ==> names[i] in a && names[i] in b && a[names[i]] == b[names[i]]
  }

  /** One step; a step whose guard fails changes nothing.  A recovery that meets a missing entry fails, which
      ends the process. */
  function Do(names: seq<string>, w: World, step: Step): World {
    match step
    case Begin(staged) =>
      if w.place == Idle && w.journal.None? && Covers(staged, names) && Covers(w.files, names)
      then World(w.files, Some(Journal(true, w.files)), Replacing(0), w.files, staged) else w
    case Replace =>
      if w.place.Replacing? && w.place.done < |names| && Covers(w.staged, names)
      then w.(files := w.files[names[w.place.done] := w.staged[names[w.place.done]]],
              place := Replacing(w.place.done + 1))
      else w
    case Commit =>
      if w.place.Replacing? && w.place.done == |names| && Agree(w.files, w.staged, names) then w.(place := Removing)
        else w
    case GiveUp => if w.place.Replacing? then w.(place := Recovering(0)) else w
    case Crash => w.(place := Idle)
    case StartRecovery =>
      if w.place == Idle && w.journal.Some? && w.journal.value.manifest then w.(place := Recovering(0)) else w
    case Restore =>
      if w.place.Recovering? && w.place.done < |names| && w.journal.Some? then
        if names[w.place.done] in w.journal.value.backups
        then w.(files := w.files[names[w.place.done] := w.journal.value.backups[names[w.place.done]]],
                place := Recovering(w.place.done + 1))
        else w.(place := Idle)
      else w
    case FinishRecovery => if w.place.Recovering? && w.place.done == |names| then w.(place := Removing) else w
    case RemoveManifest =>
      if w.place == Removing && w.journal.Some? then w.(journal := Some(w.journal.value.(manifest := false))) else w
    case RemoveBackup(name) =>
      if w.place == Removing && w.journal.Some?
      then w.(journal := Some(w.journal.value.(backups := w.journal.value.backups - {name}))) else w
    case FinishRemoval => if w.place == Removing then w.(journal := None, place := Idle) else w
  }

  function Run(names: seq<string>, w: World, steps: seq<Step>): World
    decreases |steps|
  {
    if steps == [] then w else Run(names, Do(names, w, steps[0]), steps[1..])
  }

  // ---------------------------------------------------------------- the invariant

  predicate Distinct(names: seq<string>) {
    forall i, j :: 0 <= i < j < |names| ==> names[i] != names[j]
  }

  /** The i-th file is one of its two versions, and the one its place in the process demands. */
  predicate FileOk(w: World, names: seq<string>, i: nat)
    requires i < |names|
  {
    && names[i] in w.files && names[i] in w.originals && names[i] in w.staged
    && (w.files[names[i]] == w.originals[names[i]] || w.files[names[i]] == w.staged[names[i]])
    && (w.place.Replacing? ==>
          w.files[names[i]] == if i < w.place.done then w.staged[names[i]] else w.originals[names[i]])
    && (w.place.Recovering? && i < w.place.done ==> w.files[names[i]] == w.originals[names[i]])
  }

  predicate AllOneVersion(w: World, names: seq<string>) {
    Agree(w.files, w.originals, names) || Agree(w.files, w.staged, names)
  }

  ghost predicate Inv(names: seq<string>, w: World) {
    && (forall i :: 0 <= i < |names| ==> FileOk(w, names, i))
    && (w.journal.Some? ==> forall k :: k in w.journal.value.backups ==>
          k in w.originals && w.journal.value.backups[k] == w.originals[k])
    && (w.journal.None? ==> w.place == Idle)
    && (w.journal.None? || w.place == Removing ==> AllOneVersion(w, names))
  }

  lemma AllRestored(names: seq<string>, w: World)
    requires w.place == Recovering(|names|) && forall i :: 0 <= i < |names| ==> FileOk(w, names, i)
    ensures Agree(w.files, w.originals, names)
  {
    forall i | 0 <= i < |names|
      ensures names[i] in w.files && names[i] in w.originals && w.files[names[i]] == w.originals[names[i]]
    {
      assert FileOk(w, names, i);
    }
  }

  lemma StepKeepsInv(names: seq<string>, w: World, step: Step)
    requires Distinct(names) && Inv(names, w)
    ensures Inv(names, Do(names, w, step))
  {
    var w' := Do(names, w, step);
    if step.FinishRecovery? && w' != w {
      AllRestored(names, w);
    }
    forall i | 0 <= i < |names| ensures FileOk(w', names, i) {
      assert FileOk(w, names, i);
      if (step.Replace? || step.Restore?) && (w.place.Replacing? || w.place.Recovering?) && w.place.done < |names| {
        assert w.place.done != i ==> names[w.place.done] != names[i];
      }
    }
  }

  lemma {:induction false} RunKeepsInv(names: seq<string>, w: World, steps: seq<Step>)
    requires Distinct(names) && Inv(names, w)
    ensures Inv(names, Run(names, w, steps))
    decreases |steps|
  {
    if steps != [] {
      StepKeepsInv(names, w, steps[0]);
      RunKeepsInv(names, Do(names, w, steps[0]), steps[1..]);
    }
  }

  /** No process has run yet. */
  function Untouched(files: Files): World {
    World(files, None, Idle, files, files)
  }

  // ---------------------------------------------------------------- whole versions over several transactions

  /** The files are one of the versions, name by name. */
  ghost predicate IsVersion(versions: set<Files>, files: Files, names: seq<string>) {
    exists v :: v in versions && Agree(files, v, names)
  }

  /** A step that begins a transaction brings a new version. */
  function Brought(versions: set<Files>, step: Step): set<Files> {
    if step.Begin? then versions + {step.staged} else versions
  }

  function VersionsOf(versions: set<Files>, steps: seq<Step>): set<Files>
    decreases |steps|
  {
    if steps == [] then versions else VersionsOf(Brought(versions, steps[0]), steps[1..])
  }

  lemma AgreeComposes(a: Files, b: Files, c: Files, names: seq<string>)
    requires Agree(a, b, names) && Agree(b, c, names)
    ensures Agree(a, c, names)
  {
  }

  /** Without a journal the files are a whole version. */
  lemma FilesAreWhole(names: seq<string>, w: World, versions: set<Files>)
    requires AllOneVersion(w, names)
    requires IsVersion(versions, w.originals, names) && IsVersion(versions, w.staged, names)
    ensures IsVersion(versions, w.files, names)
  {
    if Agree(w.files, w.originals, names) {
      var v :| v in versions && Agree(w.originals, v, names);
      AgreeComposes(w.files, w.originals, v, names);
    } else {
      var v :| v in versions && Agree(w.staged, v, names);
      AgreeComposes(w.files, w.staged, v, names);
    }
  }

  lemma MoreVersions(names: seq<string>, files: Files, versions: set<Files>, more: set<Files>)
    requires IsVersion(versions, files, names) && versions <= more
    ensures IsVersion(more, files, names)
  {
    var v :| v in versions && Agree(files, v, names);
    assert v in more;
  }

  lemma StepKeepsVersions(names: seq<string>, w: World, step: Step, versions: set<Files>)
    requires Inv(names, w) && IsVersion(versions, w.originals, names) && IsVersion(versions, w.staged, names)
    ensures var after, more := Do(names, w, step), Brought(versions, step);
            IsVersion(more, after.originals, names) && IsVersion(more, after.staged, names)
  {
    var after, more := Do(names, w, step), Brought(versions, step);
    MoreVersions(names, w.originals, versions, more);
    MoreVersions(names, w.staged, versions, more);
    if step.Begin? && after != w {
      FilesAreWhole(names, w, versions);
      MoreVersions(names, w.files, versions, more);
      assert step.staged in more && Agree(step.staged, step.staged, names);
    } else {
      assert after.originals == w.originals && after.staged == w.staged;
    }
  }

  lemma {:induction false} RunKeepsVersions(names: seq<string>, w: World, steps: seq<Step>, versions: set<Files>)
    requires Distinct(names) && Inv(names, w)
    requires IsVersion(versions, w.originals, names) && IsVersion(versions, w.staged, names)
    ensures var after, all := Run(names, w, steps), VersionsOf(versions, steps);
            IsVersion(all, after.originals, names) && IsVersion(all, after.staged, names)
    decreases |steps|
  {
    if steps != [] {
      StepKeepsInv(names, w, steps[0]);
      StepKeepsVersions(names, w, steps[0], versions);
      RunKeepsVersions(names, Do(names, w, steps[0]), steps[1..], Brought(versions, steps[0]));
    }
  }

  /** Main result over several transactions: what a recovery restores, and what is there without a journal, is always
      one
      whole version, the first one or one that a transaction brought; no transaction starts from a mix. */
  lemma OnlyWholeVersions(names: seq<string>, files: Files, steps: seq<Step>)
    requires Distinct(names) && Covers(files, names)
    ensures var w, all := Run(names, Untouched(files), steps), VersionsOf({files}, steps);
            && IsVersion(all, w.originals, names)
            && (w.journal.None? ==> IsVersion(all, w.files, names))
  {
    var w0 := Untouched(files);
    assert Agree(files, files, names) && IsVersion({files}, files, names);
    RunKeepsInv(names, w0, steps);
    RunKeepsVersions(names, w0, steps, {files});
    if Run(names, w0, steps).journal.None? {
      FilesAreWhole(names, Run(names, w0, steps), VersionsOf({files}, steps));
    }
  }

  // ---------------------------------------------------------------- main results

  /** Main result: after any run with crashes anywhere, also during recovery and during the removal of the
      journal, no journal means that all files are the originals or all are staged, and a recovery that gets
      through has restored all originals. */
  lemma CommitIsAtomic(names: seq<string>, files: Files, steps: seq<Step>)
    requires Distinct(names) && Covers(files, names)
    ensures var w := Run(names, Untouched(files), steps);
            && (w.journal.None? ==> AllOneVersion(w, names))
            && (w.place == Recovering(|names|) ==> Agree(w.files, w.originals, names))
  {
    RunKeepsInv(names, Untouched(files), steps);
    var w := Run(names, Untouched(files), steps);
    if w.place == Recovering(|names|) {
      AllRestored(names, w);
    }
  }

  // ---------------------------------------------------------------- removal as one step

  /** The steps leave the entries of the journal alone. */
  predicate WholeRemoval(steps: seq<Step>) {
    forall i :: 0 <= i < |steps| ==> !steps[i].RemoveManifest? && !steps[i].RemoveBackup?
  }

  predicate Complete(names: seq<string>, w: World) {
    w.journal.Some? ==> w.journal.value.manifest && Covers(w.journal.value.backups, names)
  }

  lemma {:induction false} WholeJournalStays(names: seq<string>, w: World, steps: seq<Step>)
    requires WholeRemoval(steps) && Complete(names, w)
    ensures Complete(names, Run(names, w, steps))
    decreases |steps|
  {
    if steps != [] {
      assert !steps[0].RemoveManifest? && !steps[0].RemoveBackup?;
      WholeJournalStays(names, Do(names, w, steps[0]), steps[1..]);
    }
  }

  /** With the removal of the journal as one step, every crash can be recovered: whenever a journal is left, running
      the recovery to its end restores all originals. */
  lemma EveryCrashRecovers(names: seq<string>, files: Files, steps: seq<Step>)
    requires Distinct(names) && Covers(files, names) && WholeRemoval(steps)
    requires Run(names, Untouched(files), steps).journal.Some?
    ensures var w := Run(names, Untouched(files), steps);
            var after := Run(names, w, [Crash, StartRecovery] + Times(Restore, |names|));
            after.place == Recovering(|names|) && Agree(after.files, w.originals, names)
  {
    var w := Run(names, Untouched(files), steps);
    RunKeepsInv(names, Untouched(files), steps);
    WholeJournalStays(names, Untouched(files), steps);
    var r := w.(place := Recovering(0));
    RecoveryStarts(names, w, Times(Restore, |names|));
    assert Inv(names, r) by {
      StepKeepsInv(names, w, Crash);
      StepKeepsInv(names, w.(place := Idle), StartRecovery);
    }
    RestoreAll(names, r);
    RunKeepsInv(names, r, Times(Restore, |names|));
    AllRestored(names, Run(names, r, Times(Restore, |names|)));
    OriginalsStay(names, r, Times(Restore, |names|));
  }

  // ---------------------------------------------------------------- recovery as a loop

  function Times(step: Step, n: nat): seq<Step> {
    seq(n, _ => step)
  }

  lemma TimesHead(step: Step, n: nat)
    requires n > 0
    ensures Times(step, n)[0] == step && Times(step, n)[1..] == Times(step, n - 1)
  {
  }

  lemma RecoveryStarts(names: seq<string>, w: World, steps: seq<Step>)
    requires w.journal.Some? && w.journal.value.manifest
    ensures Run(names, w, [Crash, StartRecovery] + steps) == Run(names, w.(place := Recovering(0)), steps)
  {
    var all := [Crash, StartRecovery] + steps;
    assert all[1..] == [StartRecovery] + steps && ([StartRecovery] + steps)[1..] == steps;
  }

  /** The files after recover_journal has worked through the records from n on, and whether it got through. */
  function Recovered(names: seq<string>, backups: Files, files: Files, n: nat): (Files, bool)
    requires n <= |names|
    decreases |names| - n
  {
    if n == |names| then (files, true)
    else if names[n] !in backups then (files, false)
    else Recovered(names, backups, files[names[n] := backups[names[n]]], n + 1)
  }

  /** recover_journal. */
  method RecoverJournal(names: seq<string>, journal: Journal, files: Files) returns (after: Files, ok: bool)
    ensures (after, ok) == if journal.manifest then Recovered(names, journal.backups, files, 0) else (files, false)
  {
    after := files;
    if !journal.manifest {
      return files, false;
    }
    for n := 0 to |names|
      invariant Recovered(names, journal.backups, files, 0) == Recovered(names, journal.backups, after, n)
    {
      if names[n] !in journal.backups {
        return after, false;
      }
      after := after[names[n] := journal.backups[names[n]]];
    }
    ok := true;
  }

  lemma {:induction false} IdleRestores(names: seq<string>, w: World, n: nat)
    requires !w.place.Recovering?
    ensures Run(names, w, Times(Restore, n)) == w
    decreases n
  {
    if n > 0 {
      TimesHead(Restore, n);
      IdleRestores(names, w, n - 1);
    }
  }

  /** The steps of the process do what the loop computes, and end where it ends. */
  lemma {:induction false} RestoreLoop(names: seq<string>, w: World)
    requires w.place.Recovering? && w.place.done <= |names| && w.journal.Some?
    ensures var r := Recovered(names, w.journal.value.backups, w.files, w.place.done);
            Run(names, w, Times(Restore, |names| - w.place.done)) ==
              w.(files := r.0, place := if r.1 then Recovering(|names|) else Idle)
    decreases |names| - w.place.done
  {
    var n := |names| - w.place.done;
    if n > 0 {
      TimesHead(Restore, n);
      if names[w.place.done] in w.journal.value.backups {
        RestoreLoop(names, Do(names, w, Restore));
      } else {
        IdleRestores(names, Do(names, w, Restore), n - 1);
      }
    }
  }

  lemma RestoreAll(names: seq<string>, w: World)
    requires w.place == Recovering(0) && w.journal.Some? && Covers(w.journal.value.backups, names)
    ensures Run(names, w, Times(Restore, |names|)).place == Recovering(|names|)
  {
    RestoreLoop(names, w);
    AllReached(names, w.journal.value.backups, w.files, 0);
  }

  lemma {:induction false} AllReached(names: seq<string>, backups: Files, files: Files, n: nat)
    requires n <= |names| && Covers(backups, names)
    ensures Recovered(names, backups, files, n).1
    decreases |names| - n
  {
    if n < |names| {
      AllReached(names, backups, files[names[n] := backups[names[n]]], n + 1);
    }
  }

  lemma OriginalsStay(names: seq<string>, w: World, steps: seq<Step>)
    requires w.place == Recovering(0) && w.journal.Some? && steps == Times(Restore, |names|)
    ensures Run(names, w, steps).originals == w.originals
  {
    RestoreLoop(names, w);
  }

  // ---------------------------------------------------------------- a journal that is half removed

  /** The recovery gets past the i-th record: no backup up to its own is missing. */
  predicate Reached(names: seq<string>, backups: Files, i: nat)
    requires i < |names|
  {
    forall j :: 0 <= j <= i ==> names[j] in backups
  }

  lemma {:induction false} RecoveryRestoresPrefix(names: seq<string>, backups: Files, files: Files, n: nat, i: nat)
    requires Distinct(names) && n <= |names| && i < |names| && names[i] in files
    requires forall j :: 0 <= j < n ==> names[j] in backups
    requires i < n ==> files[names[i]] == backups[names[i]]
    ensures names[i] in Recovered(names, backups, files, n).0
    ensures Recovered(names, backups, files, n).0[names[i]] ==
              if Reached(names, backups, i) then backups[names[i]] else files[names[i]]
    ensures Recovered(names, backups, files, n).1 <==> forall j :: 0 <= j < |names| ==> names[j] in backups
    decreases |names| - n
  {
    if n < |names| && names[n] in backups {
      assert n != i ==> names[n] != names[i];
      RecoveryRestoresPrefix(names, backups, files[names[n] := backups[names[n]]], n + 1, i);
    }
  }

  /** The i-th file is one that the transaction changes. */
  predicate Changes(names: seq<string>, originals: Files, staged: Files, i: nat)
    requires i < |names| && Covers(originals, names) && Covers(staged, names)
  {
    originals[names[i]] != staged[names[i]]
  }

  /** The next recovery will put one changed file back and leave another one staged. */
  predicate WillMix(names: seq<string>, originals: Files, staged: Files, journal: Journal)
    requires Covers(originals, names) && Covers(staged, names)
  {
    && journal.manifest
    && (exists i :: 0 <= i < |names| && Reached(names, journal.backups, i) && Changes(names, originals, staged, i))
    && (exists i :: 0 <= i < |names| && !Reached(names, journal.backups, i) && Changes(names, originals, staged, i))
  }

  /** Main result on removal: a crash in the middle of removing the journal after a commit can make the next
      recovery mix versions.  That happens exactly when the manifest is left, the recovery gets past a file that
      the transaction changed, and stops before another one that it changed. */
  lemma HalfRemovedJournalMixesIff(names: seq<string>, originals: Files, staged: Files, journal: Journal)
    requires Distinct(names) && Covers(originals, names) && Covers(staged, names)
    requires forall k :: k in journal.backups ==> k in originals && journal.backups[k] == originals[k]
    ensures var after := (if journal.manifest then Recovered(names, journal.backups, staged, 0) else (staged, false)).0;
            !Agree(after, originals, names) && !Agree(after, staged, names) <==>
                WillMix(names, originals, staged, journal)
  {
    if journal.manifest {
      var after := Recovered(names, journal.backups, staged, 0).0;
      forall i | 0 <= i < |names|
        ensures names[i] in after
        ensures after[names[i]] == if Reached(names, journal.backups, i) then originals[names[i]] else staged[names[i]]
      {
        RecoveryRestoresPrefix(names, journal.backups, staged, 0, i);
      }
      if Agree(after, originals, names) {
        forall i | 0 <= i < |names|
          && !Reached(names, journal.backups, i)
          ensures !Changes(names, originals, staged, i)
        {
          assert after[names[i]] == originals[names[i]];
        }
      }
      if Agree(after, staged, names) {
        forall i | 0 <= i < |names|
          && Reached(names, journal.backups, i)
          ensures !Changes(names, originals, staged, i)
        {
          assert after[names[i]] == staged[names[i]];
        }
      }
    } else {
      assert Agree(staged, staged, names);
    }
  }

  /** A removal that follows a recovery does no harm: the next recovery finds nothing but originals to restore. */
  lemma RemovalAfterRecoveryIsHarmless(names: seq<string>, originals: Files, files: Files, journal: Journal)
    requires Distinct(names) && Agree(files, originals, names)
    requires forall k :: k in journal.backups ==> k in originals && journal.backups[k] == originals[k]
    ensures Agree(Recovered(names, journal.backups, files, 0).0, originals, names)
  {
    forall i | 0 <= i < |names|
      ensures names[i] in Recovered(names, journal.backups, files, 0).0
      ensures Recovered(names, journal.backups, files, 0).0[names[i]] == originals[names[i]]
    {
      RecoveryRestoresPrefix(names, journal.backups, files, 0, i);
    }
  }

  // ---------------------------------------------------------------- a mix that is reached

  lemma {:induction false} RunAppends(names: seq<string>, w: World, steps: seq<Step>, more: seq<Step>)
    ensures Run(names, w, steps + more) == Run(names, Run(names, w, steps), more)
    decreases |steps|
  {
    if steps == [] {
      assert steps + more == more;
    } else {
      assert (steps + more)[1..] == steps[1..] + more;
      RunAppends(names, Do(names, w, steps[0]), steps[1..], more);
    }
  }

  lemma {:induction false} ReplaceLoop(names: seq<string>, w: World)
    requires w.place.Replacing? && w.place.done <= |names| && Covers(w.staged, names)
    ensures var after := Run(names, w, Times(Replace, |names| - w.place.done));
            after == w.(files := after.files, place := Replacing(|names|))
    decreases |names| - w.place.done
  {
    if w.place.done < |names| {
      TimesHead(Replace, |names| - w.place.done);
      ReplaceLoop(names, Do(names, w, Replace));
    }
  }

  /** Begin, replace every file, commit. */
  function CommitSteps(names: seq<string>, staged: Files): seq<Step> {
    [Begin(staged)] + (Times(Replace, |names|) + [Commit])
  }

  lemma CommitCommits(names: seq<string>, files: Files, staged: Files)
    requires Distinct(names) && Covers(files, names) && Covers(staged, names)
    ensures var w := Run(names, Untouched(files), CommitSteps(names, staged));
            && w == World(w.files, Some(Journal(true, files)), Removing, files, staged)
            && Agree(w.files, staged, names)
  {
    var begun := Do(names, Untouched(files), Begin(staged));
    var replaced := Run(names, begun, Times(Replace, |names|));
    BeginThen(names, files, staged, Times(Replace, |names|) + [Commit]);
    RunAppends(names, begun, Times(Replace, |names|), [Commit]);
    OneStep(names, replaced, Commit);
    ReplaceLoop(names, begun);
    StepKeepsInv(names, Untouched(files), Begin(staged));
    RunKeepsInv(names, begun, Times(Replace, |names|));
    AllReplaced(names, replaced);
  }

  lemma BeginThen(names: seq<string>, files: Files, staged: Files, more: seq<Step>)
    ensures Run(names, Untouched(files), [Begin(staged)] + more)
         == Run(names, Do(names, Untouched(files), Begin(staged)), more)
  {
    assert ([Begin(staged)] + more)[1..] == more;
  }

  lemma OneStep(names: seq<string>, w: World, step: Step)
    ensures Run(names, w, [step]) == Do(names, w, step)
  {
    assert [step][1..] == [];
  }

  lemma AllReplaced(names: seq<string>, w: World)
    requires w.place == Replacing(|names|) && forall i :: 0 <= i < |names| ==> FileOk(w, names, i)
    ensures Agree(w.files, w.staged, names)
  {
    forall i | 0 <= i < |names|
      ensures names[i] in w.files && names[i] in w.staged && w.files[names[i]] == w.staged[names[i]]
    {
      assert FileOk(w, names, i);
    }
  }

  /** Commit, lose one backup while the journal is being removed, crash, recover. */
  function MixingSteps(names: seq<string>, staged: Files, k: nat): seq<Step>
    requires k < |names|
  {
    CommitSteps(names, staged) + LossSteps(names, k)
  }

  /** The mix is reached: whenever a transaction changes a file i and a later file k, a crash right after the k-th
      backup was removed and the recovery that follows leave file i original, file k staged, and a journal that
      no recovery gets through. */
  lemma MixIsReached(names: seq<string>, files: Files, staged: Files, i: nat, k: nat)
    requires Distinct(names) && Covers(files, names) && Covers(staged, names) && i < k < |names|
    requires Changes(names, files, staged, i) && Changes(names, files, staged, k)
    ensures var w := Run(names, Untouched(files), MixingSteps(names, staged, k));
            && w.originals == files && w.staged == staged && w.place == Idle && w.journal.Some?
            && !AllOneVersion(w, names)
            && !Recovered(names, w.journal.value.backups, w.files, 0).1
  {
    var committed := Run(names, Untouched(files), CommitSteps(names, staged));
    CommitCommits(names, files, staged);
    var backups := files - {names[k]};
    MixingRun(names, files, staged, k);
    MixedFiles(names, files, staged, committed.files, backups, i, k);
    RecoveryRestoresPrefix(names, backups, Recovered(names, backups, committed.files, 0).0, 0, k);
  }

  /** What the mixing steps do, up to the files. */
  lemma MixingRun(names: seq<string>, files: Files, staged: Files, k: nat)
    requires Distinct(names) && Covers(files, names) && Covers(staged, names) && k < |names|
    ensures var committed := Run(names, Untouched(files), CommitSteps(names, staged));
            var backups := files - {names[k]};
            var r := Recovered(names, backups, committed.files, 0);
            Run(names, Untouched(files), MixingSteps(names, staged, k)) ==
              World(r.0, Some(Journal(true, backups)), if r.1 then Recovering(|names|) else Idle, files, staged)
  {
    CommitCommits(names, files, staged);
    RunAppends(names, Untouched(files), CommitSteps(names, staged), LossSteps(names, k));
    LossRun(names, Run(names, Untouched(files), CommitSteps(names, staged)), k);
  }

  /** Lose one backup, crash, recover. */
  function LossSteps(names: seq<string>, k: nat): seq<Step>
    requires k < |names|
  {
    [RemoveBackup(names[k])] + ([Crash, StartRecovery] + Times(Restore, |names|))
  }

  lemma LossRun(names: seq<string>, w: World, k: nat)
    requires k < |names| && w.place == Removing && w.journal.Some? && w.journal.value.manifest
    ensures var journal := w.journal.value.(backups := w.journal.value.backups - {names[k]});
            var r := Recovered(names, journal.backups, w.files, 0);
            Run(names, w, LossSteps(names, k)) ==
              w.(files := r.0, journal := Some(journal), place := if r.1 then Recovering(|names|) else Idle)
  {
    var removing := Do(names, w, RemoveBackup(names[k]));
    var tail := [Crash, StartRecovery] + Times(Restore, |names|);
    assert LossSteps(names, k)[1..] == tail;
    RecoveryStarts(names, removing, Times(Restore, |names|));
    RestoreLoop(names, removing.(place := Recovering(0)));
  }

  lemma MixedFiles(names: seq<string>, originals: Files, staged: Files, files: Files, backups: Files, i: nat, k: nat)
    requires Distinct(names) && Covers(originals, names) && Covers(staged, names) && i < k < |names|
    requires Agree(files, staged, names) && backups == originals - {names[k]}
    requires Changes(names, originals, staged, i) && Changes(names, originals, staged, k)
    ensures var after := Recovered(names, backups, files, 0);
            !after.1 && names[k] in after.0 && !Agree(after.0, originals, names) && !Agree(after.0, staged, names)
  {
    RecoveryRestoresPrefix(names, backups, files, 0, i);
    RecoveryRestoresPrefix(names, backups, files, 0, k);
    assert Reached(names, backups, i) by {
      assert forall j :: 0 <= j <= i ==> names[j] != names[k];
    }
    assert !Reached(names, backups, k);
    var after := Recovered(names, backups, files, 0).0;
    assert after[names[i]] == originals[names[i]] && after[names[k]] == staged[names[k]];
  }
}
