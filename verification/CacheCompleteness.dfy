/** When a partial payload can be in place or aside: only while a removal is taking it
    apart under its locks, as long as no removal is interrupted. */
module CacheCompleteness {
  import opened Wrappers
  import opened CacheProtocol

  predicate Partial(e: Option<Entry>) { e.Some? && !e.value.complete }

  /** The run is removing the entry under both locks: an uninstall, or a rollback of
      what it had put in place. */
  predicate DeletesEntry(run: Run) {
    || (run.task == Deleting && run.fut == AwaitDelete)
    || (run.task.Promoting? && run.task.tx.Undo? && run.task.tx.published)
  }

  /** The run may be removing its backup after it has committed. */
  predicate DeletesBackup(run: Run) { run.task.Promoting? && run.task.tx.Committed? }

  ghost predicate SweepDeletes(s: State, b: RunId) {
    exists q :: q in s.runs && s.runs[q].fut.SweeperDelete? && BackupOf(b) in s.runs[q].fut.seen
  }

  /** Nothing is partial but what is being removed right now. */
  ghost predicate OnlyUnderRemoval(s: State) {
    && (Partial(s.final) ==> exists q :: q in s.runs && DeletesEntry(s.runs[q]))
    && (forall b :: b in s.runs && Partial(s.runs[b].backup) ==> DeletesBackup(s.runs[b]) || SweepDeletes(s, b))
    && (forall q :: q in s.runs ==> !(s.runs[q].task == Deleting && s.runs[q].fut == Gone))
  }

  /** The step interrupts a removal: a crash or a failure half-way in a deletion of the
      entry or a backup, or the cancellation of an uninstall that is deleting. */
  predicate InterruptsRun(run: Run, a: Action) {
    || (a == Anytime(Crash) && (DeletesEntry(run) || DeletesBackup(run)))
    || (a == Anytime(Cancel) && run.task == Deleting)
    || a == Remove(DeleteStops) || a == Transact(TxUndoStops)
    || (a == Transact(TxFinish(false)) && run.backup.Some?)
  }

  /** A sweep stops, by a crash or for good, while a backup it was to remove is left. */
  ghost predicate InterruptsSweep(s: State, run: Run, a: Action) {
    run.fut.SweeperDelete? && (a == Anytime(Crash) || a == Remove(SweepEnds)) && !NoBackupLeft(s, run.fut.seen)
  }

  ghost predicate Interrupts(s: State, step: Step) {
    && step.Act? && step.r in s.runs
    && (InterruptsRun(s.runs[step.r], step.action) || InterruptsSweep(s, s.runs[step.r], step.action))
  }

  // ----- who holds what

  lemma DeletersHold(r: RunId, run: Run, final: Option<Entry>)
    requires RunOk(r, run, final)
    ensures DeletesEntry(run) ==> run.pub == Held && run.write == Held
    ensures DeletesBackup(run) || run.task.Promoting? ==> run.pub == Held && !run.fut.SweeperCheck? && !run.fut.SweeperDelete?
  {
  }

  // ----- a run's own steps

  lemma InstallLeavesDeletion(run: Run, final: Option<Entry>, a: InstallAction, run': Run)
    requires TaskOk(run) && InstallStep(run, final, a, run')
    ensures (DeletesEntry(run) || DeletesBackup(run)) ==> run'.task == run.task && run'.fut == run.fut
    ensures run'.task == Deleting ==> run.task == Deleting && run'.fut == run.fut
  {
  }

  lemma TxDeletion(r: RunId, run: Run, final: Option<Entry>, a: TxAction, run': Run, final': Option<Entry>)
    requires TxStep(r, run, final, a, run', final') && !InterruptsRun(run, Transact(a))
    ensures DeletesEntry(run) && Partial(final') ==> DeletesEntry(run')
    ensures DeletesBackup(run) && Partial(run'.backup) ==> DeletesBackup(run')
  {
  }

  lemma CancelDeletion(run: Run, run': Run)
    requires TaskOk(run) && run.task != Deleting && AnytimeStep(run, Cancel, run')
    ensures DeletesEntry(run) ==> DeletesEntry(run')
    ensures DeletesBackup(run) ==> DeletesBackup(run')
    ensures run'.task != Deleting && run'.backup == run.backup
  {
  }

  /** An uninterrupted deletion goes on until nothing is left. */
  lemma DeletionGoesOn(r: RunId, run: Run, final: Option<Entry>, a: Action, run': Run, final': Option<Entry>)
    requires TaskOk(run) && LocalStep(r, run, final, a, run', final') && !InterruptsRun(run, a)
    ensures DeletesEntry(run) && Partial(final') ==> DeletesEntry(run')
    ensures DeletesBackup(run) && Partial(run'.backup) ==> DeletesBackup(run')
    ensures run'.task == Deleting && run'.fut == Gone ==> run.task == Deleting && run.fut == Gone
  {
    hide InstallStep, TxStep;
    match a
    case Install(i) =>
      InstallLeavesDeletion(run, final, i, run');
      InstallLeavesOthers(run, final, i, run');
    case Transact(t) =>
      TxShape(r, run, final, t, run', final');
      TxDeletion(r, run, final, t, run', final');
    case Remove(d) =>
    case Anytime(x) =>
      if x == Cancel {
        CancelDeletion(run, run');
      }
  }

  /** Where a partial entry or backup of a run's own step comes from. */
  lemma TxMakesPartial(r: RunId, run: Run, final: Option<Entry>, a: TxAction, run': Run, final': Option<Entry>)
    requires FilesOk(run) && TxStep(r, run, final, a, run', final')
    ensures Partial(final') && final' != final ==> DeletesEntry(run') || (run.task == Promoting(Undo(false, true)) && final' == run.backup)
    ensures Partial(run'.backup) && run'.backup != run.backup ==> DeletesBackup(run') || (run.task == Promoting(Start) && run'.backup == final)
  {
  }

  lemma LocalMakesPartial(r: RunId, run: Run, final: Option<Entry>, a: Action, run': Run, final': Option<Entry>)
    requires FilesOk(run) && TaskOk(run) && LocalStep(r, run, final, a, run', final')
    requires !(run.task == Deleting && run.fut == Gone)
    ensures Partial(final') && final' != final ==> DeletesEntry(run') || (run.task == Promoting(Undo(false, true)) && final' == run.backup)
    ensures Partial(run'.backup) && run'.backup != run.backup ==> DeletesBackup(run') || (run.task == Promoting(Start) && run'.backup == final)
  {
    hide InstallStep, TxStep, FilesOk;
    match a
    case Install(i) => InstallLeavesOthers(run, final, i, run');
    case Transact(t) => TxMakesPartial(r, run, final, t, run', final');
    case Remove(d) =>
    case Anytime(x) => AnytimeLeavesOthers(run, x, run');
  }

  lemma InstallKeepsSweep(run: Run, final: Option<Entry>, a: InstallAction, run': Run)
    requires TaskOk(run) && run.fut.SweeperDelete?
    ensures !InstallStep(run, final, a, run')
  {
  }

  /** A deleting sweep stays one until it ends or crashes. */
  lemma SweepGoesOn(r: RunId, run: Run, final: Option<Entry>, a: Action, run': Run, final': Option<Entry>)
    requires RunOk(r, run, final) && LocalStep(r, run, final, a, run', final') && run.fut.SweeperDelete?
    requires a != Anytime(Crash) && a != Remove(SweepEnds)
    ensures run'.fut == run.fut
  {
    SweepingHolds(r, run, final);
    TaskOfRun(r, run, final);
    hide InstallStep, RunOk;
    if a.Install? { InstallKeepsSweep(run, final, a.install, run'); }
  }

  lemma TaskOfRun(r: RunId, run: Run, final: Option<Entry>)
    requires RunOk(r, run, final)
    ensures TaskOk(run) && FilesOk(run)
  {
  }

  // ----- steps of the whole system

  /** Nobody else works on the entry while it or a backup is being removed. */
  lemma PartialIsAlone(s: State, r: RunId)
    requires Inv(s) && OnlyUnderRemoval(s) && r in s.runs && s.runs[r].pub == Held
    ensures Partial(s.final) ==> DeletesEntry(s.runs[r])
    ensures !s.runs[r].fut.SweeperDelete? ==>
              forall b :: b in s.runs && Partial(s.runs[b].backup) ==> b == r && DeletesBackup(s.runs[r])
  {
    hide RunOk, DeletesEntry, DeletesBackup, Partial;
    forall q | q in s.runs ensures DeletesEntry(s.runs[q]) || DeletesBackup(s.runs[q]) ==> s.runs[q].pub == Held {
      DeletersHold(q, s.runs[q], s.final);
    }
    forall q | q in s.runs && s.runs[q].fut.SweeperDelete? ensures s.runs[q].pub == Held {
      SweepingHolds(q, s.runs[q], s.final);
    }
  }

  lemma ActKeepsFinal(s: State, r: RunId, a: Action, s': State)
    requires Inv(s) && OnlyUnderRemoval(s) && Next(s, Act(r, a), s') && !Interrupts(s, Act(r, a))
    ensures Partial(s'.final) ==> exists q :: q in s'.runs && DeletesEntry(s'.runs[q])
  {
    hide RunOk, LocalStep, InterruptsRun, InterruptsSweep, DeletesEntry, DeletesBackup;
    var run, run' := s.runs[r], s'.runs[r];
    TaskOfRun(r, run, s.final);
    if Partial(s'.final) {
      if s'.final == s.final {
        var q :| q in s.runs && DeletesEntry(s.runs[q]);
        if q == r { DeletionGoesOn(r, run, s.final, a, run', s'.final); }
        assert q in s'.runs && DeletesEntry(s'.runs[q]);
      } else {
        LocalMakesPartial(r, run, s.final, a, run', s'.final);
        if !DeletesEntry(run') {
          DeletersHold(r, run, s.final);
          PartialIsAlone(s, r);
          UndoingDeletesNoBackup(run);
        }
      }
    }
  }

  lemma UndoingDeletesNoBackup(run: Run)
    ensures run.task == Promoting(Undo(false, true)) ==> !DeletesBackup(run)
    ensures run.task == Promoting(Start) ==> !DeletesEntry(run)
  {
  }

  lemma ActKeepsBackups(s: State, r: RunId, a: Action, s': State, b: RunId)
    requires Inv(s) && OnlyUnderRemoval(s) && Next(s, Act(r, a), s') && !Interrupts(s, Act(r, a))
    requires b in s'.runs && Partial(s'.runs[b].backup)
    ensures DeletesBackup(s'.runs[b]) || SweepDeletes(s', b)
  {
    hide RunOk, LocalStep, InterruptsRun, DeletesEntry, DeletesBackup;
    var run, run' := s.runs[r], s'.runs[r];
    TaskOfRun(r, run, s.final);
    if b == r && run'.backup != run.backup {
      LocalMakesPartial(r, run, s.final, a, run', s'.final);
      if !DeletesBackup(run') {
        DeletersHold(r, run, s.final);
        PartialIsAlone(s, r);
        UndoingDeletesNoBackup(run);
      }
    } else if DeletesBackup(s.runs[b]) {
      if b == r { DeletionGoesOn(r, run, s.final, a, run', s'.final); }
    } else {
      var q :| q in s.runs && s.runs[q].fut.SweeperDelete? && BackupOf(b) in s.runs[q].fut.seen;
      if q == r {
        assert OnDisk(s, BackupOf(b));
        SweepGoesOn(r, run, s.final, a, run', s'.final);
      }
      assert q in s'.runs && s'.runs[q].fut == s.runs[q].fut;
    }
  }

  lemma ActKeepsAttached(s: State, r: RunId, a: Action, s': State, q: RunId)
    requires Inv(s) && OnlyUnderRemoval(s) && Next(s, Act(r, a), s') && !Interrupts(s, Act(r, a)) && q in s'.runs
    ensures !(s'.runs[q].task == Deleting && s'.runs[q].fut == Gone)
  {
    hide RunOk, LocalStep, InterruptsRun, DeletesEntry, DeletesBackup;
    if q == r {
      TaskOfRun(r, s.runs[r], s.final);
      DeletionGoesOn(r, s.runs[r], s.final, a, s'.runs[r], s'.final);
    }
  }

  lemma ActKeepsComplete(s: State, r: RunId, a: Action, s': State)
    requires Inv(s) && OnlyUnderRemoval(s) && Next(s, Act(r, a), s') && !Interrupts(s, Act(r, a))
    ensures OnlyUnderRemoval(s')
  {
    hide Inv, Next, Interrupts, DeletesEntry, DeletesBackup, SweepDeletes, Partial;
    ActKeepsFinal(s, r, a, s');
    forall b | b in s'.runs && Partial(s'.runs[b].backup) ensures DeletesBackup(s'.runs[b]) || SweepDeletes(s', b) {
      ActKeepsBackups(s, r, a, s', b);
    }
    forall q | q in s'.runs ensures !(s'.runs[q].task == Deleting && s'.runs[q].fut == Gone) {
      ActKeepsAttached(s, r, a, s', q);
    }
  }

  /** A sweep leaves tasks alone; what it tears it was to remove, and what it puts in
      place is whole. */
  lemma SweepKeepsComplete(s: State, step: Step, s': State)
    requires Inv(s) && OnlyUnderRemoval(s) && Next(s, step, s') && IsSweep(step) && !s.confusable
    ensures OnlyUnderRemoval(s')
  {
    hide Inv, Next, SweptRun, DeletesEntry, DeletesBackup, SweepDeletes, Partial;
    SweepLeavesRun(s, step, s', step.r);
    forall q | q in s'.runs ensures q in s.runs && SweptRun(s.runs[q], s'.runs[q], q == step.r) {
      SweepLeavesRun(s, step, s', q);
    }
    forall q | q in s'.runs ensures !(s'.runs[q].task == Deleting && s'.runs[q].fut == Gone) {
      SweptStaysAttached(s.runs[q], s'.runs[q], q == step.r);
    }
    SweepKeepsFinal(s, step, s');
    forall b | b in s'.runs && Partial(s'.runs[b].backup) ensures DeletesBackup(s'.runs[b]) || SweepDeletes(s', b) {
      SweepKeepsBackup(s, step, s', b);
    }
  }

  lemma RestoresWhole(s: State, r: RunId, from: WorkName, s': State)
    requires Inv(s) && OnlyUnderRemoval(s) && Next(s, SweepRestore(r, from), s') && !s.confusable
    ensures !Partial(s'.final)
  {
    hide RunOk, LocalStep, Compatible, DeletesEntry, DeletesBackup;
    SweepingHolds(r, s.runs[r], s.final);
    PartialIsAlone(s, r);
    assert s'.final == s.runs[from.run].backup;
    SweepersDeleteNothing(s.runs[r]);
  }

  lemma SweepersDeleteNothing(run: Run)
    requires run.task == NoTask
    ensures !DeletesEntry(run) && !DeletesBackup(run)
  {
  }

  lemma SweepKeepsFinal(s: State, step: Step, s': State)
    requires Inv(s) && OnlyUnderRemoval(s) && Next(s, step, s') && IsSweep(step) && !s.confusable
    requires forall q :: q in s'.runs ==> q in s.runs && SweptRun(s.runs[q], s'.runs[q], q == step.r)
    ensures Partial(s'.final) ==> exists q :: q in s'.runs && DeletesEntry(s'.runs[q])
  {
    SweepLeavesRun(s, step, s', step.r);
    if step.SweepRestore? {
      RestoresWhole(s, step.r, step.from, s');
    } else {
      hide RunOk, Next, DeletesEntry;
      if Partial(s.final) {
        var q :| q in s.runs && DeletesEntry(s.runs[q]);
        DeleterIsNoSweep(q, s.runs[q], s.final);
        SameDeletion(s.runs[q], s'.runs[q]);
      }
    }
  }

  lemma SweptStaysAttached(run: Run, run': Run, sweeping: bool)
    requires SweptRun(run, run', sweeping) && !(run.task == Deleting && run.fut == Gone)
    ensures !(run'.task == Deleting && run'.fut == Gone)
  {
  }

  lemma DeleterIsNoSweep(q: RunId, run: Run, final: Option<Entry>)
    requires RunOk(q, run, final) && DeletesEntry(run)
    ensures !Sweeping(run.fut)
  {
  }

  /** A sweep's step makes a backup partial only by removing it. */
  lemma TornIsSwept(s: State, step: Step, s': State, b: RunId)
    requires Next(s, step, s') && IsSweep(step) && b in s.runs && b in s'.runs
    requires Partial(s'.runs[b].backup) && !Partial(s.runs[b].backup)
    ensures step == SweepTear(step.r, BackupOf(b)) && step.r in s.runs && step.r in s'.runs
    ensures s'.runs[step.r].fut == s.runs[step.r].fut && s.runs[step.r].fut.SweeperDelete? && BackupOf(b) in s.runs[step.r].fut.seen
  {
    hide LocalStep, Compatible;
  }

  lemma SweepKeepsBackup(s: State, step: Step, s': State, b: RunId)
    requires Inv(s) && OnlyUnderRemoval(s) && Next(s, step, s') && IsSweep(step)
    requires forall q :: q in s'.runs ==> q in s.runs && SweptRun(s.runs[q], s'.runs[q], q == step.r)
    requires b in s'.runs && Partial(s'.runs[b].backup)
    ensures DeletesBackup(s'.runs[b]) || SweepDeletes(s', b)
  {
    SweepLeavesRun(s, step, s', b);
    if !Partial(s.runs[b].backup) {
      TornIsSwept(s, step, s', b);
    } else {
      hide RunOk, Next;
      if !DeletesBackup(s.runs[b]) {
        var q :| q in s.runs && s.runs[q].fut.SweeperDelete? && BackupOf(b) in s.runs[q].fut.seen;
        assert q in s'.runs && s'.runs[q].fut == s.runs[q].fut;
      }
    }
  }

  lemma OtherStepKeepsComplete(s: State, step: Step, s': State)
    requires OnlyUnderRemoval(s) && Next(s, step, s') && (step.Spawn? || step.Acquire?)
    ensures OnlyUnderRemoval(s')
  {
    OtherStepLeaves(s, step, s');
    hide Next, DeletesEntry, DeletesBackup, SweepDeletes, Partial;
    if Partial(s.final) {
      var q :| q in s.runs && DeletesEntry(s.runs[q]);
      SameDeletion(s.runs[q], s'.runs[q]);
    }
    forall b | b in s'.runs && Partial(s'.runs[b].backup) ensures DeletesBackup(s'.runs[b]) || SweepDeletes(s', b) {
      NoneIsWhole();
      SameDeletion(s.runs[b], s'.runs[b]);
      if SweepDeletes(s, b) { SameSweeps(s, s', b); }
    }
  }

  lemma NoneIsWhole()
    ensures !Partial(None)
  {
  }

  lemma SameSweeps(s: State, s': State, b: RunId)
    requires SweepDeletes(s, b) && s.runs.Keys <= s'.runs.Keys && forall q :: q in s.runs ==> s'.runs[q].fut == s.runs[q].fut
    ensures SweepDeletes(s', b)
  {
    var q :| q in s.runs && s.runs[q].fut.SweeperDelete? && BackupOf(b) in s.runs[q].fut.seen;
    assert q in s'.runs && s'.runs[q].fut == s.runs[q].fut;
  }

  lemma SameDeletion(run: Run, run': Run)
    requires run'.task == run.task && run'.fut == run.fut
    ensures DeletesEntry(run') == DeletesEntry(run) && DeletesBackup(run') == DeletesBackup(run)
  {
  }

  lemma StepKeepsComplete(s: State, step: Step, s': State)
    requires Inv(s) && OnlyUnderRemoval(s) && Next(s, step, s') && !Interrupts(s, step) && !s.confusable
    ensures OnlyUnderRemoval(s')
  {
    hide Inv, OnlyUnderRemoval, Next, Interrupts;
    match step
    case Act(r, a) => ActKeepsComplete(s, r, a, s');
    case Spawn(r, kind, seen) => OtherStepKeepsComplete(s, step, s');
    case Acquire(r, lock) => OtherStepKeepsComplete(s, step, s');
    case _ => SweepKeepsComplete(s, step, s');
  }

  // ----- whole runs

  ghost predicate Uninterrupted(states: seq<State>, steps: seq<Step>, from: nat, to: nat)
    requires Behaviour(states, steps) && to < |states|
  {
    forall k :: from <= k < to ==> !Interrupts(states[k], steps[k])
  }

  lemma UninterruptedPrefix(states: seq<State>, steps: seq<Step>, from: nat, to: nat)
    requires Behaviour(states, steps) && from < to < |states| && Uninterrupted(states, steps, from, to)
    ensures Uninterrupted(states, steps, from, to - 1) && !Interrupts(states[to - 1], steps[to - 1])
  {
    hide Interrupts, Next;
  }

  lemma ConfusableIsFixed(s: State, step: Step, s': State)
    requires Next(s, step, s')
    ensures s'.confusable == s.confusable
  {
  }

  lemma {:induction false} CompleteThroughout(states: seq<State>, steps: seq<Step>, from: nat, i: nat)
    requires Behaviour(states, steps) && from <= i < |states|
    requires OnlyUnderRemoval(states[from]) && !states[from].confusable && Uninterrupted(states, steps, from, i)
    ensures OnlyUnderRemoval(states[i]) && !states[i].confusable
  {
    hide Behaviour, Inv, Next, OnlyUnderRemoval, Uninterrupted, Interrupts;
    if from < i {
      BehaviourLength(states, steps);
      BehaviourStep(states, steps, i - 1);
      UninterruptedPrefix(states, steps, from, i);
      CompleteThroughout(states, steps, from, i - 1);
      ConfusableIsFixed(states[i - 1], steps[i - 1], states[i]);
      StepKeepsComplete(states[i - 1], steps[i - 1], states[i]);
    }
  }

  lemma StartIsComplete(states: seq<State>, steps: seq<Step>)
    requires Behaviour(states, steps)
    ensures OnlyUnderRemoval(states[0])
  {
    hide Next;
  }

  /** For a key without the backup marker, and as long as no removal is interrupted,
      whatever else crashes, fails or is cancelled: the entry is partial only while an
      uninstall or a rollback is removing it under both locks, and a backup only while
      its publication or a sweep is removing it under the publication lock. */
  lemma OnlyCompletePayloads(states: seq<State>, steps: seq<Step>, from: nat, i: nat)
    requires Behaviour(states, steps) && from <= i < |states|
    requires from == 0 || OnlyUnderRemoval(states[from])
    requires !states[from].confusable && Uninterrupted(states, steps, from, i)
    ensures OnlyUnderRemoval(states[i])
    ensures Partial(states[i].final) ==>
              exists q :: q in states[i].runs && DeletesEntry(states[i].runs[q])
                          && states[i].runs[q].pub == Held && states[i].runs[q].write == Held
    ensures forall b :: b in states[i].runs && Partial(states[i].runs[b].backup) ==>
              exists q :: q in states[i].runs && states[i].runs[q].pub == Held
                          && (states[i].runs[q].fut.SweeperDelete? || (q == b && DeletesBackup(states[i].runs[q])))
  {
    hide RunOk, Next, DeletesEntry, DeletesBackup, Uninterrupted;
    if from == 0 { StartIsComplete(states, steps); }
    CompleteThroughout(states, steps, from, i);
    BehaviourInv(states, steps, i);
    var s := states[i];
    forall q | q in s.runs ensures DeletesEntry(s.runs[q]) ==> s.runs[q].pub == Held && s.runs[q].write == Held {
      DeletersHold(q, s.runs[q], s.final);
    }
    forall b | b in s.runs && Partial(s.runs[b].backup)
      ensures exists q :: q in s.runs && s.runs[q].pub == Held
                          && (s.runs[q].fut.SweeperDelete? || (q == b && DeletesBackup(s.runs[q])))
    {
      if DeletesBackup(s.runs[b]) {
        DeletersHold(b, s.runs[b], s.final);
      } else {
        var q :| q in s.runs && s.runs[q].fut.SweeperDelete? && BackupOf(b) in s.runs[q].fut.seen;
        SweepingHolds(q, s.runs[q], s.final);
      }
    }
  }
}
