/** What failed promotions, cancelled installs, uninstalls and sweeps clean up or put back
    when nothing stands in their way, from any reachable state. */
module CacheCleanup {
  import opened Wrappers
  import opened CacheProtocol
  import opened CachePaths
  import opened CacheProgress
  import opened CacheOutcomes

  // ----- one run going on alone

  /** Whatever leads to `s` leads on to `s'`. */
  ghost predicate Continues(s: State, s': State) {
    forall from: State :: Leads(from, false, s) ==> Leads(from, false, s')
  }

  lemma ContinuesOn(s: State, mid: State, step: Step, s': State)
    requires Continues(s, mid) && Next(mid, step, s')
    ensures Continues(s, s')
  {
    hide Leads, Next;
    forall from: State | Leads(from, false, s) ensures Leads(from, false, s') { LeadsOn(from, false, mid, step, s'); }
  }

  lemma ContinuesNowhere(s: State)
    ensures Continues(s, s)
  {
  }

  /** From `s`, run `r` alone can get to `run` with the entry `final`. */
  ghost predicate Brings(s: State, r: RunId, run: Run, final: Option<Entry>) {
    r in s.runs && Continues(s, After(s, r, run, final))
  }

  lemma Begins(s: State, r: RunId)
    requires r in s.runs
    ensures Brings(s, r, s.runs[r], s.final)
  {
    assert After(s, r, s.runs[r], s.final) == s;
  }

  lemma Does(s: State, r: RunId, run: Run, final: Option<Entry>, a: Action, run': Run, final': Option<Entry>)
    requires Brings(s, r, run, final) && LocalStep(r, run, final, a, run', final')
    ensures Brings(s, r, run', final')
  {
    hide Continues, LocalStep;
    var mid := After(s, r, run, final);
    NextAct(mid, r, a, run', final');
    assert After(mid, r, run', final') == After(s, r, run', final');
    ContinuesOn(s, mid, Act(r, a), After(s, r, run', final'));
  }

  lemma Obtains(s: State, r: RunId, run: Run, final: Option<Entry>, lock: Lock)
    requires Brings(s, r, run, final) && GrantOf(run, lock) == Waiting && Clear(s, r, lock == Write)
    requires run.write != Held && (lock == Write ==> run.read1 != Held && run.read2 != Held)
    ensures Brings(s, r, WithGrant(run, lock, Held), final)
  {
    hide Continues;
    var mid := After(s, r, run, final);
    assert Compatible(mid, lock);
    assert After(mid, r, WithGrant(run, lock, Held), final) == After(s, r, WithGrant(run, lock, Held), final);
    ContinuesOn(s, mid, Acquire(r, lock), After(s, r, WithGrant(run, lock, Held), final));
  }

  // ----- a promotion that fails

  lemma PromotionFails(s: State, r: RunId, run: Run, final: Option<Entry>, undone: Run)
    requires Brings(s, r, run, final) && PlaceOk(r, run, final)
    requires run.task.Promoting? && !run.task.tx.Undo? && !run.task.tx.DropStaging? && !run.task.tx.Committed?
    requires undone == run.(task := Promoting(Undo(false, (run.task.tx.Aside? || run.task.tx.InPlace?) && run.task.tx.moved)))
    ensures Brings(s, r, undone, if run.task.tx.Aside? || run.task.tx.InPlace? then None else final)
  {
    hide Brings;
    var failed := run.(task := Promoting(Undo(run.task.tx.InPlace?, undone.task.tx.moved)));
    Does(s, r, run, final, Transact(TxFail), failed, final);
    if run.task.tx.InPlace? { Does(s, r, failed, final, Transact(TxUndoFinal), undone, None); }
  }

  /** It puts back what it moved aside, if anything. */
  lemma UndoPutsBack(s: State, r: RunId, run: Run, final: Option<Entry>)
    requires Brings(s, r, run, final) && run.task.Promoting? && run.task.tx.Undo? && !run.task.tx.published
    requires run.task.tx.moved ==> run.backup.Some? && final == None
    ensures var moved := run.task.tx.moved;
            Brings(s, r, run.(task := Promoting(DropStaging), backup := if moved then None else run.backup), if moved then run.backup else final)
  {
    hide Brings;
    var dropping := run.(task := Promoting(DropStaging));
    if run.task.tx.moved {
      Does(s, r, run, final, Transact(TxRestore), dropping.(backup := None), run.backup);
    } else {
      Does(s, r, run, final, Transact(TxUndone), dropping, final);
    }
  }

  lemma RollbackEnds(s: State, r: RunId, run: Run, final: Option<Entry>)
    requires Brings(s, r, run, final) && run.fut == AwaitPromote && run.task == Promoting(DropStaging)
    ensures Brings(s, r, run.(fut := Gone, task := NoTask, staging := None), final)
  {
    hide Brings;
    var clean := run.(task := Promoted(None), staging := None);
    Does(s, r, run, final, Transact(TxDropStaging), clean, final);
    Does(s, r, clean, final, Install(AfterPromote), clean.(fut := Gone, task := NoTask), final);
  }

  lemma MovedIsThere(s: State, r: RunId)
    requires Inv(s) && r in s.runs && s.runs[r].task.Promoting? && (s.runs[r].task.tx.Aside? || s.runs[r].task.tx.InPlace?)
    ensures s.runs[r].task.tx.moved ==> s.runs[r].backup.Some?
    ensures PlaceOk(r, s.runs[r], s.final)
  {
    assert FilesOk(s.runs[r]) && PlaceOk(r, s.runs[r], s.final) by { assert RunOk(r, s.runs[r], s.final); }
    hide Inv;
  }

  /** A promotion that fails, before or after it renamed its payload into place, can put
      the old entry back, or leave none if there was none, and take its staging directory
      away. */
  lemma RollbackRestores(s: State, r: RunId)
    requires Inv(s) && r in s.runs && s.runs[r].fut == AwaitPromote && s.runs[r].task.Promoting?
    requires s.runs[r].task.tx.Aside? || s.runs[r].task.tx.InPlace?
    ensures var run, moved := s.runs[r], s.runs[r].task.tx.moved;
            && (moved ==> run.backup.Some?)
            && Brings(s, r, run.(fut := Gone, task := NoTask, staging := None, backup := if moved then None else run.backup),
                      if moved then run.backup else None)
  {
    var run, moved := s.runs[r], s.runs[r].task.tx.moved;
    MovedIsThere(s, r);
    Begins(s, r);
    hide Inv, Brings;
    var undone := run.(task := Promoting(Undo(false, moved)));
    PromotionFails(s, r, run, s.final, undone);
    UndoPutsBack(s, r, undone, None);
    RollbackEnds(s, r, undone.(task := Promoting(DropStaging), backup := if moved then None else run.backup),
                 if moved then run.backup else None);
  }

  // ----- a cancelled install

  /** A run that is over lets go of all its locks. */
  lemma LocksAreDropped(s: State, r: RunId, run: Run, final: Option<Entry>)
    requires Brings(s, r, run, final) && run.fut == Gone && run.task == NoTask
    ensures Brings(s, r, Unlocked(run), final) && Quiet(Unlocked(run))
  {
    hide Brings;
    var run1 := LockIsDropped(s, r, run, final, Pub);
    var run2 := LockIsDropped(s, r, run1, final, FirstRead);
    var run3 := LockIsDropped(s, r, run2, final, Write);
    var run4 := LockIsDropped(s, r, run3, final, SecondRead);
  }

  function Dropped(g: Grant): Grant { if g == Held then Idle else g }

  function Unlocked(run: Run): Run {
    run.(pub := Dropped(run.pub), read1 := Dropped(run.read1), write := Dropped(run.write), read2 := Dropped(run.read2))
  }

  lemma LockIsDropped(s: State, r: RunId, run: Run, final: Option<Entry>, lock: Lock) returns (run': Run)
    requires Brings(s, r, run, final) && run.fut == Gone && run.task == NoTask
    ensures run' == WithGrant(run, lock, Dropped(GrantOf(run, lock))) && Brings(s, r, run', final)
  {
    hide Brings;
    run' := WithGrant(run, lock, Dropped(GrantOf(run, lock)));
    if GrantOf(run, lock) == Held {
      Does(s, r, run, final, Anytime(Release(lock)), run', final);
    } else {
      assert run' == run;
    }
  }

  /** What is in place again when a promotion is undone. */
  function PutBack(run: Run, final: Option<Entry>): Option<Entry> {
    if run.task.Promoting? && (run.task.tx.Aside? || run.task.tx.InPlace?) then
      if run.task.tx.moved then run.backup else None
    else final
  }

  /** Cancelled, its running task goes on. */
  lemma CancelLeads(s: State, r: RunId, run: Run, final: Option<Entry>)
    requires Brings(s, r, run, final) && OnCourse(run) && !run.fut.Leased?
    ensures Brings(s, r, Cancelled(run).(staging := if run.fut == Download || run.fut == AwaitMkdir then None else run.staging), final)
  {
    hide Brings;
    var run' := Cancelled(run).(staging := if run.fut == Download || run.fut == AwaitMkdir then None else run.staging);
    Does(s, r, run, final, Anytime(Cancel), run', final);
  }

  predicate Preparing(task: Task) {
    || task == Validating || task == MakingDir || task == Extracting || task == Sealing || task == Discarding || task == Cleaning
  }

  /** A task that finds its install gone ends, and takes the staging directory along. */
  lemma PreparationDrains(s: State, r: RunId, run: Run, final: Option<Entry>)
    requires Brings(s, r, run, final) && run.fut == Gone && Preparing(run.task)
    requires run.task == Validating || run.task == MakingDir ==> run.staging == None
    ensures Brings(s, r, run.(task := NoTask, staging := None), final)
  {
    hide Brings;
    var over, discards := run.(task := NoTask, staging := None), run.(task := Discarding);
    match run.task
    case Validating => Does(s, r, run, final, Install(ValidateEnds(false)), over, final);
    case MakingDir => Does(s, r, run, final, Install(MkdirEnds(false)), over, final);
    case Cleaning => Does(s, r, run, final, Install(CleanEnds), over, final);
    case Discarding => Does(s, r, run, final, Install(DiscardEnds), over, final);
    case Extracting =>
      Does(s, r, run, final, Install(ExtractEnds(false)), discards, final);
      Does(s, r, discards, final, Install(DiscardEnds), over, final);
    case Sealing =>
      Does(s, r, run, final, Install(SealEnds(false)), discards, final);
      Does(s, r, discards, final, Install(DiscardEnds), over, final);
  }

  /** So does a promotion: it is undone, or was over already. */
  lemma PromotionDrains(s: State, r: RunId, run: Run, final: Option<Entry>) returns (run': Run)
    requires Brings(s, r, run, final) && run.fut == Gone && PlaceOk(r, run, final) && PromotableOk(run)
    requires run.task.Promoting? && !run.task.tx.Undo? && !run.task.tx.DropStaging?
    ensures Brings(s, r, run', PutBack(run, final)) && run'.fut == Gone && run'.task == NoTask && run'.staging == None
  {
    hide Brings;
    if run.task.tx.Committed? {
      run' := run.(task := NoTask, backup := None);
      Does(s, r, run, final, Transact(TxFinish(true)), run', final);
    } else {
      var moved := (run.task.tx.Aside? || run.task.tx.InPlace?) && run.task.tx.moved;
      var undone := run.(task := Promoting(Undo(false, moved)));
      PromotionFails(s, r, run, final, undone);
      var bare := if run.task.tx.Aside? || run.task.tx.InPlace? then None else final;
      UndoPutsBack(s, r, undone, bare);
      var dropping := run.(task := Promoting(DropStaging), backup := if moved then None else run.backup);
      run' := dropping.(task := NoTask, staging := None);
      Does(s, r, dropping, PutBack(run, final), Transact(TxDropStaging), run', PutBack(run, final));
    }
  }

  lemma NothingStagedYet(r: RunId, run: Run, final: Option<Entry>)
    requires RunOk(r, run, final) && OnCourse(run) && !run.fut.Leased?
    ensures var run' := Cancelled(run);
            && (run'.task.Promoting? ==> run'.task == run.task && run.fut == AwaitPromote)
            && (run'.task == NoTask ==> run.staging == None || run.fut == Download)
            && (run'.task.Promoting? || run'.task == NoTask || Preparing(run'.task))
            && (run'.task == Validating ==> run.staging == None)
            && (run'.task == MakingDir ==> run.fut == AwaitMkdir)
            && (run'.task != run.task ==> !run.task.Promoting?)
  {
  }

  lemma CancelledKeepsPlace(r: RunId, run: Run, final: Option<Entry>)
    requires RunOk(r, run, final) && run.task.Promoting? && Cancelled(run).task == run.task
    ensures PlaceOk(r, Cancelled(run), final) && PromotableOk(Cancelled(run))
  {
  }

  /** An install that is cancelled anywhere on its way can clean up by itself: its task
      ends, its staging directory goes, what its promotion moved aside comes back, and it
      lets go of its locks. */
  lemma CancelledInstallCleansUp(s: State, r: RunId) returns (run': Run)
    requires Inv(s) && r in s.runs && OnCourse(s.runs[r]) && !s.runs[r].fut.Leased?
    ensures Brings(s, r, run', PutBack(s.runs[r], s.final))
    ensures run'.fut == Gone && run'.task == NoTask && run'.staging == None && Quiet(run')
  {
    var run, final := s.runs[r], s.final;
    assert RunOk(r, run, final);
    NothingStagedYet(r, run, final);
    Begins(s, r);
    CancelLeads(s, r, run, final);
    hide Brings, Inv, OnCourse, Preparing;
    var gone := Cancelled(run).(staging := if run.fut == Download || run.fut == AwaitMkdir then None else run.staging);
    assert gone.fut == Gone && gone.task == Cancelled(run).task;
    if gone.task.Promoting? {
      CancelledKeepsPlace(r, run, final);
      hide RunOk;
      assert gone == Cancelled(run);
      run' := PromotionDrains(s, r, gone, final);
    } else {
      hide RunOk;
      run' := gone.(task := NoTask, staging := None);
      if gone.task == NoTask { assert run' == gone; } else { PreparationDrains(s, r, gone, final); }
    }
    LocksAreDropped(s, r, run', PutBack(run, final));
    run' := Unlocked(run');
  }

  // ----- uninstalls and sweeps

  lemma UninstallLocks(s: State, r: RunId, u: Run)
    requires r in s.runs && s.runs[r] == u && Clear(s, r, true)
    requires u.fut == RemoverAwaitPub && u.pub == Waiting && u.task == NoTask && u.read1 == u.write == u.read2 == Idle
    ensures Brings(s, r, u.(fut := AwaitDelete, task := Deleting, pub := Held, write := Held), s.final)
  {
    Begins(s, r);
    hide Brings;
    Obtains(s, r, u, s.final, Pub);
    var asks := u.(fut := RemoverAwaitWrite, pub := Held, write := Waiting);
    Does(s, r, u.(pub := Held), s.final, Remove(RemoverGotPub), asks, s.final);
    Obtains(s, r, asks, s.final, Write);
    Does(s, r, asks.(write := Held), s.final, Remove(RemoverGotWrite), asks.(fut := AwaitDelete, task := Deleting, write := Held), s.final);
  }

  lemma UninstallDeletes(s: State, r: RunId, d: Run, final: Option<Entry>)
    requires Brings(s, r, d, final) && d.fut == AwaitDelete && d.task == Deleting && d.pub == d.write == Held
    ensures Brings(s, r, d.(fut := Gone, task := NoTask, pub := Idle, write := Idle), None)
  {
    hide Brings;
    Does(s, r, d, final, Remove(DeleteFinal), d.(task := Deleted), None);
    var done := d.(fut := Gone, task := NoTask);
    Does(s, r, d.(task := Deleted), None, Remove(AfterDelete), done, None);
    Does(s, r, done, None, Anytime(Release(Write)), done.(write := Idle), None);
    Does(s, r, done.(write := Idle), None, Anytime(Release(Pub)), done.(write := Idle, pub := Idle), None);
  }

  /** An uninstall that nobody stands in the way of removes the entry and lets go of both
      locks. */
  lemma UninstallRemoves(s: State, r: RunId, wait: bool)
    requires r in s.runs && s.runs[r] == Fresh(Uninstaller(wait), {}) && Clear(s, r, true)
    ensures Brings(s, r, Fresh(Uninstaller(wait), {}).(fut := Gone, pub := Idle), None)
  {
    var u := s.runs[r];
    UninstallLocks(s, r, u);
    hide Brings;
    UninstallDeletes(s, r, u.(fut := AwaitDelete, task := Deleting, pub := Held, write := Held), s.final);
  }

  /** A sweep that gets the lock looks at what it listed. */
  lemma SweepLooks(s: State, r: RunId, seen: set<WorkName>)
    requires r in s.runs && s.runs[r] == Fresh(Sweeper, seen) && Clear(s, r, false)
    ensures Brings(s, r, s.runs[r].(pub := Held, fut := SweeperCheck(seen)), s.final)
  {
    Begins(s, r);
    hide Brings;
    Obtains(s, r, s.runs[r], s.final, Pub);
    Does(s, r, s.runs[r].(pub := Held), s.final, Remove(SweeperGotPub), s.runs[r].(pub := Held, fut := SweeperCheck(seen)), s.final);
  }

  lemma SweepRestores(s: State, r: RunId, seen: set<WorkName>, q: RunId) returns (s': State)
    requires r in s.runs && s.runs[r] == Fresh(Sweeper, seen) && Clear(s, r, false)
    requires s.final == None && BackupOf(q) in seen && OnDisk(s, BackupOf(q))
    ensures Continues(s, s') && s'.runs.Keys == s.runs.Keys && s'.final == s.runs[q].backup
    ensures forall w :: OnDisk(s', w) <==> OnDisk(s, w) && w != BackupOf(q)
    ensures s'.runs[r].fut == SweeperDelete(seen) && s'.runs[r].task == NoTask && s'.runs[r].pub == Held
    ensures s'.runs[r].read1 != Held && s'.runs[r].write != Held && s'.runs[r].read2 != Held
  {
    SweepLooks(s, r, seen);
    hide Continues;
    var s2 := After(s, r, s.runs[r].(pub := Held, fut := SweeperCheck(seen)), None);
    assert forall w :: OnDisk(s2, w) <==> OnDisk(s, w);
    OneGone(s2, BackupOf(q), s2.(runs := Removed(s2, BackupOf(q))));
    var moved := Removed(s2, BackupOf(q));
    s' := s2.(final := Content(s2, BackupOf(q)), runs := moved[r := moved[r].(fut := SweeperDelete(seen))]);
    assert forall w :: OnDisk(s', w) <==> OnDisk(s2.(runs := moved), w);
    ContinuesOn(s, s2, SweepRestore(r, BackupOf(q)), s');
  }

  lemma SweepLeaves(s: State, mid: State, r: RunId, seen: set<WorkName>) returns (s': State)
    requires Continues(s, mid) && r in mid.runs && mid.runs[r].fut == SweeperDelete(seen) && mid.runs[r].task == NoTask
    requires mid.runs[r].pub == Held
    ensures Continues(s, s') && s' == After(mid, r, mid.runs[r].(fut := Gone, pub := Idle), mid.final)
  {
    hide Continues;
    var over := mid.runs[r].(fut := Gone);
    assert LocalStep(r, mid.runs[r], mid.final, Remove(SweepEnds), over, mid.final);
    assert LocalStep(r, over, mid.final, Anytime(Release(Pub)), over.(pub := Idle), mid.final);
    hide LocalStep;
    NextAct(mid, r, Remove(SweepEnds), over, mid.final);
    var s1 := After(mid, r, over, mid.final);
    ContinuesOn(s, mid, Act(r, Remove(SweepEnds)), s1);
    NextAct(s1, r, Anytime(Release(Pub)), over.(pub := Idle), mid.final);
    s' := After(s1, r, over.(pub := Idle), mid.final);
    ContinuesOn(s, s1, Act(r, Anytime(Release(Pub))), s');
    assert s' == After(mid, r, over.(pub := Idle), mid.final);
  }

  /** A sweep that nobody stands in the way of puts a backup it saw back in place when no
      entry is there, and takes away every work directory it saw and no other. */
  lemma SweepRestoresAndClears(s: State, r: RunId, seen: set<WorkName>, q: RunId) returns (s': State)
    requires r in s.runs && s.runs[r] == Fresh(Sweeper, seen) && Clear(s, r, false)
    requires s.final == None && BackupOf(q) in seen && OnDisk(s, BackupOf(q))
    ensures Continues(s, s') && s'.runs.Keys == s.runs.Keys
    ensures s'.final == s.runs[q].backup
    ensures forall w :: OnDisk(s', w) <==> OnDisk(s, w) && w !in seen
    ensures s'.runs[r].fut == Gone && Quiet(s'.runs[r])
  {
    var s1 := SweepRestores(s, r, seen, q);
    hide Continues;
    var s2 := SweepClears(s, s1, r, seen, seen);
    s' := SweepLeaves(s, s2, r, seen);
    assert forall w :: OnDisk(s', w) <==> OnDisk(s2, w);
  }

  lemma {:induction false} SweepClears(from: State, s: State, r: RunId, seen: set<WorkName>, left: set<WorkName>) returns (s': State)
    requires Continues(from, s) && r in s.runs && s.runs[r].fut == SweeperDelete(seen) && left <= seen
    requires forall w :: w in seen && w !in left ==> !OnDisk(s, w)
    ensures Continues(from, s') && s'.runs.Keys == s.runs.Keys && s'.final == s.final
    ensures s'.runs[r] == s.runs[r].(staging := s'.runs[r].staging, backup := s'.runs[r].backup)
    ensures forall w :: w in seen ==> !OnDisk(s', w)
    ensures forall w :: w !in seen ==> (OnDisk(s', w) <==> OnDisk(s, w))
    decreases left
  {
    hide Continues;
    if left == {} { return s; }
    var w :| w in left;
    if OnDisk(s, w) {
      var next := s.(runs := Removed(s, w));
      ContinuesOn(from, s, SweepRemove(r, w), next);
      OneGone(s, w, next);
      s' := SweepClears(from, next, r, seen, left - {w});
    } else {
      s' := SweepClears(from, s, r, seen, left - {w});
    }
  }

  lemma OneGone(s: State, w: WorkName, s': State)
    requires OnDisk(s, w) && s' == s.(runs := Removed(s, w))
    ensures forall v :: OnDisk(s', v) <==> OnDisk(s, v) && v != w
  {
  }
}
