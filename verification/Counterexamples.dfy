/** Runs of the cache protocol that break what one might expect of it: leases,
    staging directories, complete payloads and installed entries are lost exactly
    where the guarantees make an exception. */
module Counterexamples {
  import opened Wrappers
  import opened CacheProtocol
  import opened CacheCompleteness
  import opened CacheDurability
  import opened CachePaths

  // ----- three runs on one stage

  datatype Scene = Scene(from: State, kept: bool, a: Run, b: Run, c: Run, confusable: bool) {
    function Get(r: RunId): Run { if r == 0 then a else if r == 1 then b else c }

    function With(r: RunId, run: Run): Scene {
      if r == 0 then this.(a := run) else if r == 1 then this.(b := run) else this.(c := run)
    }

    function At(final: Option<Entry>): State { State(final, map[0 := a, 1 := b, 2 := c], confusable) }
  }

  ghost predicate Shown(sc: Scene, final: Option<Entry>) { Leads(sc.from, sc.kept, sc.At(final)) }

  /** One of the three steps. */
  lemma Move(sc: Scene, final: Option<Entry>, r: RunId, action: Action, run': Run, final': Option<Entry>)
    requires Shown(sc, final) && r < 3 && LocalStep(r, sc.Get(r), final, action, run', final')
    requires sc.kept ==> !IsDeletion(Act(r, action))
    ensures Shown(sc.With(r, run'), final')
  {
    hide LocalStep, Leads, IsDeletion;
    var s, s' := sc.At(final), sc.With(r, run').At(final');
    ActLeads(sc.from, sc.kept, s, r, action, run', final');
    assert s'.runs == s.runs[r := run'];
  }

  /** One of the three gets a lock it waits for. */
  lemma Obtain(sc: Scene, final: Option<Entry>, r: RunId, lock: Lock)
    requires Shown(sc, final) && r < 3
    requires GrantOf(sc.Get(r), lock) == Waiting && Compatible(sc.At(final), lock)
    ensures Shown(sc.With(r, WithGrant(sc.Get(r), lock, Held)), final)
  {
    hide Leads, Compatible;
    var run := WithGrant(sc.Get(r), lock, Held);
    var s, s' := sc.At(final), sc.With(r, run).At(final);
    AcquireLeads(sc.from, sc.kept, s, r, lock);
    assert s'.runs == s.runs[r := run];
  }

  const I := Fresh(Installer(false), {})
  const U := Fresh(Uninstaller(true), {})
  const E := Entry(0, true)

  // An install, stage by stage.
  const VALIDATING := I.(fut := AwaitValidate, task := Validating, pub := Held, read1 := Held)
  const DOWNLOADING := I.(fut := Download, pub := Held, staging := Some(false))
  const MAKING := DOWNLOADING.(fut := AwaitMkdir, task := MakingDir)
  const EXTRACTING := DOWNLOADING.(fut := AwaitExtract, task := Extracting)
  const SEALING := DOWNLOADING.(fut := AwaitSeal, task := Sealing)
  const SEALED := DOWNLOADING.(fut := AwaitWrite, write := Waiting, staging := Some(true))
  const STAGED := DOWNLOADING.(fut := AwaitPromote, task := Promoting(Start), write := Held, staging := Some(true))

  /** Run `r` is at `run`, and the other two hold no lock. */
  ghost predicate Alone(sc: Scene, r: RunId, run: Run) {
    && r < 3 && sc.Get(r) == run
    && forall q :: 0 <= q < 3 && q != r ==>
         sc.Get(q).pub != Held && sc.Get(q).read1 != Held && sc.Get(q).write != Held && sc.Get(q).read2 != Held
  }

  lemma NobodyInTheWay(sc: Scene, final: Option<Entry>, r: RunId, run: Run, lock: Lock)
    requires Alone(sc, r, sc.Get(r))
    requires if lock == Pub then run.pub != Held
             else run.write != Held && (lock == Write ==> run.read1 != Held && run.read2 != Held)
    ensures Compatible(sc.With(r, run).At(final), lock)
  {
    assert sc.Get(0) == sc.a && sc.Get(1) == sc.b && sc.Get(2) == sc.c;
  }

  lemma Validates(sc: Scene, final: Option<Entry>, r: RunId)
    requires Shown(sc, final) && Alone(sc, r, I)
    ensures Shown(sc.With(r, VALIDATING), final)
  {
    hide Shown;
    assert sc.With(r, I) == sc;
    NobodyInTheWay(sc, final, r, I, Pub);
    Obtain(sc, final, r, Pub);
    var asking := I.(fut := AwaitRead, pub := Held, read1 := Waiting);
    Move(sc.With(r, I.(pub := Held)), final, r, Install(GotPub), asking, final);
    NobodyInTheWay(sc, final, r, asking, FirstRead);
    Obtain(sc.With(r, asking), final, r, FirstRead);
    Move(sc.With(r, asking.(read1 := Held)), final, r, Install(GotFirstRead), VALIDATING, final);
  }

  lemma Downloads(sc: Scene, final: Option<Entry>, r: RunId)
    requires Shown(sc, final) && Alone(sc, r, I)
    ensures Shown(sc.With(r, DOWNLOADING), final)
  {
    hide Shown;
    Validates(sc, final, r);
    var missed := VALIDATING.(task := Validated(None));
    Move(sc.With(r, VALIDATING), final, r, Install(ValidateEnds(false)), missed, final);
    var reading := DOWNLOADING.(read1 := Held);
    Move(sc.With(r, missed), final, r, Install(Miss), reading, final);
    Move(sc.With(r, reading), final, r, Anytime(Release(FirstRead)), DOWNLOADING, final);
  }

  lemma Makes(sc: Scene, final: Option<Entry>, r: RunId)
    requires Shown(sc, final) && Alone(sc, r, I)
    ensures Shown(sc.With(r, MAKING), final)
  {
    hide Shown;
    Downloads(sc, final, r);
    Move(sc.With(r, DOWNLOADING), final, r, Install(DownloadEnds(true)), MAKING, final);
  }

  lemma DirectoryMade(sc: Scene, final: Option<Entry>, r: RunId)
    requires Shown(sc, final) && Alone(sc, r, I)
    ensures Shown(sc.With(r, EXTRACTING), final)
  {
    hide Shown;
    Makes(sc, final, r);
    Move(sc.With(r, MAKING), final, r, Install(MkdirEnds(true)), EXTRACTING, final);
  }

  lemma Extracts(sc: Scene, final: Option<Entry>, r: RunId)
    requires Shown(sc, final) && Alone(sc, r, I)
    ensures Shown(sc.With(r, SEALING), final)
  {
    hide Shown;
    DirectoryMade(sc, final, r);
    var extracted := EXTRACTING.(task := Extracted(true));
    Move(sc.With(r, EXTRACTING), final, r, Install(ExtractEnds(true)), extracted, final);
    Move(sc.With(r, extracted), final, r, Install(AfterExtract(true)), SEALING, final);
  }

  lemma Seals(sc: Scene, final: Option<Entry>, r: RunId)
    requires Shown(sc, final) && Alone(sc, r, I)
    ensures Shown(sc.With(r, SEALED), final)
  {
    hide Shown;
    Extracts(sc, final, r);
    var done := SEALING.(staging := Some(true), task := Sealed(true));
    Move(sc.With(r, SEALING), final, r, Install(SealEnds(true)), done, final);
    Move(sc.With(r, done), final, r, Install(AfterSeal), SEALED, final);
  }

  lemma Stages(sc: Scene, final: Option<Entry>, r: RunId)
    requires Shown(sc, final) && Alone(sc, r, I)
    ensures Shown(sc.With(r, STAGED), final)
  {
    hide Shown;
    Seals(sc, final, r);
    NobodyInTheWay(sc, final, r, SEALED, Write);
    Obtain(sc.With(r, SEALED), final, r, Write);
    Move(sc.With(r, SEALED.(write := Held)), final, r, Install(GotWrite), STAGED, final);
  }

  // ----- an installer, an uninstall and a second installer

  function Opening(confusable: bool): Scene { Scene(Init(confusable), false, I, U, I, confusable) }

  lemma Opens(confusable: bool)
    ensures Shown(Opening(confusable), None)
  {
    var s0 := Init(confusable);
    var s1, s2 := s0.(runs := map[0 := I]), s0.(runs := map[0 := I, 1 := U]);
    var s3 := Opening(confusable).At(None);
    assert s1.runs == s0.runs[0 := I] && s2.runs == s1.runs[1 := U] && s3.runs == s2.runs[2 := I];
    hide Leads;
    LeadsNowhere(s0, false);
    LeadsOn(s0, false, s0, Spawn(0, Installer(false), {}), s1);
    LeadsOn(s0, false, s1, Spawn(1, Uninstaller(true), {}), s2);
    LeadsOn(s0, false, s2, Spawn(2, Installer(false), {}), s3);
  }

  const DEAD := I.(fut := Gone, pub := Idle, crashed := true)

  /** The first installer has published its entry and died. */
  function Published(): Scene { Opening(false).(a := DEAD) }

  lemma Publishes()
    ensures Shown(Published(), Some(E))
  {
    hide Shown;
    var sc := Opening(false);
    Opens(false);
    Stages(sc, None, 0);
    var aside := STAGED.(task := Promoting(Aside(false)));
    Move(sc.With(0, STAGED), None, 0, Transact(TxNothingThere), aside, None);
    var placed := aside.(task := Promoting(InPlace(false)), staging := None);
    Move(sc.With(0, aside), None, 0, Transact(TxPromote), placed, Some(E));
    Move(sc.With(0, placed), Some(E), 0, Anytime(Crash), DEAD, Some(E));
  }

  const DELETING := U.(fut := AwaitDelete, task := Deleting, pub := Held, write := Held)
  const ADRIFT := U.(fut := Gone, task := Deleting, pub := Idle)

  lemma UninstallDeletes()
    ensures Shown(Published().With(1, DELETING), Some(E))
  {
    hide Shown;
    var sc := Published();
    Publishes();
    Obtain(sc, Some(E), 1, Pub);
    var asking := U.(fut := RemoverAwaitWrite, pub := Held, write := Waiting);
    Move(sc.With(1, U.(pub := Held)), Some(E), 1, Remove(RemoverGotPub), asking, Some(E));
    Obtain(sc.With(1, asking), Some(E), 1, Write);
    Move(sc.With(1, asking.(write := Held)), Some(E), 1, Remove(RemoverGotWrite), DELETING, Some(E));
  }

  lemma UninstallIsCancelled()
    ensures Shown(Published().With(1, ADRIFT), Some(E))
  {
    hide Shown;
    var sc := Published();
    UninstallDeletes();
    var unwanted := DELETING.(fut := Gone);
    Move(sc.With(1, DELETING), Some(E), 1, Anytime(Cancel), unwanted, Some(E));
    var unlocked := unwanted.(write := Idle);
    Move(sc.With(1, unwanted), Some(E), 1, Anytime(Release(Write)), unlocked, Some(E));
    Move(sc.With(1, unlocked), Some(E), 1, Anytime(Release(Pub)), ADRIFT, Some(E));
  }

  const LEASED := I.(fut := Leased(E, false), pub := Held, read1 := Held)

  lemma SecondInstallerLeases()
    ensures Shown(Published().With(1, ADRIFT).With(2, LEASED), Some(E))
  {
    hide Shown;
    var sc := Published().With(1, ADRIFT);
    UninstallIsCancelled();
    Validates(sc, Some(E), 2);
    var hit := VALIDATING.(task := Validated(Some(E)));
    Move(sc.With(2, VALIDATING), Some(E), 2, Install(ValidateEnds(true)), hit, Some(E));
    Move(sc.With(2, hit), Some(E), 2, Install(Hit), LEASED, Some(E));
  }

  /** Lease safety fails for a cancelled uninstall: its locks are gone while its
      deletion is still under way, so a second installer can validate the entry,
      hand out a lease and lose the entry. */
  lemma CancelledUninstallBreaksLease()
    ensures exists s :: Reachable(s) && 2 in s.runs && s.runs[2].fut == Leased(E, false) && s.final == None
  {
    hide Leads;
    var sc := Published().With(1, ADRIFT).With(2, LEASED);
    SecondInstallerLeases();
    Move(sc, Some(E), 1, Remove(DeleteFinal), ADRIFT.(task := NoTask), None);
    assert Reachable(sc.With(1, ADRIFT.(task := NoTask)).At(None));
  }

  /** An uninstall that dies in the middle leaves a partial payload in place that
      nobody is removing any more, under a key without the backup marker. */
  lemma CrashedUninstallLeavesPartial()
    ensures exists s :: Reachable(s) && !s.confusable && Partial(s.final)
                        && forall q :: q in s.runs ==> !DeletesEntry(s.runs[q])
  {
    hide Leads;
    var sc := Published().With(1, DELETING);
    UninstallDeletes();
    Move(sc, Some(E), 1, Remove(TearEntry), DELETING, Some(E.(complete := false)));
    var dead := U.(fut := Gone, pub := Idle, crashed := true);
    Move(sc, Some(E.(complete := false)), 1, Anytime(Crash), dead, Some(E.(complete := false)));
    assert Reachable(sc.With(1, dead).At(Some(E.(complete := false))));
  }

  const UNWANTED := MAKING.(fut := Gone, pub := Idle, staging := None)

  /** An install that is cancelled while its extraction directory is being created
      can leave a staging directory behind, and creates it without any lock. */
  lemma CancelledDownloadLeavesDirectory()
    ensures exists s :: Reachable(s) && 0 in s.runs && s.runs[0].fut == Gone && s.runs[0].task == NoTask
                        && !s.runs[0].crashed && s.runs[0].pub == Idle && s.runs[0].staging == Some(false)
  {
    hide Leads;
    MakingIsCancelled();
    var sc, stray := Opening(false), UNWANTED.(task := NoTask, staging := Some(false), stray := true);
    Move(sc.With(0, UNWANTED), None, 0, Install(MkdirEnds(true)), stray, None);
    assert Reachable(sc.With(0, stray).At(None));
  }

  lemma MakingIsCancelled()
    ensures Shown(Opening(false).With(0, UNWANTED), None)
  {
    hide Shown;
    var sc := Opening(false);
    Opens(false);
    Makes(sc, None, 0);
    var cancelled := MAKING.(fut := Gone, staging := None);
    Move(sc.With(0, MAKING), None, 0, Anytime(Cancel), cancelled, None);
    Move(sc.With(0, cancelled), None, 0, Anytime(Release(Pub)), UNWANTED, None);
  }

  // ----- a sweep enters

  /** The scene with a sweep as a fourth run. */
  function Fourth(sc: Scene, final: Option<Entry>, sweep: Run): State {
    var s := sc.At(final);
    s.(runs := s.runs[3 := sweep])
  }

  /** A sweep that has listed `seen` before gets the lock. */
  lemma SweepEnters(sc: Scene, final: Option<Entry>, seen: set<WorkName>)
    requires Shown(sc, final) && forall w :: w in seen ==> OnDisk(sc.At(final), w)
    requires sc.a.pub != Held && sc.b.pub != Held && sc.c.pub != Held
    ensures Leads(sc.from, sc.kept, Fourth(sc, final, Fresh(Sweeper, seen).(pub := Held, fut := SweeperCheck(seen))))
  {
    hide Leads, LocalStep;
    var sweep := Fresh(Sweeper, seen);
    var s0, s1 := sc.At(final), Fourth(sc, final, sweep);
    LeadsOn(sc.from, sc.kept, s0, Spawn(3, Sweeper, seen), s1);
    var s2 := Fourth(sc, final, sweep.(pub := Held));
    assert s2.runs == s1.runs[3 := sweep.(pub := Held)];
    LeadsOn(sc.from, sc.kept, s1, Acquire(3, Pub), s2);
    var s3 := Fourth(sc, final, sweep.(pub := Held, fut := SweeperCheck(seen)));
    assert s3.runs == s2.runs[3 := sweep.(pub := Held, fut := SweeperCheck(seen))];
    SweeperStarts(sweep.(pub := Held), final, seen);
    LeadsOn(sc.from, sc.kept, s2, Act(3, Remove(SweeperGotPub)), s3);
  }

  lemma SweeperStarts(run: Run, final: Option<Entry>, seen: set<WorkName>)
    requires run.fut == SweeperTryPub(seen) && run.pub == Held
    ensures LocalStep(3, run, final, Remove(SweeperGotPub), run.(fut := SweeperCheck(seen)), final)
  {
  }

  /** For a key that contains the backup marker a sweep can put a partial payload in
      place: the staging directory of an install that died while downloading. */
  lemma ConfusableKeyInstallsPartial()
    ensures exists s :: Reachable(s) && s.confusable && s.final == Some(Entry(0, false))
  {
    hide Leads;
    var sc := Opening(true);
    Opens(true);
    Downloads(sc, None, 0);
    var dead := DOWNLOADING.(fut := Gone, pub := Idle, crashed := true);
    Move(sc.With(0, DOWNLOADING), None, 0, Anytime(Crash), dead, None);
    var seen := {StagingOf(0)};
    SweepEnters(sc.With(0, dead), None, seen);
    var s := Fourth(sc.With(0, dead), None, Fresh(Sweeper, seen).(pub := Held, fut := SweeperCheck(seen)));
    var moved := Removed(s, StagingOf(0));
    var s' := s.(final := Some(Entry(0, false)), runs := moved[3 := moved[3].(fut := SweeperDelete(seen))]);
    LeadsOn(sc.from, false, s, SweepRestore(3, StagingOf(0)), s');
    assert Reachable(s');
  }

  // ----- an entry is lost although nobody uninstalls it

  /** The stage after the first publication, from which nothing is uninstalled. */
  function Kept(): Scene { Scene(Published().At(Some(E)), true, DEAD, U, I, false) }

  const ASIDE := STAGED.(task := Promoting(Aside(true)), backup := Some(E))

  lemma SecondInstallerMovesAside()
    ensures Shown(Kept().With(2, ASIDE), None)
  {
    hide Shown, Leads;
    var sc := Kept();
    LeadsNowhere(sc.from, true);
    assert Shown(sc, Some(E)) by { ShownAtStart(); }
    Stages(sc, Some(E), 2);
    Move(sc.With(2, STAGED), Some(E), 2, Transact(TxMoveAside), ASIDE, None);
  }

  lemma ShownAtStart()
    ensures Shown(Kept(), Some(E))
  {
    LeadsNowhere(Kept().from, true);
  }

  /** `s` has an entry on disk and leads, without an uninstall, to `s'` without one. */
  ghost predicate Loses(s: State, s': State) {
    Reachable(s) && Durable(s) && Leads(s, true, s') && forall e: Entry :: e.complete ==> !EntryOnDisk(s', e)
  }

  lemma KeptIsDurable()
    ensures Reachable(Kept().from) && Durable(Kept().from)
  {
    Publishes();
    hide Leads;
  }

  /** The second installer moves the entry aside and dies; all renames of the sweep
      fail, and it deletes the backup. */
  lemma FailedRenamesLoseEntry()
    ensures exists s, s' :: Loses(s, s')
  {
    hide Leads, Reachable, Durable;
    SecondInstallerMovesAside();
    var sc, dead := Kept(), ASIDE.(fut := Gone, task := NoTask, pub := Idle, write := Idle, crashed := true);
    Move(sc.With(2, ASIDE), None, 2, Anytime(Crash), dead, None);
    SweepForsakes(sc.With(2, dead), None);
    KeptIsDurable();
    var s' := Fourth(sc.With(2, dead.(backup := None)), None, Fresh(Sweeper, {BackupOf(2)}).(pub := Held, fut := SweeperDelete({BackupOf(2)})));
    assert forall e: Entry :: !EntryOnDisk(s', e);
    assert Loses(sc.from, s');
  }

  /** A sweep leaves the entry as it is and deletes the backup of the third run. */
  lemma SweepForsakes(sc: Scene, final: Option<Entry>)
    requires Shown(sc, final) && sc.c.backup.Some? && sc.a.pub != Held && sc.b.pub != Held && sc.c.pub != Held
    ensures Leads(sc.from, sc.kept,
                  Fourth(sc.With(2, sc.c.(backup := None)), final,
                         Fresh(Sweeper, {BackupOf(2)}).(pub := Held, fut := SweeperDelete({BackupOf(2)}))))
  {
    hide Leads, LocalStep;
    var seen := {BackupOf(2)};
    SweepEnters(sc, final, seen);
    var sweep := Fresh(Sweeper, seen).(pub := Held, fut := SweeperCheck(seen));
    var s := Fourth(sc, final, sweep);
    var s1 := Fourth(sc, final, sweep.(fut := SweeperDelete(seen)));
    assert s1.runs == s.runs[3 := sweep.(fut := SweeperDelete(seen))];
    LeadsOn(sc.from, sc.kept, s, SweepLeave(3), s1);
    var s2 := Fourth(sc.With(2, sc.c.(backup := None)), final, sweep.(fut := SweeperDelete(seen)));
    assert s2.runs == Removed(s1, BackupOf(2));
    LeadsOn(sc.from, sc.kept, s1, SweepRemove(3, BackupOf(2)), s2);
  }

  const UNDOING := ASIDE.(task := Promoting(Undo(true, true)), staging := None)

  lemma SecondInstallerRollsBack()
    ensures Shown(Kept().With(2, UNDOING), Some(Entry(2, true)))
  {
    hide Shown;
    var sc := Kept();
    SecondInstallerMovesAside();
    var placed := ASIDE.(task := Promoting(InPlace(true)), staging := None);
    Move(sc.With(2, ASIDE), None, 2, Transact(TxPromote), placed, Some(Entry(2, true)));
    Move(sc.With(2, placed), Some(Entry(2, true)), 2, Transact(TxFail), UNDOING, Some(Entry(2, true)));
  }

  /** The second installer's rollback dies in the middle of its deletion; the sweep
      finds the wreck in place and deletes the old entry's backup. */
  lemma WreckedRollbackLosesEntry()
    ensures exists s, s' :: Loses(s, s') && !s'.confusable && s'.final == Some(Entry(2, false))
  {
    hide Leads, Reachable, Durable;
    SecondInstallerRollsBack();
    var sc, wreck := Kept(), Some(Entry(2, false));
    Move(sc.With(2, UNDOING), Some(Entry(2, true)), 2, Transact(TxTear), UNDOING, wreck);
    var dead := UNDOING.(fut := Gone, task := NoTask, pub := Idle, write := Idle, crashed := true);
    Move(sc.With(2, UNDOING), wreck, 2, Anytime(Crash), dead, wreck);
    SweepForsakes(sc.With(2, dead), wreck);
    KeptIsDurable();
    var s' := Fourth(sc.With(2, dead.(backup := None)), wreck, Fresh(Sweeper, {BackupOf(2)}).(pub := Held, fut := SweeperDelete({BackupOf(2)})));
    assert forall e: Entry :: e.complete ==> !EntryOnDisk(s', e);
    assert Loses(sc.from, s');
  }
}
