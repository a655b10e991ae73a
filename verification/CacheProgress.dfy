/** What comes of an install: for which reasons it ends without a lease, that it stays
    on course as long as nothing of its own goes wrong, that it can then always go on
    or waits for a lock somebody holds, and what it hands to its caller. */
module CacheProgress {
  import opened Wrappers
  import opened CacheProtocol
  import opened CacheGuarantees

  // ----- why an install ends

  /** Installers are not at the stages of uninstalls and sweeps. */
  predicate KindOk(run: Run) {
    run.kind.Installer? ==>
      !run.fut.RemoverAwaitPub? && !run.fut.RemoverAwaitWrite? && !run.fut.AwaitDelete? && !Sweeping(run.fut)
  }

  /** Giving up: being cancelled or crashing, a download or the making of a directory
      that fails, a sealing that failed, the cleanup after a failed extraction, or a
      promotion that brought nothing. */
  predicate GivesUp(run: Run, a: Action) {
    || a == Anytime(Cancel) || a == Anytime(Crash)
    || a == Install(DownloadEnds(false)) || a == Install(MkdirEnds(false))
    || (a == Install(AfterSeal) && run.task == Sealed(false))
    || (a == Install(AfterClean) && run.fut == AwaitCleanup)
    || (a == Install(AfterPromote) && run.task == Promoted(None))
  }

  lemma LocalKeepsKind(r: RunId, run: Run, final: Option<Entry>, a: Action, run': Run, final': Option<Entry>)
    requires KindOk(run) && TaskOk(run) && LocalStep(r, run, final, a, run', final')
    ensures KindOk(run') && run'.kind == run.kind
  {
    hide InstallStep, TxStep, RemoveStep, AnytimeStep, TaskOk;
    match a
    case Install(i) => InstallKeepsKind(run, final, i, run');
    case Transact(t) => TxKeepsKind(r, run, final, t, run', final');
    case Remove(d) => RemoveKeepsKind(run, final, d, run', final');
    case Anytime(x) => AnytimeKeepsKind(run, x, run');
  }

  lemma InstallKeepsKind(run: Run, final: Option<Entry>, a: InstallAction, run': Run)
    requires KindOk(run) && InstallStep(run, final, a, run')
    ensures KindOk(run') && run'.kind == run.kind
  {
  }

  lemma TxKeepsKind(r: RunId, run: Run, final: Option<Entry>, a: TxAction, run': Run, final': Option<Entry>)
    requires KindOk(run) && TxStep(r, run, final, a, run', final')
    ensures KindOk(run') && run'.kind == run.kind && run'.fut == run.fut
  {
  }

  lemma RemoveKeepsKind(run: Run, final: Option<Entry>, a: RemoveAction, run': Run, final': Option<Entry>)
    requires KindOk(run) && RemoveStep(run, final, a, run', final')
    ensures KindOk(run') && run'.kind == run.kind
    ensures run.kind.Installer? ==> run'.fut == run.fut
  {
  }

  lemma AnytimeKeepsKind(run: Run, a: AnytimeAction, run': Run)
    requires KindOk(run) && AnytimeStep(run, a, run')
    ensures KindOk(run') && run'.kind == run.kind
    ensures a.Release? ==> run'.fut == run.fut
  {
  }

  lemma OthersKeepKind(s: State, step: Step, s': State, r: RunId)
    requires Next(s, step, s') && r in s'.runs && !(step.Act? && step.r == r)
    ensures r in s.runs ==> s'.runs[r].kind == s.runs[r].kind
    ensures r !in s.runs ==> KindOk(s'.runs[r])
  {
    hide LocalStep, Compatible;
    if IsSweep(step) { SweepLeavesRun(s, step, s', r); }
  }

  lemma SameStageSameKind(run: Run, run': Run)
    requires KindOk(run) && run'.kind == run.kind
    requires run'.fut == run.fut || (run.fut.SweeperCheck? && run'.fut.SweeperDelete?)
    ensures KindOk(run')
  {
  }

  lemma StepKeepsKind(s: State, step: Step, s': State, r: RunId)
    requires Inv(s) && Next(s, step, s') && r in s'.runs && (r in s.runs ==> KindOk(s.runs[r]))
    ensures KindOk(s'.runs[r]) && (r in s.runs ==> s'.runs[r].kind == s.runs[r].kind)
  {
    hide Inv, LocalStep, KindOk, LocksOk, TaskOk;
    if step.Act? && step.r == r {
      LocksAndTasks(s, r);
      LocalKeepsKind(r, s.runs[r], s.final, step.action, s'.runs[r], s'.final);
    } else {
      OthersStay(s, step, s', r);
      OthersKeepKind(s, step, s', r);
      hide Next;
      if r in s.runs { SameStageSameKind(s.runs[r], s'.runs[r]); }
    }
  }

  lemma {:induction false} BehaviourKind(states: seq<State>, steps: seq<Step>, i: nat, r: RunId)
    requires Behaviour(states, steps) && i < |states| && r in states[i].runs
    ensures KindOk(states[i].runs[r])
  {
    hide Behaviour, Inv, Next, KindOk;
    if i == 0 {
      NobodyAtStart(states, steps, r);
    } else {
      BehaviourLength(states, steps);
      BehaviourStep(states, steps, i - 1);
      if r in states[i - 1].runs { BehaviourKind(states, steps, i - 1, r); }
      StepKeepsKind(states[i - 1], steps[i - 1], states[i], r);
    }
  }

  lemma InstallGivesUp(run: Run, final: Option<Entry>, a: InstallAction, run': Run)
    requires InstallStep(run, final, a, run') && run.fut != Gone && !run.fut.Leased? && run'.fut == Gone
    ensures GivesUp(run, Install(a))
  {
  }

  lemma LocalGivesUp(r: RunId, run: Run, final: Option<Entry>, a: Action, run': Run, final': Option<Entry>)
    requires KindOk(run) && run.kind.Installer? && LocalStep(r, run, final, a, run', final')
    requires run.fut != Gone && !run.fut.Leased? && run'.fut == Gone
    ensures GivesUp(run, a)
  {
    hide InstallStep, TxStep, RemoveStep, AnytimeStep, KindOk;
    match a
    case Install(i) => InstallGivesUp(run, final, i, run');
    case Transact(t) => TxKeepsKind(r, run, final, t, run', final');
    case Remove(d) => RemoveKeepsKind(run, final, d, run', final');
    case Anytime(x) => AnytimeKeepsKind(run, x, run');
  }

  /** An install without a lease ends only because it gives up: one that published or
      kept an entry hands it to its caller. */
  lemma GoneForAReason(states: seq<State>, steps: seq<Step>, i: nat, r: RunId)
    requires Behaviour(states, steps) && i < |steps| && r in states[i].runs && states[i].runs[r].kind.Installer?
    requires states[i].runs[r].fut != Gone && !states[i].runs[r].fut.Leased?
    ensures r in states[i + 1].runs
    ensures states[i + 1].runs[r].fut == Gone ==>
              steps[i].Act? && steps[i].r == r && GivesUp(states[i].runs[r], steps[i].action)
  {
    var s, step, s' := states[i], steps[i], states[i + 1];
    BehaviourStep(states, steps, i);
    BehaviourKind(states, steps, i, r);
    hide Inv, Behaviour, GivesUp, LocalStep;
    RunsStay(s, step, s', r);
    if s'.runs[r].fut == Gone {
      if step.Act? && step.r == r {
        LocalGivesUp(r, s.runs[r], s.final, step.action, s'.runs[r], s'.final);
      } else {
        OthersStay(s, step, s', r);
      }
    }
  }

  lemma RunsStay(s: State, step: Step, s': State, r: RunId)
    requires Next(s, step, s') && r in s.runs
    ensures r in s'.runs
  {
    hide LocalStep, Compatible;
  }

  // ----- staying on course

  /** What can go wrong with an install itself: it is cancelled or crashes, or its
      download, directory, extraction, sealing or promotion fails. */
  predicate Stumble(a: Action) {
    || a == Anytime(Cancel) || a == Anytime(Crash)
    || a == Install(DownloadEnds(false)) || a == Install(MkdirEnds(false)) || a == Install(ExtractEnds(false))
    || a == Install(AfterExtract(false)) || a == Install(SealEnds(false)) || a == Transact(TxFail)
  }

  /** The run waits for a lock only where it asks for it. */
  predicate AsksInOrder(run: Run) {
    && (run.pub == Waiting ==> run.fut == AwaitPub) && (run.read1 == Waiting ==> run.fut == AwaitRead)
    && (run.write == Waiting ==> run.fut == AwaitWrite) && (run.read2 == Waiting ==> run.fut.AwaitLease?)
  }

  /** An install that nothing has gone wrong with, up to its lease. */
  predicate OnCourse(run: Run) {
    && run.kind.Installer? && !run.crashed && !run.stray && !run.kept && AsksInOrder(run)
    && match run.fut
       case AwaitPub => true
       case AwaitRead => true
       case AwaitValidate => true
       case Download => true
       case AwaitMkdir => true
       case AwaitExtract => run.task != Extracted(false)
       case AwaitSeal => run.task != Sealed(false)
       case AwaitWrite => true
       case AwaitPromote => run.task != Promoted(None) && (run.task.Promoting? ==> !run.task.tx.Undo? && !run.task.tx.DropStaging?)
       case AwaitLease(_) => true
       case Leased(_, _) => true
       case _ => false
  }

  /** What the run has put in place is there and complete. */
  predicate Unspoilt(r: RunId, run: Run, final: Option<Entry>) {
    run.task.Promoting? && run.task.tx.InPlace? ==> final == Some(Entry(r, true))
  }

  predicate Undisturbed(r: RunId, run: Run, final: Option<Entry>) { OnCourse(run) && Unspoilt(r, run, final) }

  lemma InstallStaysOnCourse(r: RunId, run: Run, final: Option<Entry>, a: InstallAction, run': Run)
    requires TaskOk(run) && OnCourse(run) && InstallStep(run, final, a, run')
    requires !Stumble(Install(a)) && a != EndLease
    ensures OnCourse(run') && Unspoilt(r, run', final)
  {
  }

  lemma TxStaysOnCourse(r: RunId, run: Run, final: Option<Entry>, a: TxAction, run': Run, final': Option<Entry>)
    requires TaskOk(run) && PromotableOk(run) && Undisturbed(r, run, final) && TxStep(r, run, final, a, run', final') && a != TxFail
    ensures Undisturbed(r, run', final')
  {
  }

  lemma GrantsStayInOrder(r: RunId, run: Run, final: Option<Entry>, lock: Lock, g: Grant)
    requires Undisturbed(r, run, final) && g != Waiting
    ensures Undisturbed(r, WithGrant(run, lock, g), final)
  {
  }

  lemma ReleaseIsIdle(run: Run, a: AnytimeAction, run': Run)
    requires AnytimeStep(run, a, run') && !Stumble(Anytime(a))
    ensures a.Release? && Spare(run, a.lock) && run' == WithGrant(run, a.lock, Idle)
  {
  }

  lemma ReleaseStaysOnCourse(r: RunId, run: Run, final: Option<Entry>, a: AnytimeAction, run': Run)
    requires Undisturbed(r, run, final) && AnytimeStep(run, a, run') && !Stumble(Anytime(a))
    ensures Undisturbed(r, run', final)
  {
    ReleaseIsIdle(run, a, run');
    hide AnytimeStep, Undisturbed, Spare;
    GrantsStayInOrder(r, run, final, a.lock, Idle);
  }

  /** None of the steps that remove an entry or sweep is one of an install on course. */
  lemma OnCourseRemovesNothing(run: Run, final: Option<Entry>, a: RemoveAction, run': Run, final': Option<Entry>)
    requires TaskOk(run) && OnCourse(run)
    ensures !RemoveStep(run, final, a, run', final')
  {
  }

  lemma LocalStaysOnCourse(r: RunId, run: Run, final: Option<Entry>, a: Action, run': Run, final': Option<Entry>)
    requires RunOk(r, run, final) && Undisturbed(r, run, final) && LocalStep(r, run, final, a, run', final')
    requires !Stumble(a) && a != Install(EndLease)
    ensures Undisturbed(r, run', final')
  {
    hide InstallStep, TxStep, AnytimeStep, RemoveStep, TaskOk, PromotableOk, OnCourse, Unspoilt, LocksOk, PlaceOk, StagingOk, BackupOk;
    match a
    case Install(i) => InstallStaysOnCourse(r, run, final, i, run');
    case Transact(t) => TxStaysOnCourse(r, run, final, t, run', final');
    case Remove(d) => OnCourseRemovesNothing(run, final, d, run', final');
    case Anytime(x) => ReleaseStaysOnCourse(r, run, final, x, run');
  }

  lemma PlacedHoldsLocks(r: RunId, run: Run, final: Option<Entry>)
    requires RunOk(r, run, final) && run.task.Promoting? && run.task.tx.InPlace?
    ensures run.pub == Held && run.write == Held
  {
  }

  /** Another run's step leaves what is in place under the exclusive locks. */
  lemma OthersLeavePlaced(s: State, step: Step, s': State, r: RunId)
    requires Inv(s) && Next(s, step, s') && !IsDetached(s, step) && r in s.runs && !(step.Act? && step.r == r)
    requires s.runs[r].task.Promoting? && s.runs[r].task.tx.InPlace? && s.final.Some?
    ensures s'.final == s.final
  {
    PlacedHoldsLocks(r, s.runs[r], s.final);
    hide RunOk, LocalStep;
    if step.Act? { LocalIsGuarded(step.r, s.runs[step.r], s.final, step.action, s'.runs[step.r], s'.final); }
  }

  /** A run that another step leaves as it is, but for a lock it may get, stays on course. */
  lemma BystanderStaysOnCourse(r: RunId, run: Run, final: Option<Entry>, run': Run, final': Option<Entry>)
    requires Undisturbed(r, run, final) && (run.task.Promoting? && run.task.tx.InPlace? ==> final' == final)
    requires run'.task == run.task && run'.stray == run.stray && run'.kept == run.kept && run'.kind == run.kind && run'.crashed == run.crashed
    requires run'.fut == run.fut || (run.fut.SweeperCheck? && run'.fut.SweeperDelete?)
    requires forall lock :: GrantOf(run', lock) == Waiting ==> GrantOf(run, lock) == Waiting
    ensures Undisturbed(r, run', final')
  {
    assert GrantOf(run', Pub) == run'.pub && GrantOf(run', FirstRead) == run'.read1;
    assert GrantOf(run', Write) == run'.write && GrantOf(run', SecondRead) == run'.read2;
  }

  lemma PlacedIsThere(r: RunId, run: Run, final: Option<Entry>)
    requires Undisturbed(r, run, final) && run.task.Promoting? && run.task.tx.InPlace?
    ensures final.Some?
  {
  }

  lemma StepStaysOnCourse(s: State, step: Step, s': State, r: RunId)
    requires Inv(s) && Next(s, step, s') && !IsDetached(s, step) && r in s.runs && Undisturbed(r, s.runs[r], s.final)
    requires step.Act? && step.r == r ==> !Stumble(step.action) && step.action != Install(EndLease)
    ensures r in s'.runs && Undisturbed(r, s'.runs[r], s'.final)
  {
    RunsStay(s, step, s', r);
    hide LocalStep, RunOk, Undisturbed, IsDetached;
    if step.Act? && step.r == r {
      LocalStaysOnCourse(r, s.runs[r], s.final, step.action, s'.runs[r], s'.final);
    } else {
      hide Inv, Next;
      if s.runs[r].task.Promoting? && s.runs[r].task.tx.InPlace? {
        PlacedIsThere(r, s.runs[r], s.final);
        OthersLeavePlaced(s, step, s', r);
      }
      OthersStay(s, step, s', r);
      OthersKeepGrants(s, step, s', r);
      BystanderStaysOnCourse(r, s.runs[r], s.final, s'.runs[r], s'.final);
    }
  }

  /** Another step gives a run at most the lock it waits for. */
  lemma OthersKeepGrants(s: State, step: Step, s': State, r: RunId)
    requires Next(s, step, s') && r in s.runs && r in s'.runs && !(step.Act? && step.r == r)
    ensures s'.runs[r].kind == s.runs[r].kind && s'.runs[r].crashed == s.runs[r].crashed
    ensures forall lock :: GrantOf(s'.runs[r], lock) == Waiting ==> GrantOf(s.runs[r], lock) == Waiting
  {
    hide LocalStep, Compatible;
    if IsSweep(step) { SweepLeavesRun(s, step, s', r); }
  }

  /** In steps `from` to `to` run `r` neither stumbles nor ends its lease, and no deletion
      of a cancelled uninstall takes place. */
  ghost predicate GoesWell(states: seq<State>, steps: seq<Step>, from: nat, to: nat, r: RunId)
    requires Behaviour(states, steps) && to < |states|
  {
    forall k :: from <= k < to ==> WellStep(states[k], steps[k], r)
  }

  predicate WellStep(s: State, step: Step, r: RunId) {
    !IsDetached(s, step) && (step.Act? && step.r == r ==> !Stumble(step.action) && step.action != Install(EndLease))
  }

  lemma FreshIsOnCourse(s: State, step: Step, s': State, r: RunId)
    requires Next(s, step, s') && r in s'.runs && r !in s.runs && s'.runs[r].kind.Installer?
    ensures Undisturbed(r, s'.runs[r], s'.final)
  {
    hide LocalStep, Compatible;
    assert step.Spawn? by { if IsSweep(step) { SweepLeavesRun(s, step, s', r); } }
  }

  lemma WellBefore(states: seq<State>, steps: seq<Step>, from: nat, i: nat, r: RunId)
    requires Behaviour(states, steps) && from < i < |states| && GoesWell(states, steps, from, i, r)
    ensures GoesWell(states, steps, from, i - 1, r) && WellStep(states[i - 1], steps[i - 1], r)
  {
    hide WellStep, Next;
  }

  /** Whatever all other runs do, crash or leave behind, an install stays on course from
      its beginning, or any state in which it is, as long as nothing of its own goes
      wrong and no uninstall deletes after it was cancelled; then what it put in place is
      there and complete. */
  lemma {:induction false} UndisturbedStaysOnCourse(states: seq<State>, steps: seq<Step>, from: nat, i: nat, r: RunId)
    requires Behaviour(states, steps) && from <= i < |states| && r in states[i].runs && states[i].runs[r].kind.Installer?
    requires r in states[from].runs ==> Undisturbed(r, states[from].runs[r], states[from].final)
    requires GoesWell(states, steps, from, i, r)
    ensures Undisturbed(r, states[i].runs[r], states[i].final)
  {
    hide Behaviour, Inv, Next, Undisturbed, WellStep, GoesWell;
    if from < i {
      BehaviourLength(states, steps);
      BehaviourStep(states, steps, i - 1);
      WellBefore(states, steps, from, i, r);
      var s, step := states[i - 1], steps[i - 1];
      if r in s.runs {
        BehaviourKind(states, steps, i - 1, r);
        StepKeepsKind(s, step, states[i], r);
        UndisturbedStaysOnCourse(states, steps, from, i - 1, r);
        WellMeans(s, step, r);
        StepStaysOnCourse(s, step, states[i], r);
      } else {
        FreshIsOnCourse(s, step, states[i], r);
      }
    }
  }

  lemma WellMeans(s: State, step: Step, r: RunId)
    requires WellStep(s, step, r)
    ensures !IsDetached(s, step) && (step.Act? && step.r == r ==> !Stumble(step.action) && step.action != Install(EndLease))
  {
  }

  // ----- getting nearer

  /** The steps an install has before its lease, the grants of its locks included. */
  function Position(run: Run): nat {
    match run.fut
    case AwaitPub => if run.pub == Held then 20 else 21
    case AwaitRead => if run.read1 == Held then 18 else 19
    case AwaitValidate => if run.task == Validating then 17 else 16
    case Download => 15
    case AwaitMkdir => 14
    case AwaitExtract => if run.task == Extracting then 13 else 12
    case AwaitSeal => if run.task == Sealing then 11 else 10
    case AwaitWrite => if run.write == Held then 8 else 9
    case AwaitPromote =>
      (match run.task
       case Promoting(Start) => 7
       case Promoting(InPlace(_)) => 5
       case Promoting(Committed(_, _)) => 4
       case Promoting(_) => 6
       case _ => 3)
    case AwaitLease(_) => if run.read2 == Held then 1 else 2
    case _ => 0
  }

  /** A lock that is held for nothing any more. */
  predicate Spare(run: Run, lock: Lock) { GrantOf(run, lock) == Held && !LockLive(run, lock) }

  function SpareLocks(run: Run): nat {
    (if Spare(run, Pub) then 1 else 0) + (if Spare(run, FirstRead) then 1 else 0)
    + (if Spare(run, Write) then 1 else 0) + (if Spare(run, SecondRead) then 1 else 0)
  }

  function Ahead(run: Run): (n: nat)
    ensures n <= 109
  {
    5 * Position(run) + SpareLocks(run)
  }

  /** A directory that is being removed is only torn a little more. */
  predicate Tears(a: Action) { a == Transact(TxTearStaging) || a == Transact(TxTearBackup) }

  lemma InstallGetsNearer(run: Run, final: Option<Entry>, a: InstallAction, run': Run)
    requires TaskOk(run) && OnCourse(run) && InstallStep(run, final, a, run') && !Stumble(Install(a)) && a != EndLease
    ensures Position(run') < Position(run)
  {
  }

  lemma TxGetsNearer(r: RunId, run: Run, final: Option<Entry>, a: TxAction, run': Run, final': Option<Entry>)
    requires TaskOk(run) && OnCourse(run) && TxStep(r, run, final, a, run', final') && a != TxFail
    ensures Tears(Transact(a)) ==> Position(run') == Position(run) && SpareLocks(run') == SpareLocks(run)
    ensures !Tears(Transact(a)) ==> Position(run') < Position(run)
  {
  }

  lemma SpareIsDropped(run: Run, lock: Lock)
    requires Spare(run, lock)
    ensures SpareLocks(WithGrant(run, lock, Idle)) < SpareLocks(run)
  {
    assert forall l :: LockLive(WithGrant(run, lock, Idle), l) == LockLive(run, l) by { LivenessIgnoresGrants(run, lock, Idle); }
    hide LockLive;
  }

  lemma LivenessIgnoresGrants(run: Run, lock: Lock, g: Grant)
    ensures forall l :: LockLive(WithGrant(run, lock, g), l) == LockLive(run, l)
  {
  }

  lemma SparesKeepPosition(run: Run, lock: Lock)
    requires OnCourse(run) && Spare(run, lock)
    ensures Position(WithGrant(run, lock, Idle)) == Position(run)
  {
  }

  lemma ReleaseGetsNearer(run: Run, a: AnytimeAction, run': Run)
    requires OnCourse(run) && AnytimeStep(run, a, run') && a.Release?
    ensures Position(run') == Position(run) && SpareLocks(run') < SpareLocks(run)
  {
    ReleaseIsIdle(run, a, run');
    hide AnytimeStep, OnCourse, Spare, Position, SpareLocks;
    SparesKeepPosition(run, a.lock);
    SpareIsDropped(run, a.lock);
  }

  lemma LocalGetsNearer(r: RunId, run: Run, final: Option<Entry>, a: Action, run': Run, final': Option<Entry>)
    requires TaskOk(run) && OnCourse(run) && LocalStep(r, run, final, a, run', final') && !Stumble(a) && a != Install(EndLease)
    ensures !Tears(a) ==> Ahead(run') < Ahead(run)
    ensures Ahead(run') <= Ahead(run)
  {
    hide InstallStep, TxStep, RemoveStep, AnytimeStep, OnCourse, Position, SpareLocks, TaskOk;
    SparesAreFew(run');
    match a
    case Install(i) => InstallGetsNearer(run, final, i, run');
    case Transact(t) => TxGetsNearer(r, run, final, t, run', final');
    case Remove(d) => OnCourseRemovesNothing(run, final, d, run', final');
    case Anytime(x) => ReleaseGetsNearer(run, x, run');
  }

  /** What another step leaves of a run does not throw it back. */
  lemma BystanderIsNoFarther(s: State, step: Step, s': State, r: RunId)
    requires Next(s, step, s') && r in s.runs && r in s'.runs && OnCourse(s.runs[r]) && !(step.Act? && step.r == r)
    ensures Ahead(s'.runs[r]) <= Ahead(s.runs[r])
    ensures step.Acquire? && step.r == r ==> Ahead(s'.runs[r]) < Ahead(s.runs[r])
  {
    hide LocalStep, Compatible, Ahead, OnCourse, WithGrant;
    if IsSweep(step) {
      SweepLeavesRun(s, step, s', r);
      SweptIsNoFarther(s.runs[r], s'.runs[r], r == step.r);
    } else if step.Acquire? && step.r == r {
      GrantGetsNearer(s.runs[r], step.lock);
    }
  }

  lemma SweptIsNoFarther(run: Run, run': Run, sweeper: bool)
    requires SweptRun(run, run', sweeper) && OnCourse(run)
    ensures Ahead(run') == Ahead(run)
  {
  }

  /** Every step of an install on course takes it nearer to its lease, except that a
      removal under way may take several, and so does every grant; nobody else's step
      throws it back. */
  lemma StepsGetNearer(s: State, step: Step, s': State, r: RunId)
    requires Inv(s) && Next(s, step, s') && r in s.runs && OnCourse(s.runs[r]) && r in s'.runs
    requires step.Act? && step.r == r ==> !Stumble(step.action) && step.action != Install(EndLease)
    ensures (step.Act? || step.Acquire?) && step.r == r && !(step.Act? && Tears(step.action)) ==> Ahead(s'.runs[r]) < Ahead(s.runs[r])
    ensures Ahead(s'.runs[r]) <= Ahead(s.runs[r])
  {
    hide Inv, LocalStep, OnCourse, Ahead, Stumble, Tears, TaskOk, LocksOk;
    if step.Act? && step.r == r {
      LocksAndTasks(s, r);
      LocalGetsNearer(r, s.runs[r], s.final, step.action, s'.runs[r], s'.final);
    } else {
      hide Next;
      BystanderIsNoFarther(s, step, s', r);
    }
  }

  lemma SparesAreFew(run: Run)
    ensures SpareLocks(run) <= 4
  {
  }

  lemma GrantGetsNearer(run: Run, lock: Lock)
    requires OnCourse(run) && GrantOf(run, lock) == Waiting
    ensures Ahead(WithGrant(run, lock, Held)) < Ahead(run)
  {
  }
}
