/** Why an installed entry is not lost: some complete entry stays on disk, in place or
    aside, through every step that is not an uninstall's or a careless sweep's. */
module CacheDurability {
  import opened Wrappers
  import opened CacheProtocol

  /** A publication in progress that has no complete entry to go back to. */
  predicate Provisional(run: Run) { InPlaceNow(run) && !Complete(run.backup) }

  /** Some complete entry is on disk, in place or as a backup, that no rollback takes
      away. */
  ghost predicate Durable(s: State) {
    || (exists q :: q in s.runs && Complete(s.runs[q].backup))
    || (Complete(s.final) && forall q :: q in s.runs ==> !Provisional(s.runs[q]))
  }

  /** An uninstall removes the entry, or a part of it. */
  predicate IsDeletion(step: Step) {
    step.Act? && (step.action == Remove(DeleteFinal) || step.action == Remove(TearEntry))
  }

  lemma TxConserves(r: RunId, run: Run, final: Option<Entry>, a: TxAction, run': Run, final': Option<Entry>)
    requires RunOk(r, run, final) && Claims(run, final) && TxStep(r, run, final, a, run', final')
    ensures Complete(run.backup) && !Complete(run'.backup) ==> Complete(final') && !Provisional(run')
    ensures Complete(final) && !Provisional(run) ==> Complete(run'.backup) || (final' == final && !Provisional(run'))
  {
    hide LocksOk, TaskOk;
  }

  /** How one run's step accounts for the entry it may move. */
  lemma LocalConserves(r: RunId, run: Run, final: Option<Entry>, a: Action, run': Run, final': Option<Entry>)
    requires RunOk(r, run, final) && Claims(run, final) && LocalStep(r, run, final, a, run', final')
    requires a != Remove(DeleteFinal) && a != Remove(TearEntry)
    ensures Complete(run.backup) && !Complete(run'.backup) ==> run.pub == Held && Complete(final') && !Provisional(run')
    ensures Complete(final) && !Provisional(run) ==> Complete(run'.backup) || (final' == final && !Provisional(run'))
  {
    hide TxStep, InstallStep, AnytimeStep;
    match a
    case Install(i) => InstallLeavesOthers(run, final, i, run');
    case Transact(t) =>
      PromotingHolds(r, run, final, t, run', final');
      TxConserves(r, run, final, t, run', final');
    case Remove(d) =>
    case Anytime(x) => AnytimeLeavesOthers(run, x, run');
  }

  lemma PromotingHolds(r: RunId, run: Run, final: Option<Entry>, a: TxAction, run': Run, final': Option<Entry>)
    requires LocksOk(run) && TaskOk(run) && TxStep(r, run, final, a, run', final')
    ensures run.pub == Held
  {
  }

  lemma ProvisionalHolds(r: RunId, run: Run, final: Option<Entry>)
    requires RunOk(r, run, final) && Provisional(run)
    ensures run.pub == Held && !run.fut.SweeperCheck? && !run.fut.SweeperDelete?
  {
  }

  ghost predicate ProvisionalsLocked(s: State) {
    forall q :: q in s.runs && Provisional(s.runs[q]) ==>
      s.runs[q].pub == Held && !s.runs[q].fut.SweeperCheck? && !s.runs[q].fut.SweeperDelete?
  }

  /** A step that adds or removes no backup, leaves the entry and starts or ends no
      promotion is no loss. */
  lemma UntouchedConserves(s: State, s': State)
    requires Durable(s) && s'.final == s.final && s'.runs.Keys == s.runs.Keys
    requires forall q :: q in s.runs ==> s'.runs[q].backup == s.runs[q].backup && s'.runs[q].task == s.runs[q].task
    ensures Durable(s')
  {
  }

  lemma SweepRestoreConserves(s: State, r: RunId, from: WorkName, s': State)
    requires Inv(s) && Next(s, SweepRestore(r, from), s') && ProvisionalsLocked(s) && !Forsakes(s, SweepRestore(r, from))
    ensures Durable(s')
  {
    hide RunOk, LocalStep, Compatible;
    SweepingHolds(r, s.runs[r], s.final);
    forall q | q in s.runs ensures !Provisional(s'.runs[q]) {
      RestoreLeavesRun(s, r, from, s', q);
      NotProvisional(s, r, q);
      assert !InPlaceNow(s.runs[q]);
    }
  }

  /** While a sweep has the lock, no publication is in place. */
  lemma NotProvisional(s: State, r: RunId, q: RunId)
    requires Inv(s) && r in s.runs && q in s.runs && s.runs[r].pub == Held && Sweeping(s.runs[r].fut)
    ensures !InPlaceNow(s.runs[q])
  {
    hide RunOk;
    if InPlaceNow(s.runs[q]) { PublishingHolds(q, s.runs[q], s.final); }
  }

  lemma PublishingHolds(q: RunId, run: Run, final: Option<Entry>)
    requires RunOk(q, run, final) && InPlaceNow(run)
    ensures run.pub == Held && !Sweeping(run.fut)
  {
  }

  lemma SweepRemoveConserves(s: State, step: Step, s': State)
    requires Inv(s) && SweepsOk(s) && Next(s, step, s') && (step.SweepRemove? || step.SweepTear?) && Durable(s)
    ensures Durable(s')
  {
    RemovalTouchesOne(s, step, s');
    hide Next, Inv, Durable;
    if step.name.StagingOf? {
      hide SweepsOk, OnDisk;
      UntouchedConserves(s, s');
    } else {
      SweepHasEntry(s, step.r, step.name.run);
      hide SweepsOk, OnDisk;
      BesideSweepIsDurable(s, step.r, s');
    }
  }

  /** Beside a sweep that deletes, a complete entry in place is enough. */
  lemma BesideSweepIsDurable(s: State, r: RunId, s': State)
    requires Inv(s) && r in s.runs && s.runs[r].fut.SweeperDelete? && Complete(s.final) && s'.final == s.final
    requires s'.runs.Keys == s.runs.Keys && forall q :: q in s.runs ==> s'.runs[q].task == s.runs[q].task
    ensures Durable(s')
  {
    hide RunOk;
    SweepingHolds(r, s.runs[r], s.final);
    forall q | q in s.runs ensures !Provisional(s'.runs[q]) { NotProvisional(s, r, q); }
  }

  /** A sweep finds a backup it saw still there only beside a complete entry. */
  lemma SweepHasEntry(s: State, r: RunId, b: RunId)
    requires SweepsOk(s) && r in s.runs && s.runs[r].fut.SweeperDelete?
    requires BackupOf(b) in s.runs[r].fut.seen && OnDisk(s, BackupOf(b))
    ensures Complete(s.final)
  {
  }

  lemma RemovalTouchesOne(s: State, step: Step, s': State)
    requires Next(s, step, s') && (step.SweepRemove? || step.SweepTear?)
    ensures step.r in s.runs && s.runs[step.r].fut.SweeperDelete? && step.name in s.runs[step.r].fut.seen && OnDisk(s, step.name)
    ensures s'.final == s.final && s'.runs.Keys == s.runs.Keys
    ensures forall q :: q in s.runs ==> s'.runs[q].task == s.runs[q].task
    ensures forall q :: q in s.runs ==> s'.runs[q].backup == s.runs[q].backup || step.name == BackupOf(q)
  {
    hide LocalStep, Compatible;
  }

  lemma ActConserves(s: State, r: RunId, a: Action, s': State)
    requires Inv(s) && Next(s, Act(r, a), s') && Durable(s) && ProvisionalsLocked(s)
    requires r in s.runs ==> Claims(s.runs[r], s.final)
    requires !IsDeletion(Act(r, a))
    ensures Durable(s')
  {
    hide RunOk, LocalStep;
    var run, run' := s.runs[r], s'.runs[r];
    LocalConserves(r, run, s.final, a, run', s'.final);
    assert forall q :: q in s.runs && q != r ==> s'.runs[q] == s.runs[q];
    if Complete(run'.backup) {
      assert r in s'.runs && Complete(s'.runs[r].backup);
    }
  }

  lemma ProvisionalsAreLocked(s: State)
    requires Inv(s)
    ensures ProvisionalsLocked(s)
  {
    hide RunOk;
    forall q | q in s.runs && Provisional(s.runs[q])
      ensures s.runs[q].pub == Held && !s.runs[q].fut.SweeperCheck? && !s.runs[q].fut.SweeperDelete?
    {
      ProvisionalHolds(q, s.runs[q], s.final);
    }
  }

  lemma SpawnConserves(s: State, r: RunId, kind: Kind, seen: set<WorkName>, s': State)
    requires Next(s, Spawn(r, kind, seen), s') && Durable(s)
    ensures Durable(s')
  {
    assert forall q :: q in s.runs ==> s'.runs[q] == s.runs[q];
  }

  lemma QuietStepConserves(s: State, step: Step, s': State)
    requires Next(s, step, s') && (step.Acquire? || step.SweepLeave?) && Durable(s)
    ensures Durable(s')
  {
    QuietStepTouchesNothing(s, step, s');
    hide Next, Durable;
    UntouchedConserves(s, s');
  }

  lemma QuietStepTouchesNothing(s: State, step: Step, s': State)
    requires Next(s, step, s') && (step.Acquire? || step.SweepLeave?)
    ensures s'.final == s.final && s'.runs.Keys == s.runs.Keys
    ensures forall q :: q in s.runs ==> s'.runs[q].backup == s.runs[q].backup && s'.runs[q].task == s.runs[q].task
  {
    hide LocalStep, Compatible;
  }

  lemma StepConserves(s: State, step: Step, s': State)
    requires Inv(s) && Settled(s) && Next(s, step, s') && !IsDeletion(step) && !Forsakes(s, step) && Durable(s)
    ensures Durable(s')
  {
    ProvisionalsAreLocked(s);
    hide Inv, SweepsOk, Claims, LocalStep, Durable, ProvisionalsLocked, Next, Forsakes, IsDeletion;
    match step
    case Act(r, a) => ActConserves(s, r, a, s');
    case Spawn(r, kind, seen) => SpawnConserves(s, r, kind, seen, s');
    case Acquire(r, lock) => QuietStepConserves(s, step, s');
    case SweepLeave(r) => QuietStepConserves(s, step, s');
    case SweepRestore(r, from) => SweepRestoreConserves(s, r, from, s');
    case SweepTear(r, name) => SweepRemoveConserves(s, step, s');
    case SweepRemove(r, name) => SweepRemoveConserves(s, step, s');
  }

  /** What the runs count on is in place, and no sweep is deleting backups of an entry
      that is missing. */
  ghost predicate Settled(s: State) {
    (forall r :: r in s.runs ==> Claims(s.runs[r], s.final)) && SweepsOk(s)
  }

  /** Nobody counts on an entry and no sweep is deleting. */
  ghost predicate Quiet(s: State) {
    forall r :: r in s.runs ==> Relied(s.runs[r]) == None && !s.runs[r].fut.SweeperDelete?
  }

  lemma StepKeepsSettled(s: State, step: Step, s': State)
    requires Inv(s) && Settled(s) && Next(s, step, s') && !IsDetached(s, step) && !Forsakes(s, step)
    ensures Settled(s')
  {
    hide Inv, SweepsOk, Claims, Next, Forsakes, IsDetached;
    forall r | r in s'.runs ensures Claims(s'.runs[r], s'.final) {
      StepKeepsClaims(s, step, s', r);
    }
    StepKeepsSweeps(s, step, s');
  }

  /** No cancelled uninstall removes the entry, and no sweep gives up on backups while
      no complete entry is in place, in steps `from` to `to`. */
  ghost predicate WellBehaved(states: seq<State>, steps: seq<Step>, from: nat, to: nat)
    requires Behaviour(states, steps) && to < |states|
  {
    forall k :: from <= k < to ==> !IsDetached(states[k], steps[k]) && !Forsakes(states[k], steps[k])
  }

  lemma WellBehavedPrefix(states: seq<State>, steps: seq<Step>, from: nat, to: nat)
    requires Behaviour(states, steps) && from < to < |states| && WellBehaved(states, steps, from, to)
    ensures WellBehaved(states, steps, from, to - 1)
    ensures !IsDetached(states[to - 1], steps[to - 1]) && !Forsakes(states[to - 1], steps[to - 1])
  {
    hide IsDetached, Forsakes, Next;
  }

  /** A quiet state is settled, and so is every state after it while everybody behaves
      well. The initial state is quiet. */
  lemma {:induction false} SettledSinceQuiet(states: seq<State>, steps: seq<Step>, from: nat, i: nat)
    requires Behaviour(states, steps) && from <= i < |states| && (from == 0 || Quiet(states[from]))
    requires WellBehaved(states, steps, from, i)
    ensures Settled(states[i])
  {
    hide Behaviour, Inv, Next, Settled, Quiet, IsDetached, Forsakes, WellBehaved;
    BehaviourLength(states, steps);
    if from < i {
      BehaviourStep(states, steps, i - 1);
      WellBehavedPrefix(states, steps, from, i);
      SettledSinceQuiet(states, steps, from, i - 1);
      StepKeepsSettled(states[i - 1], steps[i - 1], states[i]);
    } else {
      if from == 0 { StartIsQuiet(states, steps); }
      QuietIsSettled(states[i]);
    }
  }

  lemma StartIsQuiet(states: seq<State>, steps: seq<Step>)
    requires Behaviour(states, steps)
    ensures Quiet(states[0])
  {
    hide Next;
  }

  lemma QuietIsSettled(s: State)
    requires Quiet(s)
    ensures Settled(s)
  {
    hide Relied;
  }

  ghost predicate EntryOnDisk(s: State, e: Entry) {
    s.final == Some(e) || exists q :: q in s.runs && s.runs[q].backup == Some(e)
  }

  /** The step puts the staged payload `e` in place. */
  predicate PutsInPlace(step: Step, e: Entry) {
    || step == Act(e.maker, Transact(TxPromote))
    || (step.SweepRestore? && step.from == StagingOf(e.maker))
  }

  lemma LocalMakesEntry(r: RunId, run: Run, final: Option<Entry>, a: Action, run': Run, final': Option<Entry>)
    requires LocalStep(r, run, final, a, run', final')
    ensures Complete(final') ==> final' == final || final' == run.backup || (a == Transact(TxPromote) && final'.value.maker == r)
    ensures Complete(run'.backup) ==> run'.backup == run.backup || run'.backup == final
  {
    hide InstallStep;
    match a
    case Install(i) => InstallLeavesOthers(run, final, i, run');
    case Transact(t) =>
    case Remove(d) =>
    case Anytime(x) => AnytimeLeavesOthers(run, x, run');
  }

  lemma NoEntryFromNowhere(s: State, step: Step, s': State, e: Entry)
    requires Next(s, step, s') && e.complete && EntryOnDisk(s', e)
    ensures EntryOnDisk(s, e) || PutsInPlace(step, e)
  {
    hide LocalStep, Compatible;
    if step.Act? {
      LocalMakesEntry(step.r, s.runs[step.r], s.final, step.action, s'.runs[step.r], s'.final);
    } else if IsSweep(step) {
      SweepMakesNoEntry(s, step, s', e);
    }
  }

  lemma SweepMakesNoEntry(s: State, step: Step, s': State, e: Entry)
    requires Next(s, step, s') && IsSweep(step) && e.complete && EntryOnDisk(s', e)
    ensures EntryOnDisk(s, e) || PutsInPlace(step, e)
  {
    hide LocalStep, Compatible;
    if s'.final != Some(e) {
      var q :| q in s'.runs && s'.runs[q].backup == Some(e);
      SweepLeavesRun(s, step, s', q);
    }
  }

  lemma {:induction false} DurableThroughout(states: seq<State>, steps: seq<Step>, i: nat, j: nat)
    requires Behaviour(states, steps) && i <= j < |states| && Settled(states[i]) && Durable(states[i])
    requires NothingTaken(states, steps, i, j)
    ensures Durable(states[j]) && Settled(states[j])
  {
    hide Behaviour, Inv, Durable, Next, Settled, IsDetached, Forsakes, IsDeletion, NothingTaken;
    if i < j {
      BehaviourLength(states, steps);
      BehaviourStep(states, steps, j - 1);
      NothingTakenBefore(states, steps, i, j);
      DurableThroughout(states, steps, i, j - 1);
      KeptIsNotDetached(states[j - 1], steps[j - 1]);
      StepKeepsSettled(states[j - 1], steps[j - 1], states[j]);
      StepConserves(states[j - 1], steps[j - 1], states[j]);
    }
  }

  lemma KeptIsNotDetached(s: State, step: Step)
    requires !IsDeletion(step)
    ensures !IsDetached(s, step)
  {
  }

  /** No uninstall removes anything of the entry, and no sweep gives up on backups while
      no complete entry is in place, in steps `i` to `j`. */
  ghost predicate NothingTaken(states: seq<State>, steps: seq<Step>, i: nat, j: nat)
    requires Behaviour(states, steps) && j < |states|
  {
    forall k :: i <= k < j ==> !IsDeletion(steps[k]) && !Forsakes(states[k], steps[k])
  }

  lemma NothingTakenBefore(states: seq<State>, steps: seq<Step>, i: nat, j: nat)
    requires Behaviour(states, steps) && i < j < |states| && NothingTaken(states, steps, i, j)
    ensures NothingTaken(states, steps, i, j - 1) && !IsDeletion(steps[j - 1]) && !Forsakes(states[j - 1], steps[j - 1])
  {
    hide IsDeletion, Forsakes, Next;
  }

  /** A step puts `e` in place somewhere from `i` on, before `j`. */
  ghost predicate PutInPlace(steps: seq<Step>, i: nat, j: nat, e: Entry)
    requires j <= |steps|
  {
    exists k :: i <= k < j && PutsInPlace(steps[k], e)
  }

  lemma {:induction false} EntriesAreAccounted(states: seq<State>, steps: seq<Step>, i: nat, j: nat, e: Entry)
    requires Behaviour(states, steps) && i <= j < |states| && e.complete && EntryOnDisk(states[j], e)
    ensures EntryOnDisk(states[i], e) || PutInPlace(steps, i, j, e)
  {
    hide Behaviour, Inv, Next, EntryOnDisk, PutsInPlace;
    if i < j {
      BehaviourLength(states, steps);
      BehaviourStep(states, steps, j - 1);
      NoEntryFromNowhere(states[j - 1], steps[j - 1], states[j], e);
      if EntryOnDisk(states[j - 1], e) { EntriesAreAccounted(states, steps, i, j - 1, e); }
    }
  }

  /** Between any settled state and a later one, some complete entry stays on disk
      through every step, crash, failure and sweep, unless an uninstall removes the
      entry or a sweep gives up on backups while no complete entry is in place; and
      every complete entry on disk then was there before or was put in place in
      between. */
  lemma EntrySurvivesExact(states: seq<State>, steps: seq<Step>, i: nat, j: nat)
    requires Behaviour(states, steps) && i <= j < |states| && Settled(states[i]) && Durable(states[i])
    requires NothingTaken(states, steps, i, j)
    ensures Durable(states[j]) && Settled(states[j])
    ensures forall e: Entry :: e.complete && EntryOnDisk(states[j], e) ==> EntryOnDisk(states[i], e) || PutInPlace(steps, i, j, e)
  {
    hide Behaviour, Inv, Durable, Next, Settled, EntryOnDisk, PutInPlace, NothingTaken;
    BehaviourLength(states, steps);
    DurableThroughout(states, steps, i, j);
    forall e: Entry | e.complete && EntryOnDisk(states[j], e) ensures EntryOnDisk(states[i], e) || PutInPlace(steps, i, j, e) {
      EntriesAreAccounted(states, steps, i, j, e);
    }
  }

  /** From the start: an entry survives from any state up to which everybody behaved
      well. */
  lemma EntrySurvives(states: seq<State>, steps: seq<Step>, i: nat, j: nat)
    requires Behaviour(states, steps) && i <= j < |states| && WellBehaved(states, steps, 0, i)
    requires NothingTaken(states, steps, i, j)
    requires Durable(states[i])
    ensures Durable(states[j])
  {
    hide Settled, Durable, Next, Inv, WellBehaved, NothingTaken, Behaviour;
    SettledSinceQuiet(states, steps, 0, i);
    EntrySurvivesExact(states, steps, i, j);
  }
}
