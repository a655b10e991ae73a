/** What every run of the cache protocol guarantees to runners and writers. */
module CacheGuarantees {
  import opened Wrappers
  import opened CacheProtocol

  // ----- leases

  /** No uninstall that was cancelled deletes the entry in steps `from` to `to`. */
  ghost predicate NoDetachedDeletion(states: seq<State>, steps: seq<Step>, from: nat, to: nat)
    requires Behaviour(states, steps) && to < |states|
  {
    forall k :: from <= k < to ==> !IsDetached(states[k], steps[k])
  }

  lemma NoneInPrefix(states: seq<State>, steps: seq<Step>, from: nat, to: nat)
    requires Behaviour(states, steps) && from < to < |states| && NoDetachedDeletion(states, steps, from, to)
    ensures NoDetachedDeletion(states, steps, from, to - 1) && !IsDetached(states[to - 1], steps[to - 1])
  {
    hide IsDetached, Next;
  }

  lemma {:induction false} ClaimsPersist(states: seq<State>, steps: seq<Step>, from: nat, i: nat, r: RunId)
    requires Behaviour(states, steps) && from <= i < |states| && r in states[i].runs
    requires r in states[from].runs ==> Claims(states[from].runs[r], states[from].final)
    requires NoDetachedDeletion(states, steps, from, i)
    ensures Claims(states[i].runs[r], states[i].final)
  {
    hide Behaviour, Inv, Next, Claims, IsDetached, NoDetachedDeletion;
    if from < i {
      BehaviourLength(states, steps);
      BehaviourStep(states, steps, i - 1);
      NoneInPrefix(states, steps, from, i);
      if r in states[i - 1].runs { ClaimsPersist(states, steps, from, i - 1, r); }
      StepKeepsClaims(states[i - 1], steps[i - 1], states[i], r);
    }
  }

  /** Lease safety, exactly: a run that counted on nothing in some state, or was not
      there yet, finds in place what it counts on later, be it a validated hit, a
      published result or a lease it holds, whatever installs, cleanups,
      uninstalls, sweeps, cancelled waiters and crashes happen in between, unless
      one of these steps is the deletion of an uninstall that was cancelled while
      deleting. What happened before does not matter. */
  lemma LeaseExact(states: seq<State>, steps: seq<Step>, from: nat, i: nat, r: RunId)
    requires Behaviour(states, steps) && from <= i < |states| && r in states[i].runs
    requires r in states[from].runs ==> Relied(states[from].runs[r]) == None
    requires NoDetachedDeletion(states, steps, from, i)
    ensures Relied(states[i].runs[r]).Some? ==> states[i].final == Relied(states[i].runs[r])
    ensures states[i].runs[r].fut.Leased? ==> states[i].final == Some(states[i].runs[r].fut.entry)
  {
    ClaimsPersist(states, steps, from, i, r);
  }

  /** Some uninstall was cancelled, in the first `i` steps, while it was deleting. */
  ghost predicate CancelledWhileDeleting(states: seq<State>, steps: seq<Step>, i: nat)
    requires Behaviour(states, steps) && i < |states|
  {
    exists k :: 0 <= k < i && CancelsDeletion(states[k], steps[k])
  }

  predicate CancelsDeletion(s: State, step: Step) {
    step.Act? && step.r in s.runs && Detaches(s.runs[step.r], step.action)
  }

  /** An uninstall is cancelled while its deletion is still to happen. */
  predicate Detaches(run: Run, a: Action) {
    a == Anytime(Cancel) && run.fut == AwaitDelete && run.task == Deleting
  }

  predicate Adrift(run: Run) { run.task == Deleting && run.fut == Gone }

  lemma LocalSetsAdrift(r: RunId, run: Run, final: Option<Entry>, a: Action, run': Run, final': Option<Entry>)
    requires TaskOk(run) && LocalStep(r, run, final, a, run', final') && Adrift(run')
    ensures Adrift(run) || Detaches(run, a)
  {
    hide InstallStep, TxStep;
    match a
    case Install(i) => InstallLeavesOthers(run, final, i, run');
    case Transact(t) => TxShape(r, run, final, t, run', final');
    case Remove(d) =>
    case Anytime(x) =>
  }

  lemma StepSetsAdrift(s: State, step: Step, s': State, r: RunId)
    requires Inv(s) && Next(s, step, s') && r in s'.runs && Adrift(s'.runs[r])
    ensures r in s.runs
    ensures Adrift(s.runs[r]) || CancelsDeletion(s, step)
  {
    hide LocalStep, LocksOk, FilesOk, PlaceOk;
    if step.Act? && step.r == r {
      LocalSetsAdrift(r, s.runs[r], s.final, step.action, s'.runs[r], s'.final);
    } else {
      OthersStay(s, step, s', r);
      hide Next;
    }
  }

  lemma NobodyAtStart(states: seq<State>, steps: seq<Step>, r: RunId)
    requires Behaviour(states, steps)
    ensures r !in states[0].runs
  {
    hide Next;
  }

  lemma StillDeleting(states: seq<State>, steps: seq<Step>, i: nat)
    requires Behaviour(states, steps) && 0 < i < |states|
    ensures CancelledWhileDeleting(states, steps, i) <==>
            CancelledWhileDeleting(states, steps, i - 1) || CancelsDeletion(states[i - 1], steps[i - 1])
  {
    hide CancelsDeletion, Next;
  }

  /** A deletion without an uninstall to wait for it comes from a cancellation. */
  lemma {:induction false} AdriftMeansCancelled(states: seq<State>, steps: seq<Step>, i: nat, r: RunId)
    requires Behaviour(states, steps) && i < |states| && r in states[i].runs && Adrift(states[i].runs[r])
    ensures CancelledWhileDeleting(states, steps, i)
  {
    hide Behaviour, Inv, Next, Adrift, CancelsDeletion, CancelledWhileDeleting;
    BehaviourLength(states, steps);
    if i == 0 {
      NobodyAtStart(states, steps, r);
    } else {
      BehaviourStep(states, steps, i - 1);
      StepSetsAdrift(states[i - 1], steps[i - 1], states[i], r);
      StillDeleting(states, steps, i);
      if Adrift(states[i - 1].runs[r]) { AdriftMeansCancelled(states, steps, i - 1, r); }
    }
  }

  lemma UncancelledDeletionsAreAttached(states: seq<State>, steps: seq<Step>, i: nat)
    requires Behaviour(states, steps) && i < |states| && !CancelledWhileDeleting(states, steps, i)
    ensures NoDetachedDeletion(states, steps, 0, i)
  {
    forall k | 0 <= k < i ensures !IsDetached(states[k], steps[k]) {
      if IsDetached(states[k], steps[k]) { AdriftMeansCancelled(states, steps, k, steps[k].r); }
    }
  }

  /** In a history in which no uninstall was cancelled while deleting, every lease is
      good. */
  lemma LeaseSafety(states: seq<State>, steps: seq<Step>, i: nat, r: RunId)
    requires Behaviour(states, steps) && i < |states| && !CancelledWhileDeleting(states, steps, i)
    requires r in states[i].runs && states[i].runs[r].fut.Leased?
    ensures states[i].final == Some(states[i].runs[r].fut.entry)
  {
    UncancelledDeletionsAreAttached(states, steps, i);
    LeaseExact(states, steps, 0, i, r);
  }

  lemma LeaseHoldsUseLock(r: RunId, run: Run, final: Option<Entry>)
    requires RunOk(r, run, final) && run.fut.Leased?
    ensures (run.read1 == Held || run.read2 == Held) && run.fut.entry.complete
  {
  }

  /** Nobody is ever given a lease on a payload that was not completed. */
  lemma LeasesAreComplete(states: seq<State>, steps: seq<Step>, i: nat, r: RunId)
    requires Behaviour(states, steps) && i < |states|
    requires r in states[i].runs && states[i].runs[r].fut.Leased?
    ensures states[i].runs[r].fut.entry.complete
  {
    BehaviourInv(states, steps, i);
    LeaseHoldsUseLock(r, states[i].runs[r], states[i].final);
  }

  /** The entry under a lease changes in exactly one kind of step: the deletion of
      an uninstall that was cancelled while it was deleting. */
  lemma LeaseBrokenExactlyBy(states: seq<State>, steps: seq<Step>, i: nat, r: RunId)
    requires Behaviour(states, steps) && i < |steps|
    requires r in states[i].runs && states[i].runs[r].fut.Leased? && states[i].final.Some?
    ensures states[i + 1].final != states[i].final ==> IsDetached(states[i], steps[i])
    ensures Complete(states[i].final) && IsDetached(states[i], steps[i]) ==> !Complete(states[i + 1].final)
  {
    hide RunOk, LocalStep;
    var s, step, s' := states[i], steps[i], states[i + 1];
    BehaviourInv(states, steps, i);
    LeaseHoldsUseLock(r, s.runs[r], s.final);
    match step
    case Act(q, a) =>
      LocalIsGuarded(q, s.runs[q], s.final, a, s'.runs[q], s'.final);
      if DetachedDeletion(s.runs[q], a) { DeletionBreaks(q, s.runs[q], s.final, a, s'.runs[q], s'.final); }
    case _ =>
  }

  lemma DeletionBreaks(q: RunId, run: Run, final: Option<Entry>, a: Action, run': Run, final': Option<Entry>)
    requires LocalStep(q, run, final, a, run', final') && DetachedDeletion(run, a)
    ensures !Complete(final')
  {
  }

  /** The entry changes only under both exclusive locks, by a deletion whose uninstall
      was cancelled, or by a sweep that puts a backup where no entry is, under the
      publication lock. */
  lemma EntryIsGuarded(states: seq<State>, steps: seq<Step>, i: nat)
    requires Behaviour(states, steps) && i < |steps| && states[i + 1].final != states[i].final
    ensures var s, step := states[i], steps[i];
            || (step.Act? && s.runs[step.r].pub == Held && s.runs[step.r].write == Held)
            || IsDetached(s, step)
            || (step.SweepRestore? && s.final == None && s.runs[step.r].pub == Held)
  {
    hide RunOk, LocalStep;
    var s, step, s' := states[i], steps[i], states[i + 1];
    BehaviourInv(states, steps, i);
    match step
    case Act(q, a) => LocalIsGuarded(q, s.runs[q], s.final, a, s'.runs[q], s'.final);
    case SweepRestore(q, from) => SweepingHolds(q, s.runs[q], s.final);
    case _ =>
  }

  // ----- writers

  /** A directory is being created for an install that no longer exists. */
  predicate MakesStray(run: Run) { run.task == MakingDir && run.fut == Gone }

  lemma WriterHolds(r: RunId, run: Run, final: Option<Entry>)
    requires RunOk(r, run, final)
    ensures Writes(run) ==> run.pub == Held || MakesStray(run)
    ensures run.fut.SweeperDelete? ==> run.pub == Held && !Writes(run)
    ensures (run.fut == Gone || run.fut.Leased?) && run.task == NoTask && !run.crashed && !run.stray && !run.kept ==> run.staging == None
  {
  }

  /** Whoever may still write into a staging directory, even a task whose install
      was cancelled long ago, has the key's publication lock held for it, unless it
      is the creation of the extraction directory and its install was cancelled
      during just that; there is at most one other writer, and no sweep is deleting
      meanwhile. */
  lemma WriterImpliesLock(states: seq<State>, steps: seq<Step>, i: nat, r: RunId)
    requires Behaviour(states, steps) && i < |states|
    requires r in states[i].runs && Writes(states[i].runs[r]) && !MakesStray(states[i].runs[r])
    ensures states[i].runs[r].pub == Held
    ensures forall q :: q in states[i].runs && q != r ==>
              !states[i].runs[q].fut.SweeperDelete? && (Writes(states[i].runs[q]) ==> MakesStray(states[i].runs[q]))
  {
    hide RunOk;
    BehaviourInv(states, steps, i);
    var s := states[i];
    WriterHolds(r, s.runs[r], s.final);
    forall q | q in s.runs && q != r
      ensures !s.runs[q].fut.SweeperDelete? && (Writes(s.runs[q]) ==> MakesStray(s.runs[q]))
    {
      WriterHolds(q, s.runs[q], s.final);
    }
  }

  /** Run `r` was cancelled, in the first `i` steps, while it was creating its
      extraction directory. */
  ghost predicate CancelledWhileMaking(states: seq<State>, steps: seq<Step>, i: nat, r: RunId)
    requires Behaviour(states, steps) && i < |states|
  {
    exists k :: 0 <= k < i && CancelsMaking(states[k], steps[k], r)
  }

  predicate CancelsMaking(s: State, step: Step, r: RunId) {
    step == Act(r, Anytime(Cancel)) && r in s.runs && s.runs[r].fut == AwaitMkdir
  }

  lemma StillMaking(states: seq<State>, steps: seq<Step>, i: nat, r: RunId)
    requires Behaviour(states, steps) && 0 < i < |states|
    ensures CancelledWhileMaking(states, steps, i, r) <==>
            CancelledWhileMaking(states, steps, i - 1, r) || CancelsMaking(states[i - 1], steps[i - 1], r)
  {
    hide CancelsMaking, Next;
  }

  predicate Strays(run: Run) { run.stray || MakesStray(run) }

  lemma InstallNeverStrays(run: Run, final: Option<Entry>, a: InstallAction, run': Run)
    requires TaskOk(run) && InstallStep(run, final, a, run') && Strays(run')
    ensures Strays(run)
  {
  }

  lemma LocalStrays(r: RunId, run: Run, final: Option<Entry>, a: Action, run': Run, final': Option<Entry>)
    requires TaskOk(run) && LocalStep(r, run, final, a, run', final')
    requires Strays(run') && !Strays(run)
    ensures a == Anytime(Cancel) && run.fut == AwaitMkdir
  {
    hide InstallStep, TxStep;
    match a
    case Install(i) => InstallNeverStrays(run, final, i, run');
    case Transact(t) => TxNeverStrays(r, run, final, t, run', final');
    case Remove(d) => hide Strays; RemoveNeverStrays(run, final, d, run', final');
    case Anytime(x) =>
  }

  lemma TxNeverStrays(r: RunId, run: Run, final: Option<Entry>, a: TxAction, run': Run, final': Option<Entry>)
    requires TxStep(r, run, final, a, run', final') && Strays(run')
    ensures Strays(run)
  {
  }

  lemma RemoveNeverStrays(run: Run, final: Option<Entry>, a: RemoveAction, run': Run, final': Option<Entry>)
    requires TaskOk(run) && RemoveStep(run, final, a, run', final') && Strays(run')
    ensures Strays(run)
  {
  }

  lemma StepStrays(s: State, step: Step, s': State, r: RunId)
    requires Inv(s) && Next(s, step, s') && r in s'.runs && Strays(s'.runs[r])
    ensures r in s.runs
    ensures Strays(s.runs[r]) || CancelsMaking(s, step, r)
  {
    hide LocalStep, LocksOk, FilesOk, PlaceOk;
    if step.Act? && step.r == r {
      if !Strays(s.runs[r]) { LocalStrays(r, s.runs[r], s.final, step.action, s'.runs[r], s'.final); }
    } else {
      OthersStay(s, step, s', r);
      hide Next;
    }
  }

  lemma {:induction false} StrayMeansCancelled(states: seq<State>, steps: seq<Step>, i: nat, r: RunId)
    requires Behaviour(states, steps) && i < |states| && r in states[i].runs && Strays(states[i].runs[r])
    ensures CancelledWhileMaking(states, steps, i, r)
  {
    hide Behaviour, Inv, Next, Strays, CancelsMaking, CancelledWhileMaking;
    BehaviourLength(states, steps);
    if i == 0 {
      NobodyAtStart(states, steps, r);
    } else {
      BehaviourStep(states, steps, i - 1);
      StepStrays(states[i - 1], steps[i - 1], states[i], r);
      StillMaking(states, steps, i, r);
      if Strays(states[i - 1].runs[r]) { StrayMeansCancelled(states, steps, i - 1, r); }
    }
  }

  /** A removal of run `r`'s staging directory fails in this step. */
  predicate FailsToRemove(s: State, s': State, r: RunId) {
    r in s.runs && r in s'.runs && s.runs[r].staging.Some? && !s.runs[r].kept && s'.runs[r].kept
  }

  ghost predicate RemovalFailed(states: seq<State>, steps: seq<Step>, i: nat, r: RunId)
    requires Behaviour(states, steps) && i < |states|
  {
    exists k :: 0 <= k < i && FailsToRemove(states[k], states[k + 1], r)
  }

  lemma StillFailed(states: seq<State>, steps: seq<Step>, i: nat, r: RunId)
    requires Behaviour(states, steps) && 0 < i < |states|
    ensures RemovalFailed(states, steps, i, r) <==>
            RemovalFailed(states, steps, i - 1, r) || FailsToRemove(states[i - 1], states[i], r)
  {
    hide FailsToRemove, Next;
  }

  lemma InstallKeepsKept(run: Run, final: Option<Entry>, a: InstallAction, run': Run)
    requires InstallStep(run, final, a, run') && run'.kept && !run.kept
    ensures run.staging.Some?
  {
  }

  lemma LocalKept(r: RunId, run: Run, final: Option<Entry>, a: Action, run': Run, final': Option<Entry>)
    requires LocalStep(r, run, final, a, run', final') && run'.kept && !run.kept
    ensures run.staging.Some?
  {
    hide InstallStep;
    match a
    case Install(i) => InstallKeepsKept(run, final, i, run');
    case Transact(t) =>
    case Remove(d) =>
    case Anytime(x) =>
  }

  lemma StepKept(s: State, step: Step, s': State, r: RunId)
    requires Next(s, step, s') && r in s'.runs && s'.runs[r].kept
    ensures r in s.runs && (s.runs[r].kept || FailsToRemove(s, s', r))
  {
    hide LocalStep;
    if step.Act? && step.r == r {
      if !s.runs[r].kept { LocalKept(r, s.runs[r], s.final, step.action, s'.runs[r], s'.final); }
    } else {
      OthersStay(s, step, s', r);
      hide Next;
    }
  }

  lemma {:induction false} KeptMeansFailed(states: seq<State>, steps: seq<Step>, i: nat, r: RunId)
    requires Behaviour(states, steps) && i < |states| && r in states[i].runs && states[i].runs[r].kept
    ensures RemovalFailed(states, steps, i, r)
  {
    hide Behaviour, Inv, Next, FailsToRemove, RemovalFailed;
    BehaviourLength(states, steps);
    if i == 0 {
      NobodyAtStart(states, steps, r);
    } else {
      BehaviourStep(states, steps, i - 1);
      StepKept(states[i - 1], steps[i - 1], states[i], r);
      StillFailed(states, steps, i, r);
      if states[i - 1].runs[r].kept { KeptMeansFailed(states, steps, i - 1, r); }
    }
  }

  /** A run that is over without having crashed left no staging directory, unless it
      was cancelled while it was creating its extraction directory or a removal of
      the staging directory failed. */
  lemma NothingLeftBehind(states: seq<State>, steps: seq<Step>, i: nat, r: RunId)
    requires Behaviour(states, steps) && i < |states| && r in states[i].runs
    requires var run := states[i].runs[r];
             (run.fut == Gone || run.fut.Leased?) && run.task == NoTask && !run.crashed
    requires !CancelledWhileMaking(states, steps, i, r) && !RemovalFailed(states, steps, i, r)
    ensures states[i].runs[r].staging == None
  {
    BehaviourInv(states, steps, i);
    if states[i].runs[r].stray { StrayMeansCancelled(states, steps, i, r); }
    if states[i].runs[r].kept { KeptMeansFailed(states, steps, i, r); }
    WriterHolds(r, states[i].runs[r], states[i].final);
  }
}
