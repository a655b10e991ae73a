/** What an install brings about when nothing stands in its way, from any reachable
    state. */
module CacheOutcomes {
  import opened Wrappers
  import opened CacheProtocol
  import opened CacheDurability
  import opened CachePaths
  import opened CacheProgress

  // ----- the next step of an install

  datatype Move = Move(action: Action, run: Run, final: Option<Entry>)

  /** What an install does next when all goes well; `hit` says whether the validation of
      a complete entry succeeds. */
  function Onward(r: RunId, run: Run, final: Option<Entry>, hit: bool): Move {
    match run.fut
    case AwaitPub => Move(Install(GotPub), run.(fut := AwaitRead, read1 := Waiting), final)
    case AwaitRead => Move(Install(GotFirstRead), run.(fut := AwaitValidate, task := Validating), final)
    case AwaitValidate => Validates(run, final, hit)
    case Download => Move(Install(DownloadEnds(true)), run.(fut := AwaitMkdir, task := MakingDir), final)
    case AwaitMkdir => Move(Install(MkdirEnds(true)), run.(fut := AwaitExtract, task := Extracting), final)
    case AwaitExtract =>
      if run.task == Extracting then Move(Install(ExtractEnds(true)), run.(task := Extracted(true)), final)
      else Move(Install(AfterExtract(true)), run.(fut := AwaitSeal, task := Sealing), final)
    case AwaitSeal =>
      if run.task == Sealing then Move(Install(SealEnds(true)), run.(staging := Some(true), task := Sealed(true)), final)
      else Move(Install(AfterSeal), run.(fut := AwaitWrite, task := NoTask, write := Waiting), final)
    case AwaitWrite => Move(Install(GotWrite), run.(fut := AwaitPromote, task := Promoting(Start)), final)
    case AwaitPromote => Promotes(r, run, final)
    case AwaitLease(e) => Move(Install(GotSecondRead), run.(fut := Leased(e, true)), final)
    case _ => Move(Install(EndLease), run.(fut := Gone), final)
  }

  function Validates(run: Run, final: Option<Entry>, hit: bool): Move {
    if run.task == Validating then
      Move(Install(ValidateEnds(hit && Complete(final))), run.(task := Validated(if hit && Complete(final) then final else None)), final)
    else if run.task.Validated? && run.task.hit.Some? then
      Move(Install(Hit), run.(fut := Leased(run.task.hit.value, false), task := NoTask), final)
    else Move(Install(Miss), run.(fut := Download, task := NoTask, staging := Some(false)), final)
  }

  function Promotes(r: RunId, run: Run, final: Option<Entry>): Move {
    match run.task
    case Promoting(Start) =>
      if run.kind == Installer(false) && Complete(final) then Move(Transact(TxKeep), run.(task := Promoting(Keep(final.value))), final)
      else if final.Some? then Move(Transact(TxMoveAside), run.(task := Promoting(Aside(true)), backup := final), None)
      else Move(Transact(TxNothingThere), run.(task := Promoting(Aside(false))), final)
    case Promoting(Keep(e)) => Move(Transact(TxKept), run.(task := Promoted(Some(e)), staging := None), final)
    case Promoting(Aside(moved)) =>
      Move(Transact(TxPromote), run.(task := Promoting(InPlace(moved)), staging := None), Some(Entry(r, true)))
    case Promoting(InPlace(moved)) => Move(Transact(TxCommit), run.(task := Promoting(Committed(moved, Entry(r, true)))), final)
    case Promoting(Committed(_, e)) => Move(Transact(TxFinish(true)), run.(task := Promoted(Some(e)), backup := None), final)
    case Promoted(Some(e)) => Move(Install(AfterPromote), run.(fut := AwaitLease(e), task := NoTask, read2 := Waiting), final)
    case _ => Move(Install(AfterPromote), run.(fut := Gone, task := NoTask), final)
  }

  predicate Waits(run: Run) {
    || (run.fut == AwaitPub && run.pub == Waiting) || (run.fut == AwaitRead && run.read1 == Waiting)
    || (run.fut == AwaitWrite && run.write == Waiting) || (run.fut.AwaitLease? && run.read2 == Waiting)
  }

  lemma OnwardValidates(r: RunId, run: Run, final: Option<Entry>, hit: bool)
    requires TaskOk(run) && OnCourse(run) && run.fut.AwaitValidate?
    ensures var m := Validates(run, final, hit); LocalStep(r, run, final, m.action, m.run, m.final)
  {
  }

  lemma OnwardWorks(r: RunId, run: Run, final: Option<Entry>, hit: bool)
    requires LocksOk(run) && TaskOk(run) && OnCourse(run) && !Waits(run) && !run.fut.Leased?
    requires !run.fut.AwaitPromote? && !run.fut.AwaitValidate?
    ensures var m := Onward(r, run, final, hit); LocalStep(r, run, final, m.action, m.run, m.final)
  {
    hide Promotes, Validates, AsksInOrder;
  }

  lemma OnwardPromotes(r: RunId, run: Run, final: Option<Entry>)
    requires RunOk(r, run, final) && Undisturbed(r, run, final) && run.fut.AwaitPromote?
    ensures var m := Promotes(r, run, final); LocalStep(r, run, final, m.action, m.run, m.final)
  {
    hide LocksOk, StagingOk, BackupOk;
  }

  lemma OnwardIsWell(r: RunId, run: Run, final: Option<Entry>, hit: bool)
    requires OnCourse(run) && !run.fut.Leased?
    ensures var m := Onward(r, run, final, hit);
            (m.action.Install? || m.action.Transact?) && !Stumble(m.action) && m.action != Install(EndLease) && !Tears(m.action)
  {
  }

  lemma OnwardIsAllowed(r: RunId, run: Run, final: Option<Entry>, hit: bool)
    requires RunOk(r, run, final) && Undisturbed(r, run, final) && !Waits(run) && !run.fut.Leased?
    ensures var m := Onward(r, run, final, hit); LocalStep(r, run, final, m.action, m.run, m.final)
  {
    hide LocalStep, LocksOk, TaskOk, FilesOk, PlaceOk, OnCourse, Unspoilt, Promotes, Validates;
    if run.fut.AwaitPromote? {
      OnwardPromotes(r, run, final);
    } else if run.fut.AwaitValidate? {
      OnwardValidates(r, run, final, hit);
    } else {
      OnwardWorks(r, run, final, hit);
    }
  }

  // ----- going on

  /** A step of the install `r` itself that is no stumble: getting a lock, releasing
      one, or working. */
  predicate OwnStep(step: Step, r: RunId) {
    || (step.Acquire? && step.r == r)
    || (step.Act? && step.r == r && (step.action.Install? || step.action.Transact? || (step.action.Anytime? && step.action.anytime.Release?))
        && !Stumble(step.action) && step.action != Install(EndLease))
  }

  /** Somebody else holds the lock that run `r` waits for. */
  ghost predicate Blocked(s: State, r: RunId)
    requires r in s.runs
  {
    exists lock, q :: LockLive(s.runs[r], lock) && GrantOf(s.runs[r], lock) == Waiting && q in s.runs && q != r && InTheWay(s.runs[q], lock)
  }

  predicate InTheWay(run: Run, lock: Lock) {
    match lock
    case Pub => run.pub == Held
    case Write => run.write == Held || run.read1 == Held || run.read2 == Held
    case _ => run.write == Held
  }

  /** The install has its lease and no lock it does not need. */
  predicate Served(run: Run) { run.fut.Leased? && SpareLocks(run) == 0 }

  lemma WhichLock(run: Run) returns (lock: Lock)
    requires Waits(run)
    ensures GrantOf(run, lock) == Waiting && LockLive(run, lock)
    ensures TaskOk(run) && OnCourse(run) && (forall l :: !Spare(run, l)) ==>
              (lock == Write ==> run.read1 != Held && run.read2 != Held) && (lock == FirstRead || lock == SecondRead ==> run.write != Held)
  {
    lock := if run.fut == AwaitPub then Pub else if run.fut == AwaitRead then FirstRead else if run.fut == AwaitWrite then Write else SecondRead;
    if run.fut == AwaitWrite && OnCourse(run) && forall l :: !Spare(run, l) {
      assert !Spare(run, FirstRead) && !Spare(run, SecondRead);
    } else if OnCourse(run) && forall l :: !Spare(run, l) {
      assert !Spare(run, Write);
    }
  }

  lemma SomeSpare(run: Run) returns (lock: Lock)
    requires SpareLocks(run) > 0
    ensures Spare(run, lock)
  {
    lock := if Spare(run, Pub) then Pub else if Spare(run, FirstRead) then FirstRead else if Spare(run, Write) then Write else SecondRead;
  }

  /** The state after `run` alone has changed, and the entry with it. */
  function After(s: State, r: RunId, run: Run, final: Option<Entry>): State { s.(final := final, runs := s.runs[r := run]) }

  lemma NextAct(s: State, r: RunId, a: Action, run': Run, final': Option<Entry>)
    requires r in s.runs && LocalStep(r, s.runs[r], s.final, a, run', final')
    ensures Next(s, Act(r, a), After(s, r, run', final'))
  {
    hide LocalStep;
  }

  lemma NextAcquire(s: State, r: RunId, lock: Lock)
    requires r in s.runs && GrantOf(s.runs[r], lock) == Waiting && LockLive(s.runs[r], lock) && !Blocked(s, r)
    requires lock == Write ==> s.runs[r].read1 != Held && s.runs[r].read2 != Held
    requires lock == FirstRead || lock == SecondRead ==> s.runs[r].write != Held
    ensures Next(s, Acquire(r, lock), After(s, r, WithGrant(s.runs[r], lock, Held), s.final))
  {
    hide LockLive;
    assert forall q :: q in s.runs && q != r ==> !InTheWay(s.runs[q], lock);
  }

  /** An install on course that is not blocked releases a lock it does not need, gets the
      lock it waits for, or works. */
  ghost predicate StepsOn(s: State, step: Step, s': State, r: RunId, hit: bool)
    requires r in s.runs
  {
    var run := s.runs[r];
    || (step.Act? && step.action.Anytime? && step.action.anytime.Release? && s' == After(s, r, WithGrant(run, step.action.anytime.lock, Idle), s.final))
    || (step.Acquire? && s' == After(s, r, WithGrant(run, step.lock, Held), s.final))
    || (!run.fut.Leased? && s' == After(s, r, Onward(r, run, s.final, hit).run, Onward(r, run, s.final, hit).final))
  }

  lemma GoesOnce(s: State, r: RunId, hit: bool) returns (step: Step, s': State)
    requires Inv(s) && r in s.runs && Undisturbed(r, s.runs[r], s.final) && !Blocked(s, r) && !Served(s.runs[r])
    ensures OwnStep(step, r) && Next(s, step, s') && !(step.Act? && Tears(step.action)) && StepsOn(s, step, s', r, hit)
  {
    var run := s.runs[r];
    LocksAndTasks(s, r);
    assert RunOk(r, run, s.final);
    hide Inv, RunOk, Next, LockLive, Onward, TaskOk, LocksOk, LocalStep, Blocked, OnCourse, Stumble, Tears;
    if SpareLocks(run) > 0 {
      var lock := SomeSpare(run);
      step, s' := Act(r, Anytime(Release(lock))), After(s, r, WithGrant(run, lock, Idle), s.final);
      ReleaseIsAllowed(r, run, s.final, lock);
      NextAct(s, r, step.action, WithGrant(run, lock, Idle), s.final);
    } else if Waits(run) {
      NoSpares(run);
      var lock := WhichLock(run);
      step, s' := Acquire(r, lock), After(s, r, WithGrant(run, lock, Held), s.final);
      NextAcquire(s, r, lock);
    } else {
      var m := Onward(r, run, s.final, hit);
      step, s' := Act(r, m.action), After(s, r, m.run, m.final);
      OnwardIsAllowed(r, run, s.final, hit);
      OnwardIsWell(r, run, s.final, hit);
      NextAct(s, r, m.action, m.run, m.final);
    }
  }

  lemma ReleaseIsAllowed(r: RunId, run: Run, final: Option<Entry>, lock: Lock)
    requires Spare(run, lock)
    ensures LocalStep(r, run, final, Anytime(Release(lock)), WithGrant(run, lock, Idle), final)
    ensures !Stumble(Anytime(Release(lock))) && !Tears(Anytime(Release(lock)))
  {
  }

  lemma NoSpares(run: Run)
    requires SpareLocks(run) == 0
    ensures forall lock :: !Spare(run, lock)
  {
    forall lock ensures !Spare(run, lock) {
      match lock
      case Pub =>
      case FirstRead =>
      case Write =>
      case SecondRead =>
    }
  }

  /** In every reachable state an install on course has its lease, or waits for a lock
      that somebody else holds, or can take a step of its own that takes it nearer. */
  lemma CanGoOn(states: seq<State>, steps: seq<Step>, i: nat, r: RunId)
    requires Behaviour(states, steps) && i < |states| && r in states[i].runs
    requires Undisturbed(r, states[i].runs[r], states[i].final)
    ensures || Served(states[i].runs[r]) || Blocked(states[i], r)
            || exists step, s' :: OwnStep(step, r) && Next(states[i], step, s') && r in s'.runs && Ahead(s'.runs[r]) < Ahead(states[i].runs[r])
  {
    var s := states[i];
    BehaviourInv(states, steps, i);
    hide Inv, Behaviour, Next, OwnStep, Undisturbed, Blocked, Served;
    if !Served(s.runs[r]) && !Blocked(s, r) {
      var step, s' := GoesOnce(s, r, true);
      OwnStepGetsNearer(s, step, s', r);
    }
  }

  lemma OwnStepGetsNearer(s: State, step: Step, s': State, r: RunId)
    requires Inv(s) && Next(s, step, s') && r in s.runs && Undisturbed(r, s.runs[r], s.final)
    requires OwnStep(step, r) && !(step.Act? && Tears(step.action))
    ensures r in s'.runs && Ahead(s'.runs[r]) < Ahead(s.runs[r]) && Undisturbed(r, s'.runs[r], s'.final)
    ensures !IsDetached(s, step) && !IsDeletion(step)
  {
    OwnStepIsNotDetached(s, step, r);
    RunsStay(s, step, s', r);
    StepStaysOnCourse(s, step, s', r);
    StepsGetNearer(s, step, s', r);
    hide Inv, Next, Ahead;
  }

  lemma OwnStepIsNotDetached(s: State, step: Step, r: RunId)
    requires r in s.runs && OnCourse(s.runs[r]) && OwnStep(step, r)
    ensures !IsDetached(s, step) && !IsDeletion(step)
  {
  }

  // ----- what an install hands to its caller

  datatype Promise = Promise(entry: Entry, installed: bool)

  predicate BeforeValidation(run: Run) { run.fut.AwaitPub? || run.fut.AwaitRead? || (run.fut.AwaitValidate? && run.task == Validating) }

  /** The lease an install is heading for when nobody is in its way. */
  function Promised(r: RunId, run: Run, final: Option<Entry>, hit: bool): Promise {
    if Relied(run).Some? then
      Promise(Relied(run).value, if run.fut.Leased? then run.fut.installed else !run.fut.AwaitValidate?)
    else if run.task.Promoting? && (run.task.tx.Aside? || run.task.tx.InPlace?) then Promise(Entry(r, true), true)
    else if BeforeValidation(run) && hit && Complete(final) then Promise(final.value, false)
    else if run.kind == Installer(false) && Complete(final) then Promise(final.value, true)
    else Promise(Entry(r, true), true)
  }

  /** A backup is there only while a publication is under way. */
  predicate Tidy(run: Run) {
    run.backup.Some? ==> run.task.Promoting? && (run.task.tx.Aside? || run.task.tx.InPlace? || run.task.tx.Committed?)
  }

  /** Nobody else holds an exclusive lock, nor, if an install is to write, a lease. */
  ghost predicate Clear(s: State, r: RunId, writing: bool) {
    forall q :: q in s.runs && q != r ==>
      s.runs[q].pub != Held && s.runs[q].write != Held && (writing ==> s.runs[q].read1 != Held && s.runs[q].read2 != Held)
  }

  lemma OnwardKeepsPromise(r: RunId, run: Run, final: Option<Entry>, hit: bool)
    requires TaskOk(run) && Undisturbed(r, run, final) && Tidy(run) && !run.fut.Leased?
    ensures var m := Onward(r, run, final, hit); Promised(r, m.run, m.final, hit) == Promised(r, run, final, hit)
  {
    hide TaskOk, OnCourse, Unspoilt, Promotes, Validates, Promised, Tidy;
    if run.fut.AwaitPromote? {
      PromotesKeepsPromise(r, run, final, hit);
    } else if run.fut.AwaitValidate? {
      ValidatesKeepsPromise(r, run, final, hit);
    } else {
      WorkKeepsPromise(r, run, final, hit);
    }
  }

  lemma ValidatesKeepsPromise(r: RunId, run: Run, final: Option<Entry>, hit: bool)
    requires TaskOk(run) && OnCourse(run) && run.fut.AwaitValidate?
    ensures var m := Validates(run, final, hit); Promised(r, m.run, m.final, hit) == Promised(r, run, final, hit)
  {
  }

  lemma WorkKeepsPromise(r: RunId, run: Run, final: Option<Entry>, hit: bool)
    requires TaskOk(run) && OnCourse(run) && !run.fut.Leased? && !run.fut.AwaitPromote? && !run.fut.AwaitValidate?
    ensures var m := Onward(r, run, final, hit); Promised(r, m.run, m.final, hit) == Promised(r, run, final, hit)
  {
    hide Promotes, Validates, AsksInOrder;
  }

  lemma PromotesKeepsPromise(r: RunId, run: Run, final: Option<Entry>, hit: bool)
    requires TaskOk(run) && Undisturbed(r, run, final) && run.fut.AwaitPromote?
    ensures var m := Promotes(r, run, final); Promised(r, m.run, m.final, hit) == Promised(r, run, final, hit)
  {
  }

  lemma OnwardStaysTidy(r: RunId, run: Run, final: Option<Entry>, hit: bool)
    requires TaskOk(run) && OnCourse(run) && Tidy(run) && !run.fut.Leased?
    ensures Tidy(Onward(r, run, final, hit).run)
  {
  }

  lemma GrantKeepsPromise(r: RunId, run: Run, final: Option<Entry>, hit: bool, lock: Lock, g: Grant)
    ensures Promised(r, WithGrant(run, lock, g), final, hit) == Promised(r, run, final, hit)
    ensures Tidy(WithGrant(run, lock, g)) == Tidy(run)
  {
  }

  /** `events` leads from `s` to `s'` by own steps of install `r`. */
  ghost predicate OwnStepsLead(s: State, r: RunId, steps: seq<Step>, s': State)
    decreases |steps|
  {
    if steps == [] then s == s'
    else OwnStep(steps[0], r) && exists next :: Next(s, steps[0], next) && OwnStepsLead(next, r, steps[1..], s')
  }

  /** What install `r` has got: a lease on the entry in place, and nothing left behind. */
  ghost predicate Gets(s: State, r: RunId, p: Promise) {
    && r in s.runs && s.runs[r].fut == Leased(p.entry, p.installed) && s.final == Some(p.entry) && p.entry.complete
    && s.runs[r].staging == None && s.runs[r].backup == None
    && s.runs[r].pub != Held && s.runs[r].write != Held
    && (if p.installed then s.runs[r].read2 == Held && s.runs[r].read1 != Held
        else s.runs[r].read1 == Held && s.runs[r].read2 != Held)
  }

  /** All that holds of an install that goes on alone. */
  ghost predicate Going(s: State, r: RunId, hit: bool, p: Promise) {
    && Inv(s) && r in s.runs && Undisturbed(r, s.runs[r], s.final) && Claims(s.runs[r], s.final) && Tidy(s.runs[r])
    && Promised(r, s.runs[r], s.final, hit) == p && Clear(s, r, p.installed)
  }

  lemma ServedGets(s: State, r: RunId, hit: bool, p: Promise)
    requires Going(s, r, hit, p) && Served(s.runs[r])
    ensures Gets(s, r, p)
  {
    NoSpares(s.runs[r]);
    assert RunOk(r, s.runs[r], s.final);
    hide Clear, Inv;
    assert forall lock :: GrantOf(s.runs[r], lock) == Held ==> LockLive(s.runs[r], lock);
    ServedRun(r, s.runs[r], s.final);
  }

  lemma ServedRun(r: RunId, run: Run, final: Option<Entry>)
    requires RunOk(r, run, final) && OnCourse(run) && Tidy(run) && run.fut.Leased?
    requires !Spare(run, Pub) && !Spare(run, FirstRead) && !Spare(run, Write) && !Spare(run, SecondRead)
    ensures run.staging == None && run.backup == None && run.pub != Held && run.write != Held && run.fut.entry.complete
    ensures if run.fut.installed then run.read2 == Held && run.read1 != Held else run.read1 == Held && run.read2 != Held
  {
  }

  lemma NobodyBlocks(s: State, r: RunId, hit: bool, p: Promise)
    requires Going(s, r, hit, p)
    ensures !Blocked(s, r)
  {
    LocksAndTasks(s, r);
    if s.runs[r].write == Waiting { OnlyWritersAskToWrite(r, s.runs[r], s.final, hit); }
    hide Inv, Undisturbed, Claims, Tidy, Promised;
  }

  lemma OnlyWritersAskToWrite(r: RunId, run: Run, final: Option<Entry>, hit: bool)
    requires OnCourse(run) && TaskOk(run) && run.write == Waiting
    ensures Promised(r, run, final, hit).installed
  {
  }

  lemma PromiseKept(s: State, step: Step, s': State, r: RunId, hit: bool)
    requires r in s.runs && TaskOk(s.runs[r]) && Undisturbed(r, s.runs[r], s.final) && Tidy(s.runs[r]) && StepsOn(s, step, s', r, hit)
    ensures r in s'.runs && s' == After(s, r, s'.runs[r], s'.final)
    ensures Promised(r, s'.runs[r], s'.final, hit) == Promised(r, s.runs[r], s.final, hit) && Tidy(s'.runs[r])
  {
    var run := s.runs[r];
    hide Promised, Undisturbed, Onward, Tidy, TaskOk, WithGrant;
    if step.Act? && step.action.Anytime? && step.action.anytime.Release? && s' == After(s, r, WithGrant(run, step.action.anytime.lock, Idle), s.final) {
      GrantKeepsPromise(r, run, s.final, hit, step.action.anytime.lock, Idle);
    } else if step.Acquire? && s' == After(s, r, WithGrant(run, step.lock, Held), s.final) {
      GrantKeepsPromise(r, run, s.final, hit, step.lock, Held);
    } else {
      OnwardKeepsPromise(r, run, s.final, hit);
      UndisturbedIsOnCourse(r, run, s.final);
      OnwardStaysTidy(r, run, s.final, hit);
    }
  }

  lemma GoesOn(s: State, r: RunId, hit: bool, p: Promise) returns (step: Step, s': State)
    requires Going(s, r, hit, p) && !Served(s.runs[r])
    ensures OwnStep(step, r) && Next(s, step, s') && !IsDeletion(step) && Going(s', r, hit, p)
    ensures Ahead(s'.runs[r]) < Ahead(s.runs[r]) && s' == After(s, r, s'.runs[r], s'.final)
  {
    hide Inv, Next, Promised, Undisturbed, Ahead, Tidy, Claims, Served, Blocked, StepsOn, OwnStep, Tears, IsDetached, IsDeletion;
    NobodyBlocks(s, r, hit, p);
    step, s' := GoesOnce(s, r, hit);
    OwnStepGetsNearer(s, step, s', r);
    StepKeepsInv(s, step, s');
    StepKeepsClaims(s, step, s', r);
    assert TaskOk(s.runs[r]) by { LocksAndTasks(s, r); }
    hide TaskOk;
    PromiseKept(s, step, s', r, hit);
  }

  lemma UndisturbedIsOnCourse(r: RunId, run: Run, final: Option<Entry>)
    requires Undisturbed(r, run, final)
    ensures OnCourse(run)
  {
  }

  /** From any state of the system, an install on course that nobody stands in the way of
      ends, within the steps it has left and by them alone, with the lease it is heading
      for: on the complete entry that it validated, on the one it kept, or on its own, put
      in place with neither a staging directory nor a backup left. Nobody else is touched. */
  lemma {:induction false} InstallArrives(s: State, r: RunId, hit: bool, p: Promise) returns (steps: seq<Step>, s': State)
    requires Going(s, r, hit, p)
    ensures OwnStepsLead(s, r, steps, s') && |steps| <= Ahead(s.runs[r])
    ensures Inv(s') && Gets(s', r, p)
    ensures r in s'.runs && s' == After(s, r, s'.runs[r], s'.final)
    ensures forall from: State, kept: bool :: Leads(from, kept, s) ==> Leads(from, kept, s')
    decreases Ahead(s.runs[r])
  {
    hide Going, OwnStep, Next, Ahead, Leads, Gets, IsDeletion, Inv;
    assert Inv(s) && r in s.runs by { GoingMeans(s, r, hit, p); }
    if Served(s.runs[r]) {
      ServedGets(s, r, hit, p);
      return [], s;
    }
    var step, next := GoesOn(s, r, hit, p);
    assert r in next.runs by { GoingMeans(next, r, hit, p); }
    var rest;
    rest, s' := InstallArrives(next, r, hit, p);
    steps := [step] + rest;
    assert steps[1..] == rest && steps[0] == step;
    forall from: State, kept: bool | Leads(from, kept, s) ensures Leads(from, kept, s') {
      LeadsOn(from, kept, s, step, next);
    }
  }

  lemma GoingMeans(s: State, r: RunId, hit: bool, p: Promise)
    requires Going(s, r, hit, p)
    ensures Inv(s) && r in s.runs
  {
  }

  // ----- one install after another

  /** A run that holds no lock and no longer does anything. */
  predicate Quiet(run: Run) { run.pub != Held && run.read1 != Held && run.write != Held && run.read2 != Held }

  lemma SpawnLeads(from: State, kept: bool, s: State, r: RunId, kind: Kind)
    requires Leads(from, kept, s) && r !in s.runs
    ensures Leads(from, kept, s.(runs := s.runs[r := Fresh(kind, {})]))
  {
    hide Leads;
    LeadsOn(from, kept, s, Spawn(r, kind, {}), s.(runs := s.runs[r := Fresh(kind, {})]));
  }

  lemma FreshGoes(s: State, r: RunId, force: bool, hit: bool)
    requires Inv(s) && r in s.runs && s.runs[r] == Fresh(Installer(force), {})
    requires Clear(s, r, Promised(r, s.runs[r], s.final, hit).installed)
    ensures Going(s, r, hit, Promised(r, s.runs[r], s.final, hit))
    ensures Promised(r, s.runs[r], s.final, hit) ==
            if hit && Complete(s.final) then Promise(s.final.value, false)
            else if !force && Complete(s.final) then Promise(s.final.value, true)
            else Promise(Entry(r, true), true)
  {
    hide Inv;
  }

  /** An install that begins in a reachable state in which nobody stands in its way gets
      the complete entry in place if it validates it, keeps it unless it is forced to
      replace it, and otherwise publishes its own. */
  lemma NewInstallGets(s: State, r: RunId, force: bool, hit: bool) returns (s': State)
    requires Reachable(s) && r !in s.runs
    requires forall q :: q in s.runs ==>
               s.runs[q].pub != Held && s.runs[q].write != Held
               && ((hit && Complete(s.final)) || (s.runs[q].read1 != Held && s.runs[q].read2 != Held))
    ensures Reachable(s') && s'.runs.Keys == s.runs.Keys + {r} && forall q :: q in s.runs ==> s'.runs[q] == s.runs[q]
    ensures s'.confusable == s.confusable
    ensures Gets(s', r, if hit && Complete(s.final) then Promise(s.final.value, false)
                        else if !force && Complete(s.final) then Promise(s.final.value, true)
                        else Promise(Entry(r, true), true))
  {
    hide Leads, Inv, Gets, Going, Promised, LocalStep;
    var begun := s.(runs := s.runs[r := Fresh(Installer(force), {})]);
    SpawnLeads(Init(s.confusable), false, s, r, Installer(force));
    ReachableIsInv(begun);
    var p := Promised(r, begun.runs[r], begun.final, hit);
    FreshPromise(r, force, s.final, hit);
    assert Clear(begun, r, p.installed);
    FreshGoes(begun, r, force, hit);
    var steps;
    steps, s' := InstallArrives(begun, r, hit, p);
  }

  lemma FreshPromise(r: RunId, force: bool, final: Option<Entry>, hit: bool)
    ensures Promised(r, Fresh(Installer(force), {}), final, hit).installed <==> !(hit && Complete(final))
  {
  }

  lemma LeaseEndsLocally(r: RunId, run: Run, final: Option<Entry>, lock: Lock)
    requires run.fut.Leased? && GrantOf(run, lock) == Held && (lock == FirstRead || lock == SecondRead) && run.task == NoTask
    ensures LocalStep(r, run, final, Install(EndLease), run.(fut := Gone), final)
    ensures LocalStep(r, run.(fut := Gone), final, Anytime(Release(lock)), WithGrant(run.(fut := Gone), lock, Idle), final)
  {
  }

  /** The runner is done: it ends its lease and lets go of the lock. */
  lemma LeaseEnds(s: State, r: RunId, p: Promise) returns (s': State)
    requires Reachable(s) && Gets(s, r, p)
    ensures Reachable(s') && s'.runs.Keys == s.runs.Keys && s'.final == s.final && s'.confusable == s.confusable
    ensures Quiet(s'.runs[r]) && s'.runs[r].fut == Gone && forall q :: q in s.runs && q != r ==> s'.runs[q] == s.runs[q]
  {
    hide Leads, LocalStep;
    var lock := if p.installed then SecondRead else FirstRead;
    var over := s.runs[r].(fut := Gone);
    ReachableIsInv(s);
    assert TaskOk(s.runs[r]) by { LocksAndTasks(s, r); }
    hide Inv;
    LeaseEndsLocally(r, s.runs[r], s.final, lock);
    var mid := s.(final := s.final, runs := s.runs[r := over]);
    ActLeads(Init(s.confusable), false, s, r, Install(EndLease), over, s.final);
    hide TaskOk;
    s' := mid.(final := s.final, runs := mid.runs[r := WithGrant(over, lock, Idle)]);
    ActLeads(Init(s.confusable), false, mid, r, Anytime(Release(lock)), WithGrant(over, lock, Idle), s.final);
  }

  /** The first install of a key publishes its payload and leases it. A second one leases
      the same entry beside it. */
  lemma FirstPublishesSecondShares(confusable: bool, force: bool) returns (s1: State, s2: State)
    ensures Reachable(s1) && s1.confusable == confusable && s1.runs.Keys == {0} && Gets(s1, 0, Promise(Entry(0, true), true))
    ensures Reachable(s2) && 0 in s2.runs && Gets(s2, 1, Promise(Entry(0, true), false)) && s2.runs[0] == s1.runs[0]
  {
    var s := Init(confusable);
    LeadsNowhere(s, false);
    hide Leads;
    s1 := NewInstallGets(s, 0, force, false);
    s2 := NewInstallGets(s1, 1, force, true);
  }

  /** An install that does not find the entry valid before it extracts, but does when it
      promotes, keeps it, unless it is forced to put its own in its place. */
  lemma ThirdKeepsOrReplaces(confusable: bool, force: bool) returns (s: State)
    ensures Reachable(s) && s.confusable == confusable
    ensures Gets(s, 1, Promise(Entry(if force then 1 else 0, true), true))
  {
    var s1, s2 := FirstPublishesSecondShares(confusable, force);
    var over := LeaseEnds(s1, 0, Promise(Entry(0, true), true));
    hide Leads;
    assert s1.final == Some(Entry(0, true)) && over.runs.Keys == {0};
    s := NewInstallGets(over, 1, force, false);
  }
}
