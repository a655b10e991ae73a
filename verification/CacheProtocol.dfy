/** All processes that share one cache key, as interleaved small steps: installers,
    runners, uninstalls, update cleanups and startup sweeps, with cancelled
    futures, tasks that outlive them, removals that fail or stop half-way, and crashes
    at any point. */
module CacheProtocol {
  import opened Wrappers

  type RunId = nat

  /** The payload a run staged; `complete` once it was sealed with its manifest and as
      long as no removal has begun to take it apart. */
  datatype Entry = Entry(maker: RunId, complete: bool)

  /** An operating-system file lock as one blocking worker sees it. A worker that
      waits cannot be interrupted: it gets the lock first and notices afterwards
      that nobody wants it any more. */
  datatype Grant = Idle | Waiting | Held

  /** The publication lock, and the three places a run takes the use lock. */
  datatype Lock = Pub | FirstRead | Write | SecondRead

  datatype Kind = Installer(force: bool) | Uninstaller(wait: bool) | Sweeper

  datatype WorkName = StagingOf(run: RunId) | BackupOf(run: RunId)

  /** Where a run's asynchronous caller stands. */
  datatype Future =
    | AwaitPub | AwaitRead | AwaitValidate | Download | AwaitMkdir | AwaitExtract | AwaitSeal | AwaitCleanup
    | AwaitWrite | AwaitPromote | AwaitLease(entry: Entry) | Leased(entry: Entry, installed: bool)
    | RemoverAwaitPub | RemoverAwaitWrite | AwaitDelete
    | SweeperTryPub(seen: set<WorkName>) | SweeperCheck(seen: set<WorkName>) | SweeperDelete(seen: set<WorkName>)
    | Gone

  /** Progress of the blocking promotion transaction. */
  datatype Tx =
    | Start | Keep(entry: Entry) | Aside(moved: bool) | InPlace(moved: bool) | Committed(moved: bool, entry: Entry)
    | Undo(published: bool, moved: bool) | DropStaging

  /** The blocking work of a run. It outlives a cancelled future, whose results
      (`...ed`) would then find nobody to collect them. */
  datatype Task =
    | NoTask
    | Validating | Validated(hit: Option<Entry>)
    | MakingDir    // creates the extraction directory, parents included
    | Extracting | Extracted(ok: bool)
    | Sealing | Sealed(ok: bool)
    | Discarding   // removes staging while keeping the publication lock alive
    | Cleaning     // removes staging holding nothing
    | Promoting(tx: Tx) | Promoted(result: Option<Entry>)
    | Deleting | Deleted

  datatype Run = Run(
    kind: Kind, fut: Future, task: Task,
    pub: Grant, read1: Grant, write: Grant, read2: Grant,
    staging: Option<bool>,    // its staging directory: absent, partial or sealed
    backup: Option<Entry>,    // its backup directory
    crashed: bool,
    stray: bool,              // its staging directory came back after it was cancelled
    kept: bool)               // a removal of its staging directory failed

  /** `confusable`: the key contains the backup marker, so that the sweep takes its
      staging directories for backups. */
  datatype State = State(final: Option<Entry>, runs: map<RunId, Run>, confusable: bool)

  // ----- who keeps a lock alive

  predicate PubLive(run: Run) {
    || !(run.fut == Gone || run.fut.Leased?)
    || run.task.Extracting? || run.task.Extracted? || run.task.Sealing? || run.task.Sealed?
    || run.task.Discarding? || run.task.Promoting?
  }

  predicate LockLive(run: Run, lock: Lock) {
    match lock
    case Pub => PubLive(run)
    case FirstRead => run.fut.AwaitRead? || run.fut.AwaitValidate? || (run.fut.Leased? && !run.fut.installed) || run.task == Validating
    case Write =>
      || run.fut.AwaitWrite? || run.fut.AwaitPromote? || run.fut.RemoverAwaitWrite? || run.fut.AwaitDelete?
      || run.task.Promoting?
    case SecondRead => run.fut.AwaitLease? || (run.fut.Leased? && run.fut.installed)
  }

  function GrantOf(run: Run, lock: Lock): Grant {
    match lock
    case Pub => run.pub
    case FirstRead => run.read1
    case Write => run.write
    case SecondRead => run.read2
  }

  function WithGrant(run: Run, lock: Lock, g: Grant): Run {
    match lock
    case Pub => run.(pub := g)
    case FirstRead => run.(read1 := g)
    case Write => run.(write := g)
    case SecondRead => run.(read2 := g)
  }

  /** The operating system would grant `lock` now. */
  ghost predicate Compatible(s: State, lock: Lock) {
    forall q :: q in s.runs ==>
      match lock
      case Pub => s.runs[q].pub != Held
      case Write => s.runs[q].write != Held && s.runs[q].read1 != Held && s.runs[q].read2 != Held
      case _ => s.runs[q].write != Held
  }

  // ----- steps of one run on its own state and the final entry

  datatype InstallAction =
    | GotPub | GotFirstRead | ValidateEnds(hit: bool) | Hit | Miss
    | DownloadEnds(ok: bool) | MkdirEnds(ok: bool) | ExtractEnds(ok: bool) | AfterExtract(resolved: bool)
    | SealEnds(ok: bool) | AfterSeal | DiscardEnds | CleanEnds | AfterClean | TearStaging
    | GotWrite | AfterPromote | GotSecondRead | EndLease

  datatype TxAction =
    | TxKeep | TxMoveAside | TxNothingThere | TxPromote | TxCommit | TxFinish(removed: bool)
    | TxKept | TxFail | TxUndoFinal | TxRestore | TxUndone | TxDropStaging
    | TxTear | TxTearBackup | TxTearStaging | TxUndoStops | TxRestoreFails

  datatype RemoveAction =
    | RemoverGotPub | RemoverGotWrite | TearEntry | DeleteFinal | DeleteStops | AfterDelete | TryFails
    | SweeperGotPub | SweepEnds

  datatype AnytimeAction = Cancel | Crash | Release(lock: Lock)

  datatype Action =
    | Install(install: InstallAction) | Transact(transact: TxAction)
    | Remove(remove: RemoveAction) | Anytime(anytime: AnytimeAction)

  function Finish(run: Run, result: Option<Entry>): Task {
    if run.fut == AwaitPromote then Promoted(result) else NoTask
  }

  /** `run'` is `base` after its last attempt to remove its staging directory, whether
      or not that succeeds. */
  predicate GivesUpStaging(base: Run, run': Run) {
    && run' == base.(staging := run'.staging, kept := run'.kept)
    && (|| (run'.staging == None && run'.kept == base.kept)
        || (run'.staging == base.staging && (run'.kept <==> base.kept || base.staging.Some?)))
  }

  /** What a removal under way leaves of a payload. */
  function Torn(e: Option<Entry>): Option<Entry> {
    match e
    case None => None
    case Some(entry) => Some(entry.(complete := false))
  }

  /** What cancelling the future leaves behind: guards are dropped, running tasks
      go on, and tasks that finished unobserved are replaced by their cleanup. */
  function Cancelled(run: Run): Run {
    run.(fut := Gone, task := if run.fut == AwaitWrite then Discarding else Unobserved(run.task))
  }

  function Unobserved(task: Task): Task {
    match task
    case Extracted(_) => Discarding
    case Sealed(_) => Discarding
    case Validated(_) => NoTask
    case Promoted(_) => NoTask
    case Deleted => NoTask
    case _ => task
  }

  /** Only a complete payload passes validation. */
  predicate Complete(final: Option<Entry>) { final.Some? && final.value.complete }

  /** Installing, up to the promotion and after it. */
  predicate InstallStep(run: Run, final: Option<Entry>, a: InstallAction, run': Run) {
    match a
    case GotPub =>
      run.fut == AwaitPub && run.pub == Held &&
      run' == run.(fut := AwaitRead, read1 := Waiting)
    case GotFirstRead =>
      run.fut == AwaitRead && run.read1 == Held &&
      run' == run.(fut := AwaitValidate, task := Validating)
    case ValidateEnds(hit) =>
      run.task == Validating && (hit ==> Complete(final)) &&
      run' == run.(task := if run.fut != AwaitValidate then NoTask else Validated(if hit then final else None))
    case Hit =>
      run.fut == AwaitValidate && run.task.Validated? && run.task.hit.Some? &&
      run' == run.(fut := Leased(run.task.hit.value, false), task := NoTask)
    case Miss =>
      run.fut == AwaitValidate && run.task == Validated(None) &&
      run' == run.(fut := Download, task := NoTask, staging := Some(false))
    case DownloadEnds(ok) =>
      run.fut == Download &&
      if ok then run' == run.(fut := AwaitMkdir, task := MakingDir) else GivesUpStaging(run.(fut := Gone), run')
    case MkdirEnds(ok) =>
      run.task == MakingDir &&
      if run.fut == AwaitMkdir then
        if ok then run' == run.(fut := AwaitExtract, task := Extracting)
        else GivesUpStaging(run.(fut := Gone, task := NoTask), run')
      else run' == if ok then run.(task := NoTask, staging := Some(false), stray := true) else run.(task := NoTask)
    case ExtractEnds(ok) =>
      run.task == Extracting &&
      var next := run.(task := if run.fut == AwaitExtract then Extracted(ok) else Discarding);
      run' == next.(staging := run'.staging) && (run'.staging == run.staging || (!ok && run'.staging == None))
    case AfterExtract(resolved) =>
      run.fut == AwaitExtract && run.task.Extracted? &&
      run' == if run.task.ok && resolved then run.(fut := AwaitSeal, task := Sealing)
              else run.(fut := AwaitCleanup, task := Cleaning)
    case SealEnds(ok) =>
      run.task == Sealing &&
      run' == run.(staging := if ok then Some(true) else run.staging,
                   task := if run.fut == AwaitSeal then Sealed(ok) else Discarding)
    case AfterSeal =>
      run.fut == AwaitSeal && run.task.Sealed? &&
      if run.task.ok then run' == run.(fut := AwaitWrite, task := NoTask, write := Waiting)
      else GivesUpStaging(run.(fut := Gone, task := NoTask), run')
    case DiscardEnds =>
      run.task == Discarding && GivesUpStaging(run.(task := NoTask), run')
    case CleanEnds =>
      run.task == Cleaning && GivesUpStaging(run.(task := NoTask), run')
    case TearStaging =>
      (run.task == Discarding || run.task == Cleaning) && run.staging.Some? && run' == run.(staging := Some(false))
    case AfterClean =>
      run.fut == AwaitCleanup && run.task == NoTask && run' == run.(fut := Gone)
    case GotWrite =>
      run.fut == AwaitWrite && run.write == Held &&
      run' == run.(fut := AwaitPromote, task := Promoting(Start))
    case AfterPromote =>
      run.fut == AwaitPromote && run.task.Promoted? &&
      run' == if run.task.result.Some?
              then run.(fut := AwaitLease(run.task.result.value), task := NoTask, read2 := Waiting)
              else run.(fut := Gone, task := NoTask)
    case GotSecondRead =>
      run.fut.AwaitLease? && run.read2 == Held &&
      run' == run.(fut := Leased(run.fut.entry, true))
    case EndLease =>
      run.fut.Leased? && run' == run.(fut := Gone)
  }

  /** The promotion transaction of run `r`. */
  predicate TxStep(r: RunId, run: Run, final: Option<Entry>, a: TxAction, run': Run, final': Option<Entry>) {
    match a
    case TxKeep =>
      run.task == Promoting(Start) && run.kind.Installer? && !run.kind.force && Complete(final) && final' == final &&
      run' == run.(task := Promoting(Keep(final.value)))
    case TxMoveAside =>
      run.task == Promoting(Start) && final.Some? && final' == None &&
      run' == run.(task := Promoting(Aside(true)), backup := final)
    case TxNothingThere =>
      run.task == Promoting(Start) && final == None && final' == None &&
      run' == run.(task := Promoting(Aside(false)))
    case TxPromote =>
      run.task.Promoting? && run.task.tx.Aside? && final == None && run.staging.Some? &&
      final' == Some(Entry(r, run.staging.value)) &&
      run' == run.(task := Promoting(InPlace(run.task.tx.moved)), staging := None)
    case TxCommit =>
      run.task.Promoting? && run.task.tx.InPlace? && Complete(final) && final' == final &&
      run' == run.(task := Promoting(Committed(run.task.tx.moved, final.value)))
    case TxFinish(removed) =>
      run.task.Promoting? && run.task.tx.Committed? && final' == final &&
      run' == run.(task := Finish(run, Some(run.task.tx.entry)),
                   backup := if removed then None else run.backup)
    case TxKept =>
      run.task.Promoting? && run.task.tx.Keep? && final' == final &&
      run' == run.(task := Finish(run, Some(run.task.tx.entry)), staging := None)
    case TxFail =>
      run.task.Promoting? && final' == final &&
      (run.task.tx.Start? || run.task.tx.Keep? || run.task.tx.Aside? || run.task.tx.InPlace?) &&
      run' == run.(task := Promoting(
        match run.task.tx
        case Aside(moved) => Undo(false, moved)
        case InPlace(moved) => Undo(true, moved)
        case _ => Undo(false, false)))
    case TxUndoFinal =>
      run.task.Promoting? && run.task.tx.Undo? && run.task.tx.published && final' == None &&
      run' == run.(task := Promoting(Undo(false, run.task.tx.moved)))
    case TxRestore =>
      run.task == Promoting(Undo(false, true)) && final == None && run.backup.Some? && final' == run.backup &&
      run' == run.(task := Promoting(DropStaging), backup := None)
    case TxUndone =>
      run.task == Promoting(Undo(false, false)) && final' == final &&
      run' == run.(task := Promoting(DropStaging))
    case TxDropStaging =>
      run.task == Promoting(DropStaging) && final' == final &&
      GivesUpStaging(run.(task := Finish(run, None)), run')
    // Removals half-way, and what goes wrong in an undo.
    case TxTear =>
      run.task.Promoting? && run.task.tx.Undo? && run.task.tx.published && final.Some? && final' == Torn(final) &&
      run' == run
    case TxTearBackup =>
      run.task.Promoting? && run.task.tx.Committed? && run.backup.Some? && final' == final &&
      run' == run.(backup := Torn(run.backup))
    case TxTearStaging =>
      run.task.Promoting? && (run.task.tx.Keep? || run.task.tx.DropStaging?) && run.staging.Some? && final' == final &&
      run' == run.(staging := Some(false))
    case TxUndoStops =>
      run.task.Promoting? && run.task.tx.Undo? && run.task.tx.published && final.Some? && final' == final &&
      run' == run.(task := Promoting(DropStaging))
    case TxRestoreFails =>
      run.task == Promoting(Undo(false, true)) && final' == final &&
      run' == run.(task := Promoting(DropStaging))
  }

  /** Removing the entry, and the sweep's locking. */
  predicate RemoveStep(run: Run, final: Option<Entry>, a: RemoveAction, run': Run, final': Option<Entry>) {
    match a
    case RemoverGotPub =>
      run.fut == RemoverAwaitPub && run.pub == Held && final' == final &&
      run' == run.(fut := RemoverAwaitWrite, write := Waiting)
    case RemoverGotWrite =>
      run.fut == RemoverAwaitWrite && run.write == Held && final' == final &&
      run' == run.(fut := AwaitDelete, task := Deleting)
    case TearEntry =>
      run.task == Deleting && final.Some? && final' == Torn(final) && run' == run
    case DeleteStops =>
      run.task == Deleting && final' == final &&
      run' == run.(task := if run.fut == AwaitDelete then Deleted else NoTask)
    case DeleteFinal =>
      run.task == Deleting && final' == None &&
      run' == run.(task := if run.fut == AwaitDelete then Deleted else NoTask)
    case AfterDelete =>
      run.fut == AwaitDelete && run.task == Deleted && final' == final && run' == run.(fut := Gone, task := NoTask)
    case TryFails =>
      final' == final && run.kind != Uninstaller(true) &&
      (|| ((run.fut == RemoverAwaitPub || run.fut.SweeperTryPub?) && run.pub == Waiting && run' == run.(fut := Gone, pub := Idle))
       || (run.fut == RemoverAwaitWrite && run.write == Waiting && run' == run.(fut := Gone, write := Idle)))
    case SweeperGotPub =>
      run.fut.SweeperTryPub? && run.pub == Held && final' == final && run' == run.(fut := SweeperCheck(run.fut.seen))
    case SweepEnds =>
      (run.fut.SweeperCheck? || run.fut.SweeperDelete?) && final' == final && run' == run.(fut := Gone)
  }

  predicate Sweeping(fut: Future) { fut.SweeperTryPub? || fut.SweeperCheck? || fut.SweeperDelete? }

  /** What may happen to any run at any time; only a sweep is never cancelled, because
      the program waits for it. */
  predicate AnytimeStep(run: Run, a: AnytimeAction, run': Run) {
    match a
    case Cancel =>
      run.fut != Gone && !Sweeping(run.fut) && !run.fut.Leased? &&
      if run.fut == Download || run.fut == AwaitMkdir then GivesUpStaging(Cancelled(run), run') else run' == Cancelled(run)
    case Crash =>
      run' == run.(fut := Gone, task := NoTask, pub := Idle, read1 := Idle, write := Idle, read2 := Idle, crashed := true)
    case Release(lock) =>
      GrantOf(run, lock) == Held && !LockLive(run, lock) && run' == WithGrant(run, lock, Idle)
  }

  /** Step `a` takes `run` to `run'` and the final entry to `final'`. */
  predicate LocalStep(r: RunId, run: Run, final: Option<Entry>, a: Action, run': Run, final': Option<Entry>) {
    match a
    case Install(i) => final' == final && InstallStep(run, final, i, run')
    case Transact(t) => TxStep(r, run, final, t, run', final')
    case Remove(d) => RemoveStep(run, final, d, run', final')
    case Anytime(x) => final' == final && AnytimeStep(run, x, run')
  }

  // ----- steps of the whole system

  function Fresh(kind: Kind, seen: set<WorkName>): Run {
    var fut := match kind
               case Installer(_) => AwaitPub
               case Uninstaller(_) => RemoverAwaitPub
               case Sweeper => SweeperTryPub(seen);
    Run(kind, fut, NoTask, Waiting, Idle, Idle, Idle, None, None, false, false, false)
  }

  /** `w` is on disk. */
  predicate OnDisk(s: State, w: WorkName) {
    && w.run in s.runs
    && if w.StagingOf? then s.runs[w.run].staging.Some? else s.runs[w.run].backup.Some?
  }

  /** `w` is on disk and the sweep takes it for a backup. */
  predicate Restorable(s: State, w: WorkName) { OnDisk(s, w) && (w.BackupOf? || s.confusable) }

  function Content(s: State, w: WorkName): Option<Entry>
    requires OnDisk(s, w)
  {
    if w.StagingOf? then Some(Entry(w.run, s.runs[w.run].staging.value)) else s.runs[w.run].backup
  }

  function Removed(s: State, w: WorkName): map<RunId, Run>
    requires w.run in s.runs
  {
    var run := s.runs[w.run];
    s.runs[w.run := if w.StagingOf? then run.(staging := None) else run.(backup := None)]
  }

  /** `w` half removed. */
  function Ripped(s: State, w: WorkName): map<RunId, Run>
    requires OnDisk(s, w)
  {
    var run := s.runs[w.run];
    s.runs[w.run := if w.StagingOf? then run.(staging := Some(false)) else run.(backup := Torn(run.backup))]
  }

  datatype Step =
    | Spawn(r: RunId, kind: Kind, seen: set<WorkName>)
    | Acquire(r: RunId, lock: Lock)
    | Act(r: RunId, action: Action)
    | SweepRestore(r: RunId, from: WorkName)
    | SweepLeave(r: RunId)
    | SweepTear(r: RunId, name: WorkName)
    | SweepRemove(r: RunId, name: WorkName)

  /** A deletion whose uninstall was cancelled and whose locks may be gone. */
  predicate DetachedDeletion(run: Run, a: Action) {
    run.task == Deleting && run.fut == Gone && (a == Remove(DeleteFinal) || a == Remove(TearEntry))
  }

  predicate IsDetached(s: State, step: Step) {
    step.Act? && step.r in s.runs && DetachedDeletion(s.runs[step.r], step.action)
  }

  ghost predicate Next(s: State, step: Step, s': State) {
    match step
    case Spawn(r, kind, seen) =>
      // The sweep lists work directories before it asks for any lock, so what it
      // saw may be gone, and what it missed may be there, when it gets one.
      && r !in s.runs && (forall w :: w in seen ==> OnDisk(s, w))
      && s' == s.(runs := s.runs[r := Fresh(kind, seen)])
    case Acquire(r, lock) =>
      && r in s.runs && GrantOf(s.runs[r], lock) == Waiting && Compatible(s, lock)
      && s' == s.(runs := s.runs[r := WithGrant(s.runs[r], lock, Held)])
    case Act(r, a) =>
      && r in s.runs && r in s'.runs
      && LocalStep(r, s.runs[r], s.final, a, s'.runs[r], s'.final)
      && s' == s.(final := s'.final, runs := s.runs[r := s'.runs[r]])
    case SweepRestore(r, from) =>
      && r in s.runs && s.runs[r].fut.SweeperCheck? && s.final == None
      && from in s.runs[r].fut.seen && Restorable(s, from)
      && var moved := Removed(s, from);
         s' == s.(final := Content(s, from), runs := moved[r := moved[r].(fut := SweeperDelete(s.runs[r].fut.seen))])
    case SweepLeave(r) =>
      // The entry is there, no backup was seen, or every rename failed.
      && r in s.runs && s.runs[r].fut.SweeperCheck?
      && s' == s.(runs := s.runs[r := s.runs[r].(fut := SweeperDelete(s.runs[r].fut.seen))])
    case SweepTear(r, name) =>
      && r in s.runs && s.runs[r].fut.SweeperDelete? && name in s.runs[r].fut.seen && OnDisk(s, name)
      && s' == s.(runs := Ripped(s, name))
    case SweepRemove(r, name) =>
      && r in s.runs && s.runs[r].fut.SweeperDelete? && name in s.runs[r].fut.seen && OnDisk(s, name)
      && s' == s.(runs := Removed(s, name))
  }

  function Init(confusable: bool): State { State(None, map[], confusable) }

  /** A run of the system from an initial state. */
  ghost predicate Behaviour(states: seq<State>, steps: seq<Step>) {
    && |states| == |steps| + 1 && states[0] == Init(states[0].confusable)
    && forall i :: 0 <= i < |steps| ==> Next(states[i], steps[i], states[i + 1])
  }

  // ----- the invariant, run by run

  predicate Granted(g: Grant, asking: bool) { g == Held || (g == Waiting && asking) }

  /** Every lock a run relies on is really held for it, unless it is still asking. */
  predicate LocksOk(run: Run) { PubOk(run) && UseOk(run) }

  predicate PubOk(run: Run) {
    PubLive(run) ==> Granted(run.pub, run.fut.AwaitPub? || run.fut.RemoverAwaitPub? || run.fut.SweeperTryPub?)
  }

  predicate UseOk(run: Run) { ReadOk(run) && WriteOk(run) && LeaseOk(run) }

  predicate ReadOk(run: Run) { LockLive(run, FirstRead) ==> Granted(run.read1, run.fut == AwaitRead) }

  predicate WriteOk(run: Run) {
    LockLive(run, Write) ==> Granted(run.write, run.fut.AwaitWrite? || run.fut.RemoverAwaitWrite?)
  }

  predicate LeaseOk(run: Run) { LockLive(run, SecondRead) ==> Granted(run.read2, run.fut.AwaitLease?) }

  /** Which task goes with which future. */
  predicate TaskOk(run: Run) {
    match run.task
    case NoTask =>
      !(run.fut.AwaitValidate? || run.fut.AwaitMkdir? || run.fut.AwaitExtract? || run.fut.AwaitSeal? || run.fut.AwaitPromote? || run.fut.AwaitDelete?)
    case Validating => run.fut.AwaitValidate? || run.fut.Gone?
    case Validated(_) => run.fut.AwaitValidate?
    case MakingDir => run.fut.AwaitMkdir? || run.fut.Gone?
    case Extracting => run.fut.AwaitExtract? || run.fut.Gone?
    case Extracted(_) => run.fut.AwaitExtract?
    case Sealing => run.fut.AwaitSeal? || run.fut.Gone?
    case Sealed(_) => run.fut.AwaitSeal?
    case Discarding => run.fut.Gone?
    case Cleaning => run.fut.AwaitCleanup? || run.fut.Gone?
    case Promoting(_) => run.fut.AwaitPromote? || run.fut.Gone?
    case Promoted(_) => run.fut.AwaitPromote?
    case Deleting => run.fut.AwaitDelete? || run.fut.Gone?
    case Deleted => run.fut.AwaitDelete?
  }

  /** The run is responsible for its staging directory. */
  predicate OwnsStaging(run: Run) {
    || run.fut.Download? || run.fut.AwaitMkdir? || run.fut.AwaitWrite?
    || run.task.Extracting? || run.task.Extracted? || run.task.Sealing? || run.task.Sealed?
    || run.task.Discarding? || run.task.Cleaning? || run.task.Promoting?
  }

  /** Something may still write into the run's staging directory. */
  predicate Writes(run: Run) {
    run.fut.Download? || run.task.MakingDir? || run.task.Extracting? || run.task.Sealing? || run.task.Promoting?
  }

  predicate FilesOk(run: Run) { StagingOk(run) && PayloadsOk(run) && BackupOk(run) }

  /** A run makes its backup in its promotion. */
  predicate BackupOk(run: Run) {
    run.fut.AwaitPub? || run.fut.AwaitRead? || run.fut.AwaitValidate? || run.fut.Download? || run.fut.AwaitMkdir?
    || run.fut.AwaitExtract? || run.fut.AwaitSeal? || run.fut.AwaitWrite? || run.task == Promoting(Start) ==>
      run.backup == None
  }

  /** A staging directory has somebody to clean it up, and is there while it is worked
      on. */
  predicate StagingOk(run: Run) {
    && (run.staging.Some? ==> run.crashed || run.stray || run.kept || OwnsStaging(run))
    && (run.fut.Download? || run.fut.AwaitMkdir? || run.task.Extracting? || run.task == Extracted(true) || run.task.Sealing? ==>
          run.staging.Some?)
    && (run.crashed || run.stray ==> run.fut == Gone && run.task == NoTask)
  }

  /** What is sealed, promoted, moved aside or counted on is there and complete. */
  predicate PayloadsOk(run: Run) { PromotableOk(run) && (Relied(run).Some? ==> Relied(run).value.complete) }

  predicate PromotableOk(run: Run) {
    && (run.fut.AwaitWrite? || run.task == Sealed(true) ==> run.staging == Some(true))
    && (run.task.Promoting? && (run.task.tx.Start? || run.task.tx.Aside?) ==> run.staging == Some(true))
    && (run.task.Promoting? && (run.task.tx.InPlace? || run.task.tx.Committed?) ==> run.staging == None)
    && (run.task.Promoting? && (run.task.tx.Aside? || run.task.tx.InPlace? || run.task.tx.Undo?) && run.task.tx.moved ==>
          run.backup.Some?)
  }

  /** The entry this run counts on being the final one. */
  function Relied(run: Run): Option<Entry> {
    match run.fut
    case AwaitLease(e) => Some(e)
    case Leased(e, _) => Some(e)
    case _ =>
      match run.task
      case Validated(hit) => hit
      case Promoted(result) => result
      case Promoting(Keep(e)) => Some(e)
      case Promoting(Committed(_, e)) => Some(e)
      case _ => None
  }

  /** The run has put its own payload in place and has not withdrawn it. */
  predicate InPlaceNow(run: Run) {
    run.task.Promoting? && (run.task.tx.InPlace? || (run.task.tx.Undo? && run.task.tx.published))
  }

  /** Nothing is in place while a publication has moved the old entry aside, and
      nothing but what is left of its own payload afterwards. */
  predicate PlaceOk(r: RunId, run: Run, final: Option<Entry>) {
    && (run.task.Promoting? && (run.task.tx.Aside? || run.task.tx == Undo(false, true)) ==> final == None)
    && (InPlaceNow(run) && final.Some? ==> final.value.maker == r)
  }

  predicate RunOk(r: RunId, run: Run, final: Option<Entry>) {
    LocksOk(run) && TaskOk(run) && FilesOk(run) && PlaceOk(r, run, final)
  }

  /** No two incompatible locks are held. */
  ghost predicate Exclusive(runs: map<RunId, Run>) {
    && (forall p, q :: p in runs && q in runs && p != q && runs[p].pub == Held ==> runs[q].pub != Held)
    && (forall p, q :: p in runs && q in runs && runs[p].write == Held ==>
          runs[q].read1 != Held && runs[q].read2 != Held && (p != q ==> runs[q].write != Held))
  }

  ghost predicate Inv(s: State) {
    && (forall r :: r in s.runs ==> RunOk(r, s.runs[r], s.final))
    && Exclusive(s.runs)
  }

  /** The entry the run counts on is the one in place. */
  predicate Claims(run: Run, final: Option<Entry>) { Relied(run).Some? ==> final == Relied(run) }

  /** A sweep that deletes finds a complete entry in place, or saw no backup that is
      still there. */
  ghost predicate SweepsOk(s: State) {
    forall r :: r in s.runs && s.runs[r].fut.SweeperDelete? ==> Complete(s.final) || NoBackupLeft(s, s.runs[r].fut.seen)
  }

  ghost predicate NoBackupLeft(s: State, seen: set<WorkName>) {
    forall q :: BackupOf(q) in seen ==> !OnDisk(s, BackupOf(q))
  }

  /** A sweep goes on to delete backups it saw although no complete entry is in place:
      all renames failed, what is in place is a wreck, or it restored a wreck. */
  ghost predicate Forsakes(s: State, step: Step) {
    || (step.SweepLeave? && step.r in s.runs && s.runs[step.r].fut.SweeperCheck? && !Complete(s.final)
        && !NoBackupLeft(s, s.runs[step.r].fut.seen))
    || (step.SweepRestore? && OnDisk(s, step.from) && !Complete(Content(s, step.from)))
  }

  // ----- one run's own step keeps its part of the invariant

  lemma InstallKeepsLocks(run: Run, final: Option<Entry>, a: InstallAction, run': Run)
    requires LocksOk(run) && TaskOk(run) && InstallStep(run, final, a, run')
    ensures LocksOk(run')
  {
    InstallKeepsPub(run, final, a, run');
    InstallKeepsUse(run, final, a, run');
    hide InstallStep, PubOk, UseOk, TaskOk;
  }

  lemma InstallKeepsPub(run: Run, final: Option<Entry>, a: InstallAction, run': Run)
    requires PubOk(run) && TaskOk(run) && InstallStep(run, final, a, run')
    ensures PubOk(run')
  {
  }

  lemma InstallKeepsUse(run: Run, final: Option<Entry>, a: InstallAction, run': Run)
    requires UseOk(run) && TaskOk(run) && InstallStep(run, final, a, run')
    ensures UseOk(run')
  {
    InstallKeepsRead(run, final, a, run');
    InstallKeepsWrite(run, final, a, run');
    InstallKeepsLease(run, final, a, run');
    hide InstallStep, ReadOk, WriteOk, LeaseOk, TaskOk;
  }

  lemma InstallKeepsRead(run: Run, final: Option<Entry>, a: InstallAction, run': Run)
    requires ReadOk(run) && TaskOk(run) && InstallStep(run, final, a, run')
    ensures ReadOk(run')
  {
  }

  lemma InstallKeepsWrite(run: Run, final: Option<Entry>, a: InstallAction, run': Run)
    requires WriteOk(run) && TaskOk(run) && InstallStep(run, final, a, run')
    ensures WriteOk(run')
  {
  }

  lemma InstallKeepsLease(run: Run, final: Option<Entry>, a: InstallAction, run': Run)
    requires LeaseOk(run) && TaskOk(run) && InstallStep(run, final, a, run')
    ensures LeaseOk(run')
  {
  }

  lemma InstallKeepsTask(run: Run, final: Option<Entry>, a: InstallAction, run': Run)
    requires TaskOk(run) && InstallStep(run, final, a, run')
    ensures TaskOk(run')
  {
    if Early(a) { EarlyKeepsTask(run, final, a, run'); } else { LateKeepsTask(run, final, a, run'); }
  }

  /** Up to the end of the download. */
  predicate Early(a: InstallAction) {
    a.GotPub? || a.GotFirstRead? || a.ValidateEnds? || a.Hit? || a.Miss? || a.DownloadEnds? || a.MkdirEnds?
  }

  lemma EarlyKeepsTask(run: Run, final: Option<Entry>, a: InstallAction, run': Run)
    requires TaskOk(run) && InstallStep(run, final, a, run') && Early(a)
    ensures TaskOk(run')
  {
  }

  lemma LateKeepsTask(run: Run, final: Option<Entry>, a: InstallAction, run': Run)
    requires TaskOk(run) && InstallStep(run, final, a, run') && !Early(a)
    ensures TaskOk(run')
  {
  }

  lemma InstallKeepsFiles(run: Run, final: Option<Entry>, a: InstallAction, run': Run)
    requires TaskOk(run) && FilesOk(run) && InstallStep(run, final, a, run')
    ensures FilesOk(run')
  {
    InstallKeepsStaging(run, final, a, run');
    InstallKeepsPayloads(run, final, a, run');
    InstallKeepsBackup(run, final, a, run');
    hide InstallStep, TaskOk, StagingOk, PayloadsOk, BackupOk;
  }

  lemma InstallKeepsStaging(run: Run, final: Option<Entry>, a: InstallAction, run': Run)
    requires TaskOk(run) && StagingOk(run) && InstallStep(run, final, a, run')
    ensures StagingOk(run')
  {
  }

  lemma InstallKeepsPayloads(run: Run, final: Option<Entry>, a: InstallAction, run': Run)
    requires TaskOk(run) && PayloadsOk(run) && InstallStep(run, final, a, run')
    ensures PayloadsOk(run')
  {
    InstallKeepsPromotable(run, final, a, run');
    InstallReliesOnComplete(run, final, a, run');
    hide InstallStep, TaskOk, PromotableOk, Relied;
  }

  lemma InstallKeepsBackup(run: Run, final: Option<Entry>, a: InstallAction, run': Run)
    requires TaskOk(run) && BackupOk(run) && InstallStep(run, final, a, run')
    ensures BackupOk(run')
  {
  }

  lemma InstallKeepsPromotable(run: Run, final: Option<Entry>, a: InstallAction, run': Run)
    requires TaskOk(run) && PromotableOk(run) && InstallStep(run, final, a, run')
    ensures PromotableOk(run')
  {
    if Early(a) { EarlyKeepsPromotable(run, final, a, run'); } else { LateKeepsPromotable(run, final, a, run'); }
  }

  lemma EarlyKeepsPromotable(run: Run, final: Option<Entry>, a: InstallAction, run': Run)
    requires TaskOk(run) && PromotableOk(run) && InstallStep(run, final, a, run') && Early(a)
    ensures PromotableOk(run')
  {
  }

  lemma LateKeepsPromotable(run: Run, final: Option<Entry>, a: InstallAction, run': Run)
    requires TaskOk(run) && PromotableOk(run) && InstallStep(run, final, a, run') && !Early(a)
    ensures PromotableOk(run')
  {
  }

  lemma InstallReliesOnComplete(run: Run, final: Option<Entry>, a: InstallAction, run': Run)
    requires TaskOk(run) && (Relied(run).Some? ==> Relied(run).value.complete) && InstallStep(run, final, a, run')
    ensures Relied(run').Some? ==> Relied(run').value.complete
  {
  }

  lemma InstallKeepsPlace(r: RunId, run: Run, final: Option<Entry>, a: InstallAction, run': Run)
    requires TaskOk(run) && PlaceOk(r, run, final) && InstallStep(run, final, a, run')
    ensures PlaceOk(r, run', final)
  {
  }

  lemma InstallKeeps(r: RunId, run: Run, final: Option<Entry>, a: InstallAction, run': Run)
    requires RunOk(r, run, final) && InstallStep(run, final, a, run')
    ensures RunOk(r, run', final)
  {
    hide InstallStep, LocksOk, TaskOk, FilesOk, PlaceOk;
    InstallKeepsLocks(run, final, a, run');
    InstallKeepsTask(run, final, a, run');
    InstallKeepsFiles(run, final, a, run');
    InstallKeepsPlace(r, run, final, a, run');
  }

  lemma TxKeepsLocks(r: RunId, run: Run, final: Option<Entry>, a: TxAction, run': Run, final': Option<Entry>)
    requires LocksOk(run) && TaskOk(run) && TxStep(r, run, final, a, run', final')
    ensures LocksOk(run')
  {
    TxShape(r, run, final, a, run', final');
    hide TxStep;
  }

  /** A promotion step changes only what the transaction is about. */
  lemma TxShape(r: RunId, run: Run, final: Option<Entry>, a: TxAction, run': Run, final': Option<Entry>)
    requires TxStep(r, run, final, a, run', final')
    ensures run.task.Promoting? && run'.fut == run.fut && SameGrants(run, run')
    ensures run'.task.Promoting? || (if run.fut == AwaitPromote then run'.task.Promoted? else run'.task == NoTask)
  {
  }

  predicate SameGrants(a: Run, b: Run) {
    a.pub == b.pub && a.read1 == b.read1 && a.write == b.write && a.read2 == b.read2
  }

  lemma TxKeepsTask(r: RunId, run: Run, final: Option<Entry>, a: TxAction, run': Run, final': Option<Entry>)
    requires TaskOk(run) && TxStep(r, run, final, a, run', final')
    ensures TaskOk(run')
  {
    TxShape(r, run, final, a, run', final');
    hide TxStep;
  }

  lemma TxKeepsFiles(r: RunId, run: Run, final: Option<Entry>, a: TxAction, run': Run, final': Option<Entry>)
    requires TaskOk(run) && FilesOk(run) && TxStep(r, run, final, a, run', final')
    ensures FilesOk(run')
  {
    TxKeepsStaging(r, run, final, a, run', final');
    TxKeepsPayloads(r, run, final, a, run', final');
    TxKeepsBackup(r, run, final, a, run', final');
    hide TxStep, TaskOk, StagingOk, PayloadsOk, BackupOk;
  }

  lemma TxKeepsStaging(r: RunId, run: Run, final: Option<Entry>, a: TxAction, run': Run, final': Option<Entry>)
    requires TaskOk(run) && StagingOk(run) && PromotableOk(run) && TxStep(r, run, final, a, run', final')
    ensures StagingOk(run')
  {
  }

  lemma TxKeepsPayloads(r: RunId, run: Run, final: Option<Entry>, a: TxAction, run': Run, final': Option<Entry>)
    requires TaskOk(run) && PayloadsOk(run) && TxStep(r, run, final, a, run', final')
    ensures PayloadsOk(run')
  {
    TxKeepsPromotable(r, run, final, a, run', final');
    TxReliesOnComplete(r, run, final, a, run', final');
    hide TxStep, TaskOk, PromotableOk, Relied;
  }

  lemma TxKeepsPromotable(r: RunId, run: Run, final: Option<Entry>, a: TxAction, run': Run, final': Option<Entry>)
    requires TaskOk(run) && PromotableOk(run) && TxStep(r, run, final, a, run', final')
    ensures PromotableOk(run')
  {
  }

  lemma TxReliesOnComplete(r: RunId, run: Run, final: Option<Entry>, a: TxAction, run': Run, final': Option<Entry>)
    requires (Relied(run).Some? ==> Relied(run).value.complete) && TxStep(r, run, final, a, run', final')
    ensures Relied(run').Some? ==> Relied(run').value.complete
  {
  }

  lemma TxKeepsBackup(r: RunId, run: Run, final: Option<Entry>, a: TxAction, run': Run, final': Option<Entry>)
    requires TaskOk(run) && BackupOk(run) && TxStep(r, run, final, a, run', final')
    ensures BackupOk(run')
  {
    TxShape(r, run, final, a, run', final');
    TxLeavesStart(r, run, final, a, run', final');
    hide TxStep;
  }

  lemma TxLeavesStart(r: RunId, run: Run, final: Option<Entry>, a: TxAction, run': Run, final': Option<Entry>)
    requires TxStep(r, run, final, a, run', final')
    ensures run'.task != Promoting(Start)
  {
  }

  lemma TxKeepsPlace(r: RunId, run: Run, final: Option<Entry>, a: TxAction, run': Run, final': Option<Entry>)
    requires TaskOk(run) && FilesOk(run) && PlaceOk(r, run, final) && TxStep(r, run, final, a, run', final')
    ensures PlaceOk(r, run', final')
  {
  }

  lemma TxKeeps(r: RunId, run: Run, final: Option<Entry>, a: TxAction, run': Run, final': Option<Entry>)
    requires RunOk(r, run, final) && TxStep(r, run, final, a, run', final')
    ensures RunOk(r, run', final')
  {
    hide TxStep, LocksOk, TaskOk, FilesOk, PlaceOk;
    TxKeepsLocks(r, run, final, a, run', final');
    TxKeepsTask(r, run, final, a, run', final');
    TxKeepsFiles(r, run, final, a, run', final');
    TxKeepsPlace(r, run, final, a, run', final');
  }

  lemma RemoveKeeps(r: RunId, run: Run, final: Option<Entry>, a: RemoveAction, run': Run, final': Option<Entry>)
    requires RunOk(r, run, final) && RemoveStep(run, final, a, run', final')
    ensures RunOk(r, run', final')
  {
  }

  lemma CancelKeeps(r: RunId, run: Run, final: Option<Entry>, run': Run)
    requires RunOk(r, run, final) && AnytimeStep(run, Cancel, run')
    ensures RunOk(r, run', final)
  {
  }

  lemma ReleaseKeeps(r: RunId, run: Run, final: Option<Entry>, lock: Lock)
    requires RunOk(r, run, final) && !LockLive(run, lock)
    ensures RunOk(r, WithGrant(run, lock, Idle), final)
  {
  }

  lemma AnytimeKeeps(r: RunId, run: Run, final: Option<Entry>, a: AnytimeAction, run': Run)
    requires RunOk(r, run, final) && AnytimeStep(run, a, run')
    ensures RunOk(r, run', final)
  {
    match a
    case Cancel => CancelKeeps(r, run, final, run');
    case Crash =>
    case Release(lock) => ReleaseKeeps(r, run, final, lock);
  }

  lemma LocalKeeps(r: RunId, run: Run, final: Option<Entry>, a: Action, run': Run, final': Option<Entry>)
    requires RunOk(r, run, final) && LocalStep(r, run, final, a, run', final')
    ensures RunOk(r, run', final')
  {
    hide RunOk, InstallStep, TxStep, RemoveStep, AnytimeStep;
    match a
    case Install(i) => InstallKeeps(r, run, final, i, run');
    case Transact(t) => TxKeeps(r, run, final, t, run', final');
    case Remove(d) => RemoveKeeps(r, run, final, d, run', final');
    case Anytime(x) => AnytimeKeeps(r, run, final, x, run');
  }

  lemma InstallAcquiresNoLock(run: Run, final: Option<Entry>, a: InstallAction, run': Run, lock: Lock)
    requires InstallStep(run, final, a, run')
    ensures GrantOf(run', lock) == Held ==> GrantOf(run, lock) == Held
  {
  }

  lemma AnytimeAcquiresNoLock(run: Run, a: AnytimeAction, run': Run, lock: Lock)
    requires AnytimeStep(run, a, run')
    ensures GrantOf(run', lock) == Held ==> GrantOf(run, lock) == Held
  {
  }

  /** What may happen at any time neither makes backups nor starts a sweep or a
      deletion. */
  lemma AnytimeLeavesOthers(run: Run, a: AnytimeAction, run': Run)
    requires AnytimeStep(run, a, run')
    ensures run'.backup == run.backup
    ensures run'.fut.SweeperDelete? ==> run'.fut == run.fut
    ensures run'.task.Promoting? || run'.task == Deleting ==> run'.task == run.task
    ensures a != Cancel ==> run'.kept == run.kept
  {
  }

  lemma NoLockAcquired(r: RunId, run: Run, final: Option<Entry>, a: Action, run': Run, final': Option<Entry>, lock: Lock)
    requires LocalStep(r, run, final, a, run', final')
    ensures GrantOf(run', lock) == Held ==> GrantOf(run, lock) == Held
  {
    hide InstallStep, TxStep, AnytimeStep;
    match a
    case Install(i) => InstallAcquiresNoLock(run, final, i, run', lock);
    case Transact(t) => TxShape(r, run, final, t, run', final');
    case Remove(d) =>
    case Anytime(x) => AnytimeAcquiresNoLock(run, x, run', lock);
  }

  lemma TxIsGuarded(r: RunId, run: Run, final: Option<Entry>, a: TxAction, run': Run, final': Option<Entry>)
    requires LocksOk(run) && TaskOk(run) && TxStep(r, run, final, a, run', final')
    ensures run.pub == Held && run.write == Held && !run.fut.SweeperDelete?
  {
  }

  /** Installing, apart from the promotion, neither makes backups nor sweeps nor deletes
      the entry. */
  lemma InstallLeavesOthers(run: Run, final: Option<Entry>, a: InstallAction, run': Run)
    requires InstallStep(run, final, a, run')
    ensures run'.backup == run.backup
    ensures run'.fut.SweeperDelete? ==> run'.fut == run.fut
    ensures run'.task == Deleting ==> run.task == Deleting && (run'.fut == run.fut || run.fut != AwaitDelete)
    ensures InPlaceNow(run') ==> run'.task == run.task
  {
  }

  /** A step touches the final entry or adds a backup only while its run holds both
      exclusive locks, unless it is a deletion whose uninstall was cancelled. */
  lemma LocalIsGuarded(r: RunId, run: Run, final: Option<Entry>, a: Action, run': Run, final': Option<Entry>)
    requires RunOk(r, run, final) && LocalStep(r, run, final, a, run', final')
    ensures final' != final ==>
              || (run.pub == Held && run.write == Held && !run.fut.SweeperDelete?)
              || (DetachedDeletion(run, a) && (final' == None || final' == Torn(final)))
    ensures run'.backup.Some? && run.backup == None ==> run.pub == Held && !run.fut.SweeperDelete?
  {
    hide InstallStep, TxStep, AnytimeStep;
    match a
    case Install(i) => InstallLeavesOthers(run, final, i, run');
    case Transact(t) => TxIsGuarded(r, run, final, t, run', final');
    case Remove(d) =>
    case Anytime(x) => AnytimeLeavesOthers(run, x, run');
  }

  lemma SweepStageFixed(r: RunId, run: Run, final: Option<Entry>, a: Action, run': Run, final': Option<Entry>)
    requires LocalStep(r, run, final, a, run', final')
    ensures run'.fut.SweeperDelete? ==> run'.fut == run.fut
  {
    hide InstallStep, TxStep, AnytimeStep;
    match a
    case Install(i) => InstallLeavesOthers(run, final, i, run');
    case Transact(t) => TxShape(r, run, final, t, run', final');
    case Remove(d) =>
    case Anytime(x) => AnytimeLeavesOthers(run, x, run');
  }

  /** A run that is not stepping keeps its part of the invariant when the entry
      vanishes or changes while another run holds the publication lock. */
  lemma BystanderKeeps(q: RunId, run: Run, final: Option<Entry>, final': Option<Entry>)
    requires RunOk(q, run, final)
    requires final' == final || final' == None || final' == Torn(final) || run.pub != Held
    ensures RunOk(q, run, final')
  {
  }

  lemma ActKeepsRuns(s: State, r: RunId, a: Action, s': State)
    requires Inv(s) && Next(s, Act(r, a), s')
    ensures forall q :: q in s'.runs ==> RunOk(q, s'.runs[q], s'.final)
  {
    hide RunOk, LocalStep;
    var run := s.runs[r];
    LocalKeeps(r, run, s.final, a, s'.runs[r], s'.final);
    LocalIsGuarded(r, run, s.final, a, s'.runs[r], s'.final);
    forall q | q in s'.runs ensures RunOk(q, s'.runs[q], s'.final) {
      if q != r { BystanderKeeps(q, s.runs[q], s.final, s'.final); }
    }
  }

  lemma ActKeepsLocks(s: State, r: RunId, a: Action, s': State)
    requires Exclusive(s.runs) && Next(s, Act(r, a), s')
    ensures Exclusive(s'.runs)
  {
    hide LocalStep;
    var run := s.runs[r];
    NoLockAcquired(r, run, s.final, a, s'.runs[r], s'.final, Pub);
    NoLockAcquired(r, run, s.final, a, s'.runs[r], s'.final, Write);
    NoLockAcquired(r, run, s.final, a, s'.runs[r], s'.final, FirstRead);
    NoLockAcquired(r, run, s.final, a, s'.runs[r], s'.final, SecondRead);
  }

  lemma ActKeepsInv(s: State, r: RunId, a: Action, s': State)
    requires Inv(s) && Next(s, Act(r, a), s')
    ensures Inv(s')
  {
    hide RunOk, LocalStep, Exclusive;
    ActKeepsRuns(s, r, a, s');
    ActKeepsLocks(s, r, a, s');
  }

  predicate IsSweep(step: Step) { step.SweepRestore? || step.SweepLeave? || step.SweepTear? || step.SweepRemove? }

  lemma SweepKeepsInv(s: State, step: Step, s': State)
    requires Inv(s) && Next(s, step, s') && IsSweep(step)
    ensures Inv(s')
  {
    hide RunOk, LocalStep;
    forall q | q in s'.runs ensures RunOk(q, s'.runs[q], s'.final) {
      SweepKeepsRun(s, step, s', q);
    }
    SweepKeepsLocks(s, step, s');
  }

  /** All that a step of sweep `r` may change in a run. */
  predicate SweptRun(run: Run, run': Run, sweeping: bool) {
    && SameGrants(run, run') && run'.task == run.task && run'.kind == run.kind
    && run'.stray == run.stray && run'.kept == run.kept && run'.crashed == run.crashed
    && (run'.fut == run.fut || (sweeping && run.fut.SweeperCheck? && run'.fut == SweeperDelete(run.fut.seen)))
    && (run'.backup == run.backup || run'.backup == None || run'.backup == Torn(run.backup))
    && (run'.staging == run.staging || run'.staging == None || run'.staging == Some(false))
  }

  /** What a sweep's step leaves as it was for every run. */
  lemma SweepLeavesRun(s: State, step: Step, s': State, q: RunId)
    requires Next(s, step, s') && IsSweep(step)
    ensures s'.runs.Keys == s.runs.Keys && step.r in s.runs
    ensures q in s.runs ==> SweptRun(s.runs[q], s'.runs[q], q == step.r)
    ensures s'.final == s.final || (step.SweepRestore? && s.final == None)
    ensures s.runs[step.r].fut.SweeperCheck? || s.runs[step.r].fut.SweeperDelete?
  {
    hide LocalStep, Compatible, SameGrants;
    assert forall run :: SameGrants(run, run) by { SameGrantsReflexive(); }
    match step
    case SweepRestore(r, from) => RestoreLeavesRun(s, r, from, s', q);
    case SweepLeave(r) => GrantsFollow(s.runs[r], s.runs[r].(fut := SweeperDelete(s.runs[r].fut.seen)));
    case SweepTear(r, name) => GrantsFollow(s.runs[name.run], Ripped(s, name)[name.run]);
    case SweepRemove(r, name) => GrantsFollow(s.runs[name.run], Removed(s, name)[name.run]);
  }

  lemma SameGrantsReflexive()
    ensures forall run :: SameGrants(run, run)
  {
  }

  lemma GrantsFollow(run: Run, run': Run)
    requires run'.pub == run.pub && run'.read1 == run.read1 && run'.write == run.write && run'.read2 == run.read2
    ensures SameGrants(run, run')
  {
  }

  lemma RestoreLeavesRun(s: State, r: RunId, from: WorkName, s': State, q: RunId)
    requires Next(s, SweepRestore(r, from), s')
    ensures s'.runs.Keys == s.runs.Keys && s.final == None
    ensures q in s.runs ==> SweptRun(s.runs[q], s'.runs[q], q == r)
  {
    hide LocalStep, Compatible;
  }

  lemma SweepKeepsLocks(s: State, step: Step, s': State)
    requires Exclusive(s.runs) && Next(s, step, s') && IsSweep(step)
    ensures Exclusive(s'.runs)
  {
    hide Next, LocalStep;
    SweepLeavesRun(s, step, s', step.r);
    forall q | q in s'.runs ensures q in s.runs && SameGrants(s.runs[q], s'.runs[q]) {
      SweepLeavesRun(s, step, s', q);
    }
  }

  /** Losing a work directory does not hurt a run that does not hold the
      publication lock, nor the sweep itself. */
  lemma LosingWorkDirKeeps(q: RunId, run: Run, final: Option<Entry>)
    requires RunOk(q, run, final)
    requires run.pub != Held || run.fut.SweeperCheck? || run.fut.SweeperDelete?
    ensures RunOk(q, run.(staging := None), final)
    ensures RunOk(q, run.(backup := None), final)
    ensures run.staging.Some? ==> RunOk(q, run.(staging := Some(false)), final)
    ensures RunOk(q, run.(backup := Torn(run.backup)), final)
  {
    IdleWorkDir(q, run, final);
    SweptFilesOk(q, run, run.(staging := None), final);
    SweptFilesOk(q, run, run.(backup := None), final);
    if run.staging.Some? { SweptFilesOk(q, run, run.(staging := Some(false)), final); }
    SweptFilesOk(q, run, run.(backup := Torn(run.backup)), final);
  }

  /** Nothing of the run depends on its work directories. */
  predicate NoWorkDirNeeded(run: Run) {
    && !run.task.Promoting? && run.task != Extracted(true) && !run.task.Sealed? && !run.task.Sealing? && !run.task.Extracting?
    && !run.fut.Download? && !run.fut.AwaitMkdir? && !run.fut.AwaitWrite?
  }

  lemma IdleWorkDir(q: RunId, run: Run, final: Option<Entry>)
    requires RunOk(q, run, final)
    requires run.pub != Held || run.fut.SweeperCheck? || run.fut.SweeperDelete?
    ensures NoWorkDirNeeded(run)
  {
  }

  lemma SweptFilesOk(q: RunId, run: Run, run': Run, final: Option<Entry>)
    requires RunOk(q, run, final) && NoWorkDirNeeded(run)
    requires run' == run.(staging := run'.staging, backup := run'.backup)
    requires (run'.staging.Some? ==> run.staging.Some?) && (run.backup == None ==> run'.backup == None)
    ensures RunOk(q, run', final)
  {
  }

  lemma SweeperAdvances(r: RunId, run: Run, final: Option<Entry>, final': Option<Entry>)
    requires RunOk(r, run, final) && run.fut.SweeperCheck?
    ensures RunOk(r, run.(fut := SweeperDelete(run.fut.seen)), final')
  {
  }

  lemma SweepKeepsRun(s: State, step: Step, s': State, q: RunId)
    requires Inv(s) && Next(s, step, s') && q in s'.runs && IsSweep(step)
    ensures RunOk(q, s'.runs[q], s'.final)
  {
    hide RunOk;
    var r, run := step.r, s.runs[q];
    SweepingHolds(r, s.runs[r], s.final);
    match step
    case SweepRemove(_, name) =>
      if q == name.run { LosingWorkDirKeeps(q, run, s.final); }
    case SweepTear(_, name) =>
      if q == name.run { LosingWorkDirKeeps(q, run, s.final); }
    case SweepLeave(_) =>
      if q == r { SweeperAdvances(q, run, s.final, s.final); }
    case SweepRestore(_, from) =>
      if q == from.run { LosingWorkDirKeeps(q, run, s.final); }
      var lost := if q != from.run then run else if from.StagingOf? then run.(staging := None) else run.(backup := None);
      if q == r {
        SweeperAdvances(q, lost, s.final, s'.final);
      } else {
        BystanderKeeps(q, lost, s.final, s'.final);
      }
  }

  lemma FreshIsOk(r: RunId, kind: Kind, seen: set<WorkName>, final: Option<Entry>)
    ensures RunOk(r, Fresh(kind, seen), final)
  {
  }

  lemma SweepingHolds(r: RunId, run: Run, final: Option<Entry>)
    requires RunOk(r, run, final) && (run.fut.SweeperCheck? || run.fut.SweeperDelete?)
    ensures run.pub == Held && run.task == NoTask
  {
  }

  lemma SpawnKeepsInv(s: State, r: RunId, kind: Kind, seen: set<WorkName>, s': State)
    requires Inv(s) && Next(s, Spawn(r, kind, seen), s')
    ensures Inv(s')
  {
    hide RunOk;
    FreshIsOk(r, kind, seen, s.final);
  }

  lemma AcquireKeepsInv(s: State, r: RunId, lock: Lock, s': State)
    requires Inv(s) && Next(s, Acquire(r, lock), s')
    ensures Inv(s')
  {
    hide RunOk;
    AcquireKeeps(r, s.runs[r], s.final, lock);
    AcquireExclusive(s, r, lock);
  }

  lemma AcquireKeeps(r: RunId, run: Run, final: Option<Entry>, lock: Lock)
    requires RunOk(r, run, final)
    ensures RunOk(r, WithGrant(run, lock, Held), final)
  {
  }

  lemma AcquireExclusive(s: State, r: RunId, lock: Lock)
    requires Exclusive(s.runs) && r in s.runs && Compatible(s, lock)
    ensures Exclusive(s.runs[r := WithGrant(s.runs[r], lock, Held)])
  {
  }

  lemma StepKeepsInv(s: State, step: Step, s': State)
    requires Inv(s) && Next(s, step, s')
    ensures Inv(s')
  {
    hide Inv, Next;
    match step
    case Act(r, a) => ActKeepsInv(s, r, a, s');
    case Spawn(r, kind, seen) => SpawnKeepsInv(s, r, kind, seen, s');
    case Acquire(r, lock) => AcquireKeepsInv(s, r, lock, s');
    case _ => SweepKeepsInv(s, step, s');
  }

  lemma {:induction false} BehaviourInv(states: seq<State>, steps: seq<Step>, i: nat)
    requires Behaviour(states, steps) && i < |states|
    ensures Inv(states[i])
  {
    if i > 0 {
      hide Inv, Next;
      BehaviourInv(states, steps, i - 1);
      StepKeepsInv(states[i - 1], steps[i - 1], states[i]);
    }
  }

  lemma BehaviourLength(states: seq<State>, steps: seq<Step>)
    requires Behaviour(states, steps)
    ensures |states| == |steps| + 1
  {
  }

  /** One step of a run of the system. */
  lemma BehaviourStep(states: seq<State>, steps: seq<Step>, i: nat)
    requires Behaviour(states, steps) && i < |steps|
    ensures |states| == |steps| + 1
    ensures Inv(states[i]) && Inv(states[i + 1]) && Next(states[i], steps[i], states[i + 1])
  {
    hide Inv, Next;
    BehaviourInv(states, steps, i);
    BehaviourInv(states, steps, i + 1);
  }

  /** A run that takes no step keeps its task and its place, unless it is the sweep. */
  lemma OthersStay(s: State, step: Step, s': State, q: RunId)
    requires Next(s, step, s') && q in s'.runs && !(step.Act? && step.r == q)
    ensures q in s.runs ==>
              && s'.runs[q].task == s.runs[q].task && s'.runs[q].stray == s.runs[q].stray && s'.runs[q].kept == s.runs[q].kept
              && (s'.runs[q].fut == s.runs[q].fut || (s.runs[q].fut.SweeperCheck? && s'.runs[q].fut.SweeperDelete?))
    ensures q !in s.runs ==> s'.runs[q].task == NoTask && !s'.runs[q].stray && !s'.runs[q].kept
  {
    hide LocalStep, Compatible;
    if IsSweep(step) {
      SweepLeavesRun(s, step, s', q);
    }
  }

  // ----- what a run counts on stays true in every step but one kind

  lemma InstallKeepsClaims(run: Run, final: Option<Entry>, a: InstallAction, run': Run)
    requires TaskOk(run) && Claims(run, final) && InstallStep(run, final, a, run')
    ensures Claims(run', final)
  {
  }

  lemma TxKeepsClaims(r: RunId, run: Run, final: Option<Entry>, a: TxAction, run': Run, final': Option<Entry>)
    requires TaskOk(run) && Claims(run, final) && TxStep(r, run, final, a, run', final')
    ensures Claims(run', final')
  {
  }

  lemma RemoveKeepsClaims(run: Run, final: Option<Entry>, a: RemoveAction, run': Run, final': Option<Entry>)
    requires TaskOk(run) && Claims(run, final) && RemoveStep(run, final, a, run', final')
    ensures Claims(run', final')
  {
  }

  lemma AnytimeKeepsClaims(run: Run, final: Option<Entry>, a: AnytimeAction, run': Run)
    requires TaskOk(run) && Claims(run, final) && AnytimeStep(run, a, run')
    ensures Claims(run', final)
  {
  }

  lemma LocalKeepsClaims(r: RunId, run: Run, final: Option<Entry>, a: Action, run': Run, final': Option<Entry>)
    requires TaskOk(run) && Claims(run, final) && LocalStep(r, run, final, a, run', final')
    ensures Claims(run', final')
  {
    hide TaskOk, Claims, InstallStep, TxStep, RemoveStep, AnytimeStep;
    match a
    case Install(i) => InstallKeepsClaims(run, final, i, run');
    case Transact(t) => TxKeepsClaims(r, run, final, t, run', final');
    case Remove(d) => RemoveKeepsClaims(run, final, d, run', final');
    case Anytime(x) => AnytimeKeepsClaims(run, final, x, run');
  }

  /** Whoever counts on an entry holds the publication lock or a read lock on it. */
  lemma RelyingHolds(q: RunId, run: Run, final: Option<Entry>)
    requires RunOk(q, run, final) && Relied(run).Some?
    ensures run.pub == Held || run.read1 == Held || run.read2 == Held
  {
  }

  lemma SameReliance(run: Run, run': Run)
    requires run'.task == run.task && (run'.fut == run.fut || (run.fut.SweeperCheck? && run'.fut.SweeperDelete?))
    ensures Relied(run') == Relied(run)
  {
  }

  lemma SweepKeepsClaims(s: State, step: Step, s': State, q: RunId)
    requires Next(s, step, s') && IsSweep(step)
    requires q in s'.runs && q in s.runs && Claims(s.runs[q], s.final)
    ensures Claims(s'.runs[q], s'.final)
  {
    SweepLeavesRun(s, step, s', q);
    SameReliance(s.runs[q], s'.runs[q]);
    hide Next, Relied;
  }

  lemma ActKeepsClaims(s: State, r: RunId, a: Action, s': State, q: RunId)
    requires Inv(s) && Next(s, Act(r, a), s') && !IsDetached(s, Act(r, a))
    requires q in s'.runs && q in s.runs && Claims(s.runs[q], s.final)
    ensures Claims(s'.runs[q], s'.final)
  {
    hide RunOk, LocalStep, Relied;
    LocalIsGuarded(r, s.runs[r], s.final, a, s'.runs[r], s'.final);
    if q == r {
      LocksAndTasks(s, r);
      LocalKeepsClaims(r, s.runs[r], s.final, a, s'.runs[r], s'.final);
    } else if Relied(s.runs[q]).Some? {
      RelyingHolds(q, s.runs[q], s.final);
    }
  }

  lemma LocksAndTasks(s: State, r: RunId)
    requires Inv(s) && r in s.runs
    ensures LocksOk(s.runs[r]) && TaskOk(s.runs[r])
  {
  }

  /** In any other step than the deletion of a cancelled uninstall, an entry that was
      in place for a run that counts on one stays in place for it. */
  lemma StepKeepsClaims(s: State, step: Step, s': State, q: RunId)
    requires Inv(s) && Next(s, step, s') && !IsDetached(s, step)
    requires q in s'.runs && (q in s.runs ==> Claims(s.runs[q], s.final))
    ensures Claims(s'.runs[q], s'.final)
  {
    hide Inv, LocalStep, IsDetached;
    match step
    case Act(r, a) => ActKeepsClaims(s, r, a, s', q);
    case Spawn(r, kind, seen) =>
    case Acquire(r, lock) => assert Relied(s'.runs[q]) == Relied(s.runs[q]);
    case _ =>
      SweepLeavesRun(s, step, s', q);
      SweepKeepsClaims(s, step, s', q);
  }

  lemma ActKeepsSweeps(s: State, r: RunId, a: Action, s': State)
    requires Inv(s) && SweepsOk(s) && Next(s, Act(r, a), s') && !IsDetached(s, Act(r, a))
    ensures SweepsOk(s')
  {
    hide RunOk, LocalStep;
    var run, run' := s.runs[r], s'.runs[r];
    LocalIsGuarded(r, run, s.final, a, run', s'.final);
    SweepStageFixed(r, run, s.final, a, run', s'.final);
    forall q | q in s'.runs && s'.runs[q].fut.SweeperDelete?
      ensures Complete(s'.final) || NoBackupLeft(s', s'.runs[q].fut.seen)
    {
      assert s.runs[q].fut == s'.runs[q].fut;
      SweepingHolds(q, s.runs[q], s.final);
    }
  }

  lemma SweepKeepsSweeps(s: State, step: Step, s': State)
    requires Inv(s) && SweepsOk(s) && Next(s, step, s') && IsSweep(step) && !Forsakes(s, step)
    ensures SweepsOk(s')
  {
    hide RunOk;
    var r := step.r;
    SweepingHolds(r, s.runs[r], s.final);
    forall q | q in s'.runs && s'.runs[q].fut.SweeperDelete?
      ensures Complete(s'.final) || NoBackupLeft(s', s'.runs[q].fut.seen)
    {
      if q != r { SweepingHolds(q, s.runs[q], s.final); }
    }
  }

  lemma OtherStepKeepsSweeps(s: State, step: Step, s': State)
    requires SweepsOk(s) && Next(s, step, s') && (step.Spawn? || step.Acquire?)
    ensures SweepsOk(s')
  {
    OtherStepLeaves(s, step, s');
    hide Next;
    forall r | r in s'.runs && s'.runs[r].fut.SweeperDelete? ensures Complete(s'.final) || NoBackupLeft(s', s'.runs[r].fut.seen) {
      assert r in s.runs && s.runs[r].fut == s'.runs[r].fut;
    }
  }

  /** Starting a run or getting a lock moves nothing on disk. */
  lemma OtherStepLeaves(s: State, step: Step, s': State)
    requires Next(s, step, s') && (step.Spawn? || step.Acquire?)
    ensures s'.final == s.final && s.runs.Keys <= s'.runs.Keys
    ensures forall q :: q in s.runs ==>
              && s'.runs[q].fut == s.runs[q].fut && s'.runs[q].task == s.runs[q].task
              && s'.runs[q].backup == s.runs[q].backup && s'.runs[q].staging == s.runs[q].staging
    ensures forall q :: q in s'.runs && q !in s.runs ==>
              !s'.runs[q].fut.SweeperDelete? && s'.runs[q].task == NoTask && s'.runs[q].backup == None
  {
    hide LocalStep, Compatible;
  }

  lemma StepKeepsSweeps(s: State, step: Step, s': State)
    requires Inv(s) && SweepsOk(s) && Next(s, step, s') && !IsDetached(s, step) && !Forsakes(s, step)
    ensures SweepsOk(s')
  {
    hide Inv, SweepsOk, Next, IsDetached, Forsakes;
    match step
    case Act(r, a) => ActKeepsSweeps(s, r, a, s');
    case Spawn(r, kind, seen) => OtherStepKeepsSweeps(s, step, s');
    case Acquire(r, lock) => OtherStepKeepsSweeps(s, step, s');
    case _ => SweepKeepsSweeps(s, step, s');
  }
}
