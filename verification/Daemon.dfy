/** The daemon supervisor: named instances that are created, stopped, registered
    with and dispatched to by concurrent tasks under four kinds of lock. */
module Daemon {
  import opened Wrappers
  import opened Routes

  type TaskId = nat
  type InstanceId = nat

  datatype Phase = Running | ShuttingDown

  /** One instance object. A name may be taken over by a newer object. */
  datatype Instance = Instance(name: string, running: bool, listening: bool, routes: Table)

  datatype Op =
    | Create | Stop | StopAll | Shutdown | Status | Registrations
    | RegisterOp(key: RouteKey, runtime: Runtime) | UnregisterOp(id: string)
    | DispatchOp(inst: InstanceId)

  datatype Pc =
    | Gate | Enter | Bind | CreatePeek(inst: InstanceId)
    | SetPhase | Snapshot | NextName
    | StopLookup | WantStop(inst: InstanceId) | MarkStopping(inst: InstanceId) | Join(inst: InstanceId) | Unlist(inst: InstanceId)
    | Lookup | Peek(inst: InstanceId) | Resolve(inst: InstanceId) | Recheck(inst: InstanceId)
    | WantPhase(inst: InstanceId) | WantRoutes(inst: InstanceId) | EditRoutes(inst: InstanceId)
    | PeekRoutes(inst: InstanceId)
    | DispatchState(inst: InstanceId) | DispatchRoutes(inst: InstanceId) | DispatchPick(inst: InstanceId) | Handle(inst: InstanceId)
    | Done

  /** `ticket` is the place in the queue of the lock a task waits for: locks are
      granted first come, first served. `todo` holds the names a shutdown still
      has to stop. */
  datatype Task = Task(op: Op, name: string, pc: Pc, ticket: nat, todo: set<string>)

  datatype State = State(phase: Phase, names: map<string, InstanceId>, insts: map<InstanceId, Instance>, tasks: map<TaskId, Task>)

  datatype Lock = Supervisor | StopLock(inst: InstanceId) | StateLock(inst: InstanceId) | RoutesLock(inst: InstanceId)

  datatype Need = Nothing | ForLock(lock: Lock) | ForListener(inst: InstanceId)

  // ----- what each program point waits for and holds

  function Needs(pc: Pc): Need {
    match pc
    case Gate => ForLock(Supervisor)
    case Enter => ForLock(Supervisor)
    case Bind => Nothing
    case CreatePeek(i) => ForLock(StateLock(i))
    case SetPhase => ForLock(Supervisor)
    case Snapshot => ForLock(Supervisor)
    case NextName => Nothing
    case StopLookup => ForLock(Supervisor)
    case WantStop(i) => ForLock(StopLock(i))
    case MarkStopping(i) => ForLock(StateLock(i))
    case Join(i) => ForListener(i)
    case Unlist(i) => ForLock(Supervisor)
    case Lookup => ForLock(Supervisor)
    case Peek(i) => ForLock(StateLock(i))
    case Resolve(i) => Nothing
    case Recheck(i) => ForLock(StateLock(i))
    case WantPhase(i) => ForLock(Supervisor)
    case WantRoutes(i) => ForLock(RoutesLock(i))
    case EditRoutes(i) => Nothing
    case PeekRoutes(i) => ForLock(RoutesLock(i))
    case DispatchState(i) => ForLock(StateLock(i))
    case DispatchRoutes(i) => ForLock(RoutesLock(i))
    case DispatchPick(i) => Nothing
    case Handle(i) => Nothing
    case Done => Nothing
  }

  predicate Holds(pc: Pc, lock: Lock) {
    match lock
    case Supervisor => pc.CreatePeek? || pc.Bind? || pc.WantRoutes? || pc.EditRoutes?
    case StopLock(i) =>
      || pc == MarkStopping(i) || pc == Join(i) || pc == Unlist(i) || pc == Recheck(i)
      || pc == WantPhase(i) || pc == WantRoutes(i) || pc == EditRoutes(i)
    case StateLock(i) => pc == DispatchRoutes(i) || pc == DispatchPick(i)
    case RoutesLock(i) => pc == EditRoutes(i) || pc == DispatchPick(i)
  }

  /** Two readers share the route table. */
  predicate Shares(a: Pc, b: Pc, lock: Lock) {
    lock.RoutesLock? && !a.EditRoutes? && !a.WantRoutes? && !b.EditRoutes?
  }

  /** A dispatched request that has not been answered keeps its listener alive. */
  predicate InFlight(task: Task, i: InstanceId) {
    task.op == DispatchOp(i) && task.pc != Done
  }

  /** `t` cannot go on before `u` does: `u` holds the lock `t` wants, or is ahead of
      it in that lock's queue, or is a request the listener `t` joins still serves. */
  ghost predicate WaitsOn(s: State, t: TaskId, u: TaskId) {
    && t in s.tasks && u in s.tasks && t != u
    && var a, b := s.tasks[t], s.tasks[u];
       match Needs(a.pc)
       case Nothing => false
       case ForLock(lock) =>
         || (Holds(b.pc, lock) && !Shares(a.pc, b.pc, lock))
         || (Needs(b.pc) == ForLock(lock) && b.ticket < a.ticket)
       case ForListener(i) => i in s.insts && s.insts[i].listening && InFlight(b, i)
  }

  ghost predicate Unobstructed(s: State, t: TaskId) { forall u :: !WaitsOn(s, t, u) }

  // ----- steps

  /** What a step does to the shared state. */
  datatype Effect =
    | NoEffect | BeginShutdown | Publish(name: string, inst: InstanceId) | Withdraw(name: string)
    | MarkStopped(inst: InstanceId) | CloseListener(inst: InstanceId) | SetRoutes(inst: InstanceId, edit: Edit)

  /** What the world decides in a step: whether binding or resolving succeeds, the
      identity of a new instance, and which name a shutdown stops next. */
  datatype Choice = Choice(ok: bool, newId: InstanceId, pick: string, ticket: nat)

  ghost function Apply(s: State, e: Effect): State {
    match e
    case NoEffect => s
    case BeginShutdown => s.(phase := ShuttingDown)
    case Publish(name, i) =>
      s.(names := s.names[name := i], insts := s.insts[i := Instance(name, true, true, map[])])
    case Withdraw(name) => s.(names := s.names - {name})
    case MarkStopped(i) => if i in s.insts then s.(insts := s.insts[i := s.insts[i].(running := false)]) else s
    case CloseListener(i) => if i in s.insts then s.(insts := s.insts[i := s.insts[i].(listening := false)]) else s
    case SetRoutes(i, edit) =>
      if i in s.insts then s.(insts := s.insts[i := s.insts[i].(routes := Edited(s.insts[i].routes, edit))]) else s
  }

  function EditOf(op: Op): Edit {
    match op
    case RegisterOp(key, runtime) => Add(key, runtime)
    case UnregisterOp(id) => Drop(id)
    case _ => Drop("")
  }

  predicate IsRunning(s: State, i: InstanceId) { i in s.insts && s.insts[i].running }

  predicate IsListening(s: State, i: InstanceId) { i in s.insts && s.insts[i].listening }

  /** Where a task goes next. */
  function NextPc(s: State, task: Task, c: Choice): Pc {
    match task.pc
    case Gate =>
      if s.phase != Running then Done
      else (match task.op
            case Create => Enter
            case Stop => StopLookup
            case _ => Lookup)
    case Enter =>
      if s.phase != Running then Done
      else if task.name in s.names then CreatePeek(s.names[task.name])
      else Bind
    case CreatePeek(_) => Done
    case Bind => Done
    case SetPhase => if task.op == StopAll then Snapshot else Done
    case Snapshot => NextName
    case NextName => if task.todo == {} then Done else StopLookup
    case StopLookup => if task.name in s.names then WantStop(s.names[task.name]) else AfterStop(task)
    case WantStop(i) => if task.op == Stop || task.op == StopAll then MarkStopping(i) else Recheck(i)
    case MarkStopping(i) => Join(i)
    case Join(i) => Unlist(i)
    case Unlist(_) => AfterStop(task)
    case Lookup =>
      if task.name !in s.names then Done
      else if task.op.UnregisterOp? then WantStop(s.names[task.name])
      else if task.op.Registrations? then PeekRoutes(s.names[task.name])
      else Peek(s.names[task.name])
    case Peek(i) => if task.op.RegisterOp? && IsRunning(s, i) then Resolve(i) else Done
    case Resolve(i) => if c.ok then WantStop(i) else Done
    case Recheck(i) => if IsRunning(s, i) then WantPhase(i) else Done
    case WantPhase(i) => if s.phase == Running then WantRoutes(i) else Done
    case WantRoutes(i) => EditRoutes(i)
    case EditRoutes(_) => Done
    case PeekRoutes(_) => Done
    case DispatchState(i) => if IsRunning(s, i) then DispatchRoutes(i) else Done
    case DispatchRoutes(i) => DispatchPick(i)
    case DispatchPick(i) => if c.ok then Handle(i) else Done
    case Handle(_) => Done
    case Done => Done
  }

  function AfterStop(task: Task): Pc { if task.op == StopAll then NextName else Done }

  function EffectOf(s: State, task: Task, c: Choice): Effect {
    match task.pc
    case Bind => if c.ok then Publish(task.name, c.newId) else NoEffect
    case SetPhase => BeginShutdown
    case MarkStopping(i) => MarkStopped(i)
    case Join(i) => CloseListener(i)
    case Unlist(i) => if task.name in s.names && s.names[task.name] == i then Withdraw(task.name) else NoEffect
    case EditRoutes(i) => SetRoutes(i, EditOf(task.op))
    case _ => NoEffect
  }

  function NextTask(s: State, task: Task, c: Choice): Task {
    var moved := task.(pc := NextPc(s, task, c), ticket := c.ticket);
    if task.pc == Snapshot then moved.(todo := s.names.Keys)
    else if task.pc == NextName && task.todo != {} then moved.(name := c.pick, todo := task.todo - {c.pick})
    else moved
  }

  /** The queue position handed out is behind everybody's. */
  ghost predicate LastInLine(s: State, ticket: nat) { forall u :: u in s.tasks ==> s.tasks[u].ticket < ticket }

  function FirstPc(op: Op): Pc {
    match op
    case Shutdown => SetPhase
    case StopAll => SetPhase
    case Status => Lookup
    case Registrations => Lookup
    case DispatchOp(i) => DispatchState(i)
    case _ => Gate
  }

  datatype Event =
    | Arrive(t: TaskId, op: Op, name: string, ticket: nat)
    | Advance(t: TaskId, c: Choice)
    | ListenerFails(inst: InstanceId)

  ghost predicate Next(s: State, e: Event, s': State) {
    match e
    case Arrive(t, op, name, ticket) =>
      && t !in s.tasks && LastInLine(s, ticket)
      && (op.DispatchOp? ==> op.inst in s.insts && s.insts[op.inst].listening)
      && s' == s.(tasks := s.tasks[t := Task(op, name, FirstPc(op), ticket, {})])
    case Advance(t, c) =>
      && t in s.tasks && s.tasks[t].pc != Done && Unobstructed(s, t) && LastInLine(s, c.ticket)
      && c.newId !in s.insts && (s.tasks[t].pc == NextName && s.tasks[t].todo != {} ==> c.pick in s.tasks[t].todo)
      && s' == Apply(s, EffectOf(s, s.tasks[t], c)).(tasks := s.tasks[t := NextTask(s, s.tasks[t], c)])
    case ListenerFails(i) =>
      s' == Apply(s, CloseListener(i))
  }

  const INIT := State(Running, map[], map[], map[])

  ghost predicate Behaviour(states: seq<State>, events: seq<Event>) {
    && |states| == |events| + 1 && states[0] == INIT
    && forall i :: 0 <= i < |events| ==> Next(states[i], events[i], states[i + 1])
  }

  // ----- invariant

  /** Operations only visit their own program points. */
  predicate Shape(task: Task) {
    match task.op
    case Create => task.pc.Gate? || task.pc.Enter? || task.pc.Bind? || task.pc.CreatePeek? || task.pc.Done?
    case Shutdown => task.pc.SetPhase? || task.pc.Done?
    case Stop =>
      || task.pc.Gate? || task.pc.StopLookup? || task.pc.WantStop? || task.pc.MarkStopping?
      || task.pc.Join? || task.pc.Unlist? || task.pc.Done?
    case StopAll =>
      || task.pc.SetPhase? || task.pc.Snapshot? || task.pc.NextName? || task.pc.StopLookup? || task.pc.WantStop?
      || task.pc.MarkStopping? || task.pc.Join? || task.pc.Unlist? || task.pc.Done?
    case DispatchOp(i) =>
      task.pc == DispatchState(i) || task.pc == DispatchRoutes(i) || task.pc == DispatchPick(i) || task.pc == Handle(i) || task.pc.Done?
    case Status => task.pc.Lookup? || task.pc.Peek? || task.pc.Done?
    case Registrations => task.pc.Lookup? || task.pc.PeekRoutes? || task.pc.Done?
    case RegisterOp(_, _) => Editing(task.pc) || task.pc.Peek? || task.pc.Resolve?
    case UnregisterOp(_) => Editing(task.pc)
  }

  predicate Editing(pc: Pc) {
    || pc.Gate? || pc.Lookup? || pc.WantStop? || pc.Recheck? || pc.WantPhase? || pc.WantRoutes? || pc.EditRoutes? || pc.Done?
  }

  /** The instance a program point refers to, if any. */
  function InstanceOf(pc: Pc): Option<InstanceId> {
    match pc
    case CreatePeek(i) => Some(i)
    case WantStop(i) => Some(i)
    case MarkStopping(i) => Some(i)
    case Join(i) => Some(i)
    case Unlist(i) => Some(i)
    case Peek(i) => Some(i)
    case Resolve(i) => Some(i)
    case Recheck(i) => Some(i)
    case WantPhase(i) => Some(i)
    case WantRoutes(i) => Some(i)
    case EditRoutes(i) => Some(i)
    case PeekRoutes(i) => Some(i)
    case DispatchState(i) => Some(i)
    case DispatchRoutes(i) => Some(i)
    case DispatchPick(i) => Some(i)
    case Handle(i) => Some(i)
    case _ => None
  }

  /** The instance a task works on exists, and is one its name has meant. */
  predicate Known(s: State, task: Task) {
    InstanceOf(task.pc).Some? ==>
      && InstanceOf(task.pc).value in s.insts
      && (task.op.DispatchOp? || s.insts[InstanceOf(task.pc).value].name == task.name)
  }

  /** What a task may rely on at each program point. */
  predicate Relies(s: State, task: Task) {
    match task.pc
    case CreatePeek(i) => s.phase == Running && task.name in s.names && s.names[task.name] == i
    case Bind => s.phase == Running && task.name !in s.names
    case Join(i) => !IsRunning(s, i)
    case Unlist(i) => !IsRunning(s, i) && !IsListening(s, i)
    case WantPhase(i) => IsRunning(s, i)
    case WantRoutes(i) => IsRunning(s, i) && s.phase == Running
    case EditRoutes(i) => IsRunning(s, i) && s.phase == Running
    case DispatchRoutes(i) => IsRunning(s, i)
    case DispatchPick(i) => IsRunning(s, i)
    case _ => true
  }

  predicate Stopping(pc: Pc) { pc.WantStop? || pc.MarkStopping? || pc.Join? || pc.Unlist? }

  /** How far a shutdown has come: only names it still has to stop are left, and the
      one it is stopping still means the same instance. */
  predicate ShutdownProgress(s: State, task: Task) {
    task.op == StopAll && task.pc != SetPhase ==>
      && s.phase == ShuttingDown
      && (task.pc != Snapshot ==>
            forall n :: n in s.names ==>
              n in task.todo || (n == task.name && (task.pc == StopLookup || (Stopping(task.pc) && s.names[n] == task.pc.inst))))
  }

  ghost predicate TaskOk(s: State, task: Task) {
    Shape(task) && Known(s, task) && Relies(s, task) && ShutdownProgress(s, task)
  }

  ghost predicate Exclusive(tasks: map<TaskId, Task>) {
    forall t, u, lock :: t in tasks && u in tasks && t != u && Holds(tasks[t].pc, lock) && Holds(tasks[u].pc, lock) ==>
      Shares(tasks[t].pc, tasks[u].pc, lock)
  }

  /** Names and instances agree: an instance that runs is the one its name means. */
  ghost predicate Registry(s: State) {
    && (forall n :: n in s.names ==> s.names[n] in s.insts && s.insts[s.names[n]].name == n)
    && (forall i :: IsRunning(s, i) ==> s.insts[i].name in s.names && s.names[s.insts[i].name] == i)
    && (forall i :: i in s.insts ==> Distinct(s.insts[i].routes))
  }

  ghost predicate Inv(s: State) {
    && (forall t :: t in s.tasks ==> TaskOk(s, s.tasks[t]))
    && Exclusive(s.tasks) && Registry(s)
  }

  // ----- preservation

  /** A task at `pc` holds none of the locks under which effect `e` happens. */
  predicate Outside(e: Effect, pc: Pc) {
    match e
    case BeginShutdown => !Holds(pc, Supervisor)
    case Publish(_, _) => !Holds(pc, Supervisor)
    case Withdraw(_) => !Holds(pc, Supervisor)
    case MarkStopped(i) => !Holds(pc, StopLock(i)) && !Holds(pc, StateLock(i))
    case _ => true
  }

  /** The conditions under which an effect keeps names and instances in agreement. */
  predicate Allowed(s: State, e: Effect) {
    match e
    case Publish(name, i) => i !in s.insts && s.phase == Running && name !in s.names
    case Withdraw(name) => name in s.names && !IsRunning(s, s.names[name])
    case _ => true
  }

  /** Another task keeps what it relies on when the state changes under locks it
      does not hold. */
  lemma BystanderKeeps(s: State, task: Task, e: Effect)
    requires TaskOk(s, task) && Allowed(s, e) && Outside(e, task.pc)
    ensures TaskOk(Apply(s, e), task)
  {
  }

  lemma RegistryKept(s: State, e: Effect)
    requires Registry(s) && Allowed(s, e)
    ensures Registry(Apply(s, e))
  {
    if e.SetRoutes? && e.inst in s.insts {
      EditKeepsDistinct(s.insts[e.inst].routes, e.edit);
    }
  }

  /** The stepping task is itself allowed its effect, and others are outside it. */
  lemma EffectIsGuarded(s: State, t: TaskId, c: Choice)
    requires Inv(s) && t in s.tasks && s.tasks[t].pc != Done && Unobstructed(s, t) && c.newId !in s.insts
    ensures Allowed(s, EffectOf(s, s.tasks[t], c))
    ensures forall u :: u in s.tasks && u != t ==> Outside(EffectOf(s, s.tasks[t], c), s.tasks[u].pc)
  {
    var task := s.tasks[t];
    assert TaskOk(s, task);
    forall u | u in s.tasks && u != t ensures Outside(EffectOf(s, task, c), s.tasks[u].pc) {
      assert !WaitsOn(s, t, u);
    }
  }

  lemma StepperKeepsShape(s: State, task: Task, c: Choice)
    requires Shape(task) && Known(s, task) && Registry(s)
    ensures Shape(NextTask(s, task, c))
  {
    hide Known, Registry;
  }

  lemma StepperKnows(s: State, task: Task, c: Choice)
    requires Shape(task) && Known(s, task) && Registry(s) && c.newId !in s.insts
    ensures Known(Apply(s, EffectOf(s, task, c)), NextTask(s, task, c))
  {
    NextInstanceKnown(s, task, c);
    EffectKeepsNames(s, task, c);
    hide NextPc, InstanceOf, EffectOf;
  }

  lemma NextInstanceKnown(s: State, task: Task, c: Choice)
    requires Shape(task) && Known(s, task) && Registry(s)
    ensures Known(s, NextTask(s, task, c))
  {
    NextInstanceIsOld(s, task, c);
    hide NextPc, InstanceOf;
    if task.pc == NextName { assert NextTask(s, task, c).pc == NextPc(s, task, c); }
  }

  /** A task goes on with its instance or takes the one its name means. */
  lemma NextInstanceIsOld(s: State, task: Task, c: Choice)
    requires Shape(task)
    ensures var i := InstanceOf(NextPc(s, task, c));
            i == None || i == InstanceOf(task.pc) || (task.name in s.names && i == Some(s.names[task.name]))
    ensures task.pc == NextName ==> InstanceOf(NextPc(s, task, c)) == None
    ensures InstanceOf(NextPc(s, task, c)) != InstanceOf(task.pc) ==> !task.op.DispatchOp? || InstanceOf(NextPc(s, task, c)) == None
  {
  }

  /** An instance never changes its name. */
  lemma EffectKeepsNames(s: State, task: Task, c: Choice)
    requires c.newId !in s.insts
    ensures forall i :: i in s.insts ==> var s' := Apply(s, EffectOf(s, task, c)); i in s'.insts && s'.insts[i].name == s.insts[i].name
  {
  }

  lemma StepperRelies(s: State, task: Task, c: Choice)
    requires Shape(task) && Known(s, task) && Relies(s, task)
    ensures Relies(Apply(s, EffectOf(s, task, c)), NextTask(s, task, c))
  {
  }

  lemma StepperProgresses(s: State, task: Task, c: Choice)
    requires Shape(task) && ShutdownProgress(s, task)
    requires task.pc == NextName && task.todo != {} ==> c.pick in task.todo
    ensures ShutdownProgress(Apply(s, EffectOf(s, task, c)), NextTask(s, task, c))
  {
  }

  /** A lock held after a step was held before it or is the one it waited for. */
  lemma NewLockWasNeeded(s: State, task: Task, c: Choice, lock: Lock)
    requires Shape(task) && Holds(NextPc(s, task, c), lock)
    ensures Holds(task.pc, lock) || Needs(task.pc) == ForLock(lock)
    ensures lock.RoutesLock? ==> Needs(task.pc) == ForLock(lock)
    ensures NextPc(s, task, c).EditRoutes? ==> task.pc.WantRoutes?
    ensures NextPc(s, task, c).WantRoutes? ==> !lock.RoutesLock?
  {
  }

  lemma LocksKept(s: State, t: TaskId, c: Choice)
    requires Inv(s) && t in s.tasks && Unobstructed(s, t)
    ensures Exclusive(s.tasks[t := NextTask(s, s.tasks[t], c)])
  {
    hide NextPc;
    var task := s.tasks[t];
    var pc' := NextPc(s, task, c);
    assert TaskOk(s, task);
    forall u, lock | u in s.tasks && u != t && Holds(pc', lock) && Holds(s.tasks[u].pc, lock)
      ensures Shares(pc', s.tasks[u].pc, lock) && Shares(s.tasks[u].pc, pc', lock)
    {
      assert !WaitsOn(s, t, u);
      NewLockWasNeeded(s, task, c, lock);
    }
  }

  lemma NextKeepsInv(s: State, e: Event, s': State)
    requires Inv(s) && Next(s, e, s')
    ensures Inv(s')
  {
    hide Relies, ShutdownProgress, EffectOf, NextPc;
    match e
    case Arrive(t, op, name, ticket) =>
      ArrivalIsOk(s, op, name, ticket);
      assert forall u :: u in s.tasks ==> TaskOk(s', s.tasks[u]) by {
        forall u | u in s.tasks ensures TaskOk(s', s.tasks[u]) { TasksDoNotMatter(s, s', s.tasks[u]); }
      }
      TasksDoNotMatter(s, s', s'.tasks[t]);
    case Advance(t, c) =>
      AdvanceKeepsTasks(s, t, c, s');
      LocksKept(s, t, c);
      EffectIsGuarded(s, t, c);
      RegistryKept(s, EffectOf(s, s.tasks[t], c));
    case ListenerFails(i) =>
      forall u | u in s.tasks ensures TaskOk(s', s.tasks[u]) { BystanderKeeps(s, s.tasks[u], CloseListener(i)); }
      RegistryKept(s, CloseListener(i));
  }

  lemma TasksDoNotMatter(s: State, s': State, task: Task)
    requires s'.(tasks := s.tasks) == s
    ensures TaskOk(s, task) <==> TaskOk(s', task)
  {
  }

  lemma ArrivalIsOk(s: State, op: Op, name: string, ticket: nat)
    requires op.DispatchOp? ==> op.inst in s.insts
    ensures TaskOk(s, Task(op, name, FirstPc(op), ticket, {}))
    ensures forall lock :: !Holds(FirstPc(op), lock)
  {
  }

  lemma AdvanceKeepsTasks(s: State, t: TaskId, c: Choice, s': State)
    requires Inv(s) && Next(s, Advance(t, c), s')
    ensures forall u :: u in s'.tasks ==> TaskOk(s', s'.tasks[u])
  {
    var task := s.tasks[t];
    var mid := Apply(s, EffectOf(s, task, c));
    EffectIsGuarded(s, t, c);
    StepperKeepsShape(s, task, c);
    StepperKnows(s, task, c);
    StepperRelies(s, task, c);
    StepperProgresses(s, task, c);
    hide Relies, ShutdownProgress, EffectOf, NextPc;
    forall u | u in s'.tasks ensures TaskOk(s', s'.tasks[u]) {
      if u != t { BystanderKeeps(s, s.tasks[u], EffectOf(s, task, c)); }
      TasksDoNotMatter(mid, s', s'.tasks[u]);
    }
  }

  lemma {:induction false} BehaviourInv(states: seq<State>, events: seq<Event>, i: nat)
    requires Behaviour(states, events) && i < |states|
    ensures Inv(states[i])
  {
    if i > 0 {
      hide Inv, Next;
      BehaviourInv(states, events, i - 1);
      NextKeepsInv(states[i - 1], events[i - 1], states[i]);
    }
  }

  // ----- deadlock freedom

  /** The order in which locks are taken; joining a listener comes between the
      stop lock and the supervisor lock. */
  function Rank(n: Need): nat {
    match n
    case ForLock(StopLock(_)) => 0
    case ForListener(_) => 1
    case ForLock(Supervisor) => 2
    case ForLock(StateLock(_)) => 3
    case ForLock(RoutesLock(_)) => 4
    case Nothing => 5
  }

  lemma HeldRanksBelowWanted(pc: Pc, lock: Lock)
    requires Holds(pc, lock)
    ensures Rank(ForLock(lock)) < Rank(Needs(pc))
  {
  }

  /** Whoever a task waits for wants something later in the order, or stands before
      it in the same queue. */
  lemma WaitingClimbs(s: State, t: TaskId, u: TaskId)
    requires Inv(s) && WaitsOn(s, t, u)
    ensures s.tasks[t].pc != Done && s.tasks[u].pc != Done
    ensures var a, b := s.tasks[t], s.tasks[u];
            Rank(Needs(a.pc)) < Rank(Needs(b.pc)) || (Needs(a.pc) == Needs(b.pc) && b.ticket < a.ticket)
  {
    var a, b := s.tasks[t], s.tasks[u];
    match Needs(a.pc)
    case Nothing =>
    case ForLock(lock) => if Holds(b.pc, lock) { HeldRanksBelowWanted(b.pc, lock); }
    case ForListener(i) => assert TaskOk(s, b);
  }

  /** Each task waits on the next. */
  ghost predicate Chain(s: State, ts: seq<TaskId>) {
    forall i :: 0 <= i < |ts| - 1 ==> WaitsOn(s, ts[i], ts[i + 1])
  }

  lemma {:induction false} ChainsClimb(s: State, ts: seq<TaskId>)
    requires Inv(s) && |ts| > 1 && Chain(s, ts)
    ensures ts[0] in s.tasks && ts[|ts| - 1] in s.tasks
    ensures var a, b := s.tasks[ts[0]], s.tasks[ts[|ts| - 1]];
            Rank(Needs(a.pc)) < Rank(Needs(b.pc)) || (Rank(Needs(a.pc)) == Rank(Needs(b.pc)) && b.ticket < a.ticket)
  {
    hide Inv, WaitsOn;
    assert WaitsOn(s, ts[0], ts[1]);
    WaitingIsBetweenTasks(s, ts[0], ts[1]);
    WaitingClimbs(s, ts[0], ts[1]);
    if |ts| > 2 {
      var rest := ts[1..];
      assert Chain(s, rest) by {
        forall i | 0 <= i < |rest| - 1 ensures WaitsOn(s, rest[i], rest[i + 1]) {
          assert WaitsOn(s, ts[i + 1], ts[i + 2]);
        }
      }
      ChainsClimb(s, rest);
    }
  }

  lemma WaitingIsBetweenTasks(s: State, t: TaskId, u: TaskId)
    requires WaitsOn(s, t, u)
    ensures t in s.tasks && u in s.tasks
  {
  }

  /** No reachable state has tasks waiting on each other in a circle, even counting
      lock queues and a stop that joins its listener under the stop lock. */
  lemma NoCircularWait(states: seq<State>, events: seq<Event>, i: nat, ts: seq<TaskId>)
    requires Behaviour(states, events) && i < |states|
    requires |ts| > 1 && Chain(states[i], ts)
    ensures ts[0] != ts[|ts| - 1]
  {
    BehaviourInv(states, events, i);
    ChainsClimb(states[i], ts);
  }

  /** From any unfinished task, following who waits for whom ends at one that can
      take its next step at once. */
  lemma {:induction false} SomeoneCanStep(s: State, t: TaskId) returns (u: TaskId)
    requires Inv(s) && t in s.tasks && s.tasks[t].pc != Done
    ensures u in s.tasks && s.tasks[u].pc != Done && Unobstructed(s, u)
    decreases 5 - Rank(Needs(s.tasks[t].pc)), s.tasks[t].ticket
  {
    if Unobstructed(s, t) { return t; }
    var v :| WaitsOn(s, t, v);
    WaitingClimbs(s, t, v);
    u := SomeoneCanStep(s, v);
  }

  /** While a task is unfinished, some task can move. */
  lemma SomeAdvance(s: State, t: TaskId) returns (u: TaskId, c: Choice, s': State)
    requires Inv(s) && t in s.tasks && s.tasks[t].pc != Done
    ensures u in s.tasks && Next(s, Advance(u, c), s')
  {
    u := SomeoneCanStep(s, t);
    var ticket := AnyLastTicket(s.tasks);
    var newId := AnyNewId(s.insts.Keys);
    var pick :| s.tasks[u].todo == {} || pick in s.tasks[u].todo;
    c := Choice(true, newId, pick, ticket);
    s' := Apply(s, EffectOf(s, s.tasks[u], c)).(tasks := s.tasks[u := NextTask(s, s.tasks[u], c)]);
  }

  /** The daemon never gets stuck. */
  lemma NeverStuck(states: seq<State>, events: seq<Event>, i: nat, t: TaskId)
    requires Behaviour(states, events) && i < |states|
    requires t in states[i].tasks && states[i].tasks[t].pc != Done
    ensures exists e: Event, s': State :: e.Advance? && Next(states[i], e, s')
  {
    BehaviourInv(states, events, i);
    var u, c, s' := SomeAdvance(states[i], t);
    assert Next(states[i], Advance(u, c), s');
  }

  lemma {:induction false} AnyLastTicket(tasks: map<TaskId, Task>) returns (ticket: nat)
    ensures forall u :: u in tasks ==> tasks[u].ticket < ticket
    decreases tasks.Keys
  {
    if tasks == map[] { return 0; }
    var t :| t in tasks;
    var rest := tasks - {t};
    assert rest.Keys < tasks.Keys;
    var below := AnyLastTicket(rest);
    ticket := if below > tasks[t].ticket then below else tasks[t].ticket + 1;
    forall u | u in tasks ensures tasks[u].ticket < ticket {
      if u != t { assert u in rest && rest[u] == tasks[u]; }
    }
  }

  lemma {:induction false} AnyNewId(ids: set<InstanceId>) returns (i: InstanceId)
    ensures forall j :: j in ids ==> j < i
    decreases ids
  {
    if ids == {} { return 0; }
    var j :| j in ids;
    var below := AnyNewId(ids - {j});
    i := if below > j then below else j + 1;
    assert forall k :: k in ids ==> k == j || k in ids - {j};
  }

  // ----- lifecycle

  function RoutesOf(s: State, i: InstanceId): Table { if i in s.insts then s.insts[i].routes else map[] }

  /** Once the daemon is shutting down it stays so, and no create, register or
      unregister takes effect any more. */
  lemma ShutdownIsFinal(states: seq<State>, events: seq<Event>, i: nat)
    requires Behaviour(states, events) && i < |events| && states[i].phase == ShuttingDown
    ensures states[i + 1].phase == ShuttingDown
    ensures forall n :: n in states[i + 1].names ==> n in states[i].names && states[i + 1].names[n] == states[i].names[n]
    ensures forall k :: RoutesOf(states[i + 1], k) == RoutesOf(states[i], k)
  {
    BehaviourInv(states, events, i);
    StepUnderShutdown(states[i], events[i], states[i + 1]);
  }

  lemma StepUnderShutdown(s: State, e: Event, s': State)
    requires Inv(s) && Next(s, e, s') && s.phase == ShuttingDown
    ensures s'.phase == ShuttingDown
    ensures forall n :: n in s'.names ==> n in s.names && s'.names[n] == s.names[n]
    ensures forall k :: RoutesOf(s', k) == RoutesOf(s, k)
  {
    hide EffectOf, NextPc, Unobstructed, LastInLine;
    if e.Advance? {
      assert TaskOk(s, s.tasks[e.t]);
      hide Inv, TaskOk;
      EffectUnderShutdown(s, s.tasks[e.t], e.c);
      QuietEffect(s, EffectOf(s, s.tasks[e.t], e.c));
    }
  }

  lemma QuietEffect(s: State, e: Effect)
    requires !e.Publish? && !e.SetRoutes? && s.phase == ShuttingDown
    ensures var s' := Apply(s, e);
            && s'.phase == ShuttingDown
            && (forall n :: n in s'.names ==> n in s.names && s'.names[n] == s.names[n])
            && (forall k :: RoutesOf(s', k) == RoutesOf(s, k))
  {
  }

  lemma EffectUnderShutdown(s: State, task: Task, c: Choice)
    requires Relies(s, task) && s.phase == ShuttingDown
    ensures !EffectOf(s, task, c).Publish? && !EffectOf(s, task, c).SetRoutes?
  {
  }

  /** Routes change only on an instance that is running and is the one its name
      means, and never become ambiguous. */
  lemma RoutesChangeOnlyWhileRunning(states: seq<State>, events: seq<Event>, i: nat, k: InstanceId)
    requires Behaviour(states, events) && i < |events| && RoutesOf(states[i + 1], k) != RoutesOf(states[i], k)
    ensures IsRunning(states[i], k) && states[i].phase == Running
    ensures states[i].insts[k].name in states[i].names && states[i].names[states[i].insts[k].name] == k
    ensures Distinct(RoutesOf(states[i + 1], k))
  {
    var s, e, s' := states[i], events[i], states[i + 1];
    BehaviourInv(states, events, i);
    BehaviourInv(states, events, i + 1);
    if e.Advance? {
      assert TaskOk(s, s.tasks[e.t]);
      EffectOnRoutes(s, s.tasks[e.t], e.c, k);
    }
  }

  lemma EffectOnRoutes(s: State, task: Task, c: Choice, k: InstanceId)
    requires Relies(s, task) && RoutesOf(Apply(s, EffectOf(s, task, c)), k) != RoutesOf(s, k)
    requires c.newId !in s.insts
    ensures k in s.insts && IsRunning(s, k) && s.phase == Running
  {
  }

  /** A name is given up only when the instance it means has stopped: a stop that
      comes late never removes a newer instance of the same name. */
  lemma OnlyStoppedInstancesAreRemoved(states: seq<State>, events: seq<Event>, i: nat, n: string)
    requires Behaviour(states, events) && i < |events|
    requires n in states[i].names && (n in states[i + 1].names ==> states[i + 1].names[n] != states[i].names[n])
    ensures !IsRunning(states[i], states[i].names[n]) && n !in states[i + 1].names
  {
    var s, e, s' := states[i], events[i], states[i + 1];
    BehaviourInv(states, events, i);
    if e.Advance? {
      EffectIsGuarded(s, e.t, e.c);
      EffectOnNames(s, s.tasks[e.t], e.c, n);
    }
  }

  lemma EffectOnNames(s: State, task: Task, c: Choice, n: string)
    requires Allowed(s, EffectOf(s, task, c))
    ensures var s' := Apply(s, EffectOf(s, task, c));
            n in s.names && (n in s'.names ==> s'.names[n] != s.names[n]) ==>
              !IsRunning(s, s.names[n]) && n !in s'.names
  {
  }

  /** The instance exists, has stopped, and no name means it. */
  ghost predicate GoneForGood(s: State, k: InstanceId) {
    k in s.insts && !IsRunning(s, k) && forall n :: n in s.names ==> s.names[n] != k
  }

  /** A stop is for good: once it has unlisted an instance, that instance never runs
      again and no name ever means it again. */
  lemma {:induction false} StopIsLasting(states: seq<State>, events: seq<Event>, i: nat, t: TaskId, k: InstanceId, j: nat)
    requires Behaviour(states, events) && i < j < |states|
    requires events[i].Advance? && events[i].t == t && t in states[i].tasks && states[i].tasks[t].pc == Unlist(k)
    ensures k in states[j].insts && !IsRunning(states[j], k)
    ensures forall n :: n in states[j].names ==> states[j].names[n] != k
  {
    assert Next(states[j - 1], events[j - 1], states[j]);
    hide Next, Inv;
    if j == i + 1 {
      BehaviourInv(states, events, i);
      UnlistingIsFinal(states[i], t, events[i].c, states[j], k);
    } else {
      StopIsLasting(states, events, i, t, k, j - 1);
      GoneStaysGone(states[j - 1], events[j - 1], states[j], k);
    }
  }

  lemma UnlistingIsFinal(s: State, t: TaskId, c: Choice, s': State, k: InstanceId)
    requires Inv(s) && Next(s, Advance(t, c), s') && s.tasks[t].pc == Unlist(k)
    ensures GoneForGood(s', k)
  {
    assert TaskOk(s, s.tasks[t]);
    hide NextPc, Unobstructed, LastInLine;
  }

  lemma GoneStaysGone(s: State, e: Event, s': State, k: InstanceId)
    requires GoneForGood(s, k) && Next(s, e, s')
    ensures GoneForGood(s', k)
  {
    hide NextPc, EffectOf, Unobstructed, LastInLine;
    if e.Advance? { StoppedStaysUnlisted(s, s.tasks[e.t], e.c, k); }
  }

  lemma StoppedStaysUnlisted(s: State, task: Task, c: Choice, k: InstanceId)
    requires k in s.insts && !IsRunning(s, k) && c.newId !in s.insts
    requires forall n :: n in s.names ==> s.names[n] != k
    ensures var s' := Apply(s, EffectOf(s, task, c));
            k in s'.insts && !IsRunning(s', k) && forall n :: n in s'.names ==> s'.names[n] != k
  {
  }

  /** When the shutdown has stopped everything it set out to stop, no instance is
      left. */
  lemma ShutdownEndsEmpty(states: seq<State>, events: seq<Event>, i: nat, t: TaskId)
    requires Behaviour(states, events) && i < |states|
    requires t in states[i].tasks && states[i].tasks[t].op == StopAll && states[i].tasks[t].pc == Done
    ensures states[i].phase == ShuttingDown
    ensures states[i].names == map[]
  {
    BehaviourInv(states, events, i);
    assert TaskOk(states[i], states[i].tasks[t]);
    DoneHasNothingLeft(states, events, i, t);
  }

  /** A shutdown is done only when its list is empty. */
  lemma {:induction false} DoneHasNothingLeft(states: seq<State>, events: seq<Event>, i: nat, t: TaskId)
    requires Behaviour(states, events) && i < |states|
    requires t in states[i].tasks && states[i].tasks[t].op == StopAll && states[i].tasks[t].pc == Done
    ensures states[i].tasks[t].todo == {}
  {
    if i > 0 {
      var s, e := states[i - 1], events[i - 1];
      assert Next(s, e, states[i]);
      BehaviourInv(states, events, i - 1);
      if e.Advance? && e.t == t {
        assert TaskOk(s, s.tasks[t]);
        OnlyEmptyListsFinish(s, s.tasks[t], e.c);
      } else if t in s.tasks {
        DoneHasNothingLeft(states, events, i - 1, t);
      }
    }
  }

  lemma OnlyEmptyListsFinish(s: State, task: Task, c: Choice)
    requires Shape(task) && task.op == StopAll && task.pc != Done
    ensures NextPc(s, task, c) == Done ==> NextTask(s, task, c).todo == {}
    ensures NextTask(s, task, c).op == StopAll
  {
  }

  /** A request is matched only on an instance that is running, and the table it is
      matched against does not change under it. */
  lemma DispatchIsConsistent(states: seq<State>, events: seq<Event>, i: nat, t: TaskId, k: InstanceId)
    requires Behaviour(states, events) && i < |events|
    requires t in states[i].tasks && states[i].tasks[t].pc == DispatchPick(k)
    ensures IsRunning(states[i], k) && Distinct(RoutesOf(states[i], k))
    ensures RoutesOf(states[i + 1], k) == RoutesOf(states[i], k)
    ensures IsRunning(states[i + 1], k)
  {
    var s, e := states[i], events[i];
    BehaviourInv(states, events, i);
    assert TaskOk(s, s.tasks[t]);
    assert Next(s, e, states[i + 1]);
    if e.Advance? {
      EffectIsGuarded(s, e.t, e.c);
      if e.t != t {
        assert Holds(s.tasks[t].pc, RoutesLock(k));
        assert s.tasks[e.t].pc == EditRoutes(k) ==> Holds(s.tasks[e.t].pc, RoutesLock(k));
        EffectUnderReader(s, s.tasks[e.t], e.c, k);
      }
    }
  }

  lemma EffectUnderReader(s: State, task: Task, c: Choice, k: InstanceId)
    requires k in s.insts && c.newId !in s.insts && task.pc != EditRoutes(k)
    requires Outside(EffectOf(s, task, c), DispatchPick(k))
    ensures RoutesOf(Apply(s, EffectOf(s, task, c)), k) == RoutesOf(s, k)
    ensures IsRunning(Apply(s, EffectOf(s, task, c)), k) == IsRunning(s, k)
  {
  }
}
