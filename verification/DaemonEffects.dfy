/** What the daemon's operations bring about: which step changes what, for which
    reasons an operation ends, and that all of them can be finished. */
module DaemonEffects {
  import opened Wrappers
  import opened Routes
  import opened Daemon

  /** In step `i` of a run of the daemon, task `t` goes on from `pc`. */
  ghost predicate GoesOn(states: seq<State>, events: seq<Event>, i: nat, t: TaskId, pc: Pc) {
    && Behaviour(states, events) && i < |events| && events[i].Advance? && events[i].t == t
    && t in states[i].tasks && states[i].tasks[t].pc == pc
  }

  // ----- what takes effect

  /** A create whose listener is bound publishes a new instance that runs, listens and
      has no routes, under a name that was free; one whose bind fails changes nothing. */
  lemma BoundIsPublished(states: seq<State>, events: seq<Event>, i: nat, t: TaskId)
    requires GoesOn(states, events, i, t, Bind)
    ensures var s, s', name, id, ok := states[i], states[i + 1], states[i].tasks[t].name, events[i].c.newId, events[i].c.ok;
            && name !in s.names && id !in s.insts
            && (ok ==> && name in s'.names && s'.names[name] == id
                       && s'.insts.Keys == s.insts.Keys + {id}
                       && s'.insts[id].running && s'.insts[id].listening && s'.insts[id].routes == map[]
                       && s'.insts[id].name == name)
            && (!ok ==> s'.names == s.names && s'.insts == s.insts)
            && (forall n :: n != name ==> (n in s'.names <==> n in s.names) && (n in s.names ==> s'.names[n] == s.names[n]))
            && (forall k :: k in s.insts ==> k in s'.insts && s'.insts[k] == s.insts[k])
            && s'.phase == s.phase
  {
    BehaviourInv(states, events, i);
    assert Next(states[i], events[i], states[i + 1]);
    assert TaskOk(states[i], states[i].tasks[t]);
  }

  /** All but instance `k` is as before. */
  ghost predicate OnlyInstance(s: State, s': State, k: InstanceId) {
    && s'.phase == s.phase && s'.names == s.names && s'.insts.Keys == s.insts.Keys
    && forall j :: j in s.insts && j != k ==> s'.insts[j] == s.insts[j]
  }

  /** Neither the id nor the route is taken. */
  predicate Free(routes: Table, key: RouteKey) { forall q :: q in routes ==> q.id != key.id && q.route != key.route }

  /** What operation `op` makes of a table: a registration whose id and route are free is
      in it afterwards, with its runtime, and any other changes nothing; after an
      unregistration nothing in it has the id; all other routes stay. */
  ghost predicate TableAfter(op: Op, routes: Table, routes': Table) {
    match op
    case RegisterOp(key, runtime) =>
      if Free(routes, key) then
        && key in routes' && routes'[key] == runtime && routes'.Keys == routes.Keys + {key}
        && forall q :: q in routes ==> routes'[q] == routes[q]
      else routes' == routes
    case UnregisterOp(id) =>
      && (forall q :: q in routes' <==> q in routes && q.id != id)
      && (forall q :: q in routes' ==> routes'[q] == routes[q])
    case _ => false
  }

  lemma EditsDoTheirPart(op: Op, routes: Table)
    requires (op.RegisterOp? || op.UnregisterOp?) && Distinct(routes)
    ensures TableAfter(op, routes, Edited(routes, EditOf(op)))
  {
    if op.RegisterOp? {
      assert Free(routes, op.key) <==> !IdIn(routes, op.key.id) && !RouteIn(routes, op.key.route);
    }
  }

  /** Registrations and unregistrations do their part, on the table of their instance
      alone. */
  lemma EditTakesEffect(states: seq<State>, events: seq<Event>, i: nat, t: TaskId, k: InstanceId)
    requires GoesOn(states, events, i, t, EditRoutes(k))
    ensures k in states[i].insts && OnlyInstance(states[i], states[i + 1], k)
    ensures var a, a' := states[i].insts[k], states[i + 1].insts[k];
            a' == a.(routes := a'.routes) && TableAfter(states[i].tasks[t].op, a.routes, a'.routes)
  {
    var s, task, c := states[i], states[i].tasks[t], events[i].c;
    BehaviourInv(states, events, i);
    assert Next(s, Advance(t, c), states[i + 1]);
    assert TaskOk(s, task);
    EditsDoTheirPart(task.op, s.insts[k].routes);
    hide TableAfter, Inv, Unobstructed, LastInLine, NextTask, Edited, Behaviour;
  }

  /** A stop marks its instance, joins the listener only when no request is left that
      came through it, and takes the name away if it still means this instance, which
      neither runs nor listens any more. */
  lemma StopTakesEffect(states: seq<State>, events: seq<Event>, i: nat, t: TaskId, k: InstanceId, pc: Pc)
    requires GoesOn(states, events, i, t, pc) && pc in {MarkStopping(k), Join(k), Unlist(k)}
    ensures var s, s', name := states[i], states[i + 1], states[i].tasks[t].name;
            && k in s.insts && s.insts[k].name == name && k in s'.insts
            && (pc == MarkStopping(k) ==> OnlyInstance(s, s', k) && s'.insts[k] == s.insts[k].(running := false))
            && (pc == Join(k) ==>
                  && OnlyInstance(s, s', k) && s'.insts[k] == s.insts[k].(listening := false)
                  && (s.insts[k].listening ==> forall u :: u in s.tasks && s.tasks[u].op == DispatchOp(k) ==> s.tasks[u].pc == Done))
            && (pc == Unlist(k) ==>
                  && s'.phase == s.phase && s'.insts == s.insts && !s.insts[k].running && !s.insts[k].listening
                  && (name in s'.names ==> s'.names[name] != k)
                  && (forall n :: n in s'.names ==> n in s.names && s'.names[n] == s.names[n])
                  && (forall n :: n in s.names && (n != name || s.names[n] != k) ==> n in s'.names))
  {
    var s, c := states[i], events[i].c;
    BehaviourInv(states, events, i);
    assert Next(s, Advance(t, c), states[i + 1]);
    assert TaskOk(s, s.tasks[t]);
    hide Inv, Behaviour, LastInLine, NextTask;
    if pc == Join(k) {
      JoinIsLast(s, t, k);
    }
    hide Unobstructed;
  }

  /** A listener is joined when no request that came through it is left. */
  lemma JoinIsLast(s: State, t: TaskId, k: InstanceId)
    requires t in s.tasks && s.tasks[t].pc == Join(k) && Unobstructed(s, t) && k in s.insts && !s.tasks[t].op.DispatchOp?
    ensures s.insts[k].listening ==> forall u :: u in s.tasks && s.tasks[u].op == DispatchOp(k) ==> s.tasks[u].pc == Done
  {
    forall u | u in s.tasks && s.tasks[u].op == DispatchOp(k) && s.insts[k].listening
      ensures s.tasks[u].pc == Done
    {
      assert !WaitsOn(s, t, u);
    }
  }

  /** Nothing else changes anything shared: not an arrival, not any other step; a failing
      listener closes itself alone, and a shutdown only begins. */
  lemma NothingElseChanges(states: seq<State>, events: seq<Event>, i: nat)
    requires Behaviour(states, events) && i < |events|
    ensures var s, e, s' := states[i], events[i], states[i + 1];
            match e
            case Arrive(t, op, name, _) =>
              s' == s.(tasks := s'.tasks) && t !in s.tasks && s'.tasks == s.tasks[t := s'.tasks[t]]
              && s'.tasks[t].op == op && s'.tasks[t].name == name && s'.tasks[t].pc != Done
            case ListenerFails(k) =>
              s'.tasks == s.tasks && OnlyInstance(s, s', k) && (k in s.insts ==> s'.insts[k] == s.insts[k].(listening := false))
            case Advance(t, _) =>
              && t in s.tasks && s'.tasks.Keys == s.tasks.Keys && (forall u :: u in s.tasks && u != t ==> s'.tasks[u] == s.tasks[u])
              && s'.tasks[t].op == s.tasks[t].op
              && var pc := s.tasks[t].pc;
                 if pc == SetPhase then s' == s.(phase := ShuttingDown, tasks := s'.tasks)
                 else pc.Bind? || pc.EditRoutes? || pc.MarkStopping? || pc.Join? || pc.Unlist? || s' == s.(tasks := s'.tasks)
  {
    assert Next(states[i], events[i], states[i + 1]);
    BehaviourInv(states, events, i);
    hide Inv, Unobstructed;
  }

  // ----- why an operation ends

  /** The operation has nothing left to do at `pc`, or finds a reason to give up. */
  predicate Ends(s: State, task: Task, ok: bool) {
    var refused := s.phase == ShuttingDown && (task.pc.Gate? || task.pc.Enter? || task.pc.WantPhase?);
    var unknown := (task.pc.Lookup? || task.pc.StopLookup?) && task.name !in s.names;
    match task.op
    case Create => refused || task.pc.CreatePeek? || task.pc.Bind?
    case Stop => refused || unknown || task.pc.Unlist?
    case StopAll => task.pc.NextName? && task.todo == {}
    case Shutdown => task.pc.SetPhase?
    case Status => unknown || task.pc.Peek?
    case Registrations => unknown || task.pc.PeekRoutes?
    case RegisterOp(_, _) =>
      || refused || unknown || task.pc.EditRoutes? || (task.pc.Resolve? && !ok)
      || ((task.pc.Peek? || task.pc.Recheck?) && !IsRunning(s, task.pc.inst))
    case UnregisterOp(_) => refused || unknown || task.pc.EditRoutes? || (task.pc.Recheck? && !IsRunning(s, task.pc.inst))
    case DispatchOp(k) =>
      || (task.pc == DispatchState(k) && !IsRunning(s, k)) || (task.pc == DispatchPick(k) && !ok) || task.pc == Handle(k)
  }

  lemma NextPcEnds(s: State, task: Task, c: Choice)
    requires Shape(task) && task.pc != Done && Relies(s, task)
    ensures NextPc(s, task, c) == Done <==> Ends(s, task, c.ok)
  {
  }

  /** An operation ends exactly at its last point or for one of these reasons, and a
      create that looks at an instance instead of binding finds its name taken. */
  lemma EndsForAReason(states: seq<State>, events: seq<Event>, i: nat, t: TaskId, pc: Pc)
    requires GoesOn(states, events, i, t, pc)
    ensures t in states[i + 1].tasks
    ensures states[i + 1].tasks[t].pc == Done <==> Ends(states[i], states[i].tasks[t], events[i].c.ok)
    ensures pc.CreatePeek? ==> states[i].tasks[t].name in states[i].names
  {
    var s, task, c := states[i], states[i].tasks[t], events[i].c;
    BehaviourInv(states, events, i);
    assert Next(s, Advance(t, c), states[i + 1]);
    assert TaskOk(s, task);
    NextPcEnds(s, task, c);
    hide Inv, Behaviour, Unobstructed, LastInLine, EffectOf, Apply, Ends, NextPc, Shape, Known;
  }

  // ----- all of them can be finished

  /** How far a task is from having fixed its list of names to stop. */
  function Early(task: Task): nat { if task.pc == SetPhase then 2 else if task.pc == Snapshot then 1 else 0 }

  function Stage(pc: Pc): nat {
    match pc
    case Gate => 12
    case Enter => 11
    case Lookup => 11
    case Bind => 10
    case CreatePeek(_) => 10
    case Peek(_) => 10
    case PeekRoutes(_) => 10
    case Resolve(_) => 9
    case StopLookup => 9
    case WantStop(_) => 8
    case MarkStopping(_) => 7
    case Recheck(_) => 7
    case Join(_) => 6
    case WantPhase(_) => 6
    case Unlist(_) => 5
    case WantRoutes(_) => 5
    case EditRoutes(_) => 4
    case NextName => 4
    case DispatchState(_) => 4
    case DispatchRoutes(_) => 3
    case DispatchPick(_) => 2
    case Handle(_) => 1
    case _ => 0
  }

  function Late(task: Task): nat { 6 * |task.todo| + Stage(task.pc) }

  lemma StepDescends(s: State, task: Task, c: Choice)
    requires Shape(task) && task.pc != Done && (task.pc == NextName && task.todo != {} ==> c.pick in task.todo)
    ensures var task' := NextTask(s, task, c);
            Early(task') < Early(task) || (Early(task') == Early(task) && Late(task') < Late(task))
  {
  }

  /** The sum of `f` over all tasks. */
  ghost function Total(tasks: map<TaskId, Task>, f: Task -> nat): nat
    decreases tasks.Keys
  {
    if tasks == map[] then 0
    else
      var t :| t in tasks;
      assert (tasks - {t}).Keys < tasks.Keys;
      f(tasks[t]) + Total(tasks - {t}, f)
  }

  lemma {:induction false} TotalSplits(tasks: map<TaskId, Task>, f: Task -> nat, t: TaskId)
    requires t in tasks
    ensures Total(tasks, f) == f(tasks[t]) + Total(tasks - {t}, f)
    decreases tasks.Keys
  {
    var u :| u in tasks && Total(tasks, f) == f(tasks[u]) + Total(tasks - {u}, f);
    if u != t {
      assert (tasks - {u}).Keys < tasks.Keys && (tasks - {t}).Keys < tasks.Keys;
      TotalSplits(tasks - {u}, f, t);
      TotalSplits(tasks - {t}, f, u);
      assert tasks - {u} - {t} == tasks - {t} - {u};
    }
  }

  lemma TotalChanges(tasks: map<TaskId, Task>, f: Task -> nat, t: TaskId, task': Task)
    requires t in tasks
    ensures Total(tasks[t := task'], f) == Total(tasks, f) - f(tasks[t]) + f(task')
  {
    TotalSplits(tasks, f, t);
    TotalSplits(tasks[t := task'], f, t);
    assert tasks[t := task'] - {t} == tasks - {t};
  }

  /** `events` leads from `s` to `s'` by own steps of tasks alone. */
  ghost predicate TasksLead(s: State, events: seq<Event>, s': State)
    decreases |events|
  {
    if events == [] then s == s'
    else events[0].Advance? && exists next :: Next(s, events[0], next) && TasksLead(next, events[1..], s')
  }

  lemma {:induction false} TasksFinish(s: State) returns (events: seq<Event>, s': State)
    requires Inv(s)
    ensures TasksLead(s, events, s')
    ensures s'.tasks.Keys == s.tasks.Keys && forall t :: t in s'.tasks ==> s'.tasks[t].pc == Done
    decreases Total(s.tasks, Early), Total(s.tasks, Late)
  {
    hide Next, Inv, Total;
    if forall t :: t in s.tasks ==> s.tasks[t].pc == Done { return [], s; }
    var t :| t in s.tasks && s.tasks[t].pc != Done;
    var u, c, next := SomeAdvance(s, t);
    AdvanceDescends(s, u, c, next);
    NextKeepsInv(s, Advance(u, c), next);
    var rest;
    rest, s' := TasksFinish(next);
    events := TasksLeadOn(s, Advance(u, c), next, rest, s');
  }

  lemma TasksLeadOn(s: State, e: Event, next: State, rest: seq<Event>, s': State) returns (events: seq<Event>)
    requires e.Advance? && Next(s, e, next) && TasksLead(next, rest, s')
    ensures TasksLead(s, events, s')
  {
    hide Next;
    events := [e] + rest;
    assert events[1..] == rest && Next(s, events[0], next);
  }

  /** Every step of a task takes it nearer to its end. */
  lemma AdvanceDescends(s: State, t: TaskId, c: Choice, s': State)
    requires Inv(s) && Next(s, Advance(t, c), s')
    ensures s'.tasks.Keys == s.tasks.Keys
    ensures || Total(s'.tasks, Early) < Total(s.tasks, Early)
            || (Total(s'.tasks, Early) == Total(s.tasks, Early) && Total(s'.tasks, Late) < Total(s.tasks, Late))
  {
    assert TaskOk(s, s.tasks[t]);
    StepDescends(s, s.tasks[t], c);
    hide Inv, EffectOf, Unobstructed, NextPc;
    TotalChanges(s.tasks, Early, t, s'.tasks[t]);
    TotalChanges(s.tasks, Late, t, s'.tasks[t]);
  }

  /** From every reachable state the operations under way can all be finished by their
      own steps, whatever locks and requests they wait for. */
  lemma EveryoneCanFinish(states: seq<State>, events: seq<Event>, i: nat) returns (more: seq<Event>, s': State)
    requires Behaviour(states, events) && i < |states|
    ensures TasksLead(states[i], more, s')
    ensures s'.tasks.Keys == states[i].tasks.Keys && forall t :: t in s'.tasks ==> s'.tasks[t].pc == Done
  {
    BehaviourInv(states, events, i);
    more, s' := TasksFinish(states[i]);
  }
}
