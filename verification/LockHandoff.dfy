/** How an asynchronous caller gets and gives back an operating-system file lock. A
    blocking worker, which nothing can interrupt, takes the lock, announces it on a
    one-shot channel and sleeps on a second channel until the caller lets go of it;
    the caller may be dropped at any moment in between. */
module LockHandoff {
  import opened Wrappers
  import CacheProtocol

  type Id = nat

  datatype Mode = Read | Write | TryWrite

  datatype Outcome = Locked | Busy | Failed

  /** `Announcing(Locked)` has the lock and is about to say so; `Receiving` sleeps with
      the lock; `Unlocking` is about to close the file. */
  datatype Worker = Opening | Locking | Announcing(outcome: Outcome) | Receiving | Unlocking | Closed

  /** `Leaving` is a caller that was dropped, was refused or gave its token back; its
      channel ends are closed one by one, in any order. */
  datatype Caller = Awaiting | Token | Leaving

  datatype Acquisition = Acquisition(
    mode: Mode, worker: Worker, caller: Caller,
    ready: Option<Outcome>,   // the announcement, sent and not yet received
    readyOpen: bool,          // the caller's end of the first channel
    released: bool,           // the caller's message on the second
    releaseOpen: bool)        // the caller's end of the second channel

  /** All acquisitions of one lock file. */
  type State = map<Id, Acquisition>

  predicate HoldsFile(a: Acquisition) {
    a.worker == Announcing(Locked) || a.worker == Receiving || a.worker == Unlocking
  }

  ghost predicate Compatible(s: State, id: Id)
    requires id in s
  {
    forall q :: q in s && q != id && HoldsFile(s[q]) ==> s[q].mode == Read && s[id].mode == Read
  }

  // ----- steps

  datatype CallerStep = Receive | Cancel | Release | CloseReady | CloseRelease

  datatype Event =
    | Begin(id: Id, mode: Mode)
    | WorkerMoves(id: Id, fault: bool)
    | CallerMoves(id: Id, step: CallerStep)

  /** The worker can go on; it waits only for the file lock and for the caller. */
  ghost predicate CanMove(s: State, id: Id)
    requires id in s
  {
    match s[id].worker
    case Locking => s[id].mode == TryWrite || Compatible(s, id)
    case Receiving => s[id].released || !s[id].releaseOpen
    case Closed => false
    case _ => true
  }

  ghost function Moved(s: State, id: Id, fault: bool): Acquisition
    requires id in s
  {
    var a := s[id];
    match a.worker
    case Opening => a.(worker := if fault then Announcing(Failed) else Locking)
    case Locking =>
      a.(worker := Announcing(if fault then Failed else if Compatible(s, id) then Locked else Busy))
    case Announcing(outcome) =>
      var sent := a.(ready := if a.readyOpen then Some(outcome) else None);
      sent.(worker := if outcome != Locked then Closed else if a.readyOpen then Receiving else Unlocking)
    case Receiving => a.(worker := Unlocking)
    case Unlocking => a.(worker := Closed)
    case Closed => a
  }

  predicate CallerCan(a: Acquisition, step: CallerStep) {
    match step
    case Receive => a.caller == Awaiting && a.ready.Some?
    case Cancel => a.caller == Awaiting
    case Release => a.caller == Token
    case CloseReady => a.caller == Leaving && a.readyOpen
    case CloseRelease => a.caller == Leaving && a.releaseOpen
  }

  function Called(a: Acquisition, step: CallerStep): Acquisition
    requires CallerCan(a, step)
  {
    match step
    case Receive => a.(caller := if a.ready == Some(Locked) then Token else Leaving, ready := None, readyOpen := false)
    case Cancel => a.(caller := Leaving)
    case Release => a.(caller := Leaving, released := true)
    case CloseReady => a.(ready := None, readyOpen := false)
    case CloseRelease => a.(releaseOpen := false)
  }

  ghost predicate Next(s: State, e: Event, s': State) {
    match e
    case Begin(id, mode) =>
      id !in s && s' == s[id := Acquisition(mode, Opening, Awaiting, None, true, false, true)]
    case WorkerMoves(id, fault) =>
      id in s && CanMove(s, id) && s' == s[id := Moved(s, id, fault)]
    case CallerMoves(id, step) =>
      id in s && CallerCan(s[id], step) && s' == s[id := Called(s[id], step)]
  }

  ghost predicate Behaviour(states: seq<State>, events: seq<Event>) {
    && |states| == |events| + 1 && states[0] == map[]
    && forall i :: 0 <= i < |events| ==> Next(states[i], events[i], states[i + 1])
  }

  // ----- invariant

  predicate AcquisitionOk(a: Acquisition) {
    match a.caller
    case Awaiting =>
      && a.readyOpen && a.releaseOpen && !a.released
      && (match a.worker
          case Receiving => a.ready == Some(Locked)
          case Closed => a.ready.Some? && a.ready != Some(Locked)
          case Unlocking => false
          case _ => a.ready == None)
    case Token => a.worker == Receiving && a.releaseOpen && !a.released && !a.readyOpen && a.ready == None
    case Leaving => true
  }

  /** Two acquisitions have the file locked at once only if both read. */
  ghost predicate Exclusive(s: State) {
    forall p, q :: p in s && q in s && p != q && HoldsFile(s[p]) && HoldsFile(s[q]) ==> s[p].mode == s[q].mode == Read
  }

  ghost predicate Inv(s: State) {
    && (forall id :: id in s ==> AcquisitionOk(s[id]))
    && Exclusive(s)
  }

  lemma NextKeepsInv(s: State, e: Event, s': State)
    requires Inv(s) && Next(s, e, s')
    ensures Inv(s')
  {
    forall id | id in s' ensures AcquisitionOk(s'[id]) { StepKeepsOk(s, e, s', id); }
    StepKeepsExclusion(s, e, s');
  }

  lemma StepKeepsOk(s: State, e: Event, s': State, id: Id)
    requires Next(s, e, s') && id in s' && (id in s ==> AcquisitionOk(s[id]))
    ensures AcquisitionOk(s'[id])
  {
    hide Compatible;
  }

  lemma MovedHolds(s: State, id: Id, fault: bool)
    requires id in s
    ensures Moved(s, id, fault).mode == s[id].mode
    ensures HoldsFile(Moved(s, id, fault)) ==> HoldsFile(s[id]) || (s[id].worker == Locking && Compatible(s, id))
  {
    hide Compatible;
  }

  lemma StepKeepsExclusion(s: State, e: Event, s': State)
    requires Exclusive(s) && Next(s, e, s')
    ensures Exclusive(s')
  {
    match e
    case Begin(id, mode) => assert forall q :: q in s' && HoldsFile(s'[q]) ==> q in s && s'[q] == s[q];
    case WorkerMoves(id, fault) =>
      MovedHolds(s, id, fault);
      hide Moved, HoldsFile, CanMove;
    case CallerMoves(id, step) =>
      assert s'[id].worker == s[id].worker && s'[id].mode == s[id].mode;
      hide CallerCan, Called;
  }

  lemma {:induction false} BehaviourInv(states: seq<State>, events: seq<Event>, i: nat)
    requires Behaviour(states, events) && i < |states|
    ensures Inv(states[i])
  {
    if i > 0 {
      hide Inv, Next;
      BehaviourInv(states, events, i - 1);
      NextKeepsInv(states[i - 1], events[i - 1], states[i]);
    }
  }

  // ----- what callers get

  /** A caller with a token has the file locked for it by a sleeping worker, and nobody
      else has it locked, unless both only read. */
  lemma TokenMeansLocked(states: seq<State>, events: seq<Event>, i: nat, id: Id)
    requires Behaviour(states, events) && i < |states| && id in states[i] && states[i][id].caller == Token
    ensures states[i][id].worker == Receiving && HoldsFile(states[i][id])
    ensures forall q :: q in states[i] && q != id && (HoldsFile(states[i][q]) || states[i][q].caller == Token) ==>
              states[i][q].mode == states[i][id].mode == Read
  {
    BehaviourInv(states, events, i);
    forall q | q in states[i] ensures AcquisitionOk(states[i][q]) {}
  }

  /** A caller that still waits is never forgotten: when its worker has the lock asleep
      or is finished, the announcement is there to be received. */
  lemma WaitingCallerIsTold(states: seq<State>, events: seq<Event>, i: nat, id: Id)
    requires Behaviour(states, events) && i < |states| && id in states[i] && states[i][id].caller == Awaiting
    ensures states[i][id].worker == Receiving || states[i][id].worker == Closed ==> CallerCan(states[i][id], Receive)
    ensures states[i][id].ready == Some(Locked) ==> HoldsFile(states[i][id])
  {
    BehaviourInv(states, events, i);
    assert AcquisitionOk(states[i][id]);
  }

  /** The lock is given up only by a worker whose caller has let go of it. */
  lemma LockOutlivesCaller(states: seq<State>, events: seq<Event>, i: nat, id: Id)
    requires Behaviour(states, events) && i < |events| && id in states[i]
    requires HoldsFile(states[i][id]) && !HoldsFile(states[i + 1][id])
    ensures states[i][id].caller == Leaving
  {
    BehaviourInv(states, events, i);
    assert Next(states[i], events[i], states[i + 1]);
    assert AcquisitionOk(states[i][id]);
  }

  // ----- who gets the lock

  /** An acquisition as its caller begins it. */
  function Begun(mode: Mode): Acquisition { Acquisition(mode, Opening, Awaiting, None, true, false, true) }

  lemma WorkerLocks(s: State, id: Id, mode: Mode)
    requires id !in s && forall q :: q in s && HoldsFile(s[q]) ==> s[q].mode == Read && mode == Read
    ensures Next(s, Begin(id, mode), s[id := Begun(mode)])
    ensures Next(s[id := Begun(mode)], WorkerMoves(id, false), s[id := Begun(mode).(worker := Locking)])
    ensures Next(s[id := Begun(mode).(worker := Locking)], WorkerMoves(id, false), s[id := Begun(mode).(worker := Announcing(Locked))])
  {
    var s1 := s[id := Begun(mode)];
    var s2 := s[id := Begun(mode).(worker := Locking)];
    assert s1[id := Moved(s1, id, false)] == s2;
    assert Compatible(s2, id);
    assert s2[id := Moved(s2, id, false)] == s[id := Begun(mode).(worker := Announcing(Locked))];
  }

  lemma CallerIsTold(s: State, id: Id, a: Acquisition)
    requires a == Begun(a.mode).(worker := Announcing(Locked))
    ensures Next(s[id := a], WorkerMoves(id, false), s[id := a.(worker := Receiving, ready := Some(Locked))])
    ensures Next(s[id := a.(worker := Receiving, ready := Some(Locked))], CallerMoves(id, Receive),
                 s[id := a.(worker := Receiving, caller := Token, readyOpen := false)])
  {
    var s3, s4 := s[id := a], s[id := a.(worker := Receiving, ready := Some(Locked))];
    assert s3[id := Moved(s3, id, false)] == s4;
    assert s4[id := a.(worker := Receiving, caller := Token, readyOpen := false)]
        == s[id := a.(worker := Receiving, caller := Token, readyOpen := false)];
  }

  /** A free lock is got: undisturbed, an acquisition of any mode that nothing stands in
      the way of ends with a token after three steps of its worker and one of its
      caller. */
  lemma FreeLockIsGot(s: State, id: Id, mode: Mode) returns (events: seq<Event>, s': State)
    requires id !in s && forall q :: q in s && HoldsFile(s[q]) ==> s[q].mode == Read && mode == Read
    ensures events == [Begin(id, mode), WorkerMoves(id, false), WorkerMoves(id, false), WorkerMoves(id, false), CallerMoves(id, Receive)]
    ensures EventsLead(s, events, s') && s'.Keys == s.Keys + {id} && s'[id].caller == Token && HoldsFile(s'[id])
    ensures forall q :: q in s ==> s'[q] == s[q]
  {
    var a := Begun(mode).(worker := Announcing(Locked));
    var s1, s2, s3 := s[id := Begun(mode)], s[id := Begun(mode).(worker := Locking)], s[id := a];
    var s4 := s[id := a.(worker := Receiving, ready := Some(Locked))];
    s' := s[id := a.(worker := Receiving, caller := Token, readyOpen := false)];
    WorkerLocks(s, id, mode);
    CallerIsTold(s, id, a);
    hide Next;
    var move, last := WorkerMoves(id, false), CallerMoves(id, Receive);
    LeadOn(s4, last, s', [], s');
    LeadOn(s3, move, s4, [last] + [], s');
    LeadOn(s2, move, s3, [move] + ([last] + []), s');
    LeadOn(s1, move, s2, [move] + ([move] + ([last] + [])), s');
    events := [move] + ([move] + ([move] + ([last] + [])));
    LeadOn(s, Begin(id, mode), s1, events, s');
    events := [Begin(id, mode)] + events;
    assert events == [Begin(id, mode), move, move, move, last];
  }

  ghost predicate EventsLead(s: State, events: seq<Event>, s': State)
    decreases |events|
  {
    if events == [] then s == s' else exists next :: Next(s, events[0], next) && EventsLead(next, events[1..], s')
  }

  lemma LeadOn(s: State, e: Event, next: State, rest: seq<Event>, s': State)
    requires Next(s, e, next) && EventsLead(next, rest, s')
    ensures EventsLead(s, [e] + rest, s')
  {
    assert ([e] + rest)[1..] == rest;
  }

  /** Nobody is told that a lock is taken unless it is, or that it failed unless it did. */
  lemma RefusalsAreTrue(s: State, e: Event, s': State, id: Id)
    requires Next(s, e, s') && id in s && s'[id].worker.Announcing? && !s[id].worker.Announcing?
    ensures e.WorkerMoves? && e.id == id
    ensures s'[id].worker == Announcing(Busy) ==> s[id].mode == TryWrite && !e.fault && !Compatible(s, id)
    ensures s'[id].worker == Announcing(Failed) ==> e.fault
    ensures s'[id].worker == Announcing(Locked) ==> !e.fault && Compatible(s, id)
  {
  }

  // ----- what happens to locks nobody wants any more

  /** The caller is gone: both its channel ends are closed. */
  predicate Abandoned(a: Acquisition) { a.caller == Leaving && !a.readyOpen && !a.releaseOpen }

  function Rank(w: Worker): nat {
    match w
    case Opening => 5
    case Locking => 4
    case Announcing(_) => 3
    case Receiving => 2
    case Unlocking => 1
    case Closed => 0
  }

  function Moves(events: seq<Event>, id: Id): nat {
    if events == [] then 0
    else Moves(events[..|events| - 1], id) + (var e := events[|events| - 1]; if e.WorkerMoves? && e.id == id then 1 else 0)
  }

  lemma StepLowersRank(s: State, e: Event, s': State, id: Id)
    requires Next(s, e, s') && id in s
    ensures id in s' && s'[id].mode == s[id].mode
    ensures Rank(s'[id].worker) <= Rank(s[id].worker)
    ensures e.WorkerMoves? && e.id == id ==> Rank(s'[id].worker) < Rank(s[id].worker)
  {
  }

  /** No worker ever takes more than five steps. */
  lemma {:induction false} WorkersTakeFewSteps(states: seq<State>, events: seq<Event>, i: nat, id: Id)
    requires Behaviour(states, events) && i < |states| && id in states[i]
    ensures Moves(events[..i], id) + Rank(states[i][id].worker) <= 5
  {
    if i > 0 {
      var s, e := states[i - 1], events[i - 1];
      assert Next(s, e, states[i]);
      assert events[..i][..i - 1] == events[..i - 1];
      if id in s {
        WorkersTakeFewSteps(states, events, i - 1, id);
        StepLowersRank(s, e, states[i], id);
      } else {
        NoMovesBefore(states, events, i - 1, id);
      }
    }
  }

  lemma {:induction false} NoMovesBefore(states: seq<State>, events: seq<Event>, i: nat, id: Id)
    requires Behaviour(states, events) && i < |states| && id !in states[i]
    ensures Moves(events[..i], id) == 0
  {
    if i > 0 {
      assert Next(states[i - 1], events[i - 1], states[i]);
      assert events[..i][..i - 1] == events[..i - 1];
      NoMovesBefore(states, events, i - 1, id);
    }
  }

  // ----- every abandoned lock can be drained

  /** `events` leads from `s` to `s'` by steps of workers alone. */
  ghost predicate WorkersLead(s: State, events: seq<Event>, s': State)
    decreases |events|
  {
    if events == [] then s == s'
    else events[0].WorkerMoves? && exists next :: Next(s, events[0], next) && WorkersLead(next, events[1..], s')
  }

  /** A worker that has the lock when its caller is gone closes the file in at most
      three steps of its own, whatever the rest of the system is doing; it never
      sleeps on a caller that is no more, not even on one that was dropped after the
      announcement was sent and before it was received. */
  lemma {:induction false} AbandonedHolderCloses(s: State, id: Id) returns (events: seq<Event>, s': State)
    requires id in s && Abandoned(s[id]) && (HoldsFile(s[id]) || s[id].worker == Closed)
    ensures WorkersLead(s, events, s') && |events| <= Rank(s[id].worker) <= 3
    ensures forall e :: e in events ==> e.id == id
    ensures id in s' && s' == s[id := s'[id]] && s'[id].worker == Closed
    decreases Rank(s[id].worker)
  {
    if s[id].worker == Closed { return [], s; }
    var next := s[id := Moved(s, id, false)];
    var rest;
    rest, s' := AbandonedHolderCloses(next, id);
    events := [WorkerMoves(id, false)] + rest;
    assert events[1..] == rest && Next(s, events[0], next);
  }

  ghost predicate AllAbandoned(s: State) { forall id :: id in s ==> Abandoned(s[id]) }

  /** Acquisitions whose worker has at least `k` steps left. */
  function Left(s: State, k: nat): set<Id> { set id | id in s && Rank(s[id].worker) >= k }

  /** The steps all workers have left together. */
  function Work(s: State): nat { |Left(s, 1)| + |Left(s, 2)| + |Left(s, 3)| + |Left(s, 4)| + |Left(s, 5)| }

  lemma {:induction false} SubsetsAreSmaller(a: set<Id>, b: set<Id>)
    requires a <= b
    ensures |a| <= |b| && (a != b ==> |a| < |b|)
  {
    assert b == a + (b - a);
    assert |b| == |a| + |b - a|;
    if a != b {
      var x :| x in b && x !in a;
      assert x in b - a;
    }
  }

  lemma WorkShrinks(s: State, next: State, id: Id)
    requires id in s && next.Keys == s.Keys && forall q :: q in s && q != id ==> next[q] == s[q]
    requires Rank(next[id].worker) < Rank(s[id].worker)
    ensures Work(next) < Work(s)
  {
    hide Rank;
    forall k | 1 <= k <= 5 ensures |Left(next, k)| <= |Left(s, k)| { SubsetsAreSmaller(Left(next, k), Left(s, k)); }
    var k := Rank(s[id].worker);
    assert 1 <= k <= 5 by { RankIsSmall(s[id].worker); }
    assert id in Left(s, k) && id !in Left(next, k);
    SubsetsAreSmaller(Left(next, k), Left(s, k));
  }

  lemma RankIsSmall(w: Worker)
    ensures Rank(w) <= 5
  {
  }

  /** Among abandoned acquisitions that are not all finished, some worker can go on. */
  lemma SomeWorkerCanMove(s: State) returns (id: Id)
    requires AllAbandoned(s) && exists q :: q in s && s[q].worker != Closed
    ensures id in s && CanMove(s, id)
  {
    if q :| q in s && HoldsFile(s[q]) {
      id := q;
    } else {
      id :| id in s && s[id].worker != Closed;
    }
  }

  /** When every caller is gone, the workers alone close every file, within as many
      steps as they have left together: an abandoned lock never stays locked. */
  lemma {:induction false} AbandonedLocksDrain(s: State) returns (events: seq<Event>, s': State)
    requires AllAbandoned(s)
    ensures WorkersLead(s, events, s') && |events| <= Work(s)
    ensures s'.Keys == s.Keys && forall id :: id in s' ==> s'[id].worker == Closed
    decreases Work(s)
  {
    if forall id :: id in s ==> s[id].worker == Closed { return [], s; }
    var id := SomeWorkerCanMove(s);
    var next := s[id := Moved(s, id, false)];
    StepLowersRank(s, WorkerMoves(id, false), next, id);
    assert next.Keys == s.Keys;
    WorkShrinks(s, next, id);
    var rest;
    rest, s' := AbandonedLocksDrain(next);
    events := [WorkerMoves(id, false)] + rest;
    assert events[1..] == rest && Next(s, events[0], next);
  }

  // ----- the cache protocol's view of a lock

  function GrantOf(a: Acquisition): CacheProtocol.Grant {
    if HoldsFile(a) then CacheProtocol.Held
    else if a.worker == Opening || a.worker == Locking then CacheProtocol.Waiting
    else CacheProtocol.Idle
  }

  /** The cache protocol may treat an acquisition as one grant: a step leaves it alone,
      grants it when the lock is free, refuses it, or takes it back from a caller
      that has let go, and a token means that it is held. */
  lemma HandoffIsGrant(states: seq<State>, events: seq<Event>, i: nat, id: Id)
    requires Behaviour(states, events) && i < |events| && id in states[i]
    ensures var a, a' := states[i][id], states[i + 1][id];
            || GrantOf(a') == GrantOf(a)
            || (GrantOf(a) == CacheProtocol.Waiting && GrantOf(a') == CacheProtocol.Held && Compatible(states[i], id))
            || (GrantOf(a) == CacheProtocol.Waiting && GrantOf(a') == CacheProtocol.Idle && a'.worker.Announcing?)
            || (GrantOf(a) == CacheProtocol.Held && GrantOf(a') == CacheProtocol.Idle && a.caller == Leaving)
    ensures states[i][id].caller == Token ==> GrantOf(states[i][id]) == CacheProtocol.Held
  {
    BehaviourInv(states, events, i);
    assert Next(states[i], events[i], states[i + 1]);
    assert AcquisitionOk(states[i][id]);
  }

  /** Which run's lock each acquisition of the file is for. */
  type Slots = map<Id, (CacheProtocol.RunId, CacheProtocol.Lock)>

  predicate Shared(lock: CacheProtocol.Lock) { lock.FirstRead? || lock.SecondRead? }

  /** All slots are about one lock file: the publication lock's or the use lock's. */
  ghost predicate OneFile(s: State, slots: Slots, publication: bool) {
    && slots.Keys == s.Keys
    && (forall p, q :: p in s && q in s && p != q ==> slots[p] != slots[q])
    && forall id :: id in s ==> (slots[id].1.Pub? <==> publication) && (s[id].mode == Read <==> Shared(slots[id].1))
  }

  predicate Matches(a: Acquisition, g: CacheProtocol.Grant) {
    && (g == CacheProtocol.Held <==> HoldsFile(a))
    && (a.worker == Opening || a.worker == Locking ==> g == CacheProtocol.Waiting)
  }

  /** The protocol's grants are what the workers of this file have. */
  ghost predicate Represents(s: State, slots: Slots, publication: bool, p: CacheProtocol.State) {
    && OneFile(s, slots, publication)
    && (forall id :: id in s ==>
          slots[id].0 in p.runs && Matches(s[id], CacheProtocol.GrantOf(p.runs[slots[id].0], slots[id].1)))
    && (forall r, lock: CacheProtocol.Lock ::
          r in p.runs && (lock.Pub? <==> publication) && CacheProtocol.GrantOf(p.runs[r], lock) == CacheProtocol.Held ==>
            exists id :: id in s && slots[id] == (r, lock))
  }

  /** A run lets go of its token only when nothing of it uses the lock any more. */
  ghost predicate Disciplined(s: State, slots: Slots, p: CacheProtocol.State)
    requires slots.Keys == s.Keys
  {
    forall id :: id in s && s[id].caller == Leaving && slots[id].0 in p.runs ==>
      !CacheProtocol.LockLive(p.runs[slots[id].0], slots[id].1)
  }

  /** Between the requests for it, every step of the hand-off is no step of the cache
      protocol, the granting of a lock it allows, or the release of one that nothing
      uses. */
  lemma HandoffSimulates(s: State, e: Event, s': State, slots: Slots, publication: bool, p: CacheProtocol.State)
    requires Inv(s) && Next(s, e, s') && !e.Begin?
    requires Represents(s, slots, publication, p) && Disciplined(s, slots, p)
    ensures || Represents(s', slots, publication, p)
            || exists step, p' :: CacheProtocol.Next(p, step, p') && Represents(s', slots, publication, p')
                                  && (step == CacheProtocol.Acquire(slots[e.id].0, slots[e.id].1)
                                      || step == CacheProtocol.Act(slots[e.id].0, CacheProtocol.Anytime(CacheProtocol.Release(slots[e.id].1))))
  {
    var id := e.id;
    StepKeepsMode(s, e, s');
    hide Inv, Next, CacheProtocol.Next, CacheProtocol.LockLive, CacheProtocol.Compatible, Compatible, Represents;
    if HoldsFile(s'[id]) && !HoldsFile(s[id]) {
      GrantCase(s, s', slots, publication, p, id);
    } else if HoldsFile(s[id]) && !HoldsFile(s'[id]) {
      ReleaseCase(s, s', slots, publication, p, id);
    } else {
      Stutters(s, s', slots, publication, p, id);
    }
  }

  /** Only acquisition `id` changes, and not its mode. */
  ghost predicate OnlyOne(s: State, s': State, id: Id) {
    && id in s && s'.Keys == s.Keys && s'[id].mode == s[id].mode
    && forall q :: q in s && q != id ==> s'[q] == s[q]
  }

  lemma GrantCase(s: State, s': State, slots: Slots, publication: bool, p: CacheProtocol.State, id: Id)
    requires Represents(s, slots, publication, p) && OnlyOne(s, s', id)
    requires HoldsFile(s'[id]) && s[id].worker == Locking && Compatible(s, id)
    ensures exists p' :: CacheProtocol.Next(p, CacheProtocol.Acquire(slots[id].0, slots[id].1), p')
                         && Represents(s', slots, publication, p')
  {
    GrantFollows(s, s', slots, publication, p, id, CacheProtocol.Held);
    LockIsFree(s, slots, publication, p, id);
    hide CacheProtocol.Next, CacheProtocol.Compatible, Compatible, WithGrant;
    AcquireIsPossible(p, slots[id].0, slots[id].1);
  }

  lemma ReleaseCase(s: State, s': State, slots: Slots, publication: bool, p: CacheProtocol.State, id: Id)
    requires Represents(s, slots, publication, p) && Disciplined(s, slots, p) && OnlyOne(s, s', id)
    requires HoldsFile(s[id]) && !HoldsFile(s'[id]) && s[id].caller == Leaving
    requires s'[id].worker != Opening && s'[id].worker != Locking
    ensures exists p' :: CacheProtocol.Next(p, CacheProtocol.Act(slots[id].0, CacheProtocol.Anytime(CacheProtocol.Release(slots[id].1))), p')
                         && Represents(s', slots, publication, p')
  {
    HolderIsGranted(s, slots, publication, p, id);
    GrantFollows(s, s', slots, publication, p, id, CacheProtocol.Idle);
    hide CacheProtocol.Next, CacheProtocol.LockLive, WithGrant;
    ReleaseIsPossible(p, slots[id].0, slots[id].1);
  }

  function WithGrant(p: CacheProtocol.State, r: CacheProtocol.RunId, lock: CacheProtocol.Lock, g: CacheProtocol.Grant): CacheProtocol.State
    requires r in p.runs
  {
    p.(runs := p.runs[r := CacheProtocol.WithGrant(p.runs[r], lock, g)])
  }

  /** A step concerns one acquisition and leaves its mode alone. */
  lemma StepKeepsMode(s: State, e: Event, s': State)
    requires Inv(s) && Next(s, e, s') && !e.Begin?
    ensures e.id in s && s'.Keys == s.Keys && s'[e.id].mode == s[e.id].mode
    ensures forall q :: q in s && q != e.id ==> s'[q] == s[q]
    ensures (s'[e.id].worker == Opening || s'[e.id].worker == Locking) ==> s[e.id].worker == Opening || s[e.id].worker == Locking
    ensures HoldsFile(s'[e.id]) && !HoldsFile(s[e.id]) ==> s[e.id].worker == Locking && Compatible(s, e.id)
    ensures HoldsFile(s[e.id]) && !HoldsFile(s'[e.id]) ==> s[e.id].caller == Leaving
  {
    assert e.id in s && AcquisitionOk(s[e.id]);
    hide Inv, Compatible;
    if e.WorkerMoves? { MovedHolds(s, e.id, e.fault); }
  }

  lemma HolderIsGranted(s: State, slots: Slots, publication: bool, p: CacheProtocol.State, id: Id)
    requires Represents(s, slots, publication, p) && id in s && HoldsFile(s[id])
    ensures CacheProtocol.GrantOf(p.runs[slots[id].0], slots[id].1) == CacheProtocol.Held
  {
  }

  lemma OtherGrantsStay(p: CacheProtocol.State, r: CacheProtocol.RunId, lock: CacheProtocol.Lock, g: CacheProtocol.Grant,
                        q: CacheProtocol.RunId, other: CacheProtocol.Lock)
    requires r in p.runs && q in p.runs
    ensures var p' := WithGrant(p, r, lock, g);
            && p'.runs.Keys == p.runs.Keys
            && CacheProtocol.GrantOf(p'.runs[q], other) == if (q, other) == (r, lock) then g else CacheProtocol.GrantOf(p.runs[q], other)
  {
  }

  lemma GrantFollows(s: State, s': State, slots: Slots, publication: bool, p: CacheProtocol.State, id: Id, g: CacheProtocol.Grant)
    requires Represents(s, slots, publication, p) && id in s && s'.Keys == s.Keys && s'[id].mode == s[id].mode
    requires forall q :: q in s && q != id ==> s'[q] == s[q]
    requires Matches(s'[id], g)
    ensures Represents(s', slots, publication, WithGrant(p, slots[id].0, slots[id].1, g))
  {
    hide WithGrant, CacheProtocol.GrantOf, Matches, HoldsFile;
    var r, lock := slots[id].0, slots[id].1;
    var p' := WithGrant(p, r, lock, g);
    OtherGrantsStay(p, r, lock, g, r, lock);
    forall q | q in s'
      ensures slots[q].0 in p'.runs && Matches(s'[q], CacheProtocol.GrantOf(p'.runs[slots[q].0], slots[q].1))
    {
      OtherGrantsStay(p, r, lock, g, slots[q].0, slots[q].1);
      assert q != id ==> slots[q] != slots[id];
    }
    forall q, other: CacheProtocol.Lock |
      q in p'.runs && (other.Pub? <==> publication) && CacheProtocol.GrantOf(p'.runs[q], other) == CacheProtocol.Held
      ensures exists k :: k in s' && slots[k] == (q, other)
    {
      OtherGrantsStay(p, r, lock, g, q, other);
      if (q, other) == (r, lock) { assert id in s' && slots[id] == (q, other); }
    }
  }

  lemma AcquireIsPossible(p: CacheProtocol.State, r: CacheProtocol.RunId, lock: CacheProtocol.Lock)
    requires r in p.runs && CacheProtocol.GrantOf(p.runs[r], lock) == CacheProtocol.Waiting && CacheProtocol.Compatible(p, lock)
    ensures CacheProtocol.Next(p, CacheProtocol.Acquire(r, lock), WithGrant(p, r, lock, CacheProtocol.Held))
  {
    hide CacheProtocol.Compatible;
  }

  lemma ReleaseIsPossible(p: CacheProtocol.State, r: CacheProtocol.RunId, lock: CacheProtocol.Lock)
    requires r in p.runs && CacheProtocol.GrantOf(p.runs[r], lock) == CacheProtocol.Held
    requires !CacheProtocol.LockLive(p.runs[r], lock)
    ensures CacheProtocol.Next(p, CacheProtocol.Act(r, CacheProtocol.Anytime(CacheProtocol.Release(lock))),
                               WithGrant(p, r, lock, CacheProtocol.Idle))
  {
  }

  lemma Stutters(s: State, s': State, slots: Slots, publication: bool, p: CacheProtocol.State, id: Id)
    requires Represents(s, slots, publication, p) && id in s && s'.Keys == s.Keys && s'[id].mode == s[id].mode
    requires forall q :: q in s && q != id ==> s'[q] == s[q]
    requires HoldsFile(s'[id]) <==> HoldsFile(s[id])
    requires (s'[id].worker == Opening || s'[id].worker == Locking) ==> s[id].worker == Opening || s[id].worker == Locking
    ensures Represents(s', slots, publication, p)
  {
  }

  /** What the file lock allows, the protocol allows. */
  lemma LockIsFree(s: State, slots: Slots, publication: bool, p: CacheProtocol.State, id: Id)
    requires Represents(s, slots, publication, p) && id in s && !HoldsFile(s[id]) && Compatible(s, id)
    ensures CacheProtocol.Compatible(p, slots[id].1)
  {
    var lock := slots[id].1;
    forall r, held: CacheProtocol.Lock |
      r in p.runs && (held.Pub? <==> publication) && CacheProtocol.GrantOf(p.runs[r], held) == CacheProtocol.Held
      ensures Shared(held) && Shared(lock)
    {
      var q :| q in s && slots[q] == (r, held);
      assert HoldsFile(s[q]) && q != id;
    }
    forall r | r in p.runs
      ensures match lock
              case Pub => p.runs[r].pub != CacheProtocol.Held
              case Write => && p.runs[r].write != CacheProtocol.Held && p.runs[r].read1 != CacheProtocol.Held
                            && p.runs[r].read2 != CacheProtocol.Held
              case _ => p.runs[r].write != CacheProtocol.Held
    {
      assert CacheProtocol.GrantOf(p.runs[r], CacheProtocol.Pub) == p.runs[r].pub;
      assert CacheProtocol.GrantOf(p.runs[r], CacheProtocol.Write) == p.runs[r].write;
      assert CacheProtocol.GrantOf(p.runs[r], CacheProtocol.FirstRead) == p.runs[r].read1;
      assert CacheProtocol.GrantOf(p.runs[r], CacheProtocol.SecondRead) == p.runs[r].read2;
    }
  }
}
