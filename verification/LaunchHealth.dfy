/** Launch outcomes of a route: each launch is counted once, whichever of its
    observers comes first, and the newest launch decides whether the route is
    ready, in whatever order the outcomes are recorded. */
module LaunchHealth {
  import opened Wrappers

  datatype Outcome = Ok | Failed(detail: string)

  datatype Record = Record(generation: nat, outcome: Outcome)

  datatype Health = Health(attempts: nat, failures: nat, decidedBy: nat, lastFailed: bool, lastFailure: Option<string>)

  const FRESH := Health(0, 0, 0, false, None)

  function Recorded(h: Health, r: Record): Health {
    var counted := h.(attempts := h.attempts + 1, failures := h.failures + (if r.outcome.Failed? then 1 else 0));
    if r.generation > h.decidedBy then
      match r.outcome
      case Ok => counted.(decidedBy := r.generation, lastFailed := false)
      case Failed(detail) => counted.(decidedBy := r.generation, lastFailed := true, lastFailure := Some(detail))
    else counted
  }

  function RecordedAll(log: seq<Record>): Health {
    if log == [] then FRESH else Recorded(RecordedAll(log[..|log| - 1]), log[|log| - 1])
  }

  class AgentHealth {
    var attempts: nat
    var failures: nat
    var outcomeGeneration: nat
    var lastAttemptFailed: bool
    var lastFailure: Option<string>

    function Abs(): Health
      reads this
    {
      Health(attempts, failures, outcomeGeneration, lastAttemptFailed, lastFailure)
    }

    constructor ()
      ensures Abs() == FRESH
    {
      attempts, failures, outcomeGeneration := 0, 0, 0;
      lastAttemptFailed, lastFailure := false, None;
    }

    method RecordOk(generation: nat)
      modifies this
      ensures Abs() == Recorded(old(Abs()), Record(generation, Ok))
    {
      attempts := attempts + 1;
      if generation > outcomeGeneration {
        outcomeGeneration := generation;
        lastAttemptFailed := false;
      }
    }

    method RecordFailure(generation: nat, detail: string)
      modifies this
      ensures Abs() == Recorded(old(Abs()), Record(generation, Failed(detail)))
    {
      attempts := attempts + 1;
      failures := failures + 1;
      if generation > outcomeGeneration {
        outcomeGeneration := generation;
        lastAttemptFailed := true;
        lastFailure := Some(detail);
      }
    }
  }

  // ----- the verdict depends on the set of records alone

  /** Generations start at one and belong to one launch each. */
  ghost predicate OncePerGeneration(log: seq<Record>) {
    && (forall i :: 0 <= i < |log| ==> log[i].generation > 0)
    && (forall i, j :: 0 <= i < j < |log| ==> log[i].generation != log[j].generation)
  }

  ghost predicate Newest(log: seq<Record>, r: Record) {
    r in log && forall q :: q in log ==> q.generation <= r.generation
  }

  function CountFailed(log: seq<Record>): nat {
    if log == [] then 0
    else CountFailed(log[..|log| - 1]) + (if log[|log| - 1].outcome.Failed? then 1 else 0)
  }

  /** `h` shows the outcome of `r`. */
  predicate Shows(h: Health, r: Record) {
    && h.decidedBy == r.generation && h.lastFailed == r.outcome.Failed?
    && (r.outcome.Failed? ==> h.lastFailure == Some(r.outcome.detail))
  }

  lemma {:induction false} CountsAreOfLog(log: seq<Record>)
    ensures RecordedAll(log).attempts == |log| && RecordedAll(log).failures == CountFailed(log)
  {
    if log != [] { CountsAreOfLog(log[..|log| - 1]); }
  }

  /** One more record shows itself if it is newer, and what was shown before if not. */
  lemma RecordShows(prefix: seq<Record>, h: Health, last: Record, r: Record)
    requires Newest(prefix, r) && Shows(h, r)
    ensures var newest := if last.generation > r.generation then last else r;
            Newest(prefix + [last], newest) && Shows(Recorded(h, last), newest)
  {
    var newest := if last.generation > r.generation then last else r;
    forall q | q in prefix + [last] ensures q.generation <= newest.generation { assert q in prefix || q == last; }
    if newest == last { assert (prefix + [last])[|prefix|] == last; }
  }

  lemma LogUnfolds(log: seq<Record>)
    requires log != []
    ensures var prefix, last := log[..|log| - 1], log[|log| - 1];
            log == prefix + [last] && RecordedAll(log) == Recorded(RecordedAll(prefix), last)
  {
  }

  lemma FirstRecordShows(r: Record)
    requires r.generation > 0
    ensures Newest([r], r) && Shows(Recorded(FRESH, r), r)
  {
    assert [r][0] == r;
  }

  ghost predicate Generations(log: seq<Record>) { forall i :: 0 <= i < |log| ==> log[i].generation > 0 }

  lemma {:induction false} SomeRecordShows(log: seq<Record>) returns (r: Record)
    requires log != [] && Generations(log)
    ensures Newest(log, r) && Shows(RecordedAll(log), r)
  {
    var prefix, last := log[..|log| - 1], log[|log| - 1];
    LogUnfolds(log);
    hide Newest, Shows, Recorded;
    if prefix == [] {
      FirstRecordShows(last);
      r := last;
    } else {
      hide RecordedAll;
      var q := SomeRecordShows(prefix);
      RecordShows(prefix, RecordedAll(prefix), last, q);
      r := if last.generation > q.generation then last else q;
    }
  }

  lemma SameGeneration(log: seq<Record>, q: Record, r: Record)
    requires OncePerGeneration(log) && Newest(log, q) && Newest(log, r)
    ensures q == r
  {
    var i :| 0 <= i < |log| && log[i] == q;
    var j :| 0 <= j < |log| && log[j] == r;
  }

  /** Counts are those of the log, and the newest record decides the verdict and,
      when it failed, the detail shown. */
  lemma NewestDecides(log: seq<Record>)
    requires OncePerGeneration(log)
    ensures RecordedAll(log).attempts == |log| && RecordedAll(log).failures == CountFailed(log)
    ensures log == [] ==> RecordedAll(log) == FRESH
    ensures log != [] ==> exists r :: Newest(log, r)
    ensures forall r :: Newest(log, r) ==> Shows(RecordedAll(log), r)
  {
    CountsAreOfLog(log);
    if log != [] {
      var q := SomeRecordShows(log);
      hide RecordedAll, Shows;
      forall r | Newest(log, r) ensures Shows(RecordedAll(log), r) {
        SameGeneration(log, q, r);
      }
    }
  }

  lemma {:induction false} CountFailedSplits(a: seq<Record>, r: Record, b: seq<Record>)
    ensures CountFailed(a + [r] + b) == CountFailed(a + b) + (if r.outcome.Failed? then 1 else 0)
  {
    if b == [] {
      assert a + [r] + b == a + [r] && a + b == a;
    } else {
      var prefix, last := b[..|b| - 1], b[|b| - 1];
      CountFailedSplits(a, r, prefix);
      assert (a + [r] + b)[..|a + [r] + b| - 1] == a + [r] + prefix;
      assert (a + b)[..|a + b| - 1] == a + prefix;
    }
  }

  lemma TakeOut(prefix: seq<Record>, last: Record, y: seq<Record>) returns (a: seq<Record>, b: seq<Record>)
    requires multiset(prefix + [last]) == multiset(y)
    ensures y == a + [last] + b && multiset(prefix) == multiset(a + b)
  {
    assert multiset(prefix + [last]) == multiset(prefix) + multiset{last};
    assert last in multiset(y);
    var k :| 0 <= k < |y| && y[k] == last;
    a, b := y[..k], y[k + 1..];
    assert y == a + [last] + b;
    assert multiset(y) == multiset(a) + multiset{last} + multiset(b);
    assert multiset(a + b) == multiset(a) + multiset(b);
    assert multiset(prefix) == multiset(prefix + [last]) - multiset{last};
  }

  lemma {:induction false} CountFailedPermutes(x: seq<Record>, y: seq<Record>)
    requires multiset(x) == multiset(y)
    ensures CountFailed(x) == CountFailed(y)
    decreases |x|
  {
    if x == [] {
      assert |multiset(y)| == 0;
    } else {
      var prefix, last := x[..|x| - 1], x[|x| - 1];
      assert x == prefix + [last];
      var a, b := TakeOut(prefix, last, y);
      CountFailedPermutes(prefix, a + b);
      CountFailedSplits(a, last, b);
    }
  }

  /** Two orders of recording the same outcomes report the same readiness. */
  lemma OrderDoesNotMatter(x: seq<Record>, y: seq<Record>)
    requires OncePerGeneration(x) && OncePerGeneration(y) && multiset(x) == multiset(y)
    ensures var a, b := RecordedAll(x), RecordedAll(y);
            && a.attempts == b.attempts && a.failures == b.failures && a.lastFailed == b.lastFailed
            && (a.lastFailed ==> a.lastFailure == b.lastFailure)
  {
    NewestDecides(x);
    NewestDecides(y);
    CountFailedPermutes(x, y);
    assert |multiset(x)| == |multiset(y)|;
    forall r ensures r in x <==> r in y { assert r in multiset(x) <==> r in multiset(y); }
    if x != [] {
      var r :| Newest(x, r);
      assert Newest(y, r);
    }
  }

  // ----- every launch is counted once

  /** The guard of one launch. `complete` first looks at the flag and competes for
      it afterwards; a response may win in between. */
  datatype Guard = Live | Completing | Gone

  /** `claimed` is the launch's outcome flag; whoever sets it records afterwards. */
  datatype Launch = Launch(guard: Guard, claimed: bool, pending: Option<Outcome>)

  datatype State = State(launches: map<nat, Launch>, health: Health, log: seq<Record>)

  datatype Event =
    | Begin(generation: nat)
    | Observe(generation: nat, outcome: Outcome)   // a response to initialize passes the bridge
    | CompleteLooks(generation: nat)
    | CompleteClaims(generation: nat, detail: string)
    | DropClaims(generation: nat, detail: string)  // cancelled before completing
    | Write(generation: nat)                       // the claimant updates the shared health

  function Claim(l: Launch, guard: Guard, o: Outcome): Launch {
    if l.claimed then l.(guard := guard) else Launch(guard, true, Some(o))
  }

  ghost predicate Next(s: State, e: Event, s': State) {
    && (!e.Begin? ==> e.generation in s.launches)
    && match e
       case Begin(g) =>
         g > 0 && g !in s.launches && s' == s.(launches := s.launches[g := Launch(Live, false, None)])
       case Observe(g, o) =>
         s' == s.(launches := s.launches[g := Claim(s.launches[g], s.launches[g].guard, o)])
       case CompleteLooks(g) =>
         && s.launches[g].guard == Live
         && s' == s.(launches := s.launches[g := s.launches[g].(guard := if s.launches[g].claimed then Gone else Completing)])
       case CompleteClaims(g, detail) =>
         && s.launches[g].guard == Completing
         && s' == s.(launches := s.launches[g := Claim(s.launches[g], Gone, Failed(detail))])
       case DropClaims(g, detail) =>
         && s.launches[g].guard == Live
         && s' == s.(launches := s.launches[g := Claim(s.launches[g], Gone, Failed(detail))])
       case Write(g) =>
         && s.launches[g].pending.Some?
         && var r := Record(g, s.launches[g].pending.value);
            s' == State(s.launches[g := s.launches[g].(pending := None)], Recorded(s.health, r), s.log + [r])
  }

  const INIT := State(map[], FRESH, [])

  ghost predicate Behaviour(states: seq<State>, events: seq<Event>) {
    && |states| == |events| + 1 && states[0] == INIT
    && forall i :: 0 <= i < |events| ==> Next(states[i], events[i], states[i + 1])
  }

  predicate Logged(log: seq<Record>, g: nat) { exists r :: r in log && r.generation == g }

  ghost predicate LaunchOk(g: nat, l: Launch, log: seq<Record>) {
    && g > 0
    && (l.guard == Gone ==> l.claimed)
    && (l.pending.Some? ==> l.claimed)
    && (Logged(log, g) <==> l.claimed && l.pending == None)
  }

  ghost predicate Inv(s: State) {
    && (forall g :: g in s.launches ==> LaunchOk(g, s.launches[g], s.log))
    && (forall r :: r in s.log ==> r.generation in s.launches)
    && OncePerGeneration(s.log)
    && s.health == RecordedAll(s.log)
  }

  lemma LogGrows(log: seq<Record>, r: Record)
    requires OncePerGeneration(log) && r.generation > 0 && !Logged(log, r.generation)
    ensures OncePerGeneration(log + [r])
    ensures forall k :: Logged(log + [r], k) <==> Logged(log, k) || k == r.generation
  {
    forall i | 0 <= i < |log| ensures log[i].generation != r.generation { assert log[i] in log; }
    assert forall q :: q in log + [r] <==> q in log || q == r;
    forall k ensures Logged(log + [r], k) <==> Logged(log, k) || k == r.generation {
      if k == r.generation { assert r in log + [r]; }
      if Logged(log, k) {
        var q :| q in log && q.generation == k;
        assert q in log + [r];
      }
    }
  }

  lemma RecordedAppend(log: seq<Record>, r: Record)
    ensures RecordedAll(log + [r]) == Recorded(RecordedAll(log), r)
  {
    assert (log + [r])[..|log + [r]| - 1] == log;
  }

  lemma WrittenLaunchOk(k: nat, l: Launch, log: seq<Record>, r: Record, l': Launch)
    requires LaunchOk(k, l, log) && (Logged(log + [r], k) <==> Logged(log, k) || k == r.generation)
    requires l' == if k == r.generation then l.(pending := None) else l
    requires k == r.generation ==> l.pending.Some?
    ensures LaunchOk(k, l', log + [r])
  {
    hide Logged;
  }

  lemma WriteKeepsInv(s: State, g: nat, s': State)
    requires Inv(s) && Next(s, Write(g), s')
    ensures Inv(s')
  {
    var r := Record(g, s.launches[g].pending.value);
    assert s' == State(s.launches[g := s.launches[g].(pending := None)], Recorded(s.health, r), s.log + [r]);
    assert LaunchOk(g, s.launches[g], s.log);
    LogGrows(s.log, r);
    RecordedAppend(s.log, r);
    hide LaunchOk, Logged, OncePerGeneration, Recorded, RecordedAll, Next;
    forall q | q in s'.log ensures q.generation in s'.launches { assert q in s.log || q == r; }
    forall k | k in s'.launches ensures LaunchOk(k, s'.launches[k], s'.log) {
      WrittenLaunchOk(k, s.launches[k], s.log, r, s'.launches[k]);
    }
  }

  lemma NextKeepsInv(s: State, e: Event, s': State)
    requires Inv(s) && Next(s, e, s')
    ensures Inv(s')
  {
    if e.Write? {
      WriteKeepsInv(s, e.generation, s');
    } else {
      assert s'.log == s.log;
      if e.Begin? { assert !Logged(s.log, e.generation); }
      forall k | k in s'.launches ensures LaunchOk(k, s'.launches[k], s'.log) {
        assert k in s.launches ==> LaunchOk(k, s.launches[k], s.log);
      }
    }
  }

  lemma {:induction false} BehaviourInv(states: seq<State>, events: seq<Event>, i: nat)
    requires Behaviour(states, events) && i < |states|
    ensures Inv(states[i])
  {
    if i > 0 {
      hide Inv, Next;
      BehaviourInv(states, events, i - 1);
      NextKeepsInv(states[i - 1], events[i - 1], states[i]);
    }
  }

  /** Once every guard is gone and every claimed outcome is written, each launch has
      been counted exactly once, the attempts are the launches, and the newest
      launch decides the verdict. */
  lemma LaunchesCountedOnce(states: seq<State>, events: seq<Event>, i: nat)
    requires Behaviour(states, events) && i < |states|
    requires forall g :: g in states[i].launches ==> states[i].launches[g].guard == Gone && states[i].launches[g].pending == None
    ensures OncePerGeneration(states[i].log)
    ensures forall g :: g in states[i].launches <==> Logged(states[i].log, g)
    ensures states[i].health.attempts == |states[i].launches|
    ensures forall r :: Newest(states[i].log, r) ==> Shows(states[i].health, r)
  {
    var s := states[i];
    BehaviourInv(states, events, i);
    forall g | g in s.launches ensures Logged(s.log, g) { assert LaunchOk(g, s.launches[g], s.log); }
    NewestDecides(s.log);
    CountedByGeneration(s.log, s.launches.Keys);
  }

  lemma {:induction false} CountedByGeneration(log: seq<Record>, generations: set<nat>)
    requires OncePerGeneration(log)
    requires forall g :: g in generations <==> Logged(log, g)
    ensures |generations| == |log|
    decreases |log|
  {
    if log == [] {
      assert generations == {};
    } else {
      var prefix, last := log[..|log| - 1], log[|log| - 1];
      assert log == prefix + [last];
      assert last in log;
      forall g ensures g in generations - {last.generation} <==> Logged(prefix, g) {
        if Logged(prefix, g) {
          var r :| r in prefix && r.generation == g;
          assert r in log;
        }
      }
      CountedByGeneration(prefix, generations - {last.generation});
    }
  }

  // ----- which event decides a launch

  /** What an event says about the launch of generation `g`. */
  function Says(e: Event, g: nat): Option<Outcome> {
    match e
    case Observe(k, o) => if k == g then Some(o) else None
    case CompleteClaims(k, detail) => if k == g then Some(Failed(detail)) else None
    case DropClaims(k, detail) => if k == g then Some(Failed(detail)) else None
    case _ => None
  }

  /** What the first event says that says anything about the launch. */
  function First(events: seq<Event>, g: nat): Option<Outcome> {
    if events == [] then None
    else if First(events[..|events| - 1], g).Some? then First(events[..|events| - 1], g)
    else Says(events[|events| - 1], g)
  }

  /** A claim is what the first event said, and so is a record. */
  ghost predicate Told(s: State, events: seq<Event>) {
    && (forall g :: g in s.launches ==>
          && (s.launches[g].claimed <==> First(events, g).Some?)
          && (s.launches[g].pending.Some? ==> s.launches[g].pending == First(events, g)))
    && (forall g :: g !in s.launches ==> First(events, g) == None)
    && (forall r :: r in s.log ==> Some(r.outcome) == First(events, r.generation))
  }

  lemma FirstOfMore(events: seq<Event>, e: Event, g: nat)
    ensures First(events + [e], g) == if First(events, g).Some? then First(events, g) else Says(e, g)
  {
    assert (events + [e])[..|events + [e]| - 1] == events;
  }

  /** What is told of one launch stays so. */
  ghost predicate ToldOf(s: State, g: nat, said: Option<Outcome>) {
    if g in s.launches then
      (s.launches[g].claimed <==> said.Some?) && (s.launches[g].pending.Some? ==> s.launches[g].pending == said)
    else said == None
  }

  lemma StepKeepsToldOf(s: State, e: Event, s': State, g: nat, said: Option<Outcome>)
    requires Next(s, e, s') && ToldOf(s, g, said)
    requires g in s.launches && s.launches[g].pending.Some? ==> s.launches[g].claimed
    ensures ToldOf(s', g, if said.Some? then said else Says(e, g))
  {
    hide Recorded;
  }

  lemma StepRecords(s: State, e: Event, s': State, r: Record)
    requires Next(s, e, s') && r in s'.log
    ensures r in s.log || (r.generation in s.launches && s.launches[r.generation].pending == Some(r.outcome))
  {
    hide Recorded;
    if e.Write? { assert s'.log == s.log + [Record(e.generation, s.launches[e.generation].pending.value)]; }
  }

  lemma StepKeepsTold(s: State, e: Event, s': State, events: seq<Event>)
    requires Inv(s) && Told(s, events) && Next(s, e, s')
    ensures Told(s', events + [e])
  {
    var more := events + [e];
    forall g ensures ToldOf(s', g, First(more, g)) {
      assert g in s.launches ==> LaunchOk(g, s.launches[g], s.log);
      hide First, Next, Inv;
      FirstOfMore(events, e, g);
      StepKeepsToldOf(s, e, s', g, First(events, g));
    }
    forall r | r in s'.log ensures Some(r.outcome) == First(more, r.generation) {
      hide First, Next, Inv;
      FirstOfMore(events, e, r.generation);
      StepRecords(s, e, s', r);
    }
    hide First, Next, Inv;
    assert forall g :: ToldOf(s', g, First(more, g));
  }

  lemma {:induction false} BehaviourTold(states: seq<State>, events: seq<Event>, i: nat)
    requires Behaviour(states, events) && i < |states|
    ensures Told(states[i], events[..i])
  {
    if i == 0 {
      assert events[..0] == [];
    } else {
      hide Inv, Next, Told;
      BehaviourInv(states, events, i - 1);
      BehaviourTold(states, events, i - 1);
      StepKeepsTold(states[i - 1], events[i - 1], states[i], events[..i - 1]);
      assert events[..i - 1] + [events[i - 1]] == events[..i];
    }
  }

  /** Every record carries the outcome of the first event that decided its launch: the
      response it observed, or the failure of the guard that completed or was dropped. */
  lemma RecordsTellFirstOutcome(states: seq<State>, events: seq<Event>, i: nat, r: Record)
    requires Behaviour(states, events) && i < |states| && r in states[i].log
    ensures First(events[..i], r.generation) == Some(r.outcome)
  {
    BehaviourTold(states, events, i);
  }

  /** The launches whose first outcome was a failure. */
  ghost function FailedLaunches(s: State, events: seq<Event>): set<nat> {
    set g | g in s.launches && First(events, g).Some? && First(events, g).value.Failed?
  }

  ghost predicate NewestLaunch(s: State, g: nat) { g in s.launches && forall k :: k in s.launches ==> k <= g }

  /** At quiescence the report is that of the first outcomes: as many failures as
      launches that failed first, and the verdict and detail of the newest launch. */
  lemma ReportIsOfFirstOutcomes(states: seq<State>, events: seq<Event>, i: nat)
    requires Behaviour(states, events) && i < |states|
    requires forall g :: g in states[i].launches ==> states[i].launches[g].guard == Gone && states[i].launches[g].pending == None
    ensures var s, told := states[i], events[..i];
            && s.health.attempts == |s.launches|
            && s.health.failures == |FailedLaunches(s, told)|
            && (forall g :: NewestLaunch(s, g) ==>
                  && First(told, g).Some? && s.health.lastFailed == First(told, g).value.Failed?
                  && (s.health.lastFailed ==> s.health.lastFailure == Some(First(told, g).value.detail)))
  {
    var s, told := states[i], events[..i];
    BehaviourInv(states, events, i);
    BehaviourTold(states, events, i);
    LaunchesCountedOnce(states, events, i);
    NewestDecides(s.log);
    FailedAreRecorded(s, told);
    FailuresAreLaunches(s.log, FailedLaunches(s, told));
    forall g | NewestLaunch(s, g)
      ensures && First(told, g).Some? && s.health.lastFailed == First(told, g).value.Failed?
              && (s.health.lastFailed ==> s.health.lastFailure == Some(First(told, g).value.detail))
    {
      var r :| r in s.log && r.generation == g;
      forall q | q in s.log ensures q.generation <= g { assert Logged(s.log, q.generation); }
      assert Newest(s.log, r);
    }
  }

  lemma FailedAreRecorded(s: State, told: seq<Event>)
    requires Told(s, told) && forall g :: g in s.launches <==> Logged(s.log, g)
    ensures forall g :: g in FailedLaunches(s, told) <==> RecordedFailed(s.log, g)
  {
    hide First;
    forall g ensures g in FailedLaunches(s, told) <==> RecordedFailed(s.log, g) {
      if g in FailedLaunches(s, told) {
        var r :| r in s.log && r.generation == g;
        assert Some(r.outcome) == First(told, g);
      }
      if RecordedFailed(s.log, g) {
        var r :| r in s.log && r.generation == g && r.outcome.Failed?;
        assert Logged(s.log, g);
      }
    }
  }

  /** Some record says that launch `g` failed. */
  predicate RecordedFailed(log: seq<Record>, g: nat) { exists r :: r in log && r.generation == g && r.outcome.Failed? }

  lemma FailedOfMore(prefix: seq<Record>, last: Record, g: nat)
    ensures RecordedFailed(prefix + [last], g) <==> RecordedFailed(prefix, g) || (last.generation == g && last.outcome.Failed?)
  {
    assert forall r :: r in prefix + [last] <==> r in prefix || r == last;
  }

  lemma {:induction false} FailuresAreLaunches(log: seq<Record>, failed: set<nat>)
    requires OncePerGeneration(log)
    requires forall g :: g in failed <==> RecordedFailed(log, g)
    ensures CountFailed(log) == |failed|
    decreases |log|
  {
    if log == [] {
      assert failed == {};
    } else {
      var prefix, last := log[..|log| - 1], log[|log| - 1];
      assert log == prefix + [last];
      assert OncePerGeneration(prefix);
      assert !RecordedFailed(prefix, last.generation) by {
        assert forall k :: 0 <= k < |prefix| ==> log[k].generation != log[|log| - 1].generation;
      }
      hide RecordedFailed, OncePerGeneration;
      forall g ensures RecordedFailed(log, g) <==> RecordedFailed(prefix, g) || (last.generation == g && last.outcome.Failed?) {
        FailedOfMore(prefix, last, g);
      }
      FailuresAreLaunches(prefix, if last.outcome.Failed? then failed - {last.generation} else failed);
    }
  }
}
