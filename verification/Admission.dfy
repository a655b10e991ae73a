/** Process permits of one route: every agent process needs one, an HTTP initialize
    carries its own from admission to launch, and a WebSocket upgrade leaves one in
    a single slot for the launch that follows it. */
module Admission {
  import opened Wrappers

  type RequestId = nat
  type AgentId = nat
  type TaskId = nat

  /** An upgrade is accepted with 101 (section 4.2.2 of RFC 6455), an HTTP/2
      extended CONNECT with any 2xx (section 5 of RFC 8441). */
  predicate Accepted(connect: bool, http2: bool, status: nat) {
    if connect && http2 then 200 <= status < 300 else status == 101
  }

  // ----- the permits

  /** Who has the handshake mutex: nobody, an upgrade on its way to a permit, or the
      outstanding reservation itself. */
  datatype Handshake = Open | Entering(task: TaskId) | WithReservation

  datatype Slots = Slots(
    free: nat, handshake: Handshake, reservation: Option<nat>, nextId: nat,
    scoped: set<RequestId>,    // initialize requests still carrying their permit
    holding: set<AgentId>)     // agents holding a permit

  datatype Event =
    | AdmitHttp(req: RequestId)
    | EnterHandshake(task: TaskId)
    | Reserve(task: TaskId)
    | Abandon(task: TaskId)
    | Respond(id: nat, connect: bool, http2: bool, status: nat)
    | Launch(scope: Option<RequestId>, agent: AgentId)
    | Connect(agent: AgentId)
    | Finish(agent: AgentId)
    | EndScope(req: RequestId)

  /** Where the launch of an agent inside `scope` gets its permit. */
  predicate TakesScoped(s: Slots, scope: Option<RequestId>) { scope.Some? && scope.value in s.scoped }

  function After(s: Slots, e: Event): Slots {
    match e
    case AdmitHttp(req) =>
      if s.free == 0 || req in s.scoped then s else s.(free := s.free - 1, scoped := s.scoped + {req})
    case EnterHandshake(task) => if s.handshake != Open then s else s.(handshake := Entering(task))
    case Reserve(task) =>
      if s.handshake != Entering(task) then s
      else if s.free == 0 then s.(handshake := Open)
      else s.(free := s.free - 1, handshake := WithReservation, reservation := Some(s.nextId), nextId := s.nextId + 1)
    case Abandon(task) => if s.handshake != Entering(task) then s else s.(handshake := Open)
    case Respond(id, connect, http2, status) =>
      if Accepted(connect, http2, status) || s.reservation != Some(id) then s
      else s.(free := s.free + 1, handshake := Open, reservation := None)
    case Launch(scope, agent) =>
      if agent in s.holding then s
      else if TakesScoped(s, scope) then s.(scoped := s.scoped - {scope.value}, holding := s.holding + {agent})
      else if s.reservation.Some? then s.(handshake := Open, reservation := None, holding := s.holding + {agent})
      else s
    case Connect(agent) =>
      if agent in s.holding || s.free == 0 then s else s.(free := s.free - 1, holding := s.holding + {agent})
    case Finish(agent) => if agent !in s.holding then s else s.(free := s.free + 1, holding := s.holding - {agent})
    case EndScope(req) => if req !in s.scoped then s else s.(free := s.free + 1, scoped := s.scoped - {req})
  }

  function Initial(max: nat): Slots { Slots(max, Open, None, 0, {}, {}) }

  function AfterAll(max: nat, events: seq<Event>): Slots {
    if events == [] then Initial(max) else After(AfterAll(max, events[..|events| - 1]), events[|events| - 1])
  }

  /** No permit is lost or made up, and the handshake mutex belongs to the
      reservation exactly while there is one. */
  predicate Conserved(s: Slots, max: nat) {
    && s.free + |s.scoped| + |s.holding| + (if s.reservation.Some? then 1 else 0) == max
    && (s.reservation.Some? <==> s.handshake == WithReservation)
    && (s.reservation.Some? ==> s.reservation.value < s.nextId)
  }

  lemma EventConserves(s: Slots, e: Event, max: nat)
    requires Conserved(s, max)
    ensures Conserved(After(s, e), max)
  {
  }

  /** Permit conservation in every reachable state; in particular there are never
      more agents than permits. */
  lemma {:induction false} PermitsConserved(max: nat, events: seq<Event>)
    ensures Conserved(AfterAll(max, events), max)
    ensures |AfterAll(max, events).holding| <= max
  {
    if events != [] {
      PermitsConserved(max, events[..|events| - 1]);
      EventConserves(AfterAll(max, events[..|events| - 1]), events[|events| - 1], max);
    }
  }

  // ----- what each event takes and gives back

  /** An answer that is no acceptance: anything but 101, or but 2xx for an extended
      CONNECT over HTTP/2. */
  lemma AcceptanceIsByProtocol(status: nat)
    ensures Accepted(true, true, status) <==> 200 <= status <= 299
    ensures forall connect, http2 :: !(connect && http2) ==> (Accepted(connect, http2, status) <==> status == 101)
  {
  }

  /** An initialize takes a free permit and gives it back when its scope ends. */
  lemma ScopeTakesAndReturns(s: Slots, req: RequestId)
    requires s.free > 0 && req !in s.scoped
    ensures After(s, AdmitHttp(req)).free == s.free - 1 && After(s, AdmitHttp(req)).scoped == s.scoped + {req}
    ensures After(After(s, AdmitHttp(req)), EndScope(req)) == s
  {
    assert s.scoped + {req} - {req} == s.scoped;
  }

  /** A connecting agent takes a free permit and gives it back when it is done. */
  lemma AgentTakesAndReturns(s: Slots, agent: AgentId)
    requires s.free > 0 && agent !in s.holding
    ensures After(s, Connect(agent)).free == s.free - 1 && After(s, Connect(agent)).holding == s.holding + {agent}
    ensures After(After(s, Connect(agent)), Finish(agent)) == s
  {
    assert s.holding + {agent} - {agent} == s.holding;
  }

  /** An upgrade that finds the handshake open and a permit free reserves it; refused, it
      gives back the permit and opens the handshake again. */
  lemma RefusalReturnsReservation(max: nat, events: seq<Event>, task: TaskId, connect: bool, http2: bool, status: nat)
    requires AfterAll(max, events).handshake == Open && AfterAll(max, events).free > 0 && !Accepted(connect, http2, status)
    ensures var s := AfterAll(max, events);
            var reserved := After(After(s, EnterHandshake(task)), Reserve(task));
            && reserved.free == s.free - 1 && reserved.reservation == Some(s.nextId) && reserved.handshake == WithReservation
            && After(reserved, Respond(s.nextId, connect, http2, status)) == s.(nextId := s.nextId + 1)
  {
    PermitsConserved(max, events);
  }

  /** An upgrade that is accepted keeps its permit for the launch that follows, and the
      agent gives it back; a launch opens the handshake to the next upgrade. */
  lemma ReservationReachesAgent(max: nat, events: seq<Event>, task: TaskId, connect: bool, http2: bool, status: nat, agent: AgentId)
    requires AfterAll(max, events).handshake == Open && AfterAll(max, events).free > 0 && Accepted(connect, http2, status)
    requires agent !in AfterAll(max, events).holding
    ensures var s := AfterAll(max, events);
            var answered := After(After(After(s, EnterHandshake(task)), Reserve(task)), Respond(s.nextId, connect, http2, status));
            var launched := After(answered, Launch(None, agent));
            && launched.holding == s.holding + {agent} && launched.free == s.free - 1
            && launched.handshake == Open && launched.reservation == None
            && After(launched, Connect(agent)) == launched
            && After(launched, Finish(agent)) == s.(nextId := s.nextId + 1)
  {
    PermitsConserved(max, events);
    var s := AfterAll(max, events);
    assert s.holding + {agent} - {agent} == s.holding;
  }

  /** An upgrade that finds no free permit, or is dropped on the way, leaves everything
      as it was. */
  lemma UnadmittedUpgradeLeavesNothing(s: Slots, task: TaskId)
    requires s.handshake == Open
    ensures After(After(s, EnterHandshake(task)), Abandon(task)) == s
    ensures s.free == 0 ==> After(After(s, EnterHandshake(task)), Reserve(task)) == s
  {
  }

  /** A new reservation never displaces one that is still outstanding. */
  lemma ReservationNotDisplaced(max: nat, events: seq<Event>, task: TaskId)
    ensures var s := AfterAll(max, events);
            s.reservation.Some? ==> After(s, Reserve(task)) == s && After(s, EnterHandshake(task)) == s
  {
    PermitsConserved(max, events);
  }

  /** The exact fate of a launch's permit: it comes from the launch's own request
      when that still has one, and from the WebSocket slot only otherwise. */
  lemma LaunchTakesReservation(max: nat, events: seq<Event>, scope: Option<RequestId>, agent: AgentId)
    requires agent !in AfterAll(max, events).holding
    ensures var s, s' := AfterAll(max, events), After(AfterAll(max, events), Launch(scope, agent));
            && (s'.reservation != s.reservation <==> s.reservation.Some? && !TakesScoped(s, scope))
            && (agent in s'.holding <==> s.reservation.Some? || TakesScoped(s, scope))
            && s'.free == s.free
  {
  }

  /** While nobody uses up or ends an admitted initialize's permit, it stays there. */
  lemma {:induction false} ScopedPermitWaits(max: nat, before: seq<Event>, later: seq<Event>, req: RequestId)
    requires req in AfterAll(max, before).scoped
    requires forall e :: e in later ==> e != EndScope(req) && !(e.Launch? && e.scope == Some(req))
    ensures req in AfterAll(max, before + later).scoped
  {
    if later == [] {
      assert before + later == before;
    } else {
      var prefix, last := later[..|later| - 1], later[|later| - 1];
      assert last in later && forall e :: e in prefix ==> e in later;
      ScopedPermitWaits(max, before, prefix, req);
      assert (before + later)[..|before + later| - 1] == before + prefix;
    }
  }

  /** An initialize that was admitted launches on its own permit, whatever happens
      meanwhile: it takes neither a free permit nor the reservation of an upgrade. */
  lemma InitializeKeepsReservation(max: nat, before: seq<Event>, later: seq<Event>, req: RequestId, agent: AgentId)
    requires var s := AfterAll(max, before); s.free > 0 && req !in s.scoped
    requires forall e :: e in later ==> e != EndScope(req) && !(e.Launch? && e.scope == Some(req))
    requires agent !in AfterAll(max, before + [AdmitHttp(req)] + later).holding
    ensures var s := AfterAll(max, before + [AdmitHttp(req)] + later);
            var s' := After(s, Launch(Some(req), agent));
            agent in s'.holding && s'.reservation == s.reservation && s'.handshake == s.handshake && s'.free == s.free
  {
    var head := before + [AdmitHttp(req)];
    assert head[..|head| - 1] == before;
    ScopedPermitWaits(max, head, later, req);
  }

  /** Whatever happens between an upgrade's admission and its answer, a refusal
      gives back that upgrade's own reservation or nothing: once the reservation
      was taken or cancelled, the old id means nothing any more. */
  lemma {:induction false} StaleRefusalIsHarmless(max: nat, before: seq<Event>, task: TaskId, later: seq<Event>,
                                                  connect: bool, http2: bool, status: nat)
    requires AfterAll(max, before).handshake == Entering(task) && AfterAll(max, before).free > 0
    ensures var reserved := AfterAll(max, before + [Reserve(task)]);
            var id := AfterAll(max, before).nextId;
            var s := AfterAll(max, before + [Reserve(task)] + later);
            && reserved.reservation == Some(id)
            && s.nextId > id
            && (s.reservation != Some(id) ==> After(s, Respond(id, connect, http2, status)) == s)
            && (s.reservation != Some(id) ==>
                  forall more: seq<Event> :: AfterAll(max, before + [Reserve(task)] + later + more).reservation != Some(id))
  {
    var head := before + [Reserve(task)];
    assert head[..|head| - 1] == before;
    IdsOnlyGrow(max, head, later);
    var id, s := AfterAll(max, before).nextId, AfterAll(max, head + later);
    if s.reservation != Some(id) {
      forall more: seq<Event> ensures AfterAll(max, head + later + more).reservation != Some(id) {
        OldIdsStayGone(max, head + later, more, id);
      }
    }
  }

  lemma {:induction false} IdsOnlyGrow(max: nat, events: seq<Event>, more: seq<Event>)
    ensures AfterAll(max, events).nextId <= AfterAll(max, events + more).nextId
  {
    hide After;
    if more == [] {
      assert events + more == events;
    } else {
      var prefix := more[..|more| - 1];
      IdsOnlyGrow(max, events, prefix);
      assert (events + more)[..|events + more| - 1] == events + prefix;
      EventKeepsIds(AfterAll(max, events + prefix), more[|more| - 1], 0);
    }
  }

  lemma {:induction false} OldIdsStayGone(max: nat, events: seq<Event>, more: seq<Event>, id: nat)
    requires id < AfterAll(max, events).nextId && AfterAll(max, events).reservation != Some(id)
    ensures AfterAll(max, events + more).reservation != Some(id)
  {
    hide After;
    if more == [] {
      assert events + more == events;
    } else {
      var prefix := more[..|more| - 1];
      OldIdsStayGone(max, events, prefix, id);
      IdsOnlyGrow(max, events, prefix);
      assert (events + more)[..|events + more| - 1] == events + prefix;
      EventKeepsIds(AfterAll(max, events + prefix), more[|more| - 1], id);
    }
  }

  lemma EventKeepsIds(s: Slots, e: Event, id: nat)
    ensures s.nextId <= After(s, e).nextId
    ensures id < s.nextId && s.reservation != Some(id) ==> After(s, e).reservation != Some(id)
  {
  }

  // ----- the shared object

  class AdmissionState {
    const max: nat
    var processSlots: nat
    var handshake: Handshake
    var wsReservation: Option<nat>
    var nextWsReservation: nat
    /** Permits handed out, by who carries them. */
    var scoped: set<RequestId>
    var holding: set<AgentId>

    function Abs(): Slots
      reads this
    {
      Slots(processSlots, handshake, wsReservation, nextWsReservation, scoped, holding)
    }

    ghost predicate Valid()
      reads this
    {
      Conserved(Abs(), max)
    }

    constructor (maxProcesses: nat)
      ensures Valid() && max == maxProcesses && Abs() == Initial(maxProcesses)
    {
      max, processSlots := maxProcesses, maxProcesses;
      handshake, wsReservation, nextWsReservation := Open, None, 0;
      scoped, holding := {}, {};
    }

    method TryAcquire() returns (ok: bool)
      modifies this`processSlots
      ensures ok <==> old(processSlots) > 0
      ensures processSlots == if ok then old(processSlots) - 1 else old(processSlots)
    {
      ok := processSlots > 0;
      if ok { processSlots := processSlots - 1; }
    }

    /** Admission of an initialize request, or a refusal for lack of permits. */
    method AdmitInitial(req: RequestId) returns (ok: bool)
      requires Valid() && req !in scoped
      modifies this
      ensures Valid() && Abs() == After(old(Abs()), AdmitHttp(req))
      ensures ok <==> old(processSlots) > 0
    {
      ok := TryAcquire();
      if ok { scoped := scoped + {req}; }
    }

    /** The part of an upgrade's admission that runs inside the handshake mutex. */
    method ReserveWebSocket(task: TaskId) returns (id: Option<nat>)
      requires Valid() && handshake == Entering(task)
      modifies this
      ensures Valid() && Abs() == After(old(Abs()), Reserve(task))
      ensures id == (if old(processSlots) > 0 then Some(old(nextWsReservation)) else None)
      ensures id.Some? ==> wsReservation == id
    {
      var ok := TryAcquire();
      if !ok {
        handshake := Open;
        return None;
      }
      id := Some(nextWsReservation);
      nextWsReservation := nextWsReservation + 1;
      wsReservation := id;
      handshake := WithReservation;
    }

    /** Gives the reservation back if it is still this upgrade's. */
    method AnswerUpgrade(id: nat, connect: bool, http2: bool, status: nat)
      requires Valid()
      modifies this
      ensures Valid() && Abs() == After(old(Abs()), Respond(id, connect, http2, status))
    {
      if !Accepted(connect, http2, status) {
        if wsReservation == Some(id) {
          wsReservation := None;
          handshake := Open;
          processSlots := processSlots + 1;
        }
      }
    }

    /** The agent factory: the request's own permit first, the reservation second. */
    method LaunchAgent(scope: Option<RequestId>, agent: AgentId) returns (reserved: bool)
      requires Valid() && agent !in holding
      modifies this
      ensures Valid() && Abs() == After(old(Abs()), Launch(scope, agent))
      ensures reserved <==> agent in holding
    {
      reserved := false;
      if scope.Some? && scope.value in scoped {
        scoped := scoped - {scope.value};
        reserved := true;
      } else if wsReservation.Some? {
        wsReservation := None;
        handshake := Open;
        reserved := true;
      }
      if reserved { holding := holding + {agent}; }
    }

    /** A launched agent connects with its reserved permit or any free one. */
    method ConnectAgent(agent: AgentId) returns (ok: bool)
      requires Valid()
      modifies this
      ensures Valid() && Abs() == After(old(Abs()), Connect(agent))
      ensures ok <==> agent in holding
    {
      if agent in holding { return true; }
      ok := TryAcquire();
      if ok { holding := holding + {agent}; }
    }
  }
}
