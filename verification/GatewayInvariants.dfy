/** What holds in every reachable state of the gateway: the two-way room index agrees, sockets that
    can still receive are registered, and nothing is granted before authentication. */
module GatewayInvariants {
  import opened Common
  import opened ActorContext
  import opened GatewayModel

  /** For a registered connection, its own room set and the room index say the same. */
  ghost predicate IndexAgrees(c: Core) {
    && c.registered <= c.conns.Keys
    && (forall ws, r :: ws in c.registered ==> (r in c.conns[ws].rooms <==> InRoom(c, r, ws)))
  }

  ghost predicate NoEmptyRooms(c: Core) {
    forall r :: r in c.rooms ==> c.rooms[r] != {} && c.rooms[r] <= c.conns.Keys
  }

  ghost predicate OpenAreRegistered(c: Core) {
    forall ws :: ws in c.conns && c.conns[ws].ready.Open? ==> ws in c.registered
  }

  /** Without an actor a connection is in no room, by either side of the index. */
  ghost predicate NoActorNoRooms(c: Core) {
    forall ws :: ws in c.conns && c.conns[ws].actor.None? ==>
      c.conns[ws].rooms == {} && forall r :: !InRoom(c, r, ws)
  }

  /** A timer that can still fire belongs to a connection without an actor that still holds it. */
  ghost predicate TimersUnauthenticated(c: Core) {
    forall ws :: ws in c.conns && c.conns[ws].timerPending ==> c.conns[ws].actor.None? && c.conns[ws].authTimer
  }

  /** Who was told `auth_ok` has an actor. */
  ghost predicate AuthOkMeansActor(c: Core) {
    forall ws, i :: ws in c.conns && 0 <= i < |c.conns[ws].outbox| && c.conns[ws].outbox[i].frame.AuthOk? ==>
      c.conns[ws].actor.Some?
  }

  ghost predicate Inv(c: Core) {
    && IndexAgrees(c)
    && NoEmptyRooms(c)
    && OpenAreRegistered(c)
    && NoActorNoRooms(c)
    && TimersUnauthenticated(c)
    && AuthOkMeansActor(c)
  }

  /** Suspended subscribes hold the actor that was set when they started. */
  ghost predicate TaskInv(s: State) {
    && TasksKnown(s)
    && (forall n :: n in s.tasks && !s.tasks[n].CheckingBlocklist? ==> s.core.conns[s.tasks[n].ws].actor.Some?)
  }

  /** Connections are never dropped, an actor is never unset, a socket never reopens and nothing is
      taken back from the wire. */
  ghost predicate Grows(c: Core, d: Core) {
    forall ws :: ws in c.conns ==>
      && ws in d.conns
      && (c.conns[ws].actor.Some? ==> d.conns[ws].actor.Some?)
      && (d.conns[ws].ready.Open? ==> c.conns[ws].ready.Open?)
      && c.conns[ws].outbox <= d.conns[ws].outbox
  }

  // ----- Single operations -----

  lemma SendKeeps(c: Core, ws: Socket, frame: Frame)
    requires ws in c.conns && Inv(c)
    requires frame.AuthOk? ==> c.conns[ws].actor.Some?
    ensures Inv(Send(c, ws, frame)) && Grows(c, Send(c, ws, frame))
  {
    var d := Send(c, ws, frame);
    assert forall r, w :: InRoom(d, r, w) == InRoom(c, r, w);
    assert d.conns.Keys == c.conns.Keys;
    assert forall w :: w in c.conns ==> d.conns[w] == c.conns[w].(outbox := d.conns[w].outbox);
  }

  lemma CloseKeeps(c: Core, ws: Socket)
    requires ws in c.conns && Inv(c)
    ensures Inv(Close(c, ws)) && Grows(c, Close(c, ws))
  {
    var d := Close(c, ws);
    assert forall r, w :: InRoom(d, r, w) == InRoom(c, r, w);
    assert d.conns.Keys == c.conns.Keys;
  }

  lemma JoinKeeps(c: Core, ws: Socket, room: string)
    requires ws in c.conns && Inv(c) && c.conns[ws].actor.Some?
    ensures Inv(Join(c, ws, room)) && Grows(c, Join(c, ws, room))
  {
    var d := Join(c, ws, room);
    assert d.conns.Keys == c.conns.Keys;
    if room !in c.conns[ws].rooms {
      assert forall r, w :: InRoom(d, r, w) <==> InRoom(c, r, w) || (r == room && w == ws);
    }
  }

  /** Leaving takes exactly one pair out of the index and forgets a room that is now empty. */
  lemma LeaveIndex(c: Core, ws: Socket, room: string)
    requires ws in c.conns && NoEmptyRooms(c)
    ensures var d := Leave(c, ws, room);
      && NoEmptyRooms(d)
      && forall r, w :: InRoom(d, r, w) <==> InRoom(c, r, w) && !(r == room && w == ws)
  {
    var d := Leave(c, ws, room);
    if room in c.rooms {
      var rest := c.rooms[room] - {ws};
      forall w
        ensures InRoom(d, room, w) <==> InRoom(c, room, w) && w != ws
      {
        assert w in rest <==> w in c.rooms[room] && w != ws;
      }
    }
  }

  lemma LeaveKeeps(c: Core, ws: Socket, room: string)
    requires ws in c.conns && Inv(c)
    ensures Inv(Leave(c, ws, room)) && Grows(c, Leave(c, ws, room))
  {
    LeaveIndex(c, ws, room);
    var d := Leave(c, ws, room);
    assert d.conns == c.conns[ws := c.conns[ws].(rooms := c.conns[ws].rooms - {room})];
    assert d.registered == c.registered;
  }

  lemma DisconnectKeeps(c: Core, ws: Socket)
    requires ws in c.conns && Inv(c)
    ensures Inv(OnDisconnect(c, ws)) && Grows(c, OnDisconnect(c, ws))
  {
    var d := OnDisconnect(c, ws);
    assert d.conns.Keys == c.conns.Keys;
    if ws in c.registered {
      forall r, w
        ensures InRoom(d, r, w) <==> InRoom(c, r, w) && !(r in c.conns[ws].rooms && w == ws)
      {
        assert r in c.rooms ==> (w in c.rooms[r] - {ws} <==> w in c.rooms[r] && w != ws);
      }
    } else {
      assert forall r, w :: InRoom(d, r, w) == InRoom(c, r, w);
    }
  }

  lemma BroadcastKeeps(c: Core, room: string, frame: Frame)
    requires Inv(c) && frame.Domain?
    ensures Inv(Broadcast(c, room, frame)) && Grows(c, Broadcast(c, room, frame))
  {
    var d := Broadcast(c, room, frame);
    assert forall r, w :: InRoom(d, r, w) == InRoom(c, r, w);
    assert d.conns.Keys == c.conns.Keys;
    assert forall w :: w in c.conns ==> d.conns[w] == c.conns[w].(outbox := d.conns[w].outbox);
  }

  lemma {:induction false} BroadcastAllKeeps(c: Core, rooms: seq<string>, frame: Frame)
    requires Inv(c) && frame.Domain?
    ensures Inv(BroadcastAll(c, rooms, frame)) && Grows(c, BroadcastAll(c, rooms, frame))
  {
    if rooms != [] {
      BroadcastAllKeeps(c, rooms[..|rooms| - 1], frame);
      BroadcastKeeps(BroadcastAll(c, rooms[..|rooms| - 1], frame), rooms[|rooms| - 1], frame);
    }
  }

  lemma ConnectionKeeps(c: Core, ws: Socket)
    requires ws !in c.conns && Inv(c)
    ensures Inv(OnConnection(c, ws)) && Grows(c, OnConnection(c, ws))
  {
    var d := OnConnection(c, ws);
    assert forall r, w :: InRoom(d, r, w) == InRoom(c, r, w);
    assert forall r :: !InRoom(c, r, ws);
  }

  lemma ShutdownKeeps(c: Core)
    requires Inv(c)
    ensures Inv(OnShutdown(c)) && Grows(c, OnShutdown(c))
  {
    assert forall r, w :: !InRoom(OnShutdown(c), r, w);
  }

  lemma TimeoutKeeps(c: Core, ws: Socket)
    requires ws in c.conns && Inv(c)
    ensures Inv(OnTimeout(c, ws)) && Grows(c, OnTimeout(c, ws))
  {
    var d := c.(conns := c.conns[ws := c.conns[ws].(timerPending := false)]);
    assert forall r, w :: InRoom(d, r, w) == InRoom(c, r, w);
    assert d.conns.Keys == c.conns.Keys;
    CloseKeeps(d, ws);
  }

  lemma AuthenticateKeeps(c: Core, ws: Socket, a: Actor)
    requires ws in c.conns && Inv(c)
    ensures var d := c.(conns := c.conns[ws := Authenticated(c.conns[ws], a)]); Inv(d) && Grows(c, d)
  {
    var d := c.(conns := c.conns[ws := Authenticated(c.conns[ws], a)]);
    assert forall r, w :: InRoom(d, r, w) == InRoom(c, r, w);
    assert d.conns.Keys == c.conns.Keys;
  }

  lemma GrowsTransitive(c: Core, d: Core, e: Core)
    requires Grows(c, d) && Grows(d, e)
    ensures Grows(c, e)
  {
  }

  // ----- Handlers -----

  /** Joining after other steps that kept everything. */
  lemma JoinKeepsOn(before: Core, c: Core, ws: Socket, room: string)
    requires ws in c.conns && Inv(c) && c.conns[ws].actor.Some? && Grows(before, c)
    ensures var d := Join(c, ws, room); ws in d.conns && Inv(d) && d.conns[ws].actor.Some? && Grows(before, d)
  {
    JoinKeeps(c, ws, room);
    hide Inv;
    GrowsTransitive(before, c, Join(c, ws, room));
  }

  lemma ClearedKeeps(c: Core, ws: Socket, payload: JwtPayload)
    requires ws in c.conns && Inv(c)
    ensures Inv(OnBlocklistAnswer(c, ws, payload, Clear)) && Grows(c, OnBlocklistAnswer(c, ws, payload, Clear))
  {
    hide Inv, Grows, Join, Send, BuildActor, UserRoom, OrgRoom;
    var a := BuildActor(payload);
    AuthenticateKeeps(c, ws, a);
    var c1 := c.(conns := c.conns[ws := Authenticated(c.conns[ws], a)]);
    JoinKeepsOn(c, c1, ws, UserRoom(a.userId));
    var c2 := Join(c1, ws, UserRoom(a.userId));
    JoinKeepsOn(c, c2, ws, OrgRoom(a.organizationId));
    var c3 := if a.organizationId != "" then Join(c2, ws, OrgRoom(a.organizationId)) else c2;
    JoinKeepsOn(c, c3, ws, SUPER_ADMIN_ROOM);
    var c4 := if a.isSuperAdmin then Join(c3, ws, SUPER_ADMIN_ROOM) else c3;
    var answer := AuthOk(a.userId, a.organizationId);
    SendKeeps(c4, ws, answer);
    GrowsTransitive(c, c4, Send(c4, ws, answer));
  }

  lemma BlocklistAnswerKeeps(c: Core, ws: Socket, payload: JwtPayload, answer: BlockAnswer)
    requires ws in c.conns && Inv(c)
    ensures Inv(OnBlocklistAnswer(c, ws, payload, answer)) && Grows(c, OnBlocklistAnswer(c, ws, payload, answer))
  {
    hide Inv;
    match answer
    case LookupThrew =>
    case Blocked => SendKeeps(c, ws, Error("Session has been logged out"));
    case Clear => ClearedKeeps(c, ws, payload);
  }

  lemma FailKeeps(c: Core, ws: Socket, message: string)
    requires ws in c.conns && Inv(c)
    ensures Inv(Fail(c, ws, message)) && Grows(c, Fail(c, ws, message))
  {
    SendKeeps(c, ws, Error(message));
  }

  lemma SubscribeFailureKeeps(c: Core, ws: Socket, failure: Failure)
    requires ws in c.conns && Inv(c)
    ensures Inv(OnSubscribeFailure(c, ws, failure)) && Grows(c, OnSubscribeFailure(c, ws, failure))
  {
    FailKeeps(c, ws, "Ticket not found");
    FailKeeps(c, ws, "You do not have access to this ticket");
    FailKeeps(c, ws, "Subscription failed");
  }

  lemma AuthMessageKeeps(c: Core, ws: Socket, token: Option<string>, verdict: Verdict)
    requires ws in c.conns && Inv(c)
    ensures var d := OnAuth(c, ws, token, verdict).core; Inv(d) && Grows(c, d)
  {
    if c.conns[ws].actor.Some? {
      FailKeeps(c, ws, "Already authenticated");
    } else if token.None? || token.value == "" {
      FailKeeps(c, ws, "Token required");
    } else {
      FailKeeps(c, ws, "Server misconfigured: JWT_ACCESS_SECRET not set");
      FailKeeps(c, ws, "Invalid or expired token");
    }
  }

  lemma SubscribeKeeps(c: Core, ws: Socket, ticketId: Option<string>)
    requires ws in c.conns && Inv(c)
    ensures var d := OnSubscribe(c, ws, ticketId).core; Inv(d) && Grows(c, d)
  {
    FailKeeps(c, ws, "Authentication required");
    FailKeeps(c, ws, "ticketId required");
  }

  lemma UnsubscribeKeeps(c: Core, ws: Socket, ticketId: Option<string>)
    requires ws in c.conns && Inv(c)
    ensures Inv(OnUnsubscribe(c, ws, ticketId)) && Grows(c, OnUnsubscribe(c, ws, ticketId))
  {
    if c.conns[ws].actor.None? {
      FailKeeps(c, ws, "Authentication required");
    } else if ticketId.None? || ticketId.value == "" {
      FailKeeps(c, ws, "ticketId required");
    } else {
      LeaveKeeps(c, ws, TicketRoom(ticketId.value));
      SendKeeps(Leave(c, ws, TicketRoom(ticketId.value)), ws, Unsubscribed(ticketId.value));
    }
  }

  lemma MessageKeeps(c: Core, ws: Socket, raw: Raw, verdict: Verdict)
    requires ws in c.conns && Inv(c)
    ensures var d := OnMessage(c, ws, raw, verdict).core; Inv(d) && Grows(c, d)
  {
    if c.conns[ws].ready.Open? {
      if raw.length > MAX_MESSAGE_BYTES {
        CloseKeeps(c, ws);
      } else {
        match raw.body
        case NotJson => FailKeeps(c, ws, "Invalid JSON");
        case NoType => FailKeeps(c, ws, "Message must have a string type");
        case Auth(token) => AuthMessageKeeps(c, ws, token, verdict);
        case Subscribe(ticketId) => SubscribeKeeps(c, ws, ticketId);
        case Unsubscribe(ticketId) => UnsubscribeKeeps(c, ws, ticketId);
        case UnknownType(kind) => FailKeeps(c, ws, "Unknown message type: " + kind);
      }
    }
  }

  lemma ReadAllowedKeeps(c: Core, ws: Socket, ticketId: string, access: TicketAccess)
    requires ws in c.conns && Inv(c) && c.conns[ws].actor.Some?
    ensures Inv(OnReadAllowed(c, ws, ticketId, access)) && Grows(c, OnReadAllowed(c, ws, ticketId, access))
  {
    JoinKeeps(c, ws, TicketRoom(ticketId));
    SendKeeps(Join(c, ws, TicketRoom(ticketId)), ws, Subscribed(ticketId, access));
  }

  // ----- Whole runs -----

  /** The connection keeps its actor, so suspended subscribes keep theirs. */
  lemma EffectKeepsCore(s: State, e: Event)
    requires Inv(s.core) && TaskInv(s) && Enabled(s, e)
    ensures Inv(Effect(s, e).core) && Grows(s.core, Effect(s, e).core)
  {
    hide Inv, OnConnection, OnMessage, OnBlocklistAnswer, OnReadAllowed, OnSubscribeFailure, OnTimeout, OnDisconnect, OnShutdown, BroadcastAll, Close;
    match e
    case Connected(ws) => ConnectionKeeps(s.core, ws);
    case Message(ws, raw, verdict) => MessageKeeps(s.core, ws, raw, verdict);
    case BlocklistAnswered(n, _, answer) => BlocklistAnswerKeeps(s.core, s.tasks[n].ws, s.tasks[n].payload, answer);
    case TicketLoaded(n, _, _, answer) =>
      if answer.Threw? { SubscribeFailureKeeps(s.core, s.tasks[n].ws, answer.failure); }
    case AccessResolved(n, _, _, answer) =>
      if answer.Threw? { SubscribeFailureKeeps(s.core, s.tasks[n].ws, answer.failure); }
    case ReadChecked(n, _, _, answer) =>
      if answer.Threw? { SubscribeFailureKeeps(s.core, s.tasks[n].ws, answer.failure); }
      else { ReadAllowedKeeps(s.core, s.tasks[n].ws, s.tasks[n].ticketId, s.tasks[n].access); }
    case AuthTimeout(ws) => TimeoutKeeps(s.core, ws);
    case CloseStarted(ws) => CloseKeeps(s.core, ws);
    case SocketClosed(ws) => DisconnectKeeps(s.core, ws);
    case Published(eventType, data) =>
      if TicketIdOf(data).Some? { BroadcastAllKeeps(s.core, TargetRooms(data), Domain(eventType, data.value)); }
    case Shutdown => ShutdownKeeps(s.core);
  }

  /** A new suspended handler belongs to the message's socket, and a subscribe has its actor. */
  lemma MessageTask(c: Core, ws: Socket, raw: Raw, verdict: Verdict)
    requires ws in c.conns
    ensures var t := OnMessage(c, ws, raw, verdict).task;
      t.Some? ==>
        && t.value.ws == ws
        && (t.value.CheckingBlocklist? || (t.value.Loading? && c.conns[ws].actor == Some(t.value.actor)))
  {
  }

  /** One event keeps everything, whatever the interleaving and whatever the oracles answer. */
  lemma StepKeeps(s: State, e: Event)
    requires Inv(s.core) && TaskInv(s) && Enabled(s, e)
    ensures Inv(Step(s, e).core) && TaskInv(Step(s, e)) && Grows(s.core, Step(s, e).core)
  {
    hide Inv, OnConnection, OnMessage, OnBlocklistAnswer, OnReadAllowed, OnSubscribeFailure, OnTimeout, OnDisconnect, OnShutdown, BroadcastAll, Close;
    EffectKeepsCore(s, e);
    var d := Effect(s, e);
    if e.Message? { MessageTask(s.core, e.ws, e.raw, e.verdict); }
    forall n | n in d.tasks
      ensures d.tasks[n].ws in d.core.conns
      ensures !d.tasks[n].CheckingBlocklist? ==> d.core.conns[d.tasks[n].ws].actor.Some?
    {
      if n in s.tasks { assert s.tasks[n].ws in s.core.conns; }
    }
  }

  lemma {:induction false} ReachableInv(events: seq<Event>)
    requires Run(events).Some?
    ensures Inv(Run(events).value.core) && TaskInv(Run(events).value) && Run(events).value.log == events
  {
    if events != [] {
      ReachableInv(events[..|events| - 1]);
      StepKeeps(Run(events[..|events| - 1]).value, events[|events| - 1]);
      assert events == events[..|events| - 1] + [events[|events| - 1]];
    }
  }
}
