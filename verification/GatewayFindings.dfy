/** Consequences of the invariants over whole runs, and the exact limits, event by event, of two claims that
    fail. */
module GatewayFindings {
  import opened Common
  import opened ActorContext
  import opened GatewayModel
  import opened GatewayInvariants
  import opened GatewayPublish
  import opened GatewayDelivery

  // ----- Consequences -----

  lemma RunSnoc(events: seq<Event>, e: Event)
    ensures Run(events + [e]).Some? <==>
      Run(events).Some? && TasksKnown(Run(events).value) && Enabled(Run(events).value, e)
    ensures Run(events + [e]).Some? ==> Run(events + [e]).value == Step(Run(events).value, e)
  {
    var longer := events + [e];
    assert longer[..|longer| - 1] == events && longer[|longer| - 1] == e;
    hide Effect;
  }

  /** The 4001 timeout fires only for a connection that has no actor at that moment. */
  lemma TimeoutOnlyUnauthenticated(events: seq<Event>, ws: Socket)
    requires Run(events + [AuthTimeout(ws)]).Some?
    ensures Run(events).Some? && ws in Run(events).value.core.conns
    ensures Run(events).value.core.conns[ws].actor.None? && Run(events).value.core.conns[ws].rooms == {}
  {
    RunSnoc(events, AuthTimeout(ws));
    ReachableInv(events);
  }

  /** An actor once set stays set, a socket that stopped being OPEN stays so, and what was sent
      stays sent, over any continuation of a run. */
  lemma {:induction false} ConnectionsOnlyGrow(events: seq<Event>, more: seq<Event>)
    requires Run(events + more).Some?
    ensures Run(events).Some? && Grows(Run(events).value.core, Run(events + more).value.core)
  {
    if more == [] {
      assert events + more == events;
    } else {
      var init, e := more[..|more| - 1], more[|more| - 1];
      assert events + more == events + init + [e];
      RunSnoc(events + init, e);
      ConnectionsOnlyGrow(events, init);
      ReachableInv(events + init);
      hide Run, Step, Grows, Inv, TaskInv, Enabled;
      StepKeeps(Run(events + init).value, e);
      GrowsTransitive(Run(events).value.core, Run(events + init).value.core, Run(events + more).value.core);
    }
  }

  /** Members a resumed handler left behind are never OPEN, and nothing is broadcast to them. */
  lemma StaleMembersAreSilent(events: seq<Event>, e: Event, ws: Socket, room: string)
    requires Run(events + [e]).Some?
    ensures Run(events).Some? && TasksKnown(Run(events).value) && Enabled(Run(events).value, e)
    ensures var s := Run(events).value;
      ws in s.core.conns && ws !in s.core.registered ==> !s.core.conns[ws].ready.Open? && !Delivers(s, e, ws, room)
  {
    RunSnoc(events, e);
    ReachableHistory(events);
    hide Effect;
    var s := Run(events).value;
    if ws in s.core.conns && ws !in s.core.registered && Delivers(s, e, ws, room) {
      OnlyPublishDelivers(s, e, ws, room);
    }
  }

  // ----- "Rooms only hold registered clients" -----

  ghost predicate OnlyRegistered(c: Core) {
    forall r :: r in c.rooms ==> c.rooms[r] <= c.registered
  }

  /** A handler of ws resumes and gets as far as a room ws has not joined. */
  ghost predicate JoinsNew(s: State, e: Event, ws: Socket)
    requires TasksKnown(s) && Enabled(s, e)
  {
    ws in s.core.conns && !(RoomsAfter(s, e, ws) <= s.core.conns[ws].rooms)
  }

  /** How one event changes the index: a pair appears only where a resumed handler joins. */
  lemma IndexChanges(s: State, e: Event, ws: Socket, r: string)
    requires Inv(s.core) && TaskInv(s) && Enabled(s, e)
    ensures InRoom(Step(s, e).core, r, ws) && !InRoom(s.core, r, ws) ==>
      ws in s.core.conns && r in RoomsAfter(s, e, ws) && r !in s.core.conns[ws].rooms
    ensures ws in s.core.conns && r in RoomsAfter(s, e, ws) && r !in s.core.conns[ws].rooms ==> InRoom(Step(s, e).core, r, ws)
  {
    hide OnMessage, OnBlocklistAnswer, OnReadAllowed, OnSubscribeFailure, PersonalRooms, TicketRoom, BuildActor;
    match e
    case Connected(_) =>
    case Message(who, raw, verdict) => MessageIndex(s.core, who, raw, verdict, ws, r);
    case BlocklistAnswered(n, _, answer) =>
      if answer.Clear? {
        ClearedIndex(s.core, s.tasks[n].ws, s.tasks[n].payload, ws, r);
      } else {
        RefusedIndex(s.core, s.tasks[n].ws, s.tasks[n].payload, answer);
      }
    case ReadChecked(n, _, _, answer) =>
      if answer.Returned? { ReadAllowedIndex(s.core, s.tasks[n].ws, s.tasks[n].ticketId, s.tasks[n].access, ws, r); }
      else { FailureIndex(s.core, s.tasks[n].ws, answer.failure); }
    case TicketLoaded(n, _, _, answer) =>
      if answer.Threw? { FailureIndex(s.core, s.tasks[n].ws, answer.failure); }
    case AccessResolved(n, _, _, answer) =>
      if answer.Threw? { FailureIndex(s.core, s.tasks[n].ws, answer.failure); }
    case SocketClosed(who) =>
    case Published(eventType, data) =>
      if TicketIdOf(data).Some? { BroadcastAllIs(s.core, TargetRooms(data), Domain(eventType, data.value)); }
    case _ =>
  }

  lemma RefusedIndex(c: Core, who: Socket, p: JwtPayload, answer: BlockAnswer)
    requires who in c.conns && !answer.Clear?
    ensures OnBlocklistAnswer(c, who, p, answer).rooms == c.rooms
  {
  }

  lemma FailureIndex(c: Core, who: Socket, failure: Failure)
    requires who in c.conns
    ensures OnSubscribeFailure(c, who, failure).rooms == c.rooms
  {
  }

  lemma ReadAllowedIndex(c: Core, who: Socket, ticketId: string, access: TicketAccess, ws: Socket, r: string)
    requires who in c.conns
    ensures InRoom(OnReadAllowed(c, who, ticketId, access), r, ws) <==>
      InRoom(c, r, ws) || (ws == who && r == TicketRoom(ticketId) && TicketRoom(ticketId) !in c.conns[who].rooms)
  {
    hide TicketRoom;
    JoinIndex(c, who, TicketRoom(ticketId), ws, r);
    hide Join;
  }

  lemma JoinIndex(c: Core, who: Socket, room: string, ws: Socket, r: string)
    requires who in c.conns
    ensures InRoom(Join(c, who, room), r, ws) <==> InRoom(c, r, ws) || (ws == who && r == room && room !in c.conns[who].rooms)
  {
  }

  lemma ClearedIndex(c: Core, who: Socket, p: JwtPayload, ws: Socket, r: string)
    requires who in c.conns
    ensures InRoom(OnBlocklistAnswer(c, who, p, Clear), r, ws) <==>
      InRoom(c, r, ws) || (ws == who && r in PersonalRooms(BuildActor(p)) && r !in c.conns[who].rooms)
  {
    hide BuildActor, UserRoom, OrgRoom, Join;
    var a := BuildActor(p);
    var c1 := c.(conns := c.conns[who := Authenticated(c.conns[who], a)]);
    JoinConns(c1, who, UserRoom(a.userId));
    JoinIndex(c1, who, UserRoom(a.userId), ws, r);
    var c2 := Join(c1, who, UserRoom(a.userId));
    JoinConns(c2, who, OrgRoom(a.organizationId));
    JoinIndex(c2, who, OrgRoom(a.organizationId), ws, r);
    var c3 := if a.organizationId != "" then Join(c2, who, OrgRoom(a.organizationId)) else c2;
    JoinConns(c3, who, SUPER_ADMIN_ROOM);
    JoinIndex(c3, who, SUPER_ADMIN_ROOM, ws, r);
    var c4 := if a.isSuperAdmin then Join(c3, who, SUPER_ADMIN_ROOM) else c3;
    assert OnBlocklistAnswer(c, who, p, Clear) == Send(c4, who, AuthOk(a.userId, a.organizationId));
    hide OnBlocklistAnswer;
    assert InRoom(Send(c4, who, AuthOk(a.userId, a.organizationId)), r, ws) == InRoom(c4, r, ws);
    hide Send;
  }

  lemma MessageIndex(c: Core, who: Socket, raw: Raw, verdict: Verdict, ws: Socket, r: string)
    requires who in c.conns
    ensures InRoom(OnMessage(c, who, raw, verdict).core, r, ws) ==> InRoom(c, r, ws)
  {
  }

  /** Exactly when one event puts a forgotten connection in a room: a handler that resumed after
      the disconnect or the shutdown joined a room its ClientState did not have. */
  lemma StaleJoinExactly(s: State, e: Event)
    requires Inv(s.core) && TaskInv(s) && Enabled(s, e) && OnlyRegistered(s.core)
    ensures OnlyRegistered(Step(s, e).core) <==>
      !exists ws :: ws in s.core.conns && ws !in s.core.registered && JoinsNew(s, e, ws)
  {
    StepKeeps(s, e);
    var d := Step(s, e).core;
    forall ws | ws in s.core.conns && ws !in s.core.registered && JoinsNew(s, e, ws)
      ensures !OnlyRegistered(d)
    {
      var r :| r in RoomsAfter(s, e, ws) && r !in s.core.conns[ws].rooms;
      IndexChanges(s, e, ws, r);
      RegisteredStep(s, e, ws);
      hide Effect;
      assert InRoom(d, r, ws);
    }
    if !OnlyRegistered(d) {
      var r :| r in d.rooms && !(d.rooms[r] <= d.registered);
      var ws :| ws in d.rooms[r] && ws !in d.registered;
      assert InRoom(d, r, ws);
      IndexChanges(s, e, ws, r);
      UnregisteredStep(s, e, ws, r);
      hide Effect;
    }
  }

  lemma RegisteredIs(s: State, e: Event)
    requires TasksKnown(s) && Enabled(s, e)
    ensures Step(s, e).core.registered ==
      match e
      case Connected(ws) => s.core.registered + {ws}
      case SocketClosed(ws) => s.core.registered - {ws}
      case Shutdown => {}
      case _ => s.core.registered
  {
    hide OnMessage, BuildActor;
    match e
    case Published(eventType, data) =>
      if TicketIdOf(data).Some? { BroadcastAllIs(s.core, TargetRooms(data), Domain(eventType, data.value)); }
    case Message(who, raw, verdict) => MessageSendsDirectly(s.core, who, raw, verdict);
    case BlocklistAnswered(n, _, answer) =>
      if answer.Clear? {
        ClearedConns(s.core, s.tasks[n].ws, s.tasks[n].payload);
        hide OnBlocklistAnswer;
      }
    case _ =>
  }

  /** A registered connection that is forgotten by an event is in no room after it. */
  lemma UnregisteredStep(s: State, e: Event, ws: Socket, r: string)
    requires Inv(s.core) && TaskInv(s) && Enabled(s, e)
    ensures ws in s.core.registered && ws !in Step(s, e).core.registered ==> !InRoom(Step(s, e).core, r, ws)
  {
    RegisteredIs(s, e);
    if e == SocketClosed(ws) && ws in s.core.registered {
      assert r in s.core.conns[ws].rooms <==> InRoom(s.core, r, ws);
    } else if !e.Shutdown? {
      hide Effect;
    }
  }

  /** And it does happen: the socket closes while the last check of a subscribe is awaited, and the
      check then succeeds. */
  lemma LateResumeIsStale(s: State, n: nat)
    requires Inv(s.core) && TaskInv(s) && n in s.tasks && s.tasks[n].Reading? && s.tasks[n].ws in s.core.registered
    requires !s.core.conns[s.tasks[n].ws].ready.Closed?
    ensures var ws, close := s.tasks[n].ws, SocketClosed(s.tasks[n].ws);
      var answer := ReadChecked(n, s.tasks[n].actor, s.tasks[n].access, Returned(()));
      && Enabled(s, close) && TasksKnown(Step(s, close)) && Enabled(Step(s, close), answer)
      && var d := Step(Step(s, close), answer).core;
         ws !in d.registered && InRoom(d, TicketRoom(s.tasks[n].ticketId), ws)
  {
    var ws := s.tasks[n].ws;
    var close, answer := SocketClosed(ws), ReadChecked(n, s.tasks[n].actor, s.tasks[n].access, Returned(()));
    StepKeeps(s, close);
    var closed := Step(s, close);
    assert closed.tasks == s.tasks && closed.core.conns[ws].rooms == {} && ws !in closed.core.registered;
    hide OnDisconnect;
    hide Inv;
    RegisteredIs(closed, answer);
    JoinIndex(closed.core, ws, TicketRoom(s.tasks[n].ticketId), ws, TicketRoom(s.tasks[n].ticketId));
    hide TicketRoom;
    assert Step(closed, answer).core == OnReadAllowed(closed.core, ws, s.tasks[n].ticketId, s.tasks[n].access);
    hide Effect;
    hide Join;
  }

  // ----- "One user room per connection" -----

  ghost predicate OneUserRoom(conn: Conn) {
    forall u, v :: UserRoom(u) in conn.rooms && UserRoom(v) in conn.rooms ==> u == v
  }

  /** Two authentications of one socket can overlap, for both pass the check that no actor is set. One that
      completes leaves a single user room exactly when the user rooms of the socket's own set, if any, were
      already its user's; for a registered socket, exactly when it is the first or names the same user as
      the last. */
  lemma OneUserRoomExactly(s: State, e: Event, ws: Socket)
    requires History(s) && Enabled(s, e) && ws in s.core.conns && Completes(s, e, ws)
    ensures ws in Step(s, e).core.conns
    ensures OneUserRoom(Step(s, e).core.conns[ws]) <==>
      forall u :: UserRoom(u) in s.core.conns[ws].rooms ==> u == BuildActor(s.tasks[e.task].payload).userId
    ensures ws in s.core.registered && OneUserRoom(s.core.conns[ws]) ==>
      (OneUserRoom(Step(s, e).core.conns[ws]) <==>
        s.core.conns[ws].actor.None? || s.core.conns[ws].actor.value.userId == BuildActor(s.tasks[e.task].payload).userId)
  {
    UserRoomsAfter(s, e, ws);
    if ws in s.core.registered && OneUserRoom(s.core.conns[ws]) {
      RegisteredUserRooms(s, ws);
    }
    hide Step, History, Completes, UserRoom, BuildActor, Enabled;
    if OneUserRoom(Step(s, e).core.conns[ws]) {
      assert UserRoom(BuildActor(s.tasks[e.task].payload).userId) in Step(s, e).core.conns[ws].rooms;
    }
  }

  lemma UserRoomsAfter(s: State, e: Event, ws: Socket)
    requires TasksKnown(s) && Enabled(s, e) && ws in s.core.conns && Completes(s, e, ws)
    ensures ws in Step(s, e).core.conns
    ensures forall u :: UserRoom(u) in Step(s, e).core.conns[ws].rooms <==>
      UserRoom(u) in s.core.conns[ws].rooms || BuildActor(s.tasks[e.task].payload).userId == u
  {
    hide BuildActor, Effect;
    ConnChanges(s, e, ws);
    forall u
      ensures UserRoom(u) in RoomsAfter(s, e, ws) <==>
        UserRoom(u) in s.core.conns[ws].rooms || BuildActor(s.tasks[e.task].payload).userId == u
    {
      PersonalRoomsAfter(s, e, ws, u);
    }
    hide Completes, UserRoom, RoomsAfter;
  }

  /** A registered socket with an actor is in the room of that actor's user, one without in none. */
  lemma RegisteredUserRooms(s: State, ws: Socket)
    requires History(s) && ws in s.core.registered
    ensures ws in s.core.conns
    ensures match s.core.conns[ws].actor
      case None => forall u :: UserRoom(u) !in s.core.conns[ws].rooms
      case Some(a) => UserRoom(a.userId) in s.core.conns[ws].rooms
  {
    hide TicketsHeld, TasksLogged, SuperAdminRoomExact, LogKnown, LastAuth, WasUser, UserRoom;
    if s.core.conns[ws].actor.Some? {
      var a := s.core.conns[ws].actor.value;
      assert LastAuth(s.log, ws, a);
      LastAuthIsUser(s.log, ws, a);
    }
  }

  lemma LastAuthIsUser(log: seq<Event>, ws: Socket, a: Actor)
    requires LastAuth(log, ws, a)
    ensures WasUser(log, ws, a.userId)
  {
  }

  // ----- "After an unsubscribe nothing more arrives" -----

  /** An unsubscribe does not cancel a subscribe that is still being checked: when the last check
      then succeeds the socket is back in the room. */
  lemma UnsubscribeDoesNotCancel(s: State, n: nat, length: nat, verdict: Verdict)
    requires Inv(s.core) && TaskInv(s) && n in s.tasks && s.tasks[n].Reading? && length <= MAX_MESSAGE_BYTES
    requires s.tasks[n].ws in s.core.registered && s.core.conns[s.tasks[n].ws].ready.Open? && s.tasks[n].ticketId != ""
    ensures var ws, leave := s.tasks[n].ws, Message(s.tasks[n].ws, Raw(length, Unsubscribe(Some(s.tasks[n].ticketId))), verdict);
      var answer := ReadChecked(n, s.tasks[n].actor, s.tasks[n].access, Returned(()));
      && Enabled(s, leave) && TasksKnown(Step(s, leave)) && Enabled(Step(s, leave), answer)
      && !InRoom(Step(s, leave).core, TicketRoom(s.tasks[n].ticketId), ws)
      && InRoom(Step(Step(s, leave), answer).core, TicketRoom(s.tasks[n].ticketId), ws)
  {
    var ws, t := s.tasks[n].ws, s.tasks[n].ticketId;
    var leave := Message(ws, Raw(length, Unsubscribe(Some(t))), verdict);
    var answer := ReadChecked(n, s.tasks[n].actor, s.tasks[n].access, Returned(()));
    StepKeeps(s, leave);
    UnsubscribedIs(s, ws, t, length, verdict);
    hide Inv;
    var left := Step(s, leave);
    JoinIndex(left.core, ws, TicketRoom(t), ws, TicketRoom(t));
    hide TicketRoom;
    hide OnMessage;
    assert left.tasks == s.tasks;
    assert Step(left, answer).core == OnReadAllowed(left.core, ws, t, s.tasks[n].access);
    hide Effect;
    hide Join;
  }

  lemma UnsubscribedIs(s: State, ws: Socket, t: string, length: nat, verdict: Verdict)
    requires Inv(s.core) && TaskInv(s) && ws in s.core.registered && t != "" && length <= MAX_MESSAGE_BYTES
    requires ws in s.core.conns && s.core.conns[ws].ready.Open? && s.core.conns[ws].actor.Some?
    ensures var d := Step(s, Message(ws, Raw(length, Unsubscribe(Some(t))), verdict));
      && d.tasks == s.tasks && ws in d.core.conns
      && TicketRoom(t) !in d.core.conns[ws].rooms && !InRoom(d.core, TicketRoom(t), ws)
  {
    LeaveIndex(s.core, ws, TicketRoom(t));
    hide Inv;
    hide TicketRoom;
    var c := Leave(s.core, ws, TicketRoom(t));
    assert TicketRoom(t) !in c.conns[ws].rooms;
    assert OnMessage(s.core, ws, Raw(length, Unsubscribe(Some(t))), verdict) == Outcome(Send(c, ws, Unsubscribed(t)), None);
    hide OnMessage;
    hide Leave;
  }
}
