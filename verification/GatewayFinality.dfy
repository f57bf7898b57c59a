/** When an unsubscribe is final, and when a forgotten connection stays out of every room: exactly when no
    handler of the socket is suspended that would still join. */
module GatewayFinality {
  import opened Common
  import opened ActorContext
  import opened GatewayModel
  import opened GatewayInvariants
  import opened GatewayPublish
  import opened GatewayDelivery
  import opened GatewayFindings

  /** A subscribe of ws for ticket t is suspended. */
  ghost predicate Pending(s: State, ws: Socket, t: string) {
    exists n :: n in s.tasks && IsSubscribe(s.tasks[n], ws, t)
  }

  predicate IsSubscribe(task: Task, ws: Socket, t: string) {
    !task.CheckingBlocklist? && task.ws == ws && task.ticketId == t
  }

  predicate Subscribes(e: Event, ws: Socket, t: string) {
    e.Message? && e.ws == ws && e.raw.body == Subscribe(Some(t))
  }

  ghost predicate Outside(s: State, ws: Socket, t: string) {
    ws in s.core.conns && TicketRoom(t) !in s.core.conns[ws].rooms
  }

  lemma StaysOutsideStep(s: State, e: Event, ws: Socket, t: string)
    requires History(s) && Enabled(s, e) && Outside(s, ws, t) && !Pending(s, ws, t) && !Subscribes(e, ws, t)
    ensures Outside(Step(s, e), ws, t)
  {
    hide Effect, BuildActor, PersonalRooms;
    ConnChanges(s, e, ws);
    PersonalIsNotTicket(s, e, ws, t);
    if Grants(s, e, ws) {
      RoomNames(s.tasks[e.task].ticketId, t);
      assert !IsSubscribe(s.tasks[e.task], ws, t);
    }
    hide TicketRoom, Inv, History;
  }

  lemma StaysNotPendingStep(s: State, e: Event, ws: Socket, t: string)
    requires TasksKnown(s) && TasksLogged(s) && Enabled(s, e) && !Pending(s, ws, t) && !Subscribes(e, ws, t)
    ensures !Pending(Step(s, e), ws, t)
  {
    NewTaskIsNew(s);
    forall n | n in Step(s, e).tasks
      ensures !IsSubscribe(Step(s, e).tasks[n], ws, t)
    {
      TaskChanges(s, e, n);
      hide Effect, TasksLogged;
      if n in s.tasks {
        assert !IsSubscribe(s.tasks[n], ws, t);
      }
    }
  }

  /** Without a pending subscribe and without a new one ws stays out of the room. */
  lemma {:induction false} StaysOutside(events: seq<Event>, more: seq<Event>, ws: Socket, t: string)
    requires Run(events + more).Some? && Run(events).Some?
    requires Outside(Run(events).value, ws, t) && !Pending(Run(events).value, ws, t)
    requires forall e <- more :: !Subscribes(e, ws, t)
    ensures Outside(Run(events + more).value, ws, t) && !Pending(Run(events + more).value, ws, t)
    decreases |more|
  {
    if more == [] {
      assert events + more == events;
    } else {
      var init, e := more[..|more| - 1], more[|more| - 1];
      assert events + more == events + init + [e];
      RunSnoc(events + init, e);
      ReachableHistory(events + init);
      var s := Run(events + init).value;
      HistoryKnowsTasks(s);
      assert TasksLogged(s);
      hide Run, Step, Enabled, History, Inv, TaskInv, TasksLogged, Outside, Pending;
      StaysOutside(events, init, ws, t);
      StaysOutsideStep(s, e, ws, t);
      StaysNotPendingStep(s, e, ws, t);
    }
  }

  /** The answers that complete a suspended handler. */
  function Completion(n: nat, task: Task): seq<Event> {
    match task
    case CheckingBlocklist(ws, token, payload) => [BlocklistAnswered(n, token, Clear)]
    case Loading(ws, t, a) =>
      [TicketLoaded(n, a, t, Returned(0)), AccessResolved(n, a, 0, Returned(0)), ReadChecked(n, a, 0, Returned(()))]
    case Resolving(ws, t, a, ticket) => [AccessResolved(n, a, ticket, Returned(0)), ReadChecked(n, a, 0, Returned(()))]
    case Reading(ws, t, a, access) => [ReadChecked(n, a, access, Returned(()))]
  }

  lemma ReadingJoins(events: seq<Event>, n: nat, ws: Socket, t: string)
    requires Run(events).Some? && n in Run(events).value.tasks && TasksKnown(Run(events).value)
    requires Run(events).value.tasks[n].Reading? && IsSubscribe(Run(events).value.tasks[n], ws, t)
    ensures var fs := events + Completion(n, Run(events).value.tasks[n]);
      Run(fs).Some? && ws in Run(fs).value.core.conns && TicketRoom(t) in Run(fs).value.core.conns[ws].rooms
  {
    var s := Run(events).value;
    var task := s.tasks[n];
    RunSnoc(events, ReadChecked(n, task.actor, task.access, Returned(())));
    hide Run, TicketRoom;
    ReadAllowedChanges(s.core, ws, t, task.access, ws);
    hide OnReadAllowed;
  }

  lemma ResolvingJoins(events: seq<Event>, n: nat, ws: Socket, t: string)
    requires Run(events).Some? && n in Run(events).value.tasks && TasksKnown(Run(events).value)
    requires Run(events).value.tasks[n].Resolving? && IsSubscribe(Run(events).value.tasks[n], ws, t)
    ensures var fs := events + Completion(n, Run(events).value.tasks[n]);
      Run(fs).Some? && ws in Run(fs).value.core.conns && TicketRoom(t) in Run(fs).value.core.conns[ws].rooms
  {
    var s := Run(events).value;
    var task := s.tasks[n];
    var e := AccessResolved(n, task.actor, task.ticket, Returned(0));
    RunSnoc(events, e);
    hide Run, TicketRoom;
    assert Step(s, e).tasks == s.tasks[n := Reading(ws, t, task.actor, 0)];
    ReadingJoins(events + [e], n, ws, t);
    assert events + [e] + [ReadChecked(n, task.actor, 0, Returned(()))] == events + Completion(n, task);
  }

  lemma LoadingJoins(events: seq<Event>, n: nat, ws: Socket, t: string)
    requires Run(events).Some? && n in Run(events).value.tasks && TasksKnown(Run(events).value)
    requires Run(events).value.tasks[n].Loading? && IsSubscribe(Run(events).value.tasks[n], ws, t)
    ensures var fs := events + Completion(n, Run(events).value.tasks[n]);
      Run(fs).Some? && ws in Run(fs).value.core.conns && TicketRoom(t) in Run(fs).value.core.conns[ws].rooms
  {
    var s := Run(events).value;
    var task := s.tasks[n];
    var e := TicketLoaded(n, task.actor, t, Returned(0));
    RunSnoc(events, e);
    hide Run, TicketRoom;
    assert Step(s, e).tasks == s.tasks[n := Resolving(ws, t, task.actor, 0)];
    ResolvingJoins(events + [e], n, ws, t);
    assert events + [e] + Completion(n, Resolving(ws, t, task.actor, 0)) == events + Completion(n, task);
  }

  lemma PendingJoins(events: seq<Event>, n: nat, ws: Socket, t: string)
    requires Run(events).Some? && n in Run(events).value.tasks && IsSubscribe(Run(events).value.tasks[n], ws, t)
    ensures var fs := events + Completion(n, Run(events).value.tasks[n]);
      Run(fs).Some? && !Outside(Run(fs).value, ws, t)
  {
    ReachableInv(events);
    hide Run, TicketRoom, Inv, Completion;
    match Run(events).value.tasks[n]
    case Loading(_, _, _) => LoadingJoins(events, n, ws, t);
    case Resolving(_, _, _, _) => ResolvingJoins(events, n, ws, t);
    case Reading(_, _, _, _) => ReadingJoins(events, n, ws, t);
  }

  /** In every reachable state in which ws is not in the room of t: it stays out over every continuation in
      which it does not subscribe to t again, if and only if none of its subscribes to t is still being
      checked. So that is exactly when an unsubscribe is final. */
  lemma UnsubscribeIsFinalExactly(events: seq<Event>, ws: Socket, t: string)
    requires Run(events).Some? && Outside(Run(events).value, ws, t)
    ensures (forall more :: Run(events + more).Some? && (forall e <- more :: !Subscribes(e, ws, t)) ==> Outside(Run(events + more).value, ws, t))
      <==> !Pending(Run(events).value, ws, t)
  {
    var s := Run(events).value;
    if Pending(s, ws, t) {
      var n :| n in s.tasks && IsSubscribe(s.tasks[n], ws, t);
      PendingJoins(events, n, ws, t);
      var more := Completion(n, s.tasks[n]);
      assert Run(events + more).Some? && (forall e <- more :: !Subscribes(e, ws, t)) && !Outside(Run(events + more).value, ws, t);
    } else {
      forall more | Run(events + more).Some? && (forall e <- more :: !Subscribes(e, ws, t))
        ensures Outside(Run(events + more).value, ws, t)
      {
        StaysOutside(events, more, ws, t);
      }
    }
  }

  /** Nothing is sent through the room of t to a socket that is outside. */
  lemma OutsideGetsNothing(events: seq<Event>, e: Event, ws: Socket, t: string)
    requires Run(events + [e]).Some? && Run(events).Some? && Outside(Run(events).value, ws, t)
    ensures TasksKnown(Run(events).value) && Enabled(Run(events).value, e)
    ensures !Delivers(Run(events).value, e, ws, TicketRoom(t))
  {
    RunSnoc(events, e);
    ReachableHistory(events);
    var s := Run(events).value;
    hide Run, Effect, Delivers, TicketRoom;
    if Delivers(s, e, ws, TicketRoom(t)) {
      OnlyPublishDelivers(s, e, ws, TicketRoom(t));
    }
  }

  // ----- When a forgotten connection stays out of every room -----

  /** The handler would put ws in a room that its ClientState does not have. */
  predicate WouldJoin(s: State, n: nat, ws: Socket)
    requires n in s.tasks && ws in s.core.conns
  {
    s.tasks[n].ws == ws &&
    match s.tasks[n]
    case CheckingBlocklist(_, _, payload) => !(PersonalRooms(BuildActor(payload)) <= s.core.conns[ws].rooms)
    case _ => TicketRoom(s.tasks[n].ticketId) !in s.core.conns[ws].rooms
  }

  ghost predicate CanJoin(s: State, ws: Socket)
    requires ws in s.core.conns
  {
    exists n :: n in s.tasks && WouldJoin(s, n, ws)
  }

  ghost predicate Forgotten(s: State, ws: Socket) {
    ws in s.core.conns && ws !in s.core.registered && forall r :: !InRoom(s.core, r, ws)
  }

  /** A forgotten connection is not OPEN, so its messages are ignored. */
  lemma IgnoresMessages(c: Core, ws: Socket, raw: Raw, verdict: Verdict)
    requires ws in c.conns && ws !in c.registered && Inv(c)
    ensures OnMessage(c, ws, raw, verdict) == Outcome(c, None)
  {
  }

  /** One event leaves the room set of a forgotten connection as it is, unless a handler joins a new room. */
  lemma ForgottenRooms(s: State, e: Event, ws: Socket)
    requires Inv(s.core) && TaskInv(s) && Enabled(s, e) && Forgotten(s, ws) && !CanJoin(s, ws)
    ensures RoomsAfter(s, e, ws) == s.core.conns[ws].rooms
  {
    assert !s.core.conns[ws].ready.Open?;
    hide Inv, TicketRoom, PersonalRooms, BuildActor;
    if Completes(s, e, ws) || Grants(s, e, ws) {
      assert !WouldJoin(s, e.task, ws);
    }
  }

  lemma ForgottenStep(s: State, e: Event, ws: Socket)
    requires History(s) && Enabled(s, e) && Forgotten(s, ws) && !CanJoin(s, ws)
    ensures Forgotten(Step(s, e), ws) && !CanJoin(Step(s, e), ws)
  {
    ForgottenRooms(s, e, ws);
    ConnChanges(s, e, ws);
    RegisteredStep(s, e, ws);
    NewTaskIsNew(s);
    if e.Message? && e.ws == ws {
      IgnoresMessages(s.core, ws, e.raw, e.verdict);
      assert Step(s, e).tasks == s.tasks;
    }
    hide Effect, History, Inv, TaskInv, RoomsAfter, BuildActor, PersonalRooms, TicketRoom, OnMessage;
    forall r
      ensures !InRoom(Step(s, e).core, r, ws)
    {
      IndexChanges(s, e, ws, r);
    }
    forall n | n in Step(s, e).tasks
      ensures !WouldJoin(Step(s, e), n, ws)
    {
      TaskChanges(s, e, n);
      if n in s.tasks {
        assert !WouldJoin(s, n, ws);
      }
    }
  }

  lemma {:induction false} StaysForgotten(events: seq<Event>, more: seq<Event>, ws: Socket)
    requires Run(events + more).Some? && Run(events).Some?
    requires Forgotten(Run(events).value, ws) && !CanJoin(Run(events).value, ws)
    ensures Forgotten(Run(events + more).value, ws) && !CanJoin(Run(events + more).value, ws)
    decreases |more|
  {
    if more == [] {
      assert events + more == events;
    } else {
      var init, e := more[..|more| - 1], more[|more| - 1];
      assert events + more == events + init + [e];
      RunSnoc(events + init, e);
      ReachableHistory(events + init);
      hide Run, Step, Enabled, History, Forgotten, CanJoin;
      StaysForgotten(events, init, ws);
      ForgottenStep(Run(events + init).value, e, ws);
    }
  }

  lemma JoinedByLast(events: seq<Event>, e: Event, ws: Socket, r: string)
    requires Run(events).Some? && TasksKnown(Run(events).value) && Enabled(Run(events).value, e)
    requires ws in Run(events).value.core.conns
    requires r in RoomsAfter(Run(events).value, e, ws) && r !in Run(events).value.core.conns[ws].rooms
    ensures Run(events + [e]).Some? && InRoom(Run(events + [e]).value.core, r, ws)
  {
    RunSnoc(events, e);
    ReachableInv(events);
    hide Run, Step, Inv, RoomsAfter, InRoom, Enabled;
    IndexChanges(Run(events).value, e, ws, r);
  }

  lemma ReadingEnters(events: seq<Event>, n: nat, ws: Socket, t: string)
    requires Run(events).Some? && n in Run(events).value.tasks && TasksKnown(Run(events).value)
    requires Run(events).value.tasks[n].Reading? && IsSubscribe(Run(events).value.tasks[n], ws, t)
    requires TicketRoom(t) !in Run(events).value.core.conns[ws].rooms
    ensures var fs := events + Completion(n, Run(events).value.tasks[n]); Run(fs).Some? && InRoom(Run(fs).value.core, TicketRoom(t), ws)
  {
    hide Run, TicketRoom, InRoom;
    var task := Run(events).value.tasks[n];
    JoinedByLast(events, ReadChecked(n, task.actor, task.access, Returned(())), ws, TicketRoom(t));
  }

  lemma ResolvingEnters(events: seq<Event>, n: nat, ws: Socket, t: string)
    requires Run(events).Some? && n in Run(events).value.tasks && TasksKnown(Run(events).value)
    requires Run(events).value.tasks[n].Resolving? && IsSubscribe(Run(events).value.tasks[n], ws, t)
    requires TicketRoom(t) !in Run(events).value.core.conns[ws].rooms
    ensures var fs := events + Completion(n, Run(events).value.tasks[n]); Run(fs).Some? && InRoom(Run(fs).value.core, TicketRoom(t), ws)
  {
    var s := Run(events).value;
    var task := s.tasks[n];
    var e := AccessResolved(n, task.actor, task.ticket, Returned(0));
    RunSnoc(events, e);
    hide Run, TicketRoom, InRoom;
    assert Step(s, e).tasks == s.tasks[n := Reading(ws, t, task.actor, 0)] && Step(s, e).core == s.core;
    ReadingEnters(events + [e], n, ws, t);
    assert events + [e] + [ReadChecked(n, task.actor, 0, Returned(()))] == events + Completion(n, task);
  }

  lemma LoadingEnters(events: seq<Event>, n: nat, ws: Socket, t: string)
    requires Run(events).Some? && n in Run(events).value.tasks && TasksKnown(Run(events).value)
    requires Run(events).value.tasks[n].Loading? && IsSubscribe(Run(events).value.tasks[n], ws, t)
    requires TicketRoom(t) !in Run(events).value.core.conns[ws].rooms
    ensures var fs := events + Completion(n, Run(events).value.tasks[n]); Run(fs).Some? && InRoom(Run(fs).value.core, TicketRoom(t), ws)
  {
    var s := Run(events).value;
    var task := s.tasks[n];
    var e := TicketLoaded(n, task.actor, t, Returned(0));
    RunSnoc(events, e);
    hide Run, TicketRoom, InRoom;
    assert Step(s, e).tasks == s.tasks[n := Resolving(ws, t, task.actor, 0)] && Step(s, e).core == s.core;
    ResolvingEnters(events + [e], n, ws, t);
    assert events + [e] + Completion(n, Resolving(ws, t, task.actor, 0)) == events + Completion(n, task);
  }

  lemma ClearedEnters(events: seq<Event>, n: nat, ws: Socket)
    requires Run(events).Some? && n in Run(events).value.tasks && ws in Run(events).value.core.conns && TasksKnown(Run(events).value)
    requires Run(events).value.tasks[n].CheckingBlocklist? && WouldJoin(Run(events).value, n, ws)
    ensures var fs := events + Completion(n, Run(events).value.tasks[n]); Run(fs).Some? && !Forgotten(Run(fs).value, ws)
  {
    hide Run, InRoom, PersonalRooms, BuildActor;
    var task := Run(events).value.tasks[n];
    var r :| r in PersonalRooms(BuildActor(task.payload)) && r !in Run(events).value.core.conns[ws].rooms;
    JoinedByLast(events, BlocklistAnswered(n, task.token, Clear), ws, r);
  }

  lemma WouldJoinDoes(events: seq<Event>, n: nat, ws: Socket)
    requires Run(events).Some? && n in Run(events).value.tasks && ws in Run(events).value.core.conns
    requires WouldJoin(Run(events).value, n, ws)
    ensures var fs := events + Completion(n, Run(events).value.tasks[n]); Run(fs).Some? && !Forgotten(Run(fs).value, ws)
  {
    ReachableInv(events);
    hide Run, TicketRoom, Inv, Completion, PersonalRooms, BuildActor, InRoom;
    var task := Run(events).value.tasks[n];
    match task
    case CheckingBlocklist(_, _, _) => ClearedEnters(events, n, ws);
    case Loading(_, t, _) => LoadingEnters(events, n, ws, t);
    case Resolving(_, t, _, _) => ResolvingEnters(events, n, ws, t);
    case Reading(_, t, _, _) => ReadingEnters(events, n, ws, t);
  }

  /** In every reachable state with a connection that is no longer registered and in no room: it stays out of
      every room over every continuation if and only if none of its suspended handlers would join a room
      its ClientState does not have. */
  lemma ForgottenIsFinalExactly(events: seq<Event>, ws: Socket)
    requires Run(events).Some? && Forgotten(Run(events).value, ws)
    ensures (forall more :: Run(events + more).Some? ==> Forgotten(Run(events + more).value, ws)) <==> !CanJoin(Run(events).value, ws)
  {
    var s := Run(events).value;
    hide WouldJoin, Forgotten;
    if CanJoin(s, ws) {
      var n :| n in s.tasks && WouldJoin(s, n, ws);
      WouldJoinDoes(events, n, ws);
      var more := Completion(n, s.tasks[n]);
      assert Run(events + more).Some? && !Forgotten(Run(events + more).value, ws);
    } else {
      forall more | Run(events + more).Some?
        ensures Forgotten(Run(events + more).value, ws)
      {
        StaysForgotten(events, more, ws);
      }
    }
  }
}
