/** The gateway as the object it is: maps changed in place. Each method does to the object what the
    function of the same handler in GatewayModel does to its value, and every handler keeps `Valid()`. */
module Gateway {
  import opened Common
  import opened ActorContext
  import opened GatewayModel
  import opened GatewayInvariants
  import opened GatewayPublish
  import opened GatewayDelivery
  import opened GatewayFindings

  class TicketEventsGateway {
    /** The ClientState of every connection made, with its timer and its side of the wire. A
        connection has one ClientState for life, which its handlers reach by their socket. */
    var states: map<Socket, Conn>
    /** The sockets in the gateway's client map. */
    var clients: set<Socket>
    var rooms: map<string, set<Socket>>

    ghost function View(): Core
      reads this
    {
      Core(states, clients, rooms)
    }

    /** The invariant of every reachable state. */
    ghost predicate Valid()
      reads this
    {
      Inv(View())
    }

    constructor ()
      ensures View() == INIT.core && Valid()
    {
      states, clients, rooms := map[], {}, map[];
    }

    /** handleConnection: ws is a socket the server has just accepted. */
    method HandleConnection(ws: Socket)
      requires Valid() && ws !in states
      modifies this
      ensures View() == OnConnection(old(View()), ws) && Valid()
      ensures forall r :: !InRoom(View(), r, ws)
    {
      ConnectionKeeps(View(), ws);
      ConnectedIsInNoRoom(View(), ws);
      hide Inv;
      states := states[ws := Conn(None, {}, true, true, Open, [])];
      clients := clients + {ws};
    }

    method Send(ws: Socket, frame: Frame)
      requires ws in states
      modifies this
      ensures View() == GatewayModel.Send(old(View()), ws, frame)
    {
      if states[ws].ready != Open { return; }
      states := states[ws := states[ws].(outbox := states[ws].outbox + [Parcel(None, frame)])];
    }

    /** ws.close() of the runtime. */
    method Close(ws: Socket)
      requires ws in states
      modifies this
      ensures View() == GatewayModel.Close(old(View()), ws)
    {
      if states[ws].ready == Open { states := states[ws := states[ws].(ready := Closing)]; }
    }

    method JoinRoom(ws: Socket, room: string)
      requires ws in states
      modifies this
      ensures View() == GatewayModel.Join(old(View()), ws, room)
      ensures ws in states && room in states[ws].rooms
      ensures forall r, w :: InRoom(View(), r, w) <==>
        InRoom(old(View()), r, w) || (w == ws && r == room && room !in old(states)[ws].rooms)
    {
      if room in states[ws].rooms { return; }
      states := states[ws := states[ws].(rooms := states[ws].rooms + {room})];
      var members := if room in rooms then rooms[room] else {};
      rooms := rooms[room := members + {ws}];
    }

    method LeaveRoom(ws: Socket, room: string)
      requires ws in states
      modifies this
      ensures View() == GatewayModel.Leave(old(View()), ws, room)
      ensures ws in states && room !in states[ws].rooms
      ensures forall r, w :: InRoom(View(), r, w) <==> InRoom(old(View()), r, w) && !(w == ws && r == room)
      // A room that is now empty is forgotten.
      ensures room in rooms ==> rooms[room] != {} || old(room in rooms && ws !in rooms[room])
    {
      states := states[ws := states[ws].(rooms := states[ws].rooms - {room})];
      if room in rooms {
        var members := rooms[room] - {ws};
        assert forall w :: w in rooms[room] ==> w in members || w == ws;
        if members == {} {
          rooms := rooms - {room};
        } else {
          rooms := rooms[room := members];
        }
      }
    }

    /** handleMessage up to its first await. What is left to do, if anything, is returned. */
    method HandleMessage(ws: Socket, raw: Raw, verdict: Verdict) returns (task: Option<Task>)
      requires Valid() && ws in states
      modifies this
      ensures Outcome(View(), task) == OnMessage(old(View()), ws, raw, verdict) && Valid()
      // A message alone puts nobody in a room.
      ensures forall r, w :: InRoom(View(), r, w) ==> InRoom(old(View()), r, w)
    {
      MessageKeeps(View(), ws, raw, verdict);
      MessageJoinsNobody(View(), ws, raw, verdict);
      hide Inv, OnAuth, OnSubscribe, OnUnsubscribe, InRoom;
      task := None;
      if states[ws].ready != Open { return; }
      if raw.length > MAX_MESSAGE_BYTES {
        Close(ws);
        return;
      }
      match raw.body
      case NotJson => Send(ws, Error("Invalid JSON"));
      case NoType => Send(ws, Error("Message must have a string type"));
      case Auth(token) => task := HandleAuth(ws, token, verdict);
      case Subscribe(ticketId) => task := HandleSubscribe(ws, ticketId);
      case Unsubscribe(ticketId) => HandleUnsubscribe(ws, ticketId);
      case UnknownType(kind) => Send(ws, Error("Unknown message type: " + kind));
    }

    method HandleAuth(ws: Socket, token: Option<string>, verdict: Verdict) returns (task: Option<Task>)
      requires Valid() && ws in states
      modifies this
      ensures Outcome(View(), task) == OnAuth(old(View()), ws, token, verdict) && Valid()
      ensures task.Some? ==> states == old(states) && states[ws].actor.None?
    {
      AuthMessageKeeps(View(), ws, token, verdict);
      hide Inv;
      task := None;
      if states[ws].actor.Some? {
        Send(ws, Error("Already authenticated"));
        return;
      }
      if token.None? || token.value == "" {
        Send(ws, Error("Token required"));
        return;
      }
      match verdict
      case NoSecret => Send(ws, Error("Server misconfigured: JWT_ACCESS_SECRET not set"));
      case Invalid => Send(ws, Error("Invalid or expired token"));
      case Verified(payload) => task := Some(CheckingBlocklist(ws, token.value, payload));
    }

    /** handleAuth after the blocklist has answered. */
    method ResumeAuth(ws: Socket, payload: JwtPayload, answer: BlockAnswer)
      requires Valid() && ws in states
      modifies this
      ensures View() == OnBlocklistAnswer(old(View()), ws, payload, answer) && Valid()
      ensures ws in states && (answer.Clear? ==> states[ws].actor == Some(BuildActor(payload)) && !states[ws].timerPending)
      ensures answer.Clear? && ws in clients ==> InRoom(View(), UserRoom(BuildActor(payload).userId), ws)
    {
      BlocklistAnswerKeeps(View(), ws, payload, answer);
      if answer.Clear? {
        ClearedIsInUserRoom(View(), ws, payload);
      }
      hide Inv, BuildActor, UserRoom, OrgRoom, InRoom;
      if answer.LookupThrew? { return; }
      if answer.Blocked? {
        Send(ws, Error("Session has been logged out"));
        return;
      }
      var actor := BuildActor(payload);
      SetActor(ws, actor);
      JoinRoom(ws, UserRoom(actor.userId));
      if actor.organizationId != "" {
        JoinRoom(ws, OrgRoom(actor.organizationId));
      }
      if actor.isSuperAdmin {
        JoinRoom(ws, SUPER_ADMIN_ROOM);
      }
      Send(ws, AuthOk(actor.userId, actor.organizationId));
    }

    method SetActor(ws: Socket, actor: Actor)
      requires ws in states
      modifies this
      ensures View() == old(View()).(conns := old(View()).conns[ws := Authenticated(old(View()).conns[ws], actor)])
    {
      states := states[ws := states[ws].(actor := Some(actor))];
      if states[ws].authTimer {
        ClearTimer(ws);
      }
    }

    method HandleSubscribe(ws: Socket, ticketId: Option<string>) returns (task: Option<Task>)
      requires Valid() && ws in states
      modifies this
      ensures Outcome(View(), task) == OnSubscribe(old(View()), ws, ticketId) && Valid()
      ensures task.Some? ==> states == old(states) && states[ws].actor == Some(task.value.actor)
      ensures rooms == old(rooms)
    {
      SubscribeKeeps(View(), ws, ticketId);
      hide Inv;
      task := None;
      if states[ws].actor.None? {
        Send(ws, Error("Authentication required"));
        return;
      }
      if ticketId.None? || ticketId.value == "" {
        Send(ws, Error("ticketId required"));
        return;
      }
      task := Some(Loading(ws, ticketId.value, states[ws].actor.value));
    }

    /** handleSubscribe after assertCanRead has returned. */
    method ResumeSubscribe(ws: Socket, ticketId: string, access: TicketAccess)
      requires Valid() && ws in states && states[ws].actor.Some?
      modifies this
      ensures View() == OnReadAllowed(old(View()), ws, ticketId, access) && Valid()
      ensures ws in clients ==> InRoom(View(), TicketRoom(ticketId), ws)
    {
      ReadAllowedKeeps(View(), ws, ticketId, access);
      ReadAllowedIsInRoom(View(), ws, ticketId, access);
      hide Inv, TicketRoom, InRoom;
      JoinRoom(ws, TicketRoom(ticketId));
      Send(ws, Subscribed(ticketId, access));
    }

    /** handleSubscribe after any of its three questions has thrown. */
    method FailSubscribe(ws: Socket, failure: Failure)
      requires Valid() && ws in states
      modifies this
      ensures View() == OnSubscribeFailure(old(View()), ws, failure) && Valid()
      ensures rooms == old(rooms)
    {
      SubscribeFailureKeeps(View(), ws, failure);
      hide Inv;
      match failure
      case NotFound => Send(ws, Error("Ticket not found"));
      case Forbidden => Send(ws, Error("You do not have access to this ticket"));
      case OtherFailure => Send(ws, Error("Subscription failed"));
    }

    method HandleUnsubscribe(ws: Socket, ticketId: Option<string>)
      requires Valid() && ws in states
      modifies this
      ensures View() == OnUnsubscribe(old(View()), ws, ticketId) && Valid()
      ensures old(states)[ws].actor.Some? && ticketId.Some? && ticketId.value != "" ==> !InRoom(View(), TicketRoom(ticketId.value), ws)
      ensures forall r, w :: InRoom(View(), r, w) ==> InRoom(old(View()), r, w)
    {
      UnsubscribeKeeps(View(), ws, ticketId);
      UnsubscribedIsOut(View(), ws, ticketId);
      hide Inv, TicketRoom, InRoom;
      if states[ws].actor.None? {
        Send(ws, Error("Authentication required"));
        return;
      }
      if ticketId.None? || ticketId.value == "" {
        Send(ws, Error("ticketId required"));
        return;
      }
      LeaveRoom(ws, TicketRoom(ticketId.value));
      Send(ws, Unsubscribed(ticketId.value));
    }

    /** clearTimeout, and forgetting the handle. */
    method ClearTimer(ws: Socket)
      requires ws in states
      modifies this
      ensures View() == old(View()).(conns := old(states)[ws := old(states)[ws].(authTimer := false, timerPending := false)])
    {
      states := states[ws := states[ws].(authTimer := false, timerPending := false)];
    }

    /** The 'close' event: the runtime marks the socket CLOSED, then handleDisconnect runs. */
    method HandleDisconnect(ws: Socket)
      requires Valid() && ws in states
      modifies this
      ensures View() == OnDisconnect(old(View()), ws) && Valid()
      ensures ws !in clients
      ensures old(ws in clients) ==> forall r :: !InRoom(View(), r, ws)
    {
      hide Evict, Inv, InRoom;
      ghost var before := View();
      DisconnectKeeps(before, ws);
      states := states[ws := states[ws].(ready := Closed)];
      if ws !in clients { return; }
      if states[ws].authTimer {
        ClearTimer(ws);
      }
      LeaveAllRooms(ws);
      clients := clients - {ws};
      DisconnectedIsInNoRoom(before, ws);
    }

    /** The loop of handleDisconnect over a copy of the room set. */
    method LeaveAllRooms(ws: Socket)
      requires ws in states
      modifies this
      ensures View() == old(View()).(conns := old(states)[ws := old(states)[ws].(rooms := {})], rooms := Evict(old(rooms), ws, old(states)[ws].rooms))
    {
      hide Evict, Leave;
      var left := states[ws].rooms;
      ghost var c, all := View(), left;
      EvictNone(rooms, ws);
      assert all - left == {};
      while left != {}
        invariant left <= all
        invariant View() == c.(conns := c.conns[ws := c.conns[ws].(rooms := left)], rooms := Evict(c.rooms, ws, all - left))
        decreases left
      {
        var room :| room in left;
        LeaveEvicts(c, ws, left, all - left, room);
        assert all - (left - {room}) == all - left + {room};
        LeaveRoom(ws, room);
        left := left - {room};
      }
      assert all - left == all;
    }

    method OnTimer(ws: Socket)
      requires Valid() && ws in states && states[ws].timerPending
      modifies this
      ensures View() == OnTimeout(old(View()), ws) && Valid()
      ensures old(states)[ws].actor.None? && ws in states && !states[ws].ready.Open?
    {
      TimeoutKeeps(View(), ws);
      assert states[ws].actor.None?;
      hide Inv;
      states := states[ws := states[ws].(timerPending := false)];
      Close(ws);
    }

    method OnModuleDestroy()
      requires Valid()
      modifies this
      ensures View() == OnShutdown(old(View())) && Valid()
      ensures forall ws :: ws in states ==> !states[ws].ready.Open?
    {
      assert clients <= states.Keys;
      hide Inv;
      ghost var before := View();
      CloseAll();
      clients, rooms := {}, map[];
      ShutdownKeeps(before);
      ShutdownLeavesNoneOpen(before);
    }

    /** The loop of onModuleDestroy over the keys of the client map. */
    method CloseAll()
      requires clients <= states.Keys
      modifies this`states
      ensures states == map ws | ws in old(states) ::
        if ws in clients && old(states)[ws].ready.Open? then old(states)[ws].(ready := Closing) else old(states)[ws]
    {
      var todo := clients;
      while todo != {}
        invariant todo <= clients <= states.Keys
        invariant states == map ws | ws in old(states) ::
          if ws in clients && ws !in todo && old(states)[ws].ready.Open? then old(states)[ws].(ready := Closing) else old(states)[ws]
        decreases todo
      {
        var ws :| ws in todo;
        if states[ws].ready == Open { states := states[ws := states[ws].(ready := Closing)]; }
        todo := todo - {ws};
      }
    }

    method Broadcast(room: string, frame: Frame)
      requires (room in rooms ==> rooms[room] <= states.Keys)
      modifies this
      ensures View() == GatewayModel.Broadcast(old(View()), room, frame)
      ensures rooms == old(rooms) && states.Keys == old(states).Keys
    {
      if room !in rooms { return; }
      var todo := rooms[room];
      while todo != {}
        invariant clients == old(clients) && rooms == old(rooms) && todo <= rooms[room] <= states.Keys
        invariant states == map ws | ws in old(states) ::
          if ws in rooms[room] && ws !in todo && old(states)[ws].ready.Open?
          then old(states)[ws].(outbox := old(states)[ws].outbox + [Parcel(Some(room), frame)]) else old(states)[ws]
        decreases todo
      {
        var ws :| ws in todo;
        if states[ws].ready == Open {
          states := states[ws := states[ws].(outbox := states[ws].outbox + [Parcel(Some(room), frame)])];
        }
        todo := todo - {ws};
      }
    }

    /** The loop of publish that fills its set of recipients. */
    method CollectRecipients(data: map<string, JsonValue>, fields: seq<string>) returns (recipients: seq<string>)
      ensures recipients == Recipients(data, fields)
    {
      recipients := [];
      for i := 0 to |fields|
        invariant recipients == Recipients(data, fields[..i])
      {
        assert fields[..i + 1][..i] == fields[..i];
        var value := FieldText(data, fields[i]);
        if value.Some? && value.value != "" && value.value !in recipients {
          recipients := recipients + [value.value];
        }
      }
      assert fields[..|fields|] == fields;
    }

    /** The loop of publish over its recipients. */
    method BroadcastUsers(recipients: seq<string>, frame: Frame)
      requires forall r :: r in rooms ==> rooms[r] <= states.Keys
      modifies this
      ensures View() == BroadcastAll(old(View()), UserRooms(recipients), frame)
    {
      hide GatewayModel.Broadcast, UserRoom;
      ghost var core, targets := View(), UserRooms(recipients);
      NoBroadcast(core, frame);
      hide BroadcastAll;
      for i := 0 to |recipients|
        invariant View() == BroadcastAll(core, targets[..i], frame)
        invariant rooms == old(rooms) && states.Keys == old(states).Keys
      {
        Broadcast(UserRoom(recipients[i]), frame);
        BroadcastSnoc(core, targets[..i], UserRoom(recipients[i]), frame);
        assert targets[..i + 1] == targets[..i] + [UserRoom(recipients[i])];
      }
      assert targets[..|recipients|] == targets;
    }

    /** publish: the ticket's room, the super admins, then each named user once. */
    method Publish(eventType: string, data: Option<map<string, JsonValue>>)
      requires Valid()
      modifies this
      ensures View() == OnPublish(old(View()), eventType, data) && Valid()
      ensures rooms == old(rooms) && clients == old(clients) && states.Keys == old(states).Keys
      // An OPEN socket gets one copy for each concerned room it is in, any other socket none.
      ensures forall ws :: ws in states ==>
        |states[ws].outbox| - |old(states)[ws].outbox| ==
          if old(states)[ws].ready.Open? then |set r | r in Concerned(data) && InRoom(old(View()), r, ws)| else 0
    {
      PublishKeeps(View(), eventType, data);
      PublishCounts(View(), eventType, data);
      assert forall r :: r in rooms ==> rooms[r] <= states.Keys;
      hide Inv, InRoom, Concerned;
      hide GatewayModel.Broadcast, Recipients, BroadcastAll, UserRooms;
      if data.None? { return; }
      var ticketId := FieldText(data.value, "ticketId");
      if ticketId.None? { ticketId := FieldText(data.value, "id"); }
      if ticketId.None? || ticketId.value == "" { return; }
      assert TicketIdOf(data) == ticketId;
      hide FieldText, TicketIdOf, TicketRoom;
      var frame := Domain(eventType, data.value);
      var recipients := CollectRecipients(data.value, RECIPIENT_FIELDS);
      ghost var core := View();
      Broadcast(TicketRoom(ticketId.value), frame);
      Broadcast(SUPER_ADMIN_ROOM, frame);
      BroadcastTwo(core, TicketRoom(ticketId.value), SUPER_ADMIN_ROOM, frame);
      BroadcastUsers(recipients, frame);
      BroadcastConcat(core, [TicketRoom(ticketId.value), SUPER_ADMIN_ROOM], UserRooms(recipients), frame);
    }
  }

  // ----- What the handlers achieve, on the value -----

  lemma ConnectedIsInNoRoom(c: Core, ws: Socket)
    requires Inv(c) && ws !in c.conns
    ensures forall r :: !InRoom(OnConnection(c, ws), r, ws)
  {
    forall r
      ensures !InRoom(c, r, ws)
    {
      assert r in c.rooms ==> c.rooms[r] <= c.conns.Keys;
    }
  }

  lemma MessageJoinsNobody(c: Core, ws: Socket, raw: Raw, verdict: Verdict)
    requires ws in c.conns
    ensures forall r, w :: InRoom(OnMessage(c, ws, raw, verdict).core, r, w) ==> InRoom(c, r, w)
  {
    hide OnMessage, InRoom;
    forall r, w
      ensures InRoom(OnMessage(c, ws, raw, verdict).core, r, w) ==> InRoom(c, r, w)
    {
      MessageIndex(c, ws, raw, verdict, w, r);
    }
  }

  lemma ClearedIsInUserRoom(c: Core, ws: Socket, payload: JwtPayload)
    requires ws in c.conns && Inv(c)
    ensures var d := OnBlocklistAnswer(c, ws, payload, Clear);
      && ws in d.conns && d.registered == c.registered && d.conns[ws].actor == Some(BuildActor(payload)) && !d.conns[ws].timerPending
      && (ws in d.registered ==> InRoom(d, UserRoom(BuildActor(payload).userId), ws))
  {
    ClearedConns(c, ws, payload);
    ClearedKeeps(c, ws, payload);
    hide OnBlocklistAnswer, BuildActor, UserRoom, OrgRoom, InRoom;
  }

  lemma ReadAllowedIsInRoom(c: Core, ws: Socket, ticketId: string, access: TicketAccess)
    requires ws in c.conns && Inv(c)
    ensures var d := OnReadAllowed(c, ws, ticketId, access);
      d.registered == c.registered && (ws in d.registered ==> InRoom(d, TicketRoom(ticketId), ws))
  {
    ReadAllowedIndex(c, ws, ticketId, access, ws, TicketRoom(ticketId));
    hide TicketRoom;
  }

  lemma UnsubscribedIsOut(c: Core, ws: Socket, ticketId: Option<string>)
    requires ws in c.conns && Inv(c)
    ensures var d := OnUnsubscribe(c, ws, ticketId);
      && (c.conns[ws].actor.Some? && ticketId.Some? && ticketId.value != "" ==> !InRoom(d, TicketRoom(ticketId.value), ws))
      && forall r, w :: InRoom(d, r, w) ==> InRoom(c, r, w)
  {
    hide TicketRoom;
    if c.conns[ws].actor.Some? && ticketId.Some? && ticketId.value != "" {
      LeaveIndex(c, ws, TicketRoom(ticketId.value));
      hide Inv, Leave;
    }
  }

  lemma DisconnectedIsInNoRoom(c: Core, ws: Socket)
    requires ws in c.registered && Inv(c)
    ensures forall r :: !InRoom(OnDisconnect(c, ws), r, ws)
  {
    forall r
      ensures !InRoom(OnDisconnect(c, ws), r, ws)
    {
      assert r in c.conns[ws].rooms <==> InRoom(c, r, ws);
    }
  }

  lemma ShutdownLeavesNoneOpen(c: Core)
    requires Inv(c)
    ensures forall ws :: ws in OnShutdown(c).conns ==> !OnShutdown(c).conns[ws].ready.Open?
  {
  }

  lemma PublishKeeps(c: Core, eventType: string, data: Option<map<string, JsonValue>>)
    requires Inv(c)
    ensures Inv(OnPublish(c, eventType, data))
  {
    hide Inv;
    if TicketIdOf(data).Some? {
      BroadcastAllKeeps(c, TargetRooms(data), Domain(eventType, data.value));
    }
  }

  lemma PublishCounts(c: Core, eventType: string, data: Option<map<string, JsonValue>>)
    requires Inv(c)
    ensures var d := OnPublish(c, eventType, data);
      && d.rooms == c.rooms && d.registered == c.registered && d.conns.Keys == c.conns.Keys
      && forall ws :: ws in c.conns ==>
           |d.conns[ws].outbox| - |c.conns[ws].outbox| ==
             if c.conns[ws].ready.Open? then |set r | r in Concerned(data) && InRoom(c, r, ws)| else 0
  {
    var d := OnPublish(c, eventType, data);
    if TicketIdOf(data).Some? {
      BroadcastAllIs(c, TargetRooms(data), Domain(eventType, data.value));
    }
    hide OnPublish, Concerned, InRoom, Inv;
    forall ws | ws in c.conns
      ensures |d.conns[ws].outbox| - |c.conns[ws].outbox| ==
        if c.conns[ws].ready.Open? then |set r | r in Concerned(data) && InRoom(c, r, ws)| else 0
    {
      PublishIsExact(c, eventType, data, ws);
    }
  }

  lemma NoBroadcast(c: Core, frame: Frame)
    ensures BroadcastAll(c, [], frame) == c
  {
  }

  lemma BroadcastTwo(c: Core, one: string, other: string, frame: Frame)
    ensures BroadcastAll(c, [one, other], frame) == Broadcast(Broadcast(c, one, frame), other, frame)
  {
    hide GatewayModel.Broadcast;
    BroadcastSnoc(c, [], one, frame);
    BroadcastSnoc(c, [one], other, frame);
    assert [] + [one] == [one] && [one] + [other] == [one, other];
  }

  lemma {:induction false} BroadcastConcat(c: Core, first: seq<string>, second: seq<string>, frame: Frame)
    ensures BroadcastAll(c, first + second, frame) == BroadcastAll(BroadcastAll(c, first, frame), second, frame)
    decreases |second|
  {
    hide GatewayModel.Broadcast;
    if second == [] {
      assert first + second == first;
    } else {
      var init := second[..|second| - 1];
      BroadcastConcat(c, first, init, frame);
      BroadcastSnoc(c, first + init, second[|second| - 1], frame);
      assert first + second == (first + init) + [second[|second| - 1]];
    }
  }

  lemma BroadcastSnoc(c: Core, rooms: seq<string>, room: string, frame: Frame)
    ensures BroadcastAll(c, rooms + [room], frame) == Broadcast(BroadcastAll(c, rooms, frame), room, frame)
  {
    assert (rooms + [room])[..|rooms|] == rooms;
  }

  lemma EvictNone(rooms: map<string, set<Socket>>, ws: Socket)
    ensures Evict(rooms, ws, {}) == rooms
  {
  }

  lemma EvictOne(rooms: map<string, set<Socket>>, ws: Socket, gone: set<string>, room: string)
    requires room !in gone
    ensures var r := Evict(rooms, ws, gone);
      Evict(rooms, ws, gone + {room}) ==
        if room !in r then r else if r[room] - {ws} == {} then r - {room} else r[room := r[room] - {ws}]
  {
  }

  /** Leaving one more room is one more step of the eviction. */
  lemma LeaveEvicts(c: Core, ws: Socket, left: set<string>, gone: set<string>, room: string)
    requires ws in c.conns && room in left && room !in gone
    ensures Leave(c.(conns := c.conns[ws := c.conns[ws].(rooms := left)], rooms := Evict(c.rooms, ws, gone)), ws, room)
      == c.(conns := c.conns[ws := c.conns[ws].(rooms := left - {room})], rooms := Evict(c.rooms, ws, gone + {room}))
  {
    EvictOne(c.rooms, ws, gone, room);
    hide Evict;
  }
}
