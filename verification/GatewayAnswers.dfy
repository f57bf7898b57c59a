/** What the gateway's handlers do, told from outside: what a socket gets and which rooms it is in after each
    message, answer and event, in the literal names and texts of the protocol. */
module GatewayAnswers {
  import opened Common
  import opened ActorContext
  import opened GatewayModel
  import opened GatewayInvariants
  import opened GatewayPublish
  import opened GatewayDelivery
  import opened GatewayFindings

  // ----- Publishing -----

  /** How many of the parcels were sent through the room. */
  function Through(parcels: seq<Parcel>, room: string): nat {
    if parcels == [] then 0
    else Through(parcels[..|parcels| - 1], room) + if parcels[|parcels| - 1].room == Some(room) then 1 else 0
  }

  lemma {:induction false} CopiesThrough(c: Core, rooms: seq<string>, ws: Socket, frame: Frame, room: string)
    requires Distinct(rooms)
    ensures Through(Copies(c, rooms, ws, frame), room) == if room in rooms && InRoom(c, room, ws) then 1 else 0
  {
    if rooms != [] {
      var init, last := rooms[..|rooms| - 1], rooms[|rooms| - 1];
      CopiesThrough(c, init, ws, frame, room);
      assert rooms == init + [last] && last !in init;
      hide InRoom, Distinct;
      var before := Copies(c, init, ws, frame);
      assert (before + [Parcel(Some(last), frame)])[..|before|] == before;
    }
  }

  /** What the event puts on the wire of ws. */
  function Sent(c: Core, d: Core, ws: Socket): seq<Parcel>
    requires ws in c.conns && ws in d.conns && |c.conns[ws].outbox| <= |d.conns[ws].outbox|
  {
    d.conns[ws].outbox[|c.conns[ws].outbox|..]
  }

  lemma PublishedThrough(c: Core, eventType: string, d: map<string, JsonValue>, ws: Socket, room: string)
    requires ws in c.conns && TicketIdOf(Some(d)).Some?
    ensures var after := OnPublish(c, eventType, Some(d));
      && ws in after.conns && |c.conns[ws].outbox| <= |after.conns[ws].outbox|
      && Through(Sent(c, after, ws), room) ==
           if c.conns[ws].ready.Open? && room in Concerned(Some(d)) && InRoom(c, room, ws) then 1 else 0
  {
    var rooms, frame := TargetRooms(Some(d)), Domain(eventType, d);
    TargetRoomsAre(Some(d));
    BroadcastAllIs(c, rooms, frame);
    CopiesThrough(c, rooms, ws, frame, room);
    assert room in rooms <==> room in set r | r in rooms;
    var after := OnPublish(c, eventType, Some(d));
    assert Sent(c, after, ws) == if c.conns[ws].ready.Open? then Copies(c, rooms, ws, frame) else [];
    hide Concerned, InRoom, Copies, TargetRooms, Distinct;
  }

  /** The event names the user in one of the five fields. */
  ghost predicate NamesUser(d: map<string, JsonValue>, user: string) {
    exists f :: f in {"requesterId", "assignedAgentId", "submittedById", "verifiedById", "createdBy"} && f in d && d[f] == Str(user)
  }

  /** The ticket is the string under "ticketId", or, if that is no string, the one under "id". */
  predicate IsAbout(d: map<string, JsonValue>, t: string) {
    if "ticketId" in d && d["ticketId"].Str? then d["ticketId"] == Str(t) else "id" in d && d["id"] == Str(t)
  }

  lemma ConcernedIs(d: map<string, JsonValue>, t: string, x: string)
    requires IsAbout(d, t) && t != ""
    ensures TicketIdOf(Some(d)) == Some(t)
    ensures "ticket:" + x in Concerned(Some(d)) <==> x == t
    ensures "user:" + x in Concerned(Some(d)) <==> x != "" && NamesUser(d, x)
    ensures "org:" + x !in Concerned(Some(d)) && "super_admin" in Concerned(Some(d))
  {
    assert TicketIdOf(Some(d)) == Some(t);
    assert TicketRoom(x) == "ticket:" + x && UserRoom(x) == "user:" + x && OrgRoom(x) == "org:" + x && SUPER_ADMIN_ROOM == "super_admin";
    RoomNames(x, t);
    RoomNames(t, x);
    RoomNames(x, x);
    var users := set f | f in RECIPIENT_FIELDS && Names(d, f) :: d[f].s;
    forall u | u in users
      ensures TicketRoom(x) != UserRoom(u) && OrgRoom(x) != UserRoom(u) && (UserRoom(x) == UserRoom(u) ==> x == u)
    {
      RoomNames(u, x);
      RoomNames(x, u);
    }
    FieldsAre();
    hide TicketIdOf, TicketRoom, UserRoom, OrgRoom;
    if x != "" && NamesUser(d, x) {
      var f :| f in {"requesterId", "assignedAgentId", "submittedById", "verifiedById", "createdBy"} && f in d && d[f] == Str(x);
      assert f in RECIPIENT_FIELDS && Names(d, f);
      assert x in users;
    }
  }

  lemma FieldsAre()
    ensures forall f :: f in RECIPIENT_FIELDS <==> f in {"requesterId", "assignedAgentId", "submittedById", "verifiedById", "createdBy"}
  {
    assert RECIPIENT_FIELDS[0] == "requesterId" && RECIPIENT_FIELDS[1] == "assignedAgentId" && RECIPIENT_FIELDS[2] == "submittedById";
    assert RECIPIENT_FIELDS[3] == "verifiedById" && RECIPIENT_FIELDS[4] == "createdBy";
  }

  /** An event about ticket t: an OPEN socket gets exactly one copy through each of these rooms it is in, namely
      the ticket's, the super admins' and those of the named users, and none through any other ticket's,
      user's or organization's room. */
  lemma PublishedToTicket(c: Core, eventType: string, d: map<string, JsonValue>, t: string, ws: Socket, x: string)
    requires ws in c.conns && t != "" && IsAbout(d, t)
    ensures var after := OnPublish(c, eventType, Some(d));
      && ws in after.conns && |c.conns[ws].outbox| <= |after.conns[ws].outbox|
      && var sent, open := Sent(c, after, ws), c.conns[ws].ready.Open?;
      && (!open ==> sent == [])
      && Through(sent, "ticket:" + x) == (if open && x == t && InRoom(c, "ticket:" + x, ws) then 1 else 0)
      && Through(sent, "super_admin") == (if open && InRoom(c, "super_admin", ws) then 1 else 0)
      && Through(sent, "user:" + x) == (if open && x != "" && NamesUser(d, x) && InRoom(c, "user:" + x, ws) then 1 else 0)
      && Through(sent, "org:" + x) == 0
      && forall p <- sent :: p.frame == Domain(eventType, d)
  {
    ConcernedIs(d, t, x);
    PublishedThrough(c, eventType, d, ws, "ticket:" + x);
    PublishedThrough(c, eventType, d, ws, "super_admin");
    PublishedThrough(c, eventType, d, ws, "user:" + x);
    PublishedThrough(c, eventType, d, ws, "org:" + x);
    PublishIsExact(c, eventType, Some(d), ws);
    hide Concerned, TicketIdOf, OnPublish, Through, InRoom, NamesUser, IsAbout;
  }

  /** An event about no ticket, or about the empty one, is sent to nobody, whatever else it says: an empty
      "ticketId" is not replaced by "id". */
  lemma PublishedToNobody(c: Core, eventType: string, data: Option<map<string, JsonValue>>)
    requires data.Some? ==> forall t :: IsAbout(data.value, t) ==> t == ""
    ensures OnPublish(c, eventType, data) == c
  {
    if data.Some? {
      var d := data.value;
      if "ticketId" in d && d["ticketId"].Str? {
        assert IsAbout(d, d["ticketId"].s);
      } else if "id" in d && d["id"].Str? {
        assert IsAbout(d, d["id"].s);
      }
    }
  }

  // ----- Answers to messages -----

  /** The socket gets this frame if it is OPEN, and nothing else changes. */
  predicate Answers(c: Core, d: Core, ws: Socket, frame: Frame)
    requires ws in c.conns
  {
    && d.rooms == c.rooms && d.registered == c.registered
    && d.conns == if c.conns[ws].ready != Open then c.conns
         else c.conns[ws := c.conns[ws].(outbox := c.conns[ws].outbox + [Parcel(None, frame)])]
  }

  /** Messages that reach no handler of their own. */
  lemma PlainMessages(c: Core, ws: Socket, length: nat, body: Body, verdict: Verdict)
    requires ws in c.conns
    ensures var o := OnMessage(c, ws, Raw(length, body), verdict);
      && (c.conns[ws].ready != Open ==> o == Outcome(c, None))
      && (c.conns[ws].ready == Open && length > 65536 ==>
            o == Outcome(c.(conns := c.conns[ws := c.conns[ws].(ready := Closing)]), None))
      && (c.conns[ws].ready == Open && length <= 65536 ==>
            && (body.NotJson? ==> o.task.None? && Answers(c, o.core, ws, Error("Invalid JSON")))
            && (body.NoType? ==> o.task.None? && Answers(c, o.core, ws, Error("Message must have a string type")))
            && (body.UnknownType? ==> o.task.None? && Answers(c, o.core, ws, Error("Unknown message type: " + body.kind))))
  {
    hide OnAuth, OnSubscribe, OnUnsubscribe;
  }

  /** An authentication: only a verified token of a socket without an actor goes on to the blocklist. */
  lemma AuthAnswers(c: Core, ws: Socket, length: nat, token: Option<string>, verdict: Verdict)
    requires ws in c.conns && c.conns[ws].ready == Open && length <= 65536
    ensures var o := OnMessage(c, ws, Raw(length, Auth(token)), verdict);
      if c.conns[ws].actor.Some? then o.task.None? && Answers(c, o.core, ws, Error("Already authenticated"))
      else if token.None? || token.value == "" then o.task.None? && Answers(c, o.core, ws, Error("Token required"))
      else match verdict
        case NoSecret => o.task.None? && Answers(c, o.core, ws, Error("Server misconfigured: JWT_ACCESS_SECRET not set"))
        case Invalid => o.task.None? && Answers(c, o.core, ws, Error("Invalid or expired token"))
        case Verified(payload) => o == Outcome(c, Some(CheckingBlocklist(ws, token.value, payload)))
  {
  }

  /** A subscribe starts the ticket checks for the actor of the socket. */
  lemma SubscribeAnswers(c: Core, ws: Socket, length: nat, ticketId: Option<string>, verdict: Verdict)
    requires ws in c.conns && c.conns[ws].ready == Open && length <= 65536
    ensures var o := OnMessage(c, ws, Raw(length, Subscribe(ticketId)), verdict);
      if c.conns[ws].actor.None? then o.task.None? && Answers(c, o.core, ws, Error("Authentication required"))
      else if ticketId.None? || ticketId.value == "" then o.task.None? && Answers(c, o.core, ws, Error("ticketId required"))
      else o == Outcome(c, Some(Loading(ws, ticketId.value, c.conns[ws].actor.value)))
  {
  }

  /** An unsubscribe takes the socket out of exactly the ticket's room and is confirmed. */
  lemma UnsubscribeAnswers(c: Core, ws: Socket, length: nat, ticketId: Option<string>, verdict: Verdict)
    requires ws in c.conns && c.conns[ws].ready == Open && length <= 65536
    ensures var o := OnMessage(c, ws, Raw(length, Unsubscribe(ticketId)), verdict);
      && o.task.None? && o.core.registered == c.registered
      && if c.conns[ws].actor.None? then Answers(c, o.core, ws, Error("Authentication required"))
         else if ticketId.None? || ticketId.value == "" then Answers(c, o.core, ws, Error("ticketId required"))
         else
           && o.core.conns == c.conns[ws := c.conns[ws].(rooms := c.conns[ws].rooms - {"ticket:" + ticketId.value},
                outbox := c.conns[ws].outbox + [Parcel(None, Unsubscribed(ticketId.value))])]
           && forall r, w :: InRoom(o.core, r, w) <==> InRoom(c, r, w) && !(w == ws && r == "ticket:" + ticketId.value)
  {
    if c.conns[ws].actor.Some? && ticketId.Some? && ticketId.value != "" {
      LeftRoom(c, ws, "ticket:" + ticketId.value);
      assert TicketRoom(ticketId.value) == "ticket:" + ticketId.value;
      hide TicketRoom, Leave, InRoom;
      var left := Leave(c, ws, "ticket:" + ticketId.value);
      assert OnMessage(c, ws, Raw(length, Unsubscribe(ticketId)), verdict) == Outcome(Send(left, ws, Unsubscribed(ticketId.value)), None);
      SendKeepsRooms(left, ws, Unsubscribed(ticketId.value));
    }
  }

  lemma LeftRoom(c: Core, ws: Socket, room: string)
    requires ws in c.conns
    ensures var d := Leave(c, ws, room);
      && d.conns == c.conns[ws := c.conns[ws].(rooms := c.conns[ws].rooms - {room})] && d.registered == c.registered
      && forall r, w :: InRoom(d, r, w) <==> InRoom(c, r, w) && !(w == ws && r == room)
  {
    if room in c.rooms {
      assert forall w :: w in c.rooms[room] ==> w in c.rooms[room] - {ws} || w == ws;
    }
  }

  lemma SendKeepsRooms(c: Core, ws: Socket, frame: Frame)
    requires ws in c.conns
    ensures Answers(c, Send(c, ws, frame), ws, frame)
    ensures forall r, w :: InRoom(Send(c, ws, frame), r, w) == InRoom(c, r, w)
  {
  }

  // ----- What can happen -----

  /** A socket that is not known can connect, one that is not closed can send or close, one that is OPEN can begin to
      close, a timer that runs can fire; an event can be published and the service shut down at any time. */
  lemma CanHappen(s: State, ws: Socket, raw: Raw, verdict: Verdict, eventType: string, data: Option<map<string, JsonValue>>)
    ensures Enabled(s, Connected(ws)) <==> ws !in s.core.conns
    ensures Enabled(s, Message(ws, raw, verdict)) <==> ws in s.core.conns && s.core.conns[ws].ready in {Open, Closing}
    ensures Enabled(s, SocketClosed(ws)) <==> ws in s.core.conns && s.core.conns[ws].ready in {Open, Closing}
    ensures Enabled(s, CloseStarted(ws)) <==> ws in s.core.conns && s.core.conns[ws].ready == Open
    ensures Enabled(s, AuthTimeout(ws)) <==> ws in s.core.conns && s.core.conns[ws].timerPending
    ensures Enabled(s, Published(eventType, data)) && Enabled(s, Shutdown)
  {
  }

  /** A suspended handler can get any answer, at any time, but only to the question it asked. */
  lemma CanAnswer(s: State, n: nat, token: string, blocked: BlockAnswer, actor: Actor, ticketId: string, ticket: TicketRecord,
      access: TicketAccess, loaded: Answer<TicketRecord>, resolved: Answer<TicketAccess>, checked: Answer<()>)
    ensures Enabled(s, BlocklistAnswered(n, token, blocked)) <==>
      n in s.tasks && s.tasks[n].CheckingBlocklist? && s.tasks[n] == CheckingBlocklist(s.tasks[n].ws, token, s.tasks[n].payload)
    ensures Enabled(s, TicketLoaded(n, actor, ticketId, loaded)) <==> n in s.tasks && s.tasks[n] == Loading(s.tasks[n].ws, ticketId, actor)
    ensures Enabled(s, AccessResolved(n, actor, ticket, resolved)) <==>
      n in s.tasks && s.tasks[n].Resolving? && s.tasks[n] == Resolving(s.tasks[n].ws, s.tasks[n].ticketId, actor, ticket)
    ensures Enabled(s, ReadChecked(n, actor, access, checked)) <==>
      n in s.tasks && s.tasks[n].Reading? && s.tasks[n] == Reading(s.tasks[n].ws, s.tasks[n].ticketId, actor, access)
  {
  }

  /** What each of these events runs; every event is logged. */
  lemma EventsRun(s: State, ws: Socket, raw: Raw, verdict: Verdict, eventType: string, data: Option<map<string, JsonValue>>)
    requires TasksKnown(s)
    ensures ws !in s.core.conns ==> Step(s, Connected(ws)) == State(OnConnection(s.core, ws), s.tasks, s.log + [Connected(ws)])
    ensures Enabled(s, Message(ws, raw, verdict)) ==> var o, e := OnMessage(s.core, ws, raw, verdict), Message(ws, raw, verdict);
      Step(s, e) == State(o.core, if o.task.None? then s.tasks else s.tasks[|s.log| := o.task.value], s.log + [e])
    ensures Enabled(s, SocketClosed(ws)) ==>
      Step(s, SocketClosed(ws)) == State(OnDisconnect(s.core, ws), s.tasks, s.log + [SocketClosed(ws)])
    ensures Enabled(s, AuthTimeout(ws)) ==> Step(s, AuthTimeout(ws)) == State(OnTimeout(s.core, ws), s.tasks, s.log + [AuthTimeout(ws)])
    ensures Enabled(s, CloseStarted(ws)) ==>
      var c := s.core;
      Step(s, CloseStarted(ws)) == State(c.(conns := c.conns[ws := c.conns[ws].(ready := Closing)]), s.tasks, s.log + [CloseStarted(ws)])
    ensures Step(s, Published(eventType, data)) == State(OnPublish(s.core, eventType, data), s.tasks, s.log + [Published(eventType, data)])
    ensures Step(s, Shutdown) == State(OnShutdown(s.core), s.tasks, s.log + [Shutdown])
  {
    hide OnMessage, OnConnection, OnDisconnect, OnTimeout, OnPublish, OnShutdown;
  }

  /** The blocklist's answer is for the handler that asked, with the payload of its token. */
  lemma BlocklistStep(s: State, n: nat, ws: Socket, token: string, p: JwtPayload, answer: BlockAnswer)
    requires TasksKnown(s) && n in s.tasks && s.tasks[n] == CheckingBlocklist(ws, token, p)
    ensures Step(s, BlocklistAnswered(n, token, answer)) ==
      State(OnBlocklistAnswer(s.core, ws, p, answer), s.tasks - {n}, s.log + [BlocklistAnswered(n, token, answer)])
  {
    hide OnBlocklistAnswer;
  }

  // ----- Answers after the awaits -----

  /** The blocklist answers: a blocked token gets an error, a failed lookup nothing, and a cleared one the actor of
      its payload, no live timer, its personal rooms and the confirmation. */
  lemma BlocklistAnswers(c: Core, ws: Socket, p: JwtPayload)
    requires ws in c.conns
    ensures OnBlocklistAnswer(c, ws, p, LookupThrew) == c
    ensures Answers(c, OnBlocklistAnswer(c, ws, p, Blocked), ws, Error("Session has been logged out"))
    ensures var a, d := BuildActor(p), OnBlocklistAnswer(c, ws, p, Clear);
      && d.registered == c.registered && ws in d.conns && d.conns == c.conns[ws := d.conns[ws]]
      && d.conns[ws].actor == Some(a) && !d.conns[ws].authTimer && (c.conns[ws].authTimer ==> !d.conns[ws].timerPending)
      && d.conns[ws].ready == c.conns[ws].ready
      && d.conns[ws].rooms == c.conns[ws].rooms + {"user:" + a.userId}
           + (if a.organizationId != "" then {"org:" + a.organizationId} else {}) + (if a.isSuperAdmin then {"super_admin"} else {})
      && d.conns[ws].outbox == c.conns[ws].outbox +
           if c.conns[ws].ready == Open then [Parcel(None, AuthOk(a.userId, a.organizationId))] else []
  {
    var a := BuildActor(p);
    ClearedConns(c, ws, p);
    assert UserRoom(a.userId) == "user:" + a.userId && OrgRoom(a.organizationId) == "org:" + a.organizationId;
    ClearedWire(c, ws, p);
    hide BuildActor, UserRoom, OrgRoom, OnBlocklistAnswer;
    BlockedAnswers(c, ws, p);
  }

  lemma BlockedAnswers(c: Core, ws: Socket, p: JwtPayload)
    requires ws in c.conns
    ensures OnBlocklistAnswer(c, ws, p, LookupThrew) == c
    ensures Answers(c, OnBlocklistAnswer(c, ws, p, Blocked), ws, Error("Session has been logged out"))
  {
    hide BuildActor, Join;
  }

  lemma ClearedWire(c: Core, ws: Socket, p: JwtPayload)
    requires ws in c.conns
    ensures var a, d := BuildActor(p), OnBlocklistAnswer(c, ws, p, Clear);
      && ws in d.conns && !d.conns[ws].authTimer && (c.conns[ws].authTimer ==> !d.conns[ws].timerPending)
      && d.conns[ws].ready == c.conns[ws].ready
      && d.conns[ws].outbox == c.conns[ws].outbox +
           if c.conns[ws].ready == Open then [Parcel(None, AuthOk(a.userId, a.organizationId))] else []
  {
    hide BuildActor, UserRoom, OrgRoom, Join;
    var a := BuildActor(p);
    var c1 := c.(conns := c.conns[ws := Authenticated(c.conns[ws], a)]);
    JoinConns(c1, ws, UserRoom(a.userId));
    var c2 := Join(c1, ws, UserRoom(a.userId));
    JoinConns(c2, ws, OrgRoom(a.organizationId));
    var c3 := if a.organizationId != "" then Join(c2, ws, OrgRoom(a.organizationId)) else c2;
    JoinConns(c3, ws, SUPER_ADMIN_ROOM);
    var c4 := if a.isSuperAdmin then Join(c3, ws, SUPER_ADMIN_ROOM) else c3;
    assert c4.conns[ws].outbox == c.conns[ws].outbox && c4.conns[ws].ready == c.conns[ws].ready;
  }

  /** The three ticket checks: their failures are told apart, and success puts the socket in the room. */
  lemma TicketAnswers(c: Core, ws: Socket, ticketId: string, access: TicketAccess)
    requires ws in c.conns
    ensures Answers(c, OnSubscribeFailure(c, ws, NotFound), ws, Error("Ticket not found"))
    ensures Answers(c, OnSubscribeFailure(c, ws, Forbidden), ws, Error("You do not have access to this ticket"))
    ensures Answers(c, OnSubscribeFailure(c, ws, OtherFailure), ws, Error("Subscription failed"))
    ensures var d := OnReadAllowed(c, ws, ticketId, access);
      && d.registered == c.registered
      && d.conns == c.conns[ws := c.conns[ws].(rooms := c.conns[ws].rooms + {"ticket:" + ticketId},
           outbox := if c.conns[ws].ready == Open then c.conns[ws].outbox + [Parcel(None, Subscribed(ticketId, access))] else c.conns[ws].outbox)]
  {
    assert TicketRoom(ticketId) == "ticket:" + ticketId;
    JoinConns(c, ws, "ticket:" + ticketId);
    hide TicketRoom, Join;
  }

  /** The checks follow each other: the record that was loaded, the access that was resolved from it, and the read that
      was allowed, all for the actor of the subscribe. */
  lemma TicketSteps(s: State, n: nat, ws: Socket, ticketId: string, actor: Actor, ticket: TicketRecord, access: TicketAccess)
    requires TasksKnown(s) && n in s.tasks
    ensures s.tasks[n] == Loading(ws, ticketId, actor) ==>
      Step(s, TicketLoaded(n, actor, ticketId, Returned(ticket))).tasks == s.tasks[n := Resolving(ws, ticketId, actor, ticket)]
    ensures s.tasks[n] == Resolving(ws, ticketId, actor, ticket) ==>
      Step(s, AccessResolved(n, actor, ticket, Returned(access))).tasks == s.tasks[n := Reading(ws, ticketId, actor, access)]
    ensures s.tasks[n] == Reading(ws, ticketId, actor, access) ==>
      var d := Step(s, ReadChecked(n, actor, access, Returned(())));
      d.tasks == s.tasks - {n} && d.core == OnReadAllowed(s.core, ws, ticketId, access)
  {
    hide OnReadAllowed;
  }

  /** Any of them may fail, and then the handler is over. */
  lemma TicketFailures(s: State, n: nat, failure: Failure)
    requires TasksKnown(s) && n in s.tasks
    ensures s.tasks[n].Loading? ==>
      var d := Step(s, TicketLoaded(n, s.tasks[n].actor, s.tasks[n].ticketId, Threw(failure)));
      d.tasks == s.tasks - {n} && d.core == OnSubscribeFailure(s.core, s.tasks[n].ws, failure)
    ensures s.tasks[n].Resolving? ==>
      var d := Step(s, AccessResolved(n, s.tasks[n].actor, s.tasks[n].ticket, Threw(failure)));
      d.tasks == s.tasks - {n} && d.core == OnSubscribeFailure(s.core, s.tasks[n].ws, failure)
    ensures s.tasks[n].Reading? ==>
      var d := Step(s, ReadChecked(n, s.tasks[n].actor, s.tasks[n].access, Threw(failure)));
      d.tasks == s.tasks - {n} && d.core == OnSubscribeFailure(s.core, s.tasks[n].ws, failure)
  {
    hide OnSubscribeFailure;
  }

  /** The personal rooms show in the index, unless the connection's own set has them already. */
  lemma PersonalIndex(c: Core, ws: Socket, p: JwtPayload, r: string, w: Socket)
    requires ws in c.conns
    ensures var a := BuildActor(p);
      InRoom(OnBlocklistAnswer(c, ws, p, Clear), r, w) <==>
        || InRoom(c, r, w)
        || (w == ws && r !in c.conns[ws].rooms
              && (r == "user:" + a.userId || (a.organizationId != "" && r == "org:" + a.organizationId) || (a.isSuperAdmin && r == "super_admin")))
  {
    var a := BuildActor(p);
    assert UserRoom(a.userId) == "user:" + a.userId && OrgRoom(a.organizationId) == "org:" + a.organizationId && SUPER_ADMIN_ROOM == "super_admin";
    hide BuildActor, UserRoom, OrgRoom;
    ClearedIndex(c, ws, p, w, r);
    hide InRoom, OnBlocklistAnswer;
  }

  /** Being let into a ticket's room shows in the index, unless the connection's own set has the room already. */
  lemma TicketIndex(c: Core, ws: Socket, ticketId: string, access: TicketAccess, r: string, w: Socket)
    requires ws in c.conns
    ensures InRoom(OnReadAllowed(c, ws, ticketId, access), r, w) <==>
      InRoom(c, r, w) || (w == ws && r == "ticket:" + ticketId && r !in c.conns[ws].rooms)
  {
    assert TicketRoom(ticketId) == "ticket:" + ticketId;
    hide TicketRoom;
  }

  // ----- The life of a connection -----

  /** The shutdown closes the registered sockets that are OPEN and forgets all clients and rooms, but no connection's
      own set. */
  lemma ShutdownIs(c: Core, ws: Socket)
    ensures OnShutdown(c).registered == {} && OnShutdown(c).rooms == map[] && OnShutdown(c).conns.Keys == c.conns.Keys
    ensures ws in c.conns ==> var d := OnShutdown(c);
      d.conns[ws] == c.conns[ws].(ready := if ws in c.registered && c.conns[ws].ready == Open then Closing else c.conns[ws].ready)
  {
  }

  /** A connection starts without actor and rooms on a running timer; left alone it is closed by it, and its close
      cancels the timer. */
  lemma LifeOfConnection(c: Core, ws: Socket)
    ensures var d := OnConnection(c, ws);
      d.conns == c.conns[ws := Conn(None, {}, true, true, Open, [])] && d.registered == c.registered + {ws} && d.rooms == c.rooms
    ensures ws in c.conns ==>
      var d := OnTimeout(c, ws);
      && d.rooms == c.rooms && d.registered == c.registered
      && d.conns == c.conns[ws := c.conns[ws].(timerPending := false, ready := if c.conns[ws].ready == Open then Closing else c.conns[ws].ready)]
    ensures ws in c.conns ==>
      var d := OnDisconnect(c, ws);
      && d.registered == c.registered - {ws} && d.conns.Keys == c.conns.Keys && d.conns[ws].ready == Closed
      && (ws in c.registered ==> d.conns[ws].rooms == {} && !d.conns[ws].authTimer && (c.conns[ws].authTimer ==> !d.conns[ws].timerPending))
      && forall w :: w in c.conns && w != ws ==> d.conns[w] == c.conns[w]
  {
    hide Evict;
  }
}
