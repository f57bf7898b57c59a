/** Every delivery traces back to the questions that were asked before it: in any interleaving, what
    goes out through a room goes to a socket that earned the room and has not given it up. */
module GatewayDelivery {
  import opened Common
  import opened ActorContext
  import opened GatewayModel
  import opened GatewayInvariants
  import opened GatewayPublish

  // ----- What the log says -----

  /** At `m` ws sent a token that verified to p; at `i` the blocklist cleared it. */
  ghost predicate VerifiedAuth(log: seq<Event>, m: nat, i: nat, ws: Socket, p: JwtPayload) {
    && m < i < |log|
    && log[m].Message? && log[m].ws == ws && log[m].verdict == Verified(p)
    && log[m].raw.body.Auth? && log[m].raw.body.token.Some?
    && log[i] == BlocklistAnswered(m, log[m].raw.body.token.value, Clear)
  }

  /** a is the actor given by the last completed authentication of ws. */
  ghost predicate LastAuth(log: seq<Event>, ws: Socket, a: Actor) {
    exists m: nat, i: nat, p :: VerifiedAuth(log, m, i, ws, p) && BuildActor(p) == a
      && forall m': nat, i': nat, p' :: VerifiedAuth(log, m', i', ws, p') ==> i' <= i
  }

  /** At `n` ws, then acting as a, asked for ticket t. */
  ghost predicate Asked(log: seq<Event>, n: nat, ws: Socket, t: string, a: Actor) {
    && n < |log| && t != ""
    && log[n].Message? && log[n].ws == ws && log[n].raw.body == Subscribe(Some(t))
    && LastAuth(log[..n], ws, a)
  }

  ghost predicate LoadedAt(log: seq<Event>, n: nat, j: nat, t: string, a: Actor, ticket: TicketRecord) {
    n < j < |log| && log[j] == TicketLoaded(n, a, t, Returned(ticket))
  }

  ghost predicate ResolvedAt(log: seq<Event>, n: nat, j: nat, a: Actor, ticket: TicketRecord, access: TicketAccess) {
    n < j < |log| && log[j] == AccessResolved(n, a, ticket, Returned(access))
  }

  /** Where the log has the question of the subscribe and the three answers that allowed it. */
  datatype Grant = Grant(asked: nat, loaded: nat, resolved: nat, read: nat, actor: Actor, ticket: TicketRecord, access: TicketAccess)

  /** All three ticket checks on t succeeded for the actor ws had when it asked. */
  ghost predicate Granted(log: seq<Event>, g: Grant, ws: Socket, t: string) {
    && Asked(log, g.asked, ws, t, g.actor)
    && LoadedAt(log, g.asked, g.loaded, t, g.actor, g.ticket)
    && ResolvedAt(log, g.asked, g.resolved, g.actor, g.ticket, g.access)
    && g.loaded < g.resolved < g.read < |log|
    && log[g.read].ReadChecked? && log[g.read] == ReadChecked(g.asked, g.actor, g.access, log[g.read].checked) && log[g.read].checked.Returned?
  }

  /** An unsubscribe of ws from t, the end of ws, or a shutdown. */
  predicate Revokes(e: Event, ws: Socket, t: string) {
    || (e.Message? && e.ws == ws && e.raw.length <= MAX_MESSAGE_BYTES && e.raw.body == Unsubscribe(Some(t)))
    || e == SocketClosed(ws)
    || e.Shutdown?
  }

  /** The ticket checks succeeded for ws and t, and nothing since has revoked them. */
  ghost predicate Holds(log: seq<Event>, ws: Socket, t: string) {
    exists g :: Granted(log, g, ws, t) && forall k :: g.read < k < |log| ==> !Revokes(log[k], ws, t)
  }

  /** ws completed an authentication whose token names user u. */
  ghost predicate WasUser(log: seq<Event>, ws: Socket, u: string) {
    exists m: nat, i: nat, p :: VerifiedAuth(log, m, i, ws, p) && BuildActor(p).userId == u
  }

  ghost predicate WasSuperAdmin(log: seq<Event>, ws: Socket) {
    exists m: nat, i: nat, p :: VerifiedAuth(log, m, i, ws, p) && BuildActor(p).isSuperAdmin
  }

  // ----- The log only grows -----

  lemma VerifiedAuthGrows(log: seq<Event>, e: Event, m: nat, i: nat, ws: Socket, p: JwtPayload)
    ensures VerifiedAuth(log, m, i, ws, p) ==> VerifiedAuth(log + [e], m, i, ws, p)
    ensures VerifiedAuth(log + [e], m, i, ws, p) && i < |log| ==> VerifiedAuth(log, m, i, ws, p)
  {
  }

  lemma LastAuthGrows(log: seq<Event>, e: Event, ws: Socket, a: Actor)
    requires LastAuth(log, ws, a)
    requires forall m: nat, p :: !VerifiedAuth(log + [e], m, |log|, ws, p)
    ensures LastAuth(log + [e], ws, a)
  {
    var m: nat, i: nat, p :| VerifiedAuth(log, m, i, ws, p) && BuildActor(p) == a
      && forall m': nat, i': nat, p' :: VerifiedAuth(log, m', i', ws, p') ==> i' <= i;
    VerifiedAuthGrows(log, e, m, i, ws, p);
    forall m': nat, i': nat, p' | VerifiedAuth(log + [e], m', i', ws, p')
      ensures i' <= i
    {
      VerifiedAuthGrows(log, e, m', i', ws, p');
    }
  }

  lemma LastAuthNow(log: seq<Event>, m: nat, ws: Socket, p: JwtPayload)
    requires log != [] && VerifiedAuth(log, m, |log| - 1, ws, p)
    ensures LastAuth(log, ws, BuildActor(p))
  {
  }

  lemma AskedGrows(log: seq<Event>, e: Event, n: nat, ws: Socket, t: string, a: Actor)
    requires Asked(log, n, ws, t, a)
    ensures Asked(log + [e], n, ws, t, a)
  {
    assert (log + [e])[..n] == log[..n];
  }

  lemma GrantedGrows(log: seq<Event>, e: Event, g: Grant, ws: Socket, t: string)
    requires Granted(log, g, ws, t)
    ensures Granted(log + [e], g, ws, t)
  {
    AskedGrows(log, e, g.asked, ws, t, g.actor);
  }

  lemma HoldsGrows(log: seq<Event>, e: Event, ws: Socket, t: string)
    requires Holds(log, ws, t) && !Revokes(e, ws, t)
    ensures Holds(log + [e], ws, t)
  {
    var g :| Granted(log, g, ws, t) && forall k :: g.read < k < |log| ==> !Revokes(log[k], ws, t);
    GrantedGrows(log, e, g, ws, t);
    var longer := log + [e];
    forall k | g.read < k < |longer|
      ensures !Revokes(longer[k], ws, t)
    {
      if k < |log| { assert longer[k] == log[k]; }
    }
  }

  lemma WasUserGrows(log: seq<Event>, e: Event, ws: Socket, u: string)
    requires WasUser(log, ws, u)
    ensures WasUser(log + [e], ws, u)
  {
    var m: nat, i: nat, p :| VerifiedAuth(log, m, i, ws, p) && BuildActor(p).userId == u;
    VerifiedAuthGrows(log, e, m, i, ws, p);
  }

  lemma WasSuperAdminGrows(log: seq<Event>, e: Event, ws: Socket)
    requires WasSuperAdmin(log, ws)
    ensures WasSuperAdmin(log + [e], ws)
  {
    var m: nat, i: nat, p :| VerifiedAuth(log, m, i, ws, p) && BuildActor(p).isSuperAdmin;
    VerifiedAuthGrows(log, e, m, i, ws, p);
  }

  // ----- The invariant: what is in memory is in the log -----

  /** What a suspended handler has learned so far is in the log. */
  ghost predicate TaskLogged(log: seq<Event>, n: nat, task: Task) {
    n < |log| &&
    match task
    case CheckingBlocklist(ws, token, p) =>
      log[n].Message? && log[n].ws == ws && log[n].verdict == Verified(p) && log[n].raw.body == Auth(Some(token))
    case Loading(ws, t, a) => Asked(log, n, ws, t, a)
    case Resolving(ws, t, a, ticket) => Asked(log, n, ws, t, a) && exists j: nat :: LoadedAt(log, n, j, t, a, ticket)
    case Reading(ws, t, a, access) =>
      Asked(log, n, ws, t, a) &&
      exists j: nat, k: nat, ticket :: j < k && LoadedAt(log, n, j, t, a, ticket) && ResolvedAt(log, n, k, a, ticket, access)
  }

  ghost predicate TasksLogged(s: State) {
    forall n :: n in s.tasks ==> TaskLogged(s.log, n, s.tasks[n])
  }

  ghost predicate ActorsLogged(s: State) {
    forall ws :: ws in s.core.conns && s.core.conns[ws].actor.Some? ==> LastAuth(s.log, ws, s.core.conns[ws].actor.value)
  }

  /** For a socket that can still receive, each ticket room it is in is held. */
  ghost predicate TicketsHeld(s: State) {
    forall ws, t :: ws in s.core.conns && s.core.conns[ws].ready.Open? && TicketRoom(t) in s.core.conns[ws].rooms ==>
      Holds(s.log, ws, t)
  }

  /** The user rooms of a registered connection are those of the users it authenticated as. */
  ghost predicate UserRoomsExact(s: State) {
    forall ws, u :: ws in s.core.registered && ws in s.core.conns ==>
      (UserRoom(u) in s.core.conns[ws].rooms <==> WasUser(s.log, ws, u))
  }

  ghost predicate SuperAdminRoomExact(s: State) {
    forall ws :: ws in s.core.registered && ws in s.core.conns ==>
      (SUPER_ADMIN_ROOM in s.core.conns[ws].rooms <==> WasSuperAdmin(s.log, ws))
  }

  /** The log only speaks of connections that were made. */
  ghost predicate LogKnown(s: State) {
    forall k :: 0 <= k < |s.log| && s.log[k].Message? ==> s.log[k].ws in s.core.conns
  }

  ghost predicate History(s: State) {
    && Inv(s.core) && TaskInv(s)
    && TasksLogged(s) && ActorsLogged(s) && LogKnown(s)
    && TicketsHeld(s) && UserRoomsExact(s) && SuperAdminRoomExact(s)
  }

  /** An authentication completes exactly when the blocklist clears a suspended auth handler. */
  lemma AuthCompletes(s: State, e: Event, m: nat, ws: Socket, p: JwtPayload)
    requires TasksKnown(s) && TasksLogged(s) && Enabled(s, e)
    ensures VerifiedAuth(s.log + [e], m, |s.log|, ws, p) <==>
      e.BlocklistAnswered? && e.blocked.Clear? && e.task == m && s.tasks[m].ws == ws && s.tasks[m].payload == p
  {
    if e.BlocklistAnswered? {
      assert TaskLogged(s.log, e.task, s.tasks[e.task]);
    }
  }

  /** Event e leaves handler n as it was, or answers its question and moves it on. */
  predicate Advances(e: Event, n: nat, was: Task, next: Task) {
    || next == was
    || (e.TicketLoaded? && e.task == n && e.loaded.Returned? && was == Loading(was.ws, e.ticketId, e.actor)
        && next == Resolving(was.ws, e.ticketId, e.actor, e.loaded.value))
    || (e.AccessResolved? && e.task == n && e.resolved.Returned? && was.Resolving? && was.actor == e.actor && was.ticket == e.ticket
        && next == Reading(was.ws, was.ticketId, e.actor, e.resolved.value))
  }

  /** The handler that message e leaves suspended. */
  predicate Starts(s: State, e: Event, task: Task) {
    e.Message? && e.ws in s.core.conns &&
    match task
    case CheckingBlocklist(ws, token, p) => ws == e.ws && e.verdict == Verified(p) && e.raw.body == Auth(Some(token))
    case Loading(ws, t, a) => ws == e.ws && t != "" && e.raw.body == Subscribe(Some(t)) && s.core.conns[ws].actor == Some(a)
    case _ => false
  }

  /** A suspended handler moves only on the answer to its own question, and only a message
      suspends a new one. */
  lemma TaskChanges(s: State, e: Event, n: nat)
    requires TasksKnown(s) && Enabled(s, e) && n in Step(s, e).tasks && |s.log| !in s.tasks
    ensures n in s.tasks ==> Advances(e, n, s.tasks[n], Step(s, e).tasks[n])
    ensures n !in s.tasks ==> n == |s.log| && Starts(s, e, Step(s, e).tasks[n])
  {
    if e.Message? { MessageTaskIs(s.core, e.ws, e.raw, e.verdict); }
  }

  lemma MessageTaskIs(c: Core, ws: Socket, raw: Raw, verdict: Verdict)
    requires ws in c.conns
    ensures var t := OnMessage(c, ws, raw, verdict).task;
      t.Some? ==> Starts(State(c, map[], []), Message(ws, raw, verdict), t.value)
  {
  }

  lemma NewTaskIsNew(s: State)
    requires TasksLogged(s)
    ensures |s.log| !in s.tasks
  {
  }

  lemma TasksLoggedStep(s: State, e: Event)
    requires TasksKnown(s) && TasksLogged(s) && ActorsLogged(s) && Enabled(s, e)
    ensures TasksLogged(Step(s, e))
  {
    hide Effect;
    hide TaskLogged;
    var d := Step(s, e);
    NewTaskIsNew(s);
    forall n | n in d.tasks
      ensures TaskLogged(d.log, n, d.tasks[n])
    {
      TaskChanges(s, e, n);
      TaskLoggedStep(s, e, n, d.tasks[n]);
    }
  }

  lemma TaskLoggedStep(s: State, e: Event, n: nat, next: Task)
    requires ActorsLogged(s)
    requires n in s.tasks ==> TaskLogged(s.log, n, s.tasks[n]) && Advances(e, n, s.tasks[n], next)
    requires n !in s.tasks ==> n == |s.log| && Starts(s, e, next)
    ensures TaskLogged(s.log + [e], n, next)
  {
    var log := s.log + [e];
    if n in s.tasks {
      var was := s.tasks[n];
      TaskLoggedGrows(s.log, e, n, was);
      if next != was && e.TicketLoaded? {
        assert LoadedAt(log, n, |s.log|, e.ticketId, e.actor, e.loaded.value);
      } else if next != was {
        var j: nat :| LoadedAt(log, n, j, was.ticketId, was.actor, was.ticket);
        assert ResolvedAt(log, n, |s.log|, was.actor, was.ticket, e.resolved.value);
      }
    } else {
      assert log[..n] == s.log;
    }
  }

  lemma TaskLoggedGrows(log: seq<Event>, e: Event, n: nat, task: Task)
    requires TaskLogged(log, n, task)
    ensures TaskLogged(log + [e], n, task)
  {
    if !task.CheckingBlocklist? { AskedGrows(log, e, n, task.ws, task.ticketId, task.actor); }
    if task.Resolving? {
      var j: nat :| LoadedAt(log, n, j, task.ticketId, task.actor, task.ticket);
      assert LoadedAt(log + [e], n, j, task.ticketId, task.actor, task.ticket);
    } else if task.Reading? {
      var j: nat, k: nat, ticket :| j < k && LoadedAt(log, n, j, task.ticketId, task.actor, ticket) && ResolvedAt(log, n, k, task.actor, ticket, task.access);
      assert LoadedAt(log + [e], n, j, task.ticketId, task.actor, ticket);
      assert ResolvedAt(log + [e], n, k, task.actor, ticket, task.access);
    }
  }

  // ----- How one event changes an actor and a room set -----

  /** The event completes an authentication of ws. */
  predicate Completes(s: State, e: Event, ws: Socket)
    requires TasksKnown(s) && Enabled(s, e)
  {
    e.BlocklistAnswered? && e.blocked.Clear? && s.tasks[e.task].ws == ws
  }

  /** The event is the last of the three checks of a subscribe of ws, and it succeeded. */
  predicate Grants(s: State, e: Event, ws: Socket)
    requires TasksKnown(s) && Enabled(s, e)
  {
    e.ReadChecked? && e.checked.Returned? && s.tasks[e.task].ws == ws
  }

  /** The event is an unsubscribe of ws that gets as far as leaving a room. */
  predicate Leaves(s: State, e: Event, ws: Socket)
    requires TasksKnown(s) && Enabled(s, e)
  {
    && e.Message? && e.ws == ws && s.core.conns[ws].ready.Open? && e.raw.length <= MAX_MESSAGE_BYTES
    && e.raw.body.Unsubscribe? && e.raw.body.ticketId.Some? && e.raw.body.ticketId.value != ""
    && s.core.conns[ws].actor.Some?
  }

  function PersonalRooms(a: Actor): set<string> {
    {UserRoom(a.userId)}
    + (if a.organizationId != "" then {OrgRoom(a.organizationId)} else {})
    + (if a.isSuperAdmin then {SUPER_ADMIN_ROOM} else {})
  }

  function RoomsAfter(s: State, e: Event, ws: Socket): set<string>
    requires TasksKnown(s) && Enabled(s, e) && ws in s.core.conns
  {
    var rooms := s.core.conns[ws].rooms;
    if Completes(s, e, ws) then rooms + PersonalRooms(BuildActor(s.tasks[e.task].payload))
    else if Grants(s, e, ws) then rooms + {TicketRoom(s.tasks[e.task].ticketId)}
    else if Leaves(s, e, ws) then rooms - {TicketRoom(e.raw.body.ticketId.value)}
    else if e == SocketClosed(ws) && ws in s.core.registered then {}
    else rooms
  }

  /** c and d differ on the wire only, as far as actors and room sets go. */
  predicate SameGrants(c: Core, d: Core, ws: Socket) {
    ws in c.conns && ws in d.conns && d.conns[ws].rooms == c.conns[ws].rooms && d.conns[ws].actor == c.conns[ws].actor
  }

  lemma JoinConns(c: Core, who: Socket, room: string)
    requires who in c.conns
    ensures Join(c, who, room).conns == c.conns[who := c.conns[who].(rooms := c.conns[who].rooms + {room})]
    ensures Join(c, who, room).registered == c.registered
  {
    if room in c.conns[who].rooms { assert c.conns[who].rooms + {room} == c.conns[who].rooms; }
  }

  lemma ClearedConns(c: Core, who: Socket, p: JwtPayload)
    requires who in c.conns
    ensures var d := OnBlocklistAnswer(c, who, p, Clear);
      && who in d.conns
      && d.conns == c.conns[who := d.conns[who]]
      && d.conns[who].rooms == c.conns[who].rooms + PersonalRooms(BuildActor(p))
      && d.conns[who].actor == Some(BuildActor(p))
      && d.registered == c.registered
  {
    hide BuildActor, UserRoom, OrgRoom, Join;
    var a := BuildActor(p);
    var c1 := c.(conns := c.conns[who := Authenticated(c.conns[who], a)]);
    JoinConns(c1, who, UserRoom(a.userId));
    var c2 := Join(c1, who, UserRoom(a.userId));
    JoinConns(c2, who, OrgRoom(a.organizationId));
    var c3 := if a.organizationId != "" then Join(c2, who, OrgRoom(a.organizationId)) else c2;
    JoinConns(c3, who, SUPER_ADMIN_ROOM);
    var c4 := if a.isSuperAdmin then Join(c3, who, SUPER_ADMIN_ROOM) else c3;
    assert c4.conns[who].rooms == c.conns[who].rooms + PersonalRooms(a);
  }

  lemma BlocklistAnswerChanges(c: Core, who: Socket, p: JwtPayload, answer: BlockAnswer, ws: Socket)
    requires who in c.conns && ws in c.conns
    ensures var d := OnBlocklistAnswer(c, who, p, answer);
      if answer.Clear? && who == ws
      then ws in d.conns && d.conns[ws].rooms == c.conns[ws].rooms + PersonalRooms(BuildActor(p)) && d.conns[ws].actor == Some(BuildActor(p))
      else SameGrants(c, d, ws)
  {
    if answer.Clear? { ClearedConns(c, who, p); }
  }

  lemma MessageChanges(c: Core, who: Socket, raw: Raw, verdict: Verdict, ws: Socket)
    requires who in c.conns && ws in c.conns
    ensures var d := OnMessage(c, who, raw, verdict).core;
      if && who == ws && c.conns[ws].ready.Open? && raw.length <= MAX_MESSAGE_BYTES
         && raw.body.Unsubscribe? && raw.body.ticketId.Some? && raw.body.ticketId.value != "" && c.conns[ws].actor.Some?
      then ws in d.conns && d.conns[ws].rooms == c.conns[ws].rooms - {TicketRoom(raw.body.ticketId.value)} && d.conns[ws].actor == c.conns[ws].actor
      else SameGrants(c, d, ws)
  {
    hide OnAuth, OnSubscribe, OnUnsubscribe, Fail, TicketRoom;
    FailSame(c, who, ws);
    if c.conns[who].ready.Open? && raw.length <= MAX_MESSAGE_BYTES {
      match raw.body
      case Auth(token) => AuthSame(c, who, token, verdict, ws);
      case Subscribe(ticketId) => SubscribeSame(c, who, ticketId, ws);
      case Unsubscribe(ticketId) => UnsubscribeChanges(c, who, ticketId, ws);
      case _ =>
    }
  }

  lemma FailureSame(c: Core, who: Socket, failure: Failure, ws: Socket)
    requires who in c.conns && ws in c.conns
    ensures SameGrants(c, OnSubscribeFailure(c, who, failure), ws)
  {
    FailSame(c, who, ws);
    hide Fail;
  }

  lemma AuthSame(c: Core, who: Socket, token: Option<string>, verdict: Verdict, ws: Socket)
    requires who in c.conns && ws in c.conns
    ensures SameGrants(c, OnAuth(c, who, token, verdict).core, ws)
  {
    FailSame(c, who, ws);
    hide Fail;
  }

  lemma SubscribeSame(c: Core, who: Socket, ticketId: Option<string>, ws: Socket)
    requires who in c.conns && ws in c.conns
    ensures SameGrants(c, OnSubscribe(c, who, ticketId).core, ws)
  {
    FailSame(c, who, ws);
    hide Fail;
  }

  lemma FailSame(c: Core, who: Socket, ws: Socket)
    requires who in c.conns && ws in c.conns
    ensures forall message :: SameGrants(c, Fail(c, who, message), ws)
  {
  }

  lemma UnsubscribeChanges(c: Core, who: Socket, ticketId: Option<string>, ws: Socket)
    requires who in c.conns && ws in c.conns
    ensures var d := OnUnsubscribe(c, who, ticketId);
      if who == ws && ticketId.Some? && ticketId.value != "" && c.conns[ws].actor.Some?
      then ws in d.conns && d.conns[ws].rooms == c.conns[ws].rooms - {TicketRoom(ticketId.value)} && d.conns[ws].actor == c.conns[ws].actor
      else SameGrants(c, d, ws)
  {
    FailSame(c, who, ws);
    hide Fail, TicketRoom;
  }

  lemma ReadAllowedChanges(c: Core, who: Socket, ticketId: string, access: TicketAccess, ws: Socket)
    requires who in c.conns && ws in c.conns
    ensures var d := OnReadAllowed(c, who, ticketId, access);
      && ws in d.conns
      && d.conns[ws].rooms == c.conns[ws].rooms + (if who == ws then {TicketRoom(ticketId)} else {})
      && d.conns[ws].actor == c.conns[ws].actor
  {
  }

  /** No event touches an actor or a room set in any other way. */
  lemma ConnChanges(s: State, e: Event, ws: Socket)
    requires TasksKnown(s) && Enabled(s, e) && ws in s.core.conns
    ensures var d := Step(s, e).core;
      && ws in d.conns
      && d.conns[ws].rooms == RoomsAfter(s, e, ws)
      && d.conns[ws].actor == if Completes(s, e, ws) then Some(BuildActor(s.tasks[e.task].payload)) else s.core.conns[ws].actor
  {
    hide OnMessage, OnBlocklistAnswer, OnReadAllowed, OnSubscribeFailure, PersonalRooms, TicketRoom, BuildActor;
    match e
    case Message(who, raw, verdict) => MessageChanges(s.core, who, raw, verdict, ws);
    case BlocklistAnswered(n, _, answer) => BlocklistAnswerChanges(s.core, s.tasks[n].ws, s.tasks[n].payload, answer, ws);
    case TicketLoaded(n, _, _, answer) =>
      if answer.Threw? { FailureSame(s.core, s.tasks[n].ws, answer.failure, ws); }
    case AccessResolved(n, _, _, answer) =>
      if answer.Threw? { FailureSame(s.core, s.tasks[n].ws, answer.failure, ws); }
    case ReadChecked(n, _, _, answer) =>
      if answer.Returned? { ReadAllowedChanges(s.core, s.tasks[n].ws, s.tasks[n].ticketId, s.tasks[n].access, ws); }
      else { FailureSame(s.core, s.tasks[n].ws, answer.failure, ws); }
    case Published(eventType, data) =>
      if TicketIdOf(data).Some? { BroadcastAllIs(s.core, TargetRooms(data), Domain(eventType, data.value)); }
    case _ =>
  }

  // ----- Whole runs -----

  lemma ActorsLoggedStep(s: State, e: Event)
    requires History(s) && Enabled(s, e)
    ensures ActorsLogged(Step(s, e))
  {
    hide Effect;
    hide Inv;
    hide VerifiedAuth;
    hide TicketsHeld;
    hide UserRoomsExact;
    hide SuperAdminRoomExact;
    hide BuildActor;
    var d := Step(s, e);
    forall ws | ws in d.core.conns && d.core.conns[ws].actor.Some?
      ensures LastAuth(d.log, ws, d.core.conns[ws].actor.value)
    {
      forall m: nat, p
        ensures VerifiedAuth(d.log, m, |s.log|, ws, p) <==>
          Completes(s, e, ws) && e.task == m && s.tasks[m].payload == p
      {
        AuthCompletes(s, e, m, ws, p);
      }
      if ws in s.core.conns {
        ConnChanges(s, e, ws);
        if Completes(s, e, ws) {
          LastAuthNow(d.log, e.task, ws, s.tasks[e.task].payload);
        } else {
          LastAuthGrows(s.log, e, ws, s.core.conns[ws].actor.value);
        }
      } else {
        NewConn(s, e, ws);
      }
    }
  }

  /** The third check completes a grant that the log can show. */
  lemma GrantCompletes(s: State, e: Event, ws: Socket)
    requires History(s) && Enabled(s, e) && Grants(s, e, ws)
    ensures Holds(s.log + [e], ws, s.tasks[e.task].ticketId)
  {
    hide Inv;
    hide TicketsHeld;
    hide UserRoomsExact;
    hide SuperAdminRoomExact;
    hide ActorsLogged;
    hide BuildActor;
    var n, task := e.task, s.tasks[e.task];
    assert TaskLogged(s.log, n, task);
    var j: nat, k: nat, ticket :| j < k && LoadedAt(s.log, n, j, task.ticketId, task.actor, ticket) && ResolvedAt(s.log, n, k, task.actor, ticket, task.access);
    AskedGrows(s.log, e, n, ws, task.ticketId, task.actor);
    assert Granted(s.log + [e], Grant(n, j, k, |s.log|, task.actor, ticket, task.access), ws, task.ticketId);
  }

  /** A new connection starts in no room and without an actor. */
  lemma NewConn(s: State, e: Event, ws: Socket)
    requires TasksKnown(s) && Enabled(s, e) && ws !in s.core.conns && ws in Step(s, e).core.conns
    ensures Step(s, e).core.conns[ws].rooms == {} && Step(s, e).core.conns[ws].actor.None?
  {
    hide OnMessage, BuildActor;
    if e.Published? && TicketIdOf(e.data).Some? {
      BroadcastAllIs(s.core, TargetRooms(e.data), Domain(e.eventType, e.data.value));
    } else if e.BlocklistAnswered? && e.blocked.Clear? {
      ClearedConns(s.core, s.tasks[e.task].ws, s.tasks[e.task].payload);
      hide OnBlocklistAnswer;
    } else if e.Message? {
      MessageSendsDirectly(s.core, e.ws, e.raw, e.verdict);
    }
  }

  lemma TicketsHeldStep(s: State, e: Event)
    requires History(s) && Enabled(s, e)
    ensures TicketsHeld(Step(s, e))
  {
    hide Effect;
    hide Inv;
    hide Holds;
    hide UserRoomsExact;
    hide SuperAdminRoomExact;
    hide ActorsLogged;
    hide TasksLogged;
    hide BuildActor;
    hide PersonalRooms;
    hide TicketRoom;
    var d := Step(s, e);
    StepKeeps(s, e);
    forall ws, t | ws in d.core.conns && d.core.conns[ws].ready.Open? && TicketRoom(t) in d.core.conns[ws].rooms
      ensures Holds(d.log, ws, t)
    {
      if ws in s.core.conns {
        ConnChanges(s, e, ws);
        PersonalIsNotTicket(s, e, ws, t);
        if Grants(s, e, ws) && TicketRoom(s.tasks[e.task].ticketId) == TicketRoom(t) {
          GrantCompletes(s, e, ws);
          RoomNames(s.tasks[e.task].ticketId, t);
        } else {
          assert TicketRoom(t) in s.core.conns[ws].rooms;
          HoldsNonEmpty(s.log, ws, t);
          OpenNotRevoked(s, e, ws, t);
          HoldsGrows(s.log, e, ws, t);
        }
      } else {
        NewConn(s, e, ws);
      }
    }
  }

  lemma PersonalIsNotTicket(s: State, e: Event, ws: Socket, t: string)
    requires TasksKnown(s) && Enabled(s, e)
    ensures Completes(s, e, ws) ==> TicketRoom(t) !in PersonalRooms(BuildActor(s.tasks[e.task].payload))
  {
    if Completes(s, e, ws) {
      var a := BuildActor(s.tasks[e.task].payload);
      RoomNames(a.userId, t);
      RoomNames(a.organizationId, t);
      RoomNames(t, t);
    }
  }

  /** A socket that is still OPEN and still in the room after the event was not revoked by it. */
  lemma OpenNotRevoked(s: State, e: Event, ws: Socket, t: string)
    requires Inv(s.core) && TaskInv(s) && Enabled(s, e) && ws in s.core.conns
    requires TicketRoom(t) in s.core.conns[ws].rooms && t != ""
    requires var d := Step(s, e).core; ws in d.conns && d.conns[ws].ready.Open? && TicketRoom(t) in d.conns[ws].rooms
    ensures !Revokes(e, ws, t)
  {
    hide OnMessage, OnBlocklistAnswer, OnReadAllowed, BroadcastAll, TicketRoom;
    StepKeeps(s, e);
    ConnChanges(s, e, ws);
    assert s.core.conns[ws].actor.Some?;
    hide Inv;
    if e.Message? {
      hide Effect;
      assert s.core.conns[ws].ready.Open?;
      assert Revokes(e, ws, t) ==> Leaves(s, e, ws);
    }
  }

  lemma HoldsNonEmpty(log: seq<Event>, ws: Socket, t: string)
    requires Holds(log, ws, t)
    ensures t != ""
  {
  }

  lemma WasUserStep(s: State, e: Event, ws: Socket, u: string)
    requires History(s) && Enabled(s, e)
    ensures WasUser(s.log + [e], ws, u) <==>
      WasUser(s.log, ws, u) || (Completes(s, e, ws) && BuildActor(s.tasks[e.task].payload).userId == u)
  {
    hide Effect;
    hide Inv;
    hide UserRoomsExact;
    hide SuperAdminRoomExact;
    hide ActorsLogged;
    hide TicketsHeld;
    hide BuildActor;
    var log := s.log + [e];
    if WasUser(log, ws, u) {
      var m: nat, i: nat, p :| VerifiedAuth(log, m, i, ws, p) && BuildActor(p).userId == u;
      if i < |s.log| { VerifiedAuthGrows(s.log, e, m, i, ws, p); } else { AuthCompletes(s, e, m, ws, p); }
    }
    if WasUser(s.log, ws, u) { WasUserGrows(s.log, e, ws, u); }
    if Completes(s, e, ws) {
      AuthCompletes(s, e, e.task, ws, s.tasks[e.task].payload);
      assert VerifiedAuth(log, e.task, |s.log|, ws, s.tasks[e.task].payload);
    }
  }

  lemma WasSuperAdminStep(s: State, e: Event, ws: Socket)
    requires History(s) && Enabled(s, e)
    ensures WasSuperAdmin(s.log + [e], ws) <==>
      WasSuperAdmin(s.log, ws) || (Completes(s, e, ws) && BuildActor(s.tasks[e.task].payload).isSuperAdmin)
  {
    hide Effect;
    hide Inv;
    hide UserRoomsExact;
    hide SuperAdminRoomExact;
    hide ActorsLogged;
    hide TicketsHeld;
    hide BuildActor;
    var log := s.log + [e];
    if WasSuperAdmin(log, ws) {
      var m: nat, i: nat, p :| VerifiedAuth(log, m, i, ws, p) && BuildActor(p).isSuperAdmin;
      if i < |s.log| { VerifiedAuthGrows(s.log, e, m, i, ws, p); } else { AuthCompletes(s, e, m, ws, p); }
    }
    if WasSuperAdmin(s.log, ws) { WasSuperAdminGrows(s.log, e, ws); }
    if Completes(s, e, ws) {
      AuthCompletes(s, e, e.task, ws, s.tasks[e.task].payload);
      assert VerifiedAuth(log, e.task, |s.log|, ws, s.tasks[e.task].payload);
    }
  }

  /** A connection that was just made has no history. */
  lemma NewHasNoHistory(s: State, ws: Socket, u: string)
    requires LogKnown(s) && ws !in s.core.conns
    ensures !WasUser(s.log, ws, u) && !WasSuperAdmin(s.log, ws)
  {
  }

  /** Only a new connection becomes registered. */
  lemma RegisteredStep(s: State, e: Event, ws: Socket)
    requires TasksKnown(s) && Enabled(s, e)
    ensures ws in Step(s, e).core.registered ==> ws in s.core.registered || e == Connected(ws)
    ensures ws in Step(s, e).core.registered && e == SocketClosed(ws) ==> false
  {
    hide OnMessage, BuildActor;
    if e.Published? && TicketIdOf(e.data).Some? {
      BroadcastAllIs(s.core, TargetRooms(e.data), Domain(e.eventType, e.data.value));
    } else if e.BlocklistAnswered? && e.blocked.Clear? {
      ClearedConns(s.core, s.tasks[e.task].ws, s.tasks[e.task].payload);
      hide OnBlocklistAnswer;
    } else if e.Message? {
      MessageSendsDirectly(s.core, e.ws, e.raw, e.verdict);
    }
  }

  lemma PersonalRoomsAfter(s: State, e: Event, ws: Socket, u: string)
    requires TasksKnown(s) && Enabled(s, e) && ws in s.core.conns && e != SocketClosed(ws)
    ensures UserRoom(u) in RoomsAfter(s, e, ws) <==>
      UserRoom(u) in s.core.conns[ws].rooms || (Completes(s, e, ws) && BuildActor(s.tasks[e.task].payload).userId == u)
    ensures SUPER_ADMIN_ROOM in RoomsAfter(s, e, ws) <==>
      SUPER_ADMIN_ROOM in s.core.conns[ws].rooms || (Completes(s, e, ws) && BuildActor(s.tasks[e.task].payload).isSuperAdmin)
  {
    hide BuildActor;
    if Completes(s, e, ws) {
      var a := BuildActor(s.tasks[e.task].payload);
      RoomNames(a.userId, u);
      RoomNames(u, a.organizationId);
      RoomNames(a.organizationId, u);
      hide UserRoom;
      hide OrgRoom;
    } else if Grants(s, e, ws) {
      RoomNames(u, s.tasks[e.task].ticketId);
      RoomNames(s.tasks[e.task].ticketId, u);
      hide UserRoom;
      hide TicketRoom;
    } else if Leaves(s, e, ws) {
      RoomNames(u, e.raw.body.ticketId.value);
      RoomNames(e.raw.body.ticketId.value, u);
      hide UserRoom;
      hide TicketRoom;
    }
  }

  lemma PersonalRoomsExactStep(s: State, e: Event, ws: Socket, u: string)
    requires History(s) && Enabled(s, e)
    requires ws in Step(s, e).core.registered
    ensures var d := Step(s, e);
      && ws in d.core.conns
      && (UserRoom(u) in d.core.conns[ws].rooms <==> WasUser(d.log, ws, u))
      && (SUPER_ADMIN_ROOM in d.core.conns[ws].rooms <==> WasSuperAdmin(d.log, ws))
  {
    StepKeeps(s, e);
    RegisteredStep(s, e, ws);
    WasUserStep(s, e, ws, u);
    WasSuperAdminStep(s, e, ws);
    hide WasUser;
    hide WasSuperAdmin;
    hide ActorsLogged;
    hide TasksLogged;
    hide TicketsHeld;
    hide UserRoom;
    if ws in s.core.conns {
      ConnChanges(s, e, ws);
      hide Effect;
      assert ws in s.core.registered || e == Connected(ws);
      PersonalRoomsAfter(s, e, ws, u);
      hide RoomsAfter;
    } else {
      NewHasNoHistory(s, ws, u);
      assert e == Connected(ws);
    }
  }

  lemma LogKnownStep(s: State, e: Event)
    requires Inv(s.core) && TaskInv(s) && LogKnown(s) && Enabled(s, e)
    ensures LogKnown(Step(s, e))
  {
    StepKeeps(s, e);
    hide Inv;
    hide Effect;
    var d := Step(s, e);
    forall k | 0 <= k < |d.log| && d.log[k].Message?
      ensures d.log[k].ws in d.core.conns
    {
      if k < |s.log| { assert s.log[k].ws in s.core.conns; }
    }
  }

  lemma HistoryStep(s: State, e: Event)
    requires History(s) && Enabled(s, e)
    ensures History(Step(s, e))
  {
    hide Effect;
    hide WasUser;
    hide WasSuperAdmin;
    hide ActorsLogged;
    hide TicketsHeld;
    hide TasksLogged;
    hide Inv;
    hide TicketRoom;
    hide UserRoom;
    hide OrgRoom;
    StepKeeps(s, e);
    TasksLoggedStep(s, e);
    ActorsLoggedStep(s, e);
    LogKnownStep(s, e);
    TicketsHeldStep(s, e);
    hide LogKnown;
    forall ws, u | ws in Step(s, e).core.registered
      ensures var d := Step(s, e);
        && ws in d.core.conns
        && (UserRoom(u) in d.core.conns[ws].rooms <==> WasUser(d.log, ws, u))
    {
      PersonalRoomsExactStep(s, e, ws, u);
    }
    forall ws | ws in Step(s, e).core.registered && ws in Step(s, e).core.conns
      ensures SUPER_ADMIN_ROOM in Step(s, e).core.conns[ws].rooms <==> WasSuperAdmin(Step(s, e).log, ws)
    {
      PersonalRoomsExactStep(s, e, ws, "");
    }
  }

  lemma HistoryKnowsTasks(s: State)
    requires History(s)
    ensures TasksKnown(s)
  {
  }

  /** Every reachable state has the full history. */
  lemma {:induction false} ReachableHistory(events: seq<Event>)
    requires Run(events).Some?
    ensures History(Run(events).value) && Run(events).value.log == events
  {
    if events != [] {
      ReachableHistory(events[..|events| - 1]);
      hide History, Effect, Enabled, Inv, TaskInv;
      HistoryKnowsTasks(Run(events[..|events| - 1]).value);
      HistoryStep(Run(events[..|events| - 1]).value, events[|events| - 1]);
      assert events == events[..|events| - 1] + [events[|events| - 1]];
    }
  }

  // ----- Deliveries -----

  /** Event e makes the gateway put a parcel on ws's wire through `room`. */
  ghost predicate Delivers(s: State, e: Event, ws: Socket, room: string)
    requires TasksKnown(s) && Enabled(s, e)
  {
    ws in s.core.conns &&
    var d := Step(s, e).core;
    && ws in d.conns
    && exists i :: |s.core.conns[ws].outbox| <= i < |d.conns[ws].outbox| && d.conns[ws].outbox[i].room == Some(room)
  }

  /** Only publishing sends through rooms, and only to OPEN registered members of a concerned room. */
  lemma OnlyPublishDelivers(s: State, e: Event, ws: Socket, room: string)
    requires History(s) && Enabled(s, e) && Delivers(s, e, ws, room)
    ensures e.Published? && room in Concerned(e.data)
    ensures ws in s.core.conns && s.core.conns[ws].ready.Open? && ws in s.core.registered && room in s.core.conns[ws].rooms
  {
    var d := Step(s, e).core;
    var i :| |s.core.conns[ws].outbox| <= i < |d.conns[ws].outbox| && d.conns[ws].outbox[i].room == Some(room);
    if e.Published? {
      PublishIsExact(s.core, e.eventType, e.data, ws);
      var sent := d.conns[ws].outbox[|s.core.conns[ws].outbox|..];
      assert sent[i - |s.core.conns[ws].outbox|] in sent;
      assert InRoom(s.core, room, ws);
    } else {
      DirectSends(s, e, ws);
    }
  }

  /** Everything else is answered directly. */
  lemma DirectSends(s: State, e: Event, ws: Socket)
    requires TasksKnown(s) && Enabled(s, e) && !e.Published? && ws in s.core.conns
    ensures var d := Step(s, e).core;
      && ws in d.conns
      && forall i :: |s.core.conns[ws].outbox| <= i < |d.conns[ws].outbox| ==> d.conns[ws].outbox[i].room.None?
  {
    hide OnMessage, OnBlocklistAnswer, OnReadAllowed, OnSubscribeFailure;
    match e
    case Message(who, raw, verdict) => MessageSends(s.core, who, raw, verdict, ws);
    case BlocklistAnswered(n, _, answer) =>
      if answer.Clear? {
        ClearedSends(s.core, s.tasks[n].ws, s.tasks[n].payload, ws);
      } else {
        RefusedSends(s.core, s.tasks[n].ws, s.tasks[n].payload, answer, ws);
      }
    case TicketLoaded(n, _, _, answer) =>
      if answer.Threw? { FailureSends(s.core, s.tasks[n].ws, answer.failure, ws); }
    case AccessResolved(n, _, _, answer) =>
      if answer.Threw? { FailureSends(s.core, s.tasks[n].ws, answer.failure, ws); }
    case ReadChecked(n, _, _, answer) =>
      if answer.Threw? { FailureSends(s.core, s.tasks[n].ws, answer.failure, ws); }
      else { ReadAllowedSends(s.core, s.tasks[n].ws, s.tasks[n].ticketId, s.tasks[n].access, ws); }
    case _ =>
  }

  /** d has nothing on ws's wire that c does not have but what was sent to no room. */
  ghost predicate AddsNoRoom(c: Core, d: Core, ws: Socket) {
    ws in c.conns && ws in d.conns &&
    forall i :: |c.conns[ws].outbox| <= i < |d.conns[ws].outbox| ==> d.conns[ws].outbox[i].room.None?
  }

  lemma RefusedSends(c: Core, who: Socket, p: JwtPayload, answer: BlockAnswer, ws: Socket)
    requires who in c.conns && ws in c.conns && !answer.Clear?
    ensures AddsNoRoom(c, OnBlocklistAnswer(c, who, p, answer), ws)
  {
  }

  lemma FailureSends(c: Core, who: Socket, failure: Failure, ws: Socket)
    requires who in c.conns && ws in c.conns
    ensures AddsNoRoom(c, OnSubscribeFailure(c, who, failure), ws)
  {
  }

  lemma ReadAllowedSends(c: Core, who: Socket, ticketId: string, access: TicketAccess, ws: Socket)
    requires who in c.conns && ws in c.conns
    ensures AddsNoRoom(c, OnReadAllowed(c, who, ticketId, access), ws)
  {
    JoinConns(c, who, TicketRoom(ticketId));
    hide Join, TicketRoom;
  }

  /** d adds to c's wire of `who` at most one parcel, sent to no room. */
  predicate SendsDirectly(c: Core, d: Core, who: Socket) {
    && who in c.conns && who in d.conns && d.conns == c.conns[who := d.conns[who]] && d.registered == c.registered
    && |c.conns[who].outbox| <= |d.conns[who].outbox|
    && (forall i :: |c.conns[who].outbox| <= i < |d.conns[who].outbox| ==> d.conns[who].outbox[i].room.None?)
  }

  lemma FailSends(c: Core, who: Socket, message: string)
    requires who in c.conns
    ensures SendsDirectly(c, Fail(c, who, message), who)
  {
  }

  lemma UnsubscribeSends(c: Core, who: Socket, ticketId: Option<string>)
    requires who in c.conns
    ensures SendsDirectly(c, OnUnsubscribe(c, who, ticketId), who)
  {
    FailSends(c, who, "Authentication required");
    FailSends(c, who, "ticketId required");
    hide Fail;
    hide TicketRoom;
  }

  lemma MessageSendsDirectly(c: Core, who: Socket, raw: Raw, verdict: Verdict)
    requires who in c.conns
    ensures SendsDirectly(c, OnMessage(c, who, raw, verdict).core, who)
  {
    if c.conns[who].ready.Open? && raw.length <= MAX_MESSAGE_BYTES {
      hide Fail;
      match raw.body
      case NotJson => FailSends(c, who, "Invalid JSON");
      case NoType => FailSends(c, who, "Message must have a string type");
      case Auth(token) =>
        FailSends(c, who, "Already authenticated");
        FailSends(c, who, "Token required");
        FailSends(c, who, "Server misconfigured: JWT_ACCESS_SECRET not set");
        FailSends(c, who, "Invalid or expired token");
      case Subscribe(ticketId) =>
        FailSends(c, who, "Authentication required");
        FailSends(c, who, "ticketId required");
      case Unsubscribe(ticketId) =>
        UnsubscribeSends(c, who, ticketId);
        hide OnUnsubscribe;
      case UnknownType(kind) => FailSends(c, who, "Unknown message type: " + kind);
    }
  }

  lemma MessageSends(c: Core, who: Socket, raw: Raw, verdict: Verdict, ws: Socket)
    requires who in c.conns && ws in c.conns
    ensures var d := OnMessage(c, who, raw, verdict).core;
      && ws in d.conns
      && forall i :: |c.conns[ws].outbox| <= i < |d.conns[ws].outbox| ==> d.conns[ws].outbox[i].room.None?
  {
    MessageSendsDirectly(c, who, raw, verdict);
    hide OnMessage;
  }

  lemma ClearedSends(c: Core, who: Socket, p: JwtPayload, ws: Socket)
    requires who in c.conns && ws in c.conns
    ensures var d := OnBlocklistAnswer(c, who, p, Clear);
      && ws in d.conns
      && forall i :: |c.conns[ws].outbox| <= i < |d.conns[ws].outbox| ==> d.conns[ws].outbox[i].room.None?
  {
    hide BuildActor, UserRoom, OrgRoom, Join;
    var a := BuildActor(p);
    var c1 := c.(conns := c.conns[who := Authenticated(c.conns[who], a)]);
    JoinConns(c1, who, UserRoom(a.userId));
    var c2 := Join(c1, who, UserRoom(a.userId));
    JoinConns(c2, who, OrgRoom(a.organizationId));
    var c3 := if a.organizationId != "" then Join(c2, who, OrgRoom(a.organizationId)) else c2;
    JoinConns(c3, who, SUPER_ADMIN_ROOM);
    var c4 := if a.isSuperAdmin then Join(c3, who, SUPER_ADMIN_ROOM) else c3;
    assert c4.conns[ws].outbox == c.conns[ws].outbox;
  }

  /** The authorization boundary. In every interleaved run, what the event after `events` sends
      through a ticket's room goes to a socket for whose actor, at the time it asked, the three
      ticket checks succeeded, with no unsubscribe, close or shutdown since; what goes through
      a user's or the super admins' room goes to a socket with a verified and unblocked token
      naming that user or such a role. */
  lemma DeliveriesAreAuthorized(events: seq<Event>, e: Event, ws: Socket, room: string)
    requires Run(events + [e]).Some?
    ensures Run(events).Some? && TasksKnown(Run(events).value) && Enabled(Run(events).value, e)
    ensures Delivers(Run(events).value, e, ws, room) ==>
      && e.Published?
      && (forall t :: room == TicketRoom(t) ==> Holds(events, ws, t))
      && (forall u :: room == UserRoom(u) ==> WasUser(events, ws, u))
      && (room == SUPER_ADMIN_ROOM ==> WasSuperAdmin(events, ws))
      && (room == SUPER_ADMIN_ROOM || exists x :: room == TicketRoom(x) || room == UserRoom(x))
  {
    hide Effect;
    hide Inv;
    hide Holds;
    hide WasUser;
    hide WasSuperAdmin;
    hide ActorsLogged;
    hide TasksLogged;
    hide Delivers;
    var longer := events + [e];
    assert longer[..|longer| - 1] == events && longer[|longer| - 1] == e;
    var s := Run(events).value;
    ReachableHistory(events);
    if Delivers(s, e, ws, room) {
      OnlyPublishDelivers(s, e, ws, room);
    }
  }
}
