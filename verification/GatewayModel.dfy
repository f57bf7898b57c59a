/** What the ticket-events gateway does, as functions on values.

    Every incoming message starts a handler that nobody awaits, so handlers of one socket overlap.
    A handler is cut at its awaits: each piece is one event, and the rest of the handler waits in
    `tasks` under the log position of the message that started it. What the token verifier, the
    blocklist and the ticket authorization service answer is carried by the events, so the log is
    also the record of every question asked and every answer given. */
module GatewayModel {
  import opened Common
  import opened ActorContext

  type Socket = nat
  type TicketRecord = nat
  type TicketAccess = nat

  const MAX_MESSAGE_BYTES: nat := 64 * 1024
  const SUPER_ADMIN_ROOM := "super_admin"
  const RECIPIENT_FIELDS := ["requesterId", "assignedAgentId", "submittedById", "verifiedById", "createdBy"]

  function UserRoom(userId: string): string { "user:" + userId }
  function OrgRoom(orgId: string): string { "org:" + orgId }
  function TicketRoom(ticketId: string): string { "ticket:" + ticketId }

  // ----- What sockets carry -----

  datatype ReadyState = Open | Closing | Closed

  /** A field of a JSON object: a string, or a value that is not one. */
  datatype JsonValue = Str(s: string) | NotString

  datatype Body =
    | NotJson
    | NoType
    | Auth(token: Option<string>)
    | Subscribe(ticketId: Option<string>)
    | Unsubscribe(ticketId: Option<string>)
    | UnknownType(kind: string)

  /** A received frame: its size in bytes and what parsing it gives. `None` stands for a field
      that is missing or not a string. */
  datatype Raw = Raw(length: nat, body: Body)

  datatype Frame =
    | AuthOk(userId: string, organizationId: string)
    | Subscribed(ticketId: string, capabilities: TicketAccess)
    | Unsubscribed(ticketId: string)
    | Error(message: string)
    | Domain(eventType: string, data: map<string, JsonValue>)

  /** A frame put on the wire, with the room it was broadcast to, if any. */
  datatype Parcel = Parcel(room: Option<string>, frame: Frame)

  // ----- The gateway's memory -----

  /** One connection: the fields of its ClientState, its 10 s timer and its side of the wire. */
  datatype Conn = Conn(
    actor: Option<Actor>,
    rooms: set<string>,
    authTimer: bool,
    timerPending: bool,
    ready: ReadyState,
    outbox: seq<Parcel>)

  /** `conns` has every connection ever made, since the handlers keep their ClientState alive;
      `registered` are the keys of the gateway's client map. */
  datatype Core = Core(
    conns: map<Socket, Conn>,
    registered: set<Socket>,
    rooms: map<string, set<Socket>>)

  predicate InRoom(c: Core, room: string, ws: Socket) {
    room in c.rooms && ws in c.rooms[room]
  }

  function Members(rooms: map<string, set<Socket>>, room: string): set<Socket> {
    if room in rooms then rooms[room] else {}
  }

  function Send(c: Core, ws: Socket, frame: Frame): Core
    requires ws in c.conns
  {
    if c.conns[ws].ready.Open? then
      c.(conns := c.conns[ws := c.conns[ws].(outbox := c.conns[ws].outbox + [Parcel(None, frame)])])
    else c
  }

  function Fail(c: Core, ws: Socket, message: string): Core
    requires ws in c.conns
  {
    Send(c, ws, Error(message))
  }

  function Close(c: Core, ws: Socket): Core
    requires ws in c.conns
  {
    if c.conns[ws].ready.Open? then c.(conns := c.conns[ws := c.conns[ws].(ready := Closing)]) else c
  }

  function Join(c: Core, ws: Socket, room: string): Core
    requires ws in c.conns
  {
    if room in c.conns[ws].rooms then c
    else c.(conns := c.conns[ws := c.conns[ws].(rooms := c.conns[ws].rooms + {room})],
            rooms := c.rooms[room := Members(c.rooms, room) + {ws}])
  }

  function Leave(c: Core, ws: Socket, room: string): Core
    requires ws in c.conns
  {
    var left := c.(conns := c.conns[ws := c.conns[ws].(rooms := c.conns[ws].rooms - {room})]);
    if room !in c.rooms then left
    else if c.rooms[room] - {ws} == {} then left.(rooms := c.rooms - {room})
    else left.(rooms := c.rooms[room := c.rooms[room] - {ws}])
  }

  // ----- Handlers -----

  datatype Verdict = NoSecret | Invalid | Verified(payload: JwtPayload)
  datatype BlockAnswer = Blocked | Clear | LookupThrew
  datatype Failure = NotFound | Forbidden | OtherFailure
  datatype Answer<T> = Returned(value: T) | Threw(failure: Failure)

  /** The rest of a suspended handler. */
  datatype Task =
    | CheckingBlocklist(ws: Socket, token: string, payload: JwtPayload)
    | Loading(ws: Socket, ticketId: string, actor: Actor)
    | Resolving(ws: Socket, ticketId: string, actor: Actor, ticket: TicketRecord)
    | Reading(ws: Socket, ticketId: string, actor: Actor, access: TicketAccess)

  datatype Outcome = Outcome(core: Core, task: Option<Task>)

  function OnConnection(c: Core, ws: Socket): Core {
    c.(conns := c.conns[ws := Conn(None, {}, true, true, Open, [])], registered := c.registered + {ws})
  }

  function OnMessage(c: Core, ws: Socket, raw: Raw, verdict: Verdict): Outcome
    requires ws in c.conns
  {
    if !c.conns[ws].ready.Open? then Outcome(c, None)
    else if raw.length > MAX_MESSAGE_BYTES then Outcome(Close(c, ws), None)
    else match raw.body
      case NotJson => Outcome(Fail(c, ws, "Invalid JSON"), None)
      case NoType => Outcome(Fail(c, ws, "Message must have a string type"), None)
      case Auth(token) => OnAuth(c, ws, token, verdict)
      case Subscribe(ticketId) => OnSubscribe(c, ws, ticketId)
      case Unsubscribe(ticketId) => Outcome(OnUnsubscribe(c, ws, ticketId), None)
      case UnknownType(kind) => Outcome(Fail(c, ws, "Unknown message type: " + kind), None)
  }

  function OnAuth(c: Core, ws: Socket, token: Option<string>, verdict: Verdict): Outcome
    requires ws in c.conns
  {
    if c.conns[ws].actor.Some? then Outcome(Fail(c, ws, "Already authenticated"), None)
    else if token.None? || token.value == "" then Outcome(Fail(c, ws, "Token required"), None)
    else match verdict
      case NoSecret => Outcome(Fail(c, ws, "Server misconfigured: JWT_ACCESS_SECRET not set"), None)
      case Invalid => Outcome(Fail(c, ws, "Invalid or expired token"), None)
      case Verified(payload) => Outcome(c, Some(CheckingBlocklist(ws, token.value, payload)))
  }

  function OnBlocklistAnswer(c: Core, ws: Socket, payload: JwtPayload, answer: BlockAnswer): Core
    requires ws in c.conns
  {
    match answer
    case LookupThrew => c
    case Blocked => Fail(c, ws, "Session has been logged out")
    case Clear =>
      var a := BuildActor(payload);
      var c1 := c.(conns := c.conns[ws := Authenticated(c.conns[ws], a)]);
      var c2 := Join(c1, ws, UserRoom(a.userId));
      var c3 := if a.organizationId != "" then Join(c2, ws, OrgRoom(a.organizationId)) else c2;
      var c4 := if a.isSuperAdmin then Join(c3, ws, SUPER_ADMIN_ROOM) else c3;
      Send(c4, ws, AuthOk(a.userId, a.organizationId))
  }

  /** The actor is set; a timer still held is cancelled and forgotten. */
  function Authenticated(conn: Conn, a: Actor): Conn {
    conn.(actor := Some(a), authTimer := false, timerPending := conn.timerPending && !conn.authTimer)
  }

  function OnSubscribe(c: Core, ws: Socket, ticketId: Option<string>): Outcome
    requires ws in c.conns
  {
    if c.conns[ws].actor.None? then Outcome(Fail(c, ws, "Authentication required"), None)
    else if ticketId.None? || ticketId.value == "" then Outcome(Fail(c, ws, "ticketId required"), None)
    else Outcome(c, Some(Loading(ws, ticketId.value, c.conns[ws].actor.value)))
  }

  function OnSubscribeFailure(c: Core, ws: Socket, failure: Failure): Core
    requires ws in c.conns
  {
    match failure
    case NotFound => Fail(c, ws, "Ticket not found")
    case Forbidden => Fail(c, ws, "You do not have access to this ticket")
    case OtherFailure => Fail(c, ws, "Subscription failed")
  }

  function OnReadAllowed(c: Core, ws: Socket, ticketId: string, access: TicketAccess): Core
    requires ws in c.conns
  {
    Send(Join(c, ws, TicketRoom(ticketId)), ws, Subscribed(ticketId, access))
  }

  function OnUnsubscribe(c: Core, ws: Socket, ticketId: Option<string>): Core
    requires ws in c.conns
  {
    if c.conns[ws].actor.None? then Fail(c, ws, "Authentication required")
    else if ticketId.None? || ticketId.value == "" then Fail(c, ws, "ticketId required")
    else Send(Leave(c, ws, TicketRoom(ticketId.value)), ws, Unsubscribed(ticketId.value))
  }

  /** The 'close' event: a registered connection leaves all its rooms and is forgotten. */
  function OnDisconnect(c: Core, ws: Socket): Core
    requires ws in c.conns
  {
    var gone := c.conns[ws].(ready := Closed);
    if ws !in c.registered then c.(conns := c.conns[ws := gone])
    else Core(
      c.conns[ws := gone.(rooms := {}, authTimer := false, timerPending := gone.timerPending && !gone.authTimer)],
      c.registered - {ws},
      Evict(c.rooms, ws, c.conns[ws].rooms))
  }

  /** The room index after ws has left each of the rooms in `left`. */
  function Evict(rooms: map<string, set<Socket>>, ws: Socket, left: set<string>): map<string, set<Socket>> {
    map r | r in rooms && !(r in left && rooms[r] - {ws} == {})
      :: if r in left then rooms[r] - {ws} else rooms[r]
  }

  function OnTimeout(c: Core, ws: Socket): Core
    requires ws in c.conns
  {
    Close(c.(conns := c.conns[ws := c.conns[ws].(timerPending := false)]), ws)
  }

  function OnShutdown(c: Core): Core {
    Core(
      map ws | ws in c.conns :: if ws in c.registered && c.conns[ws].ready.Open? then c.conns[ws].(ready := Closing) else c.conns[ws],
      {}, map[])
  }

  // ----- Publishing -----

  function FieldText(data: map<string, JsonValue>, field: string): Option<string> {
    if field in data && data[field].Str? then Some(data[field].s) else None
  }

  /** `ticketId` if it is a string, else `id` if that is one; an empty string counts as absent. */
  function TicketIdOf(data: Option<map<string, JsonValue>>): Option<string> {
    if data.None? then None
    else
      var id := if FieldText(data.value, "ticketId").Some? then FieldText(data.value, "ticketId") else FieldText(data.value, "id");
      if id == Some("") then None else id
  }

  /** The users named by the fields, in field order, each once. */
  function Recipients(data: map<string, JsonValue>, fields: seq<string>): seq<string> {
    if fields == [] then []
    else
      var before := Recipients(data, fields[..|fields| - 1]);
      var value := FieldText(data, fields[|fields| - 1]);
      if value.Some? && value.value != "" && value.value !in before then before + [value.value] else before
  }

  /** The rooms an event goes to, in order. */
  function TargetRooms(data: Option<map<string, JsonValue>>): seq<string> {
    var id := TicketIdOf(data);
    if id.None? then []
    else [TicketRoom(id.value), SUPER_ADMIN_ROOM] + UserRooms(Recipients(data.value, RECIPIENT_FIELDS))
  }

  function UserRooms(users: seq<string>): (r: seq<string>)
    ensures |r| == |users|
    ensures forall i :: 0 <= i < |users| ==> r[i] == UserRoom(users[i])
  {
    seq(|users|, i requires 0 <= i < |users| => UserRoom(users[i]))
  }

  function Broadcast(c: Core, room: string, frame: Frame): Core {
    c.(conns := map ws | ws in c.conns ::
      if InRoom(c, room, ws) && c.conns[ws].ready.Open?
      then c.conns[ws].(outbox := c.conns[ws].outbox + [Parcel(Some(room), frame)])
      else c.conns[ws])
  }

  function BroadcastAll(c: Core, rooms: seq<string>, frame: Frame): Core {
    if rooms == [] then c
    else Broadcast(BroadcastAll(c, rooms[..|rooms| - 1], frame), rooms[|rooms| - 1], frame)
  }

  function OnPublish(c: Core, eventType: string, data: Option<map<string, JsonValue>>): Core {
    if TicketIdOf(data).None? then c else BroadcastAll(c, TargetRooms(data), Domain(eventType, data.value))
  }

  // ----- Runs -----

  datatype Event =
    | Connected(ws: Socket)
    | Message(ws: Socket, raw: Raw, verdict: Verdict)
    | BlocklistAnswered(task: nat, token: string, blocked: BlockAnswer)
    | TicketLoaded(task: nat, actor: Actor, ticketId: string, loaded: Answer<TicketRecord>)
    | AccessResolved(task: nat, actor: Actor, ticket: TicketRecord, resolved: Answer<TicketAccess>)
    | ReadChecked(task: nat, actor: Actor, access: TicketAccess, checked: Answer<()>)
    | AuthTimeout(ws: Socket)
    | CloseStarted(ws: Socket)
    | SocketClosed(ws: Socket)
    | Published(eventType: string, data: Option<map<string, JsonValue>>)
    | Shutdown

  datatype State = State(core: Core, tasks: map<nat, Task>, log: seq<Event>)

  const INIT := State(Core(map[], {}, map[]), map[], [])

  /** Which events can come next. An answer comes for a suspended handler that asked exactly this
      question; a closed socket emits no more messages. */
  predicate Enabled(s: State, e: Event) {
    match e
    case Connected(ws) => ws !in s.core.conns
    case Message(ws, _, _) => ws in s.core.conns && !s.core.conns[ws].ready.Closed?
    case BlocklistAnswered(n, token, _) =>
      n in s.tasks && s.tasks[n].CheckingBlocklist? && s.tasks[n].token == token
    case TicketLoaded(n, actor, ticketId, _) =>
      n in s.tasks && s.tasks[n].Loading? && s.tasks[n].actor == actor && s.tasks[n].ticketId == ticketId
    case AccessResolved(n, actor, ticket, _) =>
      n in s.tasks && s.tasks[n].Resolving? && s.tasks[n].actor == actor && s.tasks[n].ticket == ticket
    case ReadChecked(n, actor, access, _) =>
      n in s.tasks && s.tasks[n].Reading? && s.tasks[n].actor == actor && s.tasks[n].access == access
    case AuthTimeout(ws) => ws in s.core.conns && s.core.conns[ws].timerPending
    case CloseStarted(ws) => ws in s.core.conns && s.core.conns[ws].ready.Open?
    case SocketClosed(ws) => ws in s.core.conns && !s.core.conns[ws].ready.Closed?
    case Published(_, _) => true
    case Shutdown => true
  }

  /** Every suspended handler belongs to a known connection. */
  predicate TasksKnown(s: State) {
    forall n :: n in s.tasks ==> s.tasks[n].ws in s.core.conns
  }

  function Resume<T>(s: State, n: nat, answer: Answer<T>, next: T -> Task): State
    requires TasksKnown(s) && n in s.tasks
  {
    match answer
    case Returned(v) => s.(tasks := s.tasks[n := next(v)])
    case Threw(f) => s.(core := OnSubscribeFailure(s.core, s.tasks[n].ws, f), tasks := s.tasks - {n})
  }

  /** The effect of an event on the gateway; the log grows in `Step`. */
  function Effect(s: State, e: Event): State
    requires TasksKnown(s) && Enabled(s, e)
  {
    match e
    case Connected(ws) => s.(core := OnConnection(s.core, ws))
    case Message(ws, raw, verdict) =>
      var o := OnMessage(s.core, ws, raw, verdict);
      s.(core := o.core, tasks := if o.task.Some? then s.tasks[|s.log| := o.task.value] else s.tasks)
    case BlocklistAnswered(n, _, answer) =>
      s.(core := OnBlocklistAnswer(s.core, s.tasks[n].ws, s.tasks[n].payload, answer), tasks := s.tasks - {n})
    case TicketLoaded(n, _, _, answer) =>
      var t := s.tasks[n];
      Resume(s, n, answer, v => Resolving(t.ws, t.ticketId, t.actor, v))
    case AccessResolved(n, _, _, answer) =>
      var t := s.tasks[n];
      Resume(s, n, answer, v => Reading(t.ws, t.ticketId, t.actor, v))
    case ReadChecked(n, _, _, answer) =>
      var t := s.tasks[n];
      if answer.Returned? then s.(core := OnReadAllowed(s.core, t.ws, t.ticketId, t.access), tasks := s.tasks - {n})
      else s.(core := OnSubscribeFailure(s.core, t.ws, answer.failure), tasks := s.tasks - {n})
    case AuthTimeout(ws) => s.(core := OnTimeout(s.core, ws))
    case CloseStarted(ws) => s.(core := Close(s.core, ws))
    case SocketClosed(ws) => s.(core := OnDisconnect(s.core, ws))
    case Published(eventType, data) => s.(core := OnPublish(s.core, eventType, data))
    case Shutdown => s.(core := OnShutdown(s.core))
  }

  function Step(s: State, e: Event): State
    requires TasksKnown(s) && Enabled(s, e)
  {
    Effect(s, e).(log := s.log + [e])
  }

  /** The state after a list of events, if each could happen when it did. */
  ghost function Run(events: seq<Event>): (r: Option<State>)
  {
    if events == [] then Some(INIT)
    else
      var before := Run(events[..|events| - 1]);
      var e := events[|events| - 1];
      if before.Some? && TasksKnown(before.value) && Enabled(before.value, e)
      then Some(Step(before.value, e)) else None
  }
}
