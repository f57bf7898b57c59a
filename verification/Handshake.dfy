/** One browser client and the gateway, joined by a FIFO channel each way, among any number of other
    clients. A channel to the client is what the gateway put on the socket's wire and the client has
    not read yet. */
module Handshake {
  import opened Common
  import opened GatewayModel
  import opened GatewayInvariants
  import opened WebSocketClient

  /** `up` has what the client sent on each of its sockets and the gateway has not received;
      `read` counts what the client has read. */
  datatype System = System(client: Client, gateway: State, up: map<Socket, seq<Body>>, read: map<Socket, nat>)

  datatype Move =
    | Dial(next: Socket)
    | Open(ws: Socket)
    | Deliver(ws: Socket, length: nat, verdict: Verdict)
    | Receive(ws: Socket)
    | Fault(ws: Socket)
    | End(ws: Socket)
    | CloseEvent(ws: Socket, code: nat)
    | SubscribeTo(ticketId: string)
    | UnsubscribeFrom(ticketId: string)
    | Ping
    | Server(e: Event)

  const BEGIN := System(START, INIT, map[], map[])

  /** What the gateway put on the wire of ws. */
  function Wire(g: State, ws: Socket): seq<Parcel> {
    if ws in g.core.conns then g.core.conns[ws].outbox else []
  }

  predicate Possible(s: System, m: Move) {
    var c, conns := s.client, s.gateway.core.conns;
    match m
    case Dial(next) => c.dial && next !in c.sockets && next !in conns
    // The server has accepted the socket before the browser reports it open.
    case Open(ws) => ws in c.sockets && c.sockets[ws].Connecting? && ws in conns && ws in s.up
    case Deliver(ws, length, verdict) =>
      ws in s.up && s.up[ws] != [] && Enabled(s.gateway, Message(ws, Raw(length, s.up[ws][0]), verdict))
    case Receive(ws) => Alive(c, ws) && ws in s.read && s.read[ws] < |Wire(s.gateway, ws)|
    case Fault(ws) => Alive(c, ws)
    case End(ws) => Alive(c, ws)
    case CloseEvent(ws, _) => Alive(c, ws)
    // useTicketRoom runs its effect only when it sees `connected`.
    case SubscribeTo(_) => c.connected
    case UnsubscribeFrom(_) => true
    case Ping => true
    case Server(e) =>
      && Enabled(s.gateway, e)
      && !(e.Message? && e.ws in c.sockets)
      && (e.Connected? && e.ws in c.sockets ==> c.sockets[e.ws].Connecting?)
  }

  /** A message from the client goes out on its current socket, if that is open. */
  function Say(s: System, body: Body): System {
    if CanSend(s.client) && s.client.wsRef.value in s.up then
      s.(up := s.up[s.client.wsRef.value := s.up[s.client.wsRef.value] + [body]])
    else s
  }

  ghost function Moved(s: System, m: Move, token: string): System
    requires TasksKnown(s.gateway) && Possible(s, m)
  {
    var c := s.client;
    match m
    case Dial(next) =>
      var d := Connect(c, next);
      if next in d.sockets then s.(client := d, up := s.up[next := []], read := s.read[next := 0]) else s.(client := d)
    case Open(ws) => s.(client := OnOpen(c, ws), up := s.up[ws := s.up[ws] + [Auth(Some(token))]])
    case Deliver(ws, length, verdict) =>
      s.(gateway := Step(s.gateway, Message(ws, Raw(length, s.up[ws][0]), verdict)), up := s.up[ws := s.up[ws][1..]])
    case Receive(ws) => s.(client := OnFrame(c, Wire(s.gateway, ws)[s.read[ws]].frame), read := s.read[ws := s.read[ws] + 1])
    case Fault(ws) => s.(client := OnError(c))
    case End(ws) => s.(client := OnEnding(c, ws))
    case CloseEvent(ws, code) => s.(client := OnClose(c, ws, code))
    case SubscribeTo(t) => Say(s, Subscribe(Some(t)))
    case UnsubscribeFrom(t) => Say(s, Unsubscribe(Some(t)))
    case Ping => Say(s, UnknownType("ping"))
    case Server(e) => s.(gateway := Step(s.gateway, e))
  }

  ghost function Play(moves: seq<Move>, token: string): Option<System> {
    if moves == [] then Some(BEGIN)
    else
      var before := Play(moves[..|moves| - 1], token);
      var m := moves[|moves| - 1];
      if before.Some? && TasksKnown(before.value.gateway) && Possible(before.value, m)
      then Some(Moved(before.value, m, token)) else None
  }

  // ----- What holds after any moves -----

  ghost predicate HasActor(g: State, ws: Socket) {
    ws in g.core.conns && g.core.conns[ws].actor.Some?
  }

  ghost predicate Channels(s: System) {
    && s.up.Keys == s.client.sockets.Keys
    && s.read.Keys == s.client.sockets.Keys
    && (forall ws :: ws in s.client.sockets && s.client.sockets[ws].Opened? ==> ws in s.gateway.core.conns)
    && (forall ws :: ws in s.read ==> s.read[ws] <= |Wire(s.gateway, ws)|)
  }

  /** `connected` was earned by an auth_ok read from the current socket. */
  ghost predicate ConnectedEarned(s: System) {
    s.client.connected ==> s.client.wsRef.Some? && HasActor(s.gateway, s.client.wsRef.value)
  }

  /** Every subscribe under way comes from a socket the gateway has authenticated. */
  ghost predicate SubscribesEarned(s: System) {
    forall ws, i :: ws in s.up && 0 <= i < |s.up[ws]| && s.up[ws][i].Subscribe? ==> HasActor(s.gateway, ws)
  }

  ghost predicate Joined(s: System) {
    && Inv(s.gateway.core) && TaskInv(s.gateway)
    && OneSocket(s.client) && Channels(s) && ConnectedEarned(s) && SubscribesEarned(s)
  }

  lemma GatewayGrows(g: State, e: Event)
    requires Inv(g.core) && TaskInv(g) && Enabled(g, e)
    ensures var h := Step(g, e);
      && Inv(h.core) && TaskInv(h) && g.core.conns.Keys <= h.core.conns.Keys
      && forall ws :: (HasActor(g, ws) ==> HasActor(h, ws)) && |Wire(g, ws)| <= |Wire(h, ws)|
  {
    hide Step, Inv, TaskInv, Enabled;
    StepKeeps(g, e);
  }

  lemma GatewayStepKeeps(s: System, e: Event, d: System)
    requires Joined(s) && Enabled(s.gateway, e)
    requires d == s.(gateway := Step(s.gateway, e), up := d.up) && d.up.Keys == s.up.Keys
    requires forall ws :: ws in s.up ==> d.up[ws] == s.up[ws] || (s.up[ws] != [] && d.up[ws] == s.up[ws][1..])
    ensures Joined(d)
  {
    GatewayGrows(s.gateway, e);
    hide Step, Enabled, Inv, TaskInv, HasActor, Wire, Alive, SubscribesEarned;
    StillEarned(s, d);
  }

  /** Whether or not the gateway has taken a message off a channel, what is left was there before. */
  lemma StillEarned(s: System, d: System)
    requires SubscribesEarned(s) && d.up.Keys == s.up.Keys
    requires forall ws :: HasActor(s.gateway, ws) ==> HasActor(d.gateway, ws)
    requires forall ws :: ws in s.up ==> d.up[ws] == s.up[ws] || (s.up[ws] != [] && d.up[ws] == s.up[ws][1..])
    ensures SubscribesEarned(d)
  {
    hide HasActor;
    forall ws, i | ws in d.up && 0 <= i < |d.up[ws]| && d.up[ws][i].Subscribe?
      ensures HasActor(d.gateway, ws)
    {
      assert ws in s.up;
      if d.up[ws] == s.up[ws] { assert s.up[ws][i].Subscribe?; } else { assert s.up[ws][i + 1].Subscribe?; }
    }
  }

  lemma SayKeeps(s: System, body: Body)
    requires Joined(s) && (body.Subscribe? ==> s.client.connected)
    ensures Joined(Say(s, body))
  {
    hide Inv;
    hide TaskInv;
  }

  lemma AuthOkHasActor(g: State, ws: Socket, i: nat)
    requires Inv(g.core) && i < |Wire(g, ws)| && Wire(g, ws)[i].frame.AuthOk?
    ensures HasActor(g, ws)
  {
  }

  /** What the client reads as auth_ok was sent on a socket that has an actor. */
  lemma ReceiveKeeps(s: System, ws: Socket)
    requires Joined(s) && Possible(s, Receive(ws))
    ensures Joined(Moved(s, Receive(ws), ""))
  {
    hide Inv, TaskInv, Wire, HasActor;
    if Wire(s.gateway, ws)[s.read[ws]].frame.AuthOk? { AuthOkHasActor(s.gateway, ws, s.read[ws]); }
  }

  lemma DialKeeps(s: System, next: Socket, token: string)
    requires Joined(s) && Possible(s, Dial(next))
    ensures Joined(Moved(s, Dial(next), token))
  {
    hide Inv;
    hide TaskInv;
  }

  lemma OpenKeeps(s: System, ws: Socket, token: string)
    requires Joined(s) && Possible(s, Move.Open(ws))
    ensures Joined(Moved(s, Move.Open(ws), token))
  {
    hide Inv, TaskInv, HasActor, Wire;
  }

  lemma CloseEventKeeps(s: System, ws: Socket, code: nat, token: string)
    requires Joined(s) && Possible(s, CloseEvent(ws, code))
    ensures Joined(Moved(s, CloseEvent(ws, code), token))
  {
    hide Inv;
    hide TaskInv;
    hide Backoff;
  }

  lemma FaultKeeps(s: System, ws: Socket, token: string)
    requires Joined(s) && Possible(s, Fault(ws))
    ensures Joined(Moved(s, Fault(ws), token))
  {
    hide Inv, TaskInv, HasActor, Wire;
  }

  lemma EndKeeps(s: System, ws: Socket, token: string)
    requires Joined(s) && Possible(s, End(ws))
    ensures Joined(Moved(s, End(ws), token))
  {
    hide Inv, TaskInv, HasActor, Wire;
  }

  lemma MoveKeeps(s: System, m: Move, token: string)
    requires Joined(s) && Possible(s, m)
    ensures Joined(Moved(s, m, token))
  {
    assert TasksKnown(s.gateway);
    hide Enabled, Step, Joined;
    match m
    case Deliver(ws, length, verdict) => GatewayStepKeeps(s, Message(ws, Raw(length, s.up[ws][0]), verdict), Moved(s, m, token));
    case Server(e) => GatewayStepKeeps(s, e, Moved(s, m, token));
    case Receive(ws) => ReceiveKeeps(s, ws);
    case SubscribeTo(t) => SayKeeps(s, Subscribe(Some(t)));
    case UnsubscribeFrom(t) => SayKeeps(s, Unsubscribe(Some(t)));
    case Ping => SayKeeps(s, UnknownType("ping"));
    case Dial(next) => DialKeeps(s, next, token);
    case Open(ws) => OpenKeeps(s, ws, token);
    case CloseEvent(ws, code) => CloseEventKeeps(s, ws, code, token);
    case Fault(ws) => FaultKeeps(s, ws, token);
    case End(ws) => EndKeeps(s, ws, token);
  }

  lemma {:induction false} PlayKeeps(moves: seq<Move>, token: string)
    requires Play(moves, token).Some?
    ensures Joined(Play(moves, token).value)
  {
    if moves != [] {
      PlayKeeps(moves[..|moves| - 1], token);
      MoveKeeps(Play(moves[..|moves| - 1], token).value, moves[|moves| - 1], token);
    }
  }

  // ----- The handshake is sound -----

  /** Whenever the client shows `connected`, and in particular when it can send, the gateway has an
      actor for its socket. */
  lemma ConnectedMeansAuthenticated(moves: seq<Move>, token: string)
    requires Play(moves, token).Some? && Play(moves, token).value.client.connected
    ensures var s := Play(moves, token).value;
      && s.client.wsRef.Some?
      && s.client.wsRef.value in s.gateway.core.conns
      && s.gateway.core.conns[s.client.wsRef.value].actor.Some?
  {
    PlayKeeps(moves, token);
  }

  /** What the gateway does with a subscribe of a socket that has an actor. */
  lemma SubscribeStarts(g: State, ws: Socket, length: nat, t: Option<string>, verdict: Verdict)
    requires TasksKnown(g) && Enabled(g, Message(ws, Raw(length, Subscribe(t)), verdict)) && HasActor(g, ws)
    ensures var h := Step(g, Message(ws, Raw(length, Subscribe(t)), verdict));
      && ws in h.core.conns
      && (forall i :: |g.core.conns[ws].outbox| <= i < |h.core.conns[ws].outbox| ==>
            h.core.conns[ws].outbox[i].frame != Error("Authentication required"))
      && (g.core.conns[ws].ready.Open? && length <= MAX_MESSAGE_BYTES && t.Some? && t.value != "" ==>
            |g.log| in h.tasks && h.tasks[|g.log|] == Loading(ws, t.value, g.core.conns[ws].actor.value))
  {
    hide OnAuth, OnUnsubscribe;
    assert "ticketId required"[0] != "Authentication required"[0];
  }

  /** No subscribe of the client is ever answered "Authentication required": when the gateway gets it
      on a socket that is still OPEN, it starts checking the ticket for the socket's actor. */
  lemma SubscribeNeverRefused(moves: seq<Move>, token: string, ws: Socket, length: nat, verdict: Verdict)
    requires Play(moves, token).Some?
    requires TasksKnown(Play(moves, token).value.gateway) && Possible(Play(moves, token).value, Deliver(ws, length, verdict))
    requires Play(moves, token).value.up[ws][0].Subscribe?
    ensures
      var s := Play(moves, token).value;
      var g, h := s.gateway, Moved(s, Deliver(ws, length, verdict), token).gateway;
      var t := s.up[ws][0].ticketId;
      && ws in g.core.conns && ws in h.core.conns
      && (forall i :: |g.core.conns[ws].outbox| <= i < |h.core.conns[ws].outbox| ==>
            h.core.conns[ws].outbox[i].frame != Error("Authentication required"))
      && (g.core.conns[ws].ready.Open? && length <= MAX_MESSAGE_BYTES && t.Some? && t.value != "" ==>
            && g.core.conns[ws].actor.Some?
            && |g.log| in h.tasks && h.tasks[|g.log|] == Loading(ws, t.value, g.core.conns[ws].actor.value))
  {
    PlayKeeps(moves, token);
    var s := Play(moves, token).value;
    assert HasActor(s.gateway, ws);
    hide Inv, TaskInv, Play, Step;
    SubscribeStarts(s.gateway, ws, length, s.up[ws][0].ticketId, verdict);
  }
}
