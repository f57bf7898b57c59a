/** What the client sends, and a play in which client and gateway do come together. */
module HandshakeReached {
  import opened Common
  import opened ActorContext
  import opened GatewayModel
  import opened GatewayInvariants
  import opened GatewayDelivery
  import opened WebSocketClient
  import opened Handshake

  // ----- What the client sends -----

  /** On every channel an authentication carries the token of the login. */
  ghost predicate TokensSent(s: System, token: string) {
    forall ws, i :: ws in s.up && 0 <= i < |s.up[ws]| && s.up[ws][i].Auth? ==> s.up[ws][i] == Auth(Some(token))
  }

  lemma MoveSendsToken(s: System, m: Move, token: string)
    requires TasksKnown(s.gateway) && Possible(s, m) && TokensSent(s, token)
    ensures TokensSent(Moved(s, m, token), token)
  {
    hide Step, Enabled, Backoff;
  }

  /** In every play. */
  lemma {:induction false} AuthCarriesToken(moves: seq<Move>, token: string)
    requires Play(moves, token).Some?
    ensures TokensSent(Play(moves, token).value, token)
  {
    if moves != [] {
      AuthCarriesToken(moves[..|moves| - 1], token);
      MoveSendsToken(Play(moves[..|moves| - 1], token).value, moves[|moves| - 1], token);
      hide TokensSent, Moved, Possible;
    }
  }

  /** Opening a socket sends the authentication on it, subscribe and unsubscribe go out on the socket in the ref if
      it is open, and nothing else is sent anywhere. */
  lemma ClientSends(s: System, token: string, ws: Socket, t: string)
    requires TasksKnown(s.gateway)
    ensures Possible(s, Move.Open(ws)) ==> Moved(s, Move.Open(ws), token).up == s.up[ws := s.up[ws] + [Auth(Some(token))]]
    ensures var open := s.client.wsRef.Some? && s.client.wsRef.value in s.client.sockets && s.client.sockets[s.client.wsRef.value] == Opened
        && s.client.wsRef.value in s.up;
      var ws := if open then s.client.wsRef.value else 0;
      var wire := if open then s.up[ws] else [];
      && (Possible(s, SubscribeTo(t)) ==> Moved(s, SubscribeTo(t), token).up == if open then s.up[ws := wire + [Subscribe(Some(t))]] else s.up)
      && Moved(s, UnsubscribeFrom(t), token).up == (if open then s.up[ws := wire + [Unsubscribe(Some(t))]] else s.up)
      && Moved(s, Ping, token).up == (if open then s.up[ws := wire + [UnknownType("ping")]] else s.up)
  {
    hide Step, Enabled;
  }

  /** Both channels are first in, first out: the gateway gets the oldest message sent on a socket, with the length and
      the verdict of its arrival, and the client the oldest frame it has not read. */
  lemma ChannelsAreQueues(s: System, token: string, ws: Socket, length: nat, verdict: Verdict, first: Body, rest: seq<Body>)
    requires TasksKnown(s.gateway)
    ensures ws in s.up && s.up[ws] == [first] + rest && Possible(s, Deliver(ws, length, verdict)) ==>
      && Enabled(s.gateway, Message(ws, Raw(length, first), verdict))
      && Moved(s, Deliver(ws, length, verdict), token) ==
           System(s.client, Step(s.gateway, Message(ws, Raw(length, first), verdict)), s.up[ws := rest], s.read)
    ensures ws in s.gateway.core.conns && ws in s.read && s.read[ws] < |s.gateway.core.conns[ws].outbox| && Alive(s.client, ws) ==>
      && Possible(s, Receive(ws))
      && Moved(s, Receive(ws), token) ==
           System(OnFrame(s.client, s.gateway.core.conns[ws].outbox[s.read[ws]].frame), s.gateway, s.up, s.read[ws := s.read[ws] + 1])
  {
    hide Step, Enabled, OnFrame;
    assert ([first] + rest)[1..] == rest;
  }

  /** What happens on a socket of the client's alone. */
  lemma ClientMoves(s: System, token: string, ws: Socket, code: nat)
    requires TasksKnown(s.gateway)
    ensures Alive(s.client, ws) ==>
      && Possible(s, Fault(ws)) && Moved(s, Fault(ws), token) == s.(client := s.client.(connected := false, connecting := false))
      && Possible(s, End(ws)) && Moved(s, End(ws), token) == s.(client := s.client.(sockets := s.client.sockets[ws := Ending]))
      && Possible(s, CloseEvent(ws, code)) && Moved(s, CloseEvent(ws, code), token) == s.(client := OnClose(s.client, ws, code))
    ensures Possible(s, Dial(ws)) && s.client.wsRef.None? ==>
      Moved(s, Dial(ws), token) == System(Connect(s.client, ws), s.gateway, s.up[ws := []], s.read[ws := 0])
  {
    hide Step, Enabled, OnClose;
  }

  /** When the client can make its moves: it dials a fresh socket when that is due, opens one the gateway has accepted,
      subscribes while it shows `connected`, and may unsubscribe and ping at any time; the gateway may see anything but
      a message or a connection of the client's own making. */
  lemma CanMove(s: System, ws: Socket, t: string, e: Event)
    ensures Possible(s, Dial(ws)) <==> s.client.dial && ws !in s.client.sockets && ws !in s.gateway.core.conns
    ensures Possible(s, Move.Open(ws)) <==>
      ws in s.client.sockets && s.client.sockets[ws] == Connecting && ws in s.gateway.core.conns && ws in s.up
    ensures Possible(s, SubscribeTo(t)) <==> s.client.connected
    ensures Possible(s, UnsubscribeFrom(t)) && Possible(s, Ping)
    ensures Possible(s, Server(e)) <==>
      && Enabled(s.gateway, e) && (e.Message? ==> e.ws !in s.client.sockets)
      && (e.Connected? && e.ws in s.client.sockets ==> s.client.sockets[e.ws] == Connecting)
  {
    hide Enabled;
  }

  // ----- A play that connects -----

  lemma PlaySnoc(moves: seq<Move>, m: Move, token: string)
    requires Play(moves, token).Some? && TasksKnown(Play(moves, token).value.gateway) && Possible(Play(moves, token).value, m)
    ensures Play(moves + [m], token) == Some(Moved(Play(moves, token).value, m, token))
  {
    assert (moves + [m])[..|moves|] == moves;
  }

  /** A play after which the client's socket is open on both sides and all has been delivered and read but what is
      named: the channel to the gateway and the frames still to be read. */
  ghost predicate Joint(moves: seq<Move>, token: string, ws: Socket, n: nat, up: seq<Body>, actor: Option<Actor>, connected: bool) {
    && Play(moves, token).Some?
    && var s := Play(moves, token).value;
    && TasksKnown(s.gateway) && |s.gateway.log| == n
    && s.client.wsRef == Some(ws) && ws in s.client.sockets && s.client.sockets[ws] == Opened && s.client.connected == connected
    && ws in s.up && s.up[ws] == up && ws in s.read
    && ws in s.gateway.core.conns && s.gateway.core.conns[ws].ready == GatewayModel.Open && s.gateway.core.conns[ws].actor == actor
    && s.read[ws] <= |s.gateway.core.conns[ws].outbox|
  }

  lemma JointKnows(moves: seq<Move>, token: string)
    requires Play(moves, token).Some?
    ensures TasksKnown(Play(moves, token).value.gateway)
  {
    PlayKeeps(moves, token);
  }

  lemma DialRun(token: string, ws: Socket)
    ensures var moves := [Dial(ws), Server(Connected(ws)), Move.Open(ws)];
      && Joint(moves, token, ws, 1, [Auth(Some(token))], None, false)
      && Play(moves, token).value.gateway.tasks == map[] && Play(moves, token).value.gateway.core.conns[ws].outbox == []
      && Play(moves, token).value.read[ws] == 0
  {
    assert Play([], token) == Some(BEGIN);
    hide Play;
    PlaySnoc([], Dial(ws), token);
    assert [] + [Dial(ws)] == [Dial(ws)];
    PlaySnoc([Dial(ws)], Server(Connected(ws)), token);
    JointKnows([Dial(ws)] + [Server(Connected(ws))], token);
    PlaySnoc([Dial(ws)] + [Server(Connected(ws))], Move.Open(ws), token);
    JointKnows([Dial(ws)] + [Server(Connected(ws))] + [Move.Open(ws)], token);
    assert [Dial(ws)] + [Server(Connected(ws))] + [Move.Open(ws)] == [Dial(ws), Server(Connected(ws)), Move.Open(ws)];
  }

  /** The gateway receives the authentication and asks the blocklist about that very token. */
  lemma AuthRun(moves: seq<Move>, token: string, ws: Socket, n: nat, p: JwtPayload)
    requires Joint(moves, token, ws, n, [Auth(Some(token))], None, false) && token != ""
    requires Play(moves, token).value.gateway.core.conns[ws].outbox == [] && Play(moves, token).value.read[ws] == 0
    ensures var ms := moves + [Deliver(ws, 0, Verified(p))];
      && Joint(ms, token, ws, n + 1, [], None, false)
      && n in Play(ms, token).value.gateway.tasks && Play(ms, token).value.gateway.tasks[n] == CheckingBlocklist(ws, token, p)
      && Play(ms, token).value.gateway.core.conns[ws].outbox == [] && Play(ms, token).value.read[ws] == 0
  {
    hide Play;
    PlaySnoc(moves, Deliver(ws, 0, Verified(p)), token);
    JointKnows(moves + [Deliver(ws, 0, Verified(p))], token);
  }

  lemma ClearRun(moves: seq<Move>, token: string, ws: Socket, n: nat, m: nat, p: JwtPayload)
    requires Joint(moves, token, ws, n, [], None, false)
    requires m in Play(moves, token).value.gateway.tasks && Play(moves, token).value.gateway.tasks[m] == CheckingBlocklist(ws, token, p)
    requires Play(moves, token).value.gateway.core.conns[ws].outbox == [] && Play(moves, token).value.read[ws] == 0
    ensures var ms := moves + [Server(BlocklistAnswered(m, token, Clear))];
      && Joint(ms, token, ws, n + 1, [], Some(BuildActor(p)), false) && Play(ms, token).value.read[ws] == 0
      && Play(ms, token).value.gateway.core.conns[ws].outbox == [Parcel(None, AuthOk(BuildActor(p).userId, BuildActor(p).organizationId))]
  {
    var s := Play(moves, token).value;
    hide Play;
    PlaySnoc(moves, Server(BlocklistAnswered(m, token, Clear)), token);
    JointKnows(moves + [Server(BlocklistAnswered(m, token, Clear))], token);
    ClearedWire(s.gateway.core, ws, p);
    hide OnBlocklistAnswer, BuildActor;
  }

  lemma ClearedWire(c: Core, ws: Socket, p: JwtPayload)
    requires ws in c.conns && c.conns[ws].ready == GatewayModel.Open
    ensures var a, d := BuildActor(p), OnBlocklistAnswer(c, ws, p, Clear);
      && ws in d.conns && d.conns[ws].actor == Some(a) && d.conns[ws].ready == GatewayModel.Open
      && d.conns[ws].outbox == c.conns[ws].outbox + [Parcel(None, AuthOk(a.userId, a.organizationId))]
  {
    ClearedConns(c, ws, p);
    hide BuildActor, UserRoom, OrgRoom;
  }

  lemma ReceiveRun(moves: seq<Move>, token: string, ws: Socket, n: nat, a: Actor)
    requires Joint(moves, token, ws, n, [], Some(a), false) && Play(moves, token).value.read[ws] == 0
    requires Play(moves, token).value.gateway.core.conns[ws].outbox == [Parcel(None, AuthOk(a.userId, a.organizationId))]
    ensures Joint(moves + [Receive(ws)], token, ws, n, [], Some(a), true)
  {
    hide Play;
    PlaySnoc(moves, Receive(ws), token);
  }

  lemma SubscribeRun(moves: seq<Move>, token: string, ws: Socket, n: nat, a: Actor, t: string)
    requires Joint(moves, token, ws, n, [], Some(a), true)
    ensures Joint(moves + [SubscribeTo(t)], token, ws, n, [Subscribe(Some(t))], Some(a), true)
  {
    hide Play;
    PlaySnoc(moves, SubscribeTo(t), token);
  }

  lemma DeliverRun(moves: seq<Move>, token: string, ws: Socket, n: nat, a: Actor, t: string)
    requires Joint(moves, token, ws, n, [Subscribe(Some(t))], Some(a), true) && t != ""
    ensures var ms := moves + [Deliver(ws, 0, Invalid)];
      && Play(ms, token).Some? && Play(ms, token).value.client.connected
      && n in Play(ms, token).value.gateway.tasks && Play(ms, token).value.gateway.tasks[n] == Loading(ws, t, a)
  {
    hide Play;
    PlaySnoc(moves, Deliver(ws, 0, Invalid), token);
  }

  /** The moves of a login: dial, accept, open, authenticate, clear of exactly that token, confirm, subscribe. */
  function Login(token: string, ws: Socket, p: JwtPayload, t: string): seq<Move> {
    [Dial(ws), Server(Connected(ws)), Move.Open(ws), Deliver(ws, 0, Verified(p)), Server(BlocklistAnswered(1, token, Clear)),
     Receive(ws), SubscribeTo(t), Deliver(ws, 0, Invalid)]
  }

  /** For every token, payload and ticket that login can be played, and ends with the client connected and the
      ticket check suspended for the actor of the payload. */
  lemma LoginConnects(token: string, ws: Socket, p: JwtPayload, t: string)
    requires token != "" && t != ""
    ensures var play := Play(Login(token, ws, p, t), token);
      && play.Some? && play.value.client.connected && play.value.client.wsRef == Some(ws)
      && 3 in play.value.gateway.tasks && play.value.gateway.tasks[3] == Loading(ws, t, BuildActor(p))
  {
    hide Play, BuildActor;
    DialRun(token, ws);
    var m0 := [Dial(ws), Server(Connected(ws)), Move.Open(ws)];
    AuthRun(m0, token, ws, 1, p);
    var m1 := m0 + [Deliver(ws, 0, Verified(p))];
    ClearRun(m1, token, ws, 2, 1, p);
    var m2 := m1 + [Server(BlocklistAnswered(1, token, Clear))];
    ReceiveRun(m2, token, ws, 3, BuildActor(p));
    var m3 := m2 + [Receive(ws)];
    SubscribeRun(m3, token, ws, 3, BuildActor(p), t);
    var m4 := m3 + [SubscribeTo(t)];
    DeliverRun(m4, token, ws, 3, BuildActor(p), t);
    DeliverKeepsRef(m4, token, ws);
    assert m4 + [Deliver(ws, 0, Invalid)] == Login(token, ws, p, t);
  }

  lemma DeliverKeepsRef(moves: seq<Move>, token: string, ws: Socket)
    requires Play(moves, token).Some? && TasksKnown(Play(moves, token).value.gateway) && Possible(Play(moves, token).value, Deliver(ws, 0, Invalid))
    ensures Play(moves + [Deliver(ws, 0, Invalid)], token).value.client == Play(moves, token).value.client
  {
    PlaySnoc(moves, Deliver(ws, 0, Invalid), token);
    hide Play, Step;
  }
}
