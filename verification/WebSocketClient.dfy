/** The browser's side of the ticket socket: the refs and state of WebSocketProvider within one login,
    that is while the token stays the same. */
module WebSocketClient {
  import opened Common
  import opened GatewayModel

  const RECONNECT_BASE_MS: nat := 1_000
  const RECONNECT_MAX_MS: nat := 30_000
  const CLOSE_NORMAL: nat := 1000
  const CLOSE_AUTH_TIMEOUT: nat := 4001

  datatype Phase = Connecting | Opened | Ending | Ended

  /** `dial` says that `connect` is due: the effect of the login, or a reconnect timer that is set.
      `sockets` has every WebSocket made in this login and its readyState. */
  datatype Client = Client(
    wsRef: Option<Socket>,
    sockets: map<Socket, Phase>,
    connected: bool,
    connecting: bool,
    attempt: nat,
    dial: bool,
    delay: nat)

  const START := Client(None, map[], false, false, 0, true, 0)

  function Pow2(n: nat): nat {
    if n == 0 then 1 else 2 * Pow2(n - 1)
  }

  /** min(base * 2^attempt, max) */
  function Backoff(attempt: nat): nat {
    if RECONNECT_BASE_MS * Pow2(attempt) <= RECONNECT_MAX_MS then RECONNECT_BASE_MS * Pow2(attempt) else RECONNECT_MAX_MS
  }

  predicate Alive(c: Client, ws: Socket) {
    ws in c.sockets && !c.sockets[ws].Ended?
  }

  /** `connect`: nothing while the current socket is open or opening, else a new socket. */
  function Connect(c: Client, next: Socket): Client {
    if c.wsRef.Some? && c.wsRef.value in c.sockets && c.sockets[c.wsRef.value] in {Connecting, Opened}
    then c.(dial := false)
    else c.(wsRef := Some(next), sockets := c.sockets[next := Connecting], connecting := true, dial := false)
  }

  function OnOpen(c: Client, ws: Socket): Client {
    c.(sockets := c.sockets[ws := Opened])
  }

  function OnFrame(c: Client, frame: Frame): Client {
    if frame.AuthOk? then c.(connected := true, connecting := false, attempt := 0) else c
  }

  function OnError(c: Client): Client {
    c.(connected := false, connecting := false)
  }

  /** The close handshake has begun. */
  function OnEnding(c: Client, ws: Socket): Client {
    c.(sockets := c.sockets[ws := Ending])
  }

  /** onclose: forget the socket and, unless told not to, reconnect after the back-off. */
  function OnClose(c: Client, ws: Socket, code: nat): Client {
    var d := c.(connected := false, connecting := false, wsRef := None, sockets := c.sockets[ws := Ended]);
    if code == CLOSE_NORMAL || code == CLOSE_AUTH_TIMEOUT then d
    else d.(attempt := c.attempt + 1, delay := Backoff(c.attempt), dial := true)
  }

  /** Can `subscribe` put anything on the wire? */
  predicate CanSend(c: Client) {
    c.wsRef.Some? && c.wsRef.value in c.sockets && c.sockets[c.wsRef.value].Opened?
  }

  /** At most one socket is alive, and it is the one in the ref; a reconnect is due only without one. */
  ghost predicate OneSocket(c: Client) {
    && (forall ws: Socket :: Alive(c, ws) <==> c.wsRef == Some(ws))
    && (c.dial ==> c.wsRef.None?)
  }

  /** The provider as the object it is. */
  class WebSocketProvider {
    var wsRef: Option<Socket>
    var sockets: map<Socket, Phase>
    var connected: bool
    var connecting: bool
    var reconnectAttempt: nat
    var dial: bool
    var delay: nat

    ghost function View(): Client
      reads this
    {
      Client(wsRef, sockets, connected, connecting, reconnectAttempt, dial, delay)
    }

    /** There is never a second live socket. */
    ghost predicate Valid()
      reads this
    {
      OneSocket(View())
    }

    constructor ()
      ensures View() == START && Valid()
    {
      wsRef, sockets, connected, connecting, reconnectAttempt, dial, delay := None, map[], false, false, 0, true, 0;
    }

    /** `connect`, which runs when it is due: in the effect of the login or when a reconnect timer fires. */
    method Dial(next: Socket)
      requires Valid()
      modifies this
      ensures View() == Connect(old(View()), next)
      ensures old(dial) && next !in old(sockets) ==> Valid() && wsRef == Some(next)
    {
      dial := false;
      if wsRef.Some? && wsRef.value in sockets {
        if sockets[wsRef.value] == Opened { return; }
        if sockets[wsRef.value] == Connecting { return; }
      }
      connecting := true;
      sockets := sockets[next := Connecting];
      wsRef := Some(next);
    }

    method HandleFrame(frame: Frame)
      requires Valid()
      modifies this
      ensures View() == OnFrame(old(View()), frame) && Valid()
      ensures connected ==> old(connected) || frame.AuthOk?
    {
      if frame.AuthOk? {
        connected := true;
        connecting := false;
        reconnectAttempt := 0;
      }
    }

    method HandleError()
      requires Valid()
      modifies this
      ensures View() == OnError(old(View())) && Valid()
    {
      connected := false;
      connecting := false;
    }

    method HandleClose(ws: Socket, code: nat)
      requires Valid() && Alive(View(), ws)
      modifies this
      ensures View() == OnClose(old(View()), ws, code) && Valid()
      ensures !connected && forall other :: !Alive(View(), other)
      ensures dial <==> code != 1000 && code != 4001
      ensures dial ==> reconnectAttempt == old(reconnectAttempt) + 1 && delay == Backoff(old(reconnectAttempt))
    {
      NoneAliveAfterClose(View(), ws, code);
      connected := false;
      connecting := false;
      wsRef := None;
      sockets := sockets[ws := Ended];
      if code == CLOSE_NORMAL || code == CLOSE_AUTH_TIMEOUT { return; }
      var attempt := reconnectAttempt;
      reconnectAttempt := reconnectAttempt + 1;
      var factor := Double(attempt);
      delay := if RECONNECT_BASE_MS * factor <= RECONNECT_MAX_MS then RECONNECT_BASE_MS * factor else RECONNECT_MAX_MS;
      dial := true;
    }

    /** Math.pow(2, attempt) */
    method Double(attempt: nat) returns (factor: nat)
      ensures factor == Pow2(attempt)
    {
      factor := 1;
      for i := 0 to attempt
        invariant factor == Pow2(i)
      {
        factor := 2 * factor;
      }
    }
  }

  lemma NoneAliveAfterClose(c: Client, ws: Socket, code: nat)
    requires OneSocket(c) && Alive(c, ws)
    ensures OneSocket(OnClose(c, ws, code)) && forall other :: !Alive(OnClose(c, ws, code), other)
  {
    hide Backoff;
    forall other
      ensures !Alive(OnClose(c, ws, code), other)
    {
      assert Alive(c, other) <==> other == ws;
    }
  }

  /** The back-off in milliseconds, attempt by attempt. */
  lemma BackoffValues(attempt: nat)
    ensures Backoff(0) == 1000 && Backoff(1) == 2000 && Backoff(2) == 4000 && Backoff(3) == 8000 && Backoff(4) == 16000
    ensures attempt >= 5 ==> Backoff(attempt) == 30000
  {
    assert Pow2(0) == 1 && Pow2(1) == 2 && Pow2(2) == 4 && Pow2(3) == 8 && Pow2(4) == 16;
    BackoffGrows(attempt);
  }

  /** What a frame and a close do to the refs. */
  lemma FrameAndClose(c: Client, frame: Frame, ws: Socket, code: nat)
    ensures OnFrame(c, frame) ==
      if frame.AuthOk? then Client(c.wsRef, c.sockets, true, false, 0, c.dial, c.delay) else c
    ensures code in {1000, 4001} ==>
      OnClose(c, ws, code) == Client(None, c.sockets[ws := Ended], false, false, c.attempt, c.dial, c.delay)
    ensures code !in {1000, 4001} ==>
      OnClose(c, ws, code) == Client(None, c.sockets[ws := Ended], false, false, c.attempt + 1, true, Backoff(c.attempt))
  {
    hide Backoff;
  }

  /** `connect` does nothing over a socket that is opening or open, and else puts a new one into the ref. */
  lemma ConnectIs(c: Client, ws: Socket, next: Socket)
    ensures c.wsRef == Some(ws) && ws in c.sockets && c.sockets[ws] in {Connecting, Opened} ==> Connect(c, next) == c.(dial := false)
    ensures c.wsRef.None? || (c.wsRef == Some(ws) && (ws !in c.sockets || c.sockets[ws] in {Ending, Ended})) ==>
      Connect(c, next) == Client(Some(next), c.sockets[next := Connecting], c.connected, true, c.attempt, false, c.delay)
  {
  }

  /** The back-off doubles from one second and stays at thirty once it gets there. */
  lemma {:induction false} BackoffGrows(attempt: nat)
    ensures RECONNECT_BASE_MS <= Backoff(attempt) <= RECONNECT_MAX_MS
    ensures Backoff(attempt) <= Backoff(attempt + 1)
    ensures Backoff(attempt) == RECONNECT_MAX_MS <==> attempt >= 5
  {
    if attempt > 0 {
      BackoffGrows(attempt - 1);
    }
    if attempt < 6 {
      assert Pow2(0) == 1 && Pow2(1) == 2 && Pow2(2) == 4 && Pow2(3) == 8;
      assert Pow2(4) == 16 && Pow2(5) == 32 && Pow2(6) == 64;
    }
  }
}
