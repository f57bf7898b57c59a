/** Runs from the start that reach the states in which the three failing claims fail. */
module GatewayReached {
  import opened Common
  import opened ActorContext
  import opened GatewayModel
  import opened GatewayInvariants
  import opened GatewayDelivery
  import opened GatewayFindings

  const WS: Socket := 0
  const TOKEN := "token"

  function Payload(user: string): JwtPayload {
    JwtPayload(Some(user), None, None, None, None, None)
  }

  function Says(body: Body, user: string): Event {
    Message(WS, Raw(0, body), Verified(Payload(user)))
  }

  function SignsIn(user: string): Event {
    Says(Auth(Some(TOKEN)), user)
  }

  /** A run that leaves the socket OPEN and registered, with n events so far. */
  ghost predicate Alive(events: seq<Event>, n: nat) {
    && Run(events).Some? && |events| == |Run(events).value.log| == n && TasksKnown(Run(events).value)
    && WS in Run(events).value.core.conns && WS in Run(events).value.core.registered
    && Run(events).value.core.conns[WS].ready.Open?
  }

  lemma ConnectedRun()
    ensures Alive([Connected(WS)], 1)
    ensures var s := Run([Connected(WS)]).value; s.tasks == map[] && s.core.conns[WS].actor.None?
  {
    assert Run([]) == Some(INIT) && TasksKnown(INIT) && Enabled(INIT, Connected(WS));
    hide Run;
    RunSnoc([], Connected(WS));
    assert [] + [Connected(WS)] == [Connected(WS)];
    assert Step(INIT, Connected(WS)) == State(OnConnection(INIT.core, WS), map[], [] + [Connected(WS)]);
  }

  lemma SignInRun(events: seq<Event>, n: nat, user: string)
    requires Alive(events, n) && Run(events).value.core.conns[WS].actor.None?
    ensures Alive(events + [SignsIn(user)], n + 1)
    ensures var s, d := Run(events).value, Run(events + [SignsIn(user)]).value;
      d.core == s.core && d.tasks == s.tasks[n := CheckingBlocklist(WS, TOKEN, Payload(user))]
  {
    RunSnoc(events, SignsIn(user));
    hide Run;
  }

  /** The blocklist clears a suspended sign-in. */
  lemma ClearedRun(events: seq<Event>, n: nat, m: nat, user: string)
    requires Alive(events, n) && m in Run(events).value.tasks && Run(events).value.tasks[m] == CheckingBlocklist(WS, TOKEN, Payload(user))
    ensures var e := BlocklistAnswered(m, TOKEN, Clear); Alive(events + [e], n + 1)
    ensures var s, d := Run(events).value, Run(events + [BlocklistAnswered(m, TOKEN, Clear)]).value;
      && d.tasks == s.tasks - {m} && d.core.conns[WS].actor.Some?
      && UserRoom(user) in d.core.conns[WS].rooms && s.core.conns[WS].rooms <= d.core.conns[WS].rooms
  {
    var s := Run(events).value;
    RunSnoc(events, BlocklistAnswered(m, TOKEN, Clear));
    ClearedConns(s.core, WS, Payload(user));
    ClearedStaysOpen(s.core, WS, Payload(user));
    ReachableInv(events + [BlocklistAnswered(m, TOKEN, Clear)]);
    assert BuildActor(Payload(user)).userId == user;
    hide Run, OnBlocklistAnswer, Inv, BuildActor, UserRoom;
  }

  lemma ClearedStaysOpen(c: Core, who: Socket, p: JwtPayload)
    requires who in c.conns && c.conns[who].ready.Open?
    ensures var d := OnBlocklistAnswer(c, who, p, Clear); who in d.conns && d.conns[who].ready.Open?
  {
    hide BuildActor, UserRoom, OrgRoom;
  }

  /** Two overlapping sign-ins as different users leave one connection in both users' rooms. */
  lemma TwoUserRoomsReached(one: string, other: string)
    requires one != other
    ensures var events := [Connected(WS), SignsIn(one), SignsIn(other), BlocklistAnswered(1, TOKEN, Clear), BlocklistAnswered(2, TOKEN, Clear)];
      && Run(events).Some? && WS in Run(events).value.core.conns && WS in Run(events).value.core.registered
      && !OneUserRoom(Run(events).value.core.conns[WS])
  {
    hide Run, UserRoom;
    ConnectedRun();
    var e1 := [Connected(WS)];
    SignInRun(e1, 1, one);
    var e2 := e1 + [SignsIn(one)];
    SignInRun(e2, 2, other);
    var e3 := e2 + [SignsIn(other)];
    ClearedRun(e3, 3, 1, one);
    var e4 := e3 + [BlocklistAnswered(1, TOKEN, Clear)];
    ClearedRun(e4, 4, 2, other);
    assert e4 + [BlocklistAnswered(2, TOKEN, Clear)] ==
      [Connected(WS), SignsIn(one), SignsIn(other), BlocklistAnswered(1, TOKEN, Clear), BlocklistAnswered(2, TOKEN, Clear)];
    assert UserRoom(one) in Run(e4 + [BlocklistAnswered(2, TOKEN, Clear)]).value.core.conns[WS].rooms;
  }

  lemma SubscribeRun(events: seq<Event>, n: nat, t: string)
    requires Alive(events, n) && Run(events).value.core.conns[WS].actor.Some? && t != ""
    ensures var fs, a := events + [Says(Subscribe(Some(t)), "")], Run(events).value.core.conns[WS].actor.value;
      && Alive(fs, n + 1) && Run(fs).value.core == Run(events).value.core
      && Run(fs).value.tasks == Run(events).value.tasks[n := Loading(WS, t, a)]
  {
    RunSnoc(events, Says(Subscribe(Some(t)), ""));
    hide Run;
  }

  /** Two of the three ticket checks have succeeded. */
  lemma ReadingRun(events: seq<Event>, n: nat, m: nat, t: string, a: Actor)
    requires Alive(events, n) && m in Run(events).value.tasks && Run(events).value.tasks[m] == Loading(WS, t, a)
    ensures var fs := events + [TicketLoaded(m, a, t, Returned(0)), AccessResolved(m, a, 0, Returned(0))];
      Alive(fs, n + 2) && m in Run(fs).value.tasks && Run(fs).value.tasks[m] == Reading(WS, t, a, 0)
  {
    var loaded, resolved := TicketLoaded(m, a, t, Returned(0)), AccessResolved(m, a, 0, Returned(0));
    RunSnoc(events, loaded);
    hide Run;
    assert Step(Run(events).value, loaded).tasks == Run(events).value.tasks[m := Resolving(WS, t, a, 0)];
    RunSnoc(events + [loaded], resolved);
    assert events + [loaded] + [resolved] == events + [loaded, resolved];
  }

  /** A run with a subscribe of an OPEN, registered socket that waits for its last check. */
  lemma ReadingReached(t: string) returns (events: seq<Event>, a: Actor)
    requires t != ""
    ensures Alive(events, 6) && 3 in Run(events).value.tasks && Run(events).value.tasks[3] == Reading(WS, t, a, 0)
  {
    hide Run, UserRoom;
    ConnectedRun();
    var e1 := [Connected(WS)];
    SignInRun(e1, 1, "u");
    var e2 := e1 + [SignsIn("u")];
    ClearedRun(e2, 2, 1, "u");
    var e3 := e2 + [BlocklistAnswered(1, TOKEN, Clear)];
    SubscribeRun(e3, 3, t);
    var e4 := e3 + [Says(Subscribe(Some(t)), "")];
    a := Run(e3).value.core.conns[WS].actor.value;
    ReadingRun(e4, 4, 3, t, a);
    events := e4 + [TicketLoaded(3, a, t, Returned(0)), AccessResolved(3, a, 0, Returned(0))];
  }

  /** A run that ends with a room holding a connection the gateway has forgotten. */
  lemma StaleMemberReached(t: string)
    requires t != ""
    ensures exists events ::
      Run(events).Some? && WS !in Run(events).value.core.registered && InRoom(Run(events).value.core, TicketRoom(t), WS)
  {
    var events, a := ReadingReached(t);
    ReachableInv(events);
    LateResumeIsStale(Run(events).value, 3);
    var close, answer := SocketClosed(WS), ReadChecked(3, a, 0, Returned(()));
    RunSnoc(events, close);
    RunSnoc(events + [close], answer);
    hide Run, Step, Inv, InRoom;
    var all := events + [close] + [answer];
    assert Run(all).Some? && WS !in Run(all).value.core.registered && InRoom(Run(all).value.core, TicketRoom(t), WS);
  }

  /** A run in which an unsubscribe is undone by a check that was under way. */
  lemma UndoneUnsubscribeReached(t: string)
    requires t != ""
    ensures exists events, answer ::
      && var leave := Says(Unsubscribe(Some(t)), "");
      && Run(events + [leave]).Some? && Run(events + [leave] + [answer]).Some? && answer.ReadChecked?
      && !InRoom(Run(events + [leave]).value.core, TicketRoom(t), WS)
      && InRoom(Run(events + [leave] + [answer]).value.core, TicketRoom(t), WS)
  {
    var events, a := ReadingReached(t);
    ReachableInv(events);
    UnsubscribeDoesNotCancel(Run(events).value, 3, 0, Verified(Payload("")));
    var leave, answer := Says(Unsubscribe(Some(t)), ""), ReadChecked(3, a, 0, Returned(()));
    RunSnoc(events, leave);
    RunSnoc(events + [leave], answer);
    hide Run, Step, Inv, InRoom;
    assert Run(events + [leave]).Some? && Run(events + [leave] + [answer]).Some? && answer.ReadChecked?;
  }
}
