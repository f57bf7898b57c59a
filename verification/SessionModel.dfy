/** The dashboard's session: the auth store in memory, its copy in session storage and cookies, and the
    API calls that refresh it, in any interleaving. Answers of the server are arbitrary. */
module SessionModel {
  import opened Common

  datatype User = User(id: string, roles: seq<string>)

  /** What session storage holds under "user": a user written as JSON, or a text that is not one. */
  datatype Text = Json(user: User) | Garbage

  datatype Store = Store(
    user: Option<User>,
    isAuthenticated: bool,
    accessToken: Option<string>,
    isHydrating: bool,
    storedUser: Option<Text>,
    storedToken: Option<string>,
    storedRefresh: Option<string>,
    accessCookie: Option<string>,
    refreshCookie: Option<string>)

  /** A string that JavaScript takes for true. */
  predicate Truthy(s: Option<string>) { s.Some? && s.value != "" }

  function Read(stored: Option<Text>): Option<User> {
    if stored.Some? && stored.value.Json? then Some(stored.value.user) else None
  }

  // ----- The store's actions -----

  function SetUser(s: Store, user: User): Store {
    s.(user := Some(user), isAuthenticated := true, storedUser := Some(Json(user)))
  }

  function SetAuth(s: Store, token: string, user: User): Store {
    var kept := if token == "" then s else s.(storedToken := Some(token), accessCookie := Some(token));
    kept.(user := Some(user), isAuthenticated := true, accessToken := Some(token), isHydrating := false, storedUser := Some(Json(user)))
  }

  function ClearAuth(s: Store): Store {
    Store(None, false, None, false, None, None, None, None, None)
  }

  function StoredToken(s: Store): Option<string> {
    if Truthy(s.storedToken) then s.storedToken else if Truthy(s.accessCookie) then s.accessCookie else None
  }

  function Hydrate(s: Store): Store {
    if s.user.Some? || Read(s.storedUser).None? then s.(isHydrating := false)
    else s.(user := Read(s.storedUser), isAuthenticated := true, accessToken := StoredToken(s), isHydrating := false)
  }

  /** A page load: memory starts again, storage and cookies stay. */
  function Reload(s: Store): Store {
    s.(user := None, isAuthenticated := false, accessToken := None, isHydrating := true)
  }

  /** What holds of every store a page can have: a user in memory is the stored one. */
  predicate InSync(s: Store) {
    s.isAuthenticated == s.user.Some? && (s.user.Some? ==> Read(s.storedUser) == s.user)
  }

  /** What a reload of the page and hydration bring back. */
  function Restored(s: Store): Store {
    Hydrate(Reload(s))
  }

  // ----- API calls -----

  datatype Phase = InFlight | Refreshing | Done | Rejected

  /** `header` is the token in its Authorization header; `sent` and `refreshes` count. */
  datatype Call = Call(url: string, header: Option<string>, retry: bool, phase: Phase, sent: nat, refreshes: nat)

  /** The answer to POST /auth/refresh. */
  datatype Refreshed = Refreshed(accessToken: Option<string>, user: Option<User>) | Refused

  datatype Session = Session(store: Store, calls: map<nat, Call>, nextId: nat, leaving: bool)

  datatype Event =
    | DoSetUser(user: User)
    | DoSetAuth(token: string, toUser: User)
    | DoClearAuth
    | DoHydrate
    | DoSetHydrated(hydrated: bool)
    | DoReload
    | Begin(url: string, authorization: Option<string>)
    | Respond(id: nat, status: Option<nat>)
    | RefreshEnds(id: nat, answer: Refreshed)

  /** The endpoints whose 401 is final. */
  predicate IsExempt(url: string) {
    Contains(url, "auth/login") || Contains(url, "auth/refresh") || Contains(url, "auth/me")
  }

  /** The request interceptor adds the token unless there is a header, and the request goes out. */
  function Send(store: Store, call: Call): Call {
    var token := if Truthy(store.accessToken) then store.accessToken else store.storedToken;
    var header := if Truthy(token) && call.header.None? then token else call.header;
    call.(header := header, phase := InFlight, sent := call.sent + 1)
  }

  function OnBegin(s: Session, url: string, authorization: Option<string>): Session {
    s.(calls := s.calls[s.nextId := Send(s.store, Call(url, authorization, false, InFlight, 0, 0))], nextId := s.nextId + 1)
  }

  predicate IsSuccess(status: Option<nat>) { status.Some? && 200 <= status.value <= 299 }

  /** The response interceptor; no status is a failed connection. */
  function OnRespond(s: Session, id: nat, status: Option<nat>): Session
    requires id in s.calls
  {
    var call := s.calls[id];
    var after :=
      if IsSuccess(status) then call.(phase := Done)
      else if status == Some(401) && !call.retry && !IsExempt(call.url)
      then call.(retry := true, phase := Refreshing, refreshes := call.refreshes + 1)
      else call.(phase := Rejected);
    s.(calls := s.calls[id := after])
  }

  /** The refresh is answered: the request goes out again, or the session is given up. */
  function OnRefreshEnds(s: Session, id: nat, answer: Refreshed): Session
    requires id in s.calls
  {
    var call := s.calls[id];
    match answer
    case Refused => Session(ClearAuth(s.store), s.calls[id := call.(phase := Rejected)], s.nextId, true)
    case Refreshed(token, user) =>
      if Truthy(token) && user.Some? then
        var store := SetAuth(s.store, token.value, user.value);
        s.(store := store, calls := s.calls[id := Send(store, call.(header := token))])
      else
        var store := if user.Some? then SetUser(s.store, user.value) else s.store;
        s.(store := store, calls := s.calls[id := Send(store, call)])
  }

  ghost predicate Enabled(s: Session, e: Event) {
    match e
    case Respond(id, status) => id in s.calls && s.calls[id].phase == InFlight
    case RefreshEnds(id, answer) => id in s.calls && s.calls[id].phase == Refreshing
    case DoSetUser(user) => true
    case DoSetAuth(token, user) => true
    case DoClearAuth => true
    case DoHydrate => true
    case DoSetHydrated(hydrated) => true
    case DoReload => true
    case Begin(url, authorization) => true
  }

  ghost function Step(s: Session, e: Event): Session
    requires Enabled(s, e)
  {
    match e
    case DoSetUser(user) => s.(store := SetUser(s.store, user))
    case DoSetAuth(token, user) => s.(store := SetAuth(s.store, token, user))
    case DoClearAuth => s.(store := ClearAuth(s.store))
    case DoHydrate => s.(store := Hydrate(s.store))
    case DoSetHydrated(hydrated) => s.(store := s.store.(isHydrating := !hydrated))
    case DoReload => Session(Reload(s.store), map[], s.nextId, false)
    case Begin(url, authorization) => OnBegin(s, url, authorization)
    case Respond(id, status) => OnRespond(s, id, status)
    case RefreshEnds(id, answer) => OnRefreshEnds(s, id, answer)
  }

  /** A page just loaded, over any storage and cookies an earlier page left. */
  ghost predicate IsStart(s: Session) {
    s.store == Reload(s.store) && s.calls == map[] && !s.leaving
  }

  ghost function Run(start: Session, es: seq<Event>): Option<Session> {
    if es == [] then Some(start)
    else
      match Run(start, es[..|es| - 1])
      case None => None
      case Some(s) => if Enabled(s, es[|es| - 1]) then Some(Step(s, es[|es| - 1])) else None
  }

  // ----- Each call is sent at most twice -----

  ghost predicate CallInv(call: Call) {
    && 1 <= call.sent <= 2 && (call.sent == 2 ==> call.retry)
    && call.refreshes == (if call.retry then 1 else 0)
    && (call.phase == Refreshing ==> call.retry && call.sent == 1)
    && (IsExempt(call.url) ==> !call.retry)
    && (call.retry && call.phase in {InFlight, Done} ==> call.sent == 2)
  }

  ghost predicate CallsInv(s: Session) { forall id :: id in s.calls ==> CallInv(s.calls[id]) }

  lemma StepCalls(s: Session, e: Event)
    requires CallsInv(s) && Enabled(s, e)
    ensures CallsInv(Step(s, e))
  {
    match e
    case DoSetUser(user) =>
    case DoSetAuth(token, user) =>
    case DoClearAuth =>
    case DoHydrate =>
    case DoSetHydrated(hydrated) =>
    case DoReload =>
    case Begin(url, authorization) => { hide IsExempt; }
    case Respond(id, status) => { hide IsExempt; assert CallInv(s.calls[id]); }
    case RefreshEnds(id, answer) => { hide IsExempt; assert CallInv(s.calls[id]); }
  }

  lemma {:induction false} RunCalls(start: Session, es: seq<Event>)
    requires IsStart(start) && Run(start, es).Some?
    ensures CallsInv(Run(start, es).value)
  {
    if es != [] {
      RunCalls(start, es[..|es| - 1]);
      StepCalls(Run(start, es[..|es| - 1]).value, es[|es| - 1]);
      hide CallsInv, Step, Enabled;
    }
  }

  /** However many calls run at once and however their 401s and refreshes interleave, each is sent at
      most twice and starts at most one refresh, and those of the session's own endpoints never do. */
  lemma SentAtMostTwice(start: Session, es: seq<Event>, id: nat)
    requires IsStart(start) && Run(start, es).Some? && id in Run(start, es).value.calls
    ensures var call := Run(start, es).value.calls[id];
      && 1 <= call.sent <= 2 && call.refreshes <= 1
      && (call.sent == 2 ==> call.refreshes == 1)
      && (IsExempt(call.url) ==> call.sent == 1 && call.refreshes == 0)
  {
    RunCalls(start, es);
    hide IsExempt;
    assert CallInv(Run(start, es).value.calls[id]);
  }

  // ----- Memory agrees with what is stored -----

  /** The user the events leave: the last one set, none after the last clearing, at first the stored one. */
  function LastWord(stored: Option<Text>, es: seq<Event>): Option<User> {
    if es == [] then Read(stored)
    else
      var before := es[..|es| - 1];
      match es[|es| - 1]
      case DoSetUser(user) => Some(user)
      case DoSetAuth(token, user) => Some(user)
      case DoClearAuth => None
      case RefreshEnds(id, Refused) => None
      case RefreshEnds(id, Refreshed(token, user)) => if user.Some? then user else LastWord(stored, before)
      case _ => LastWord(stored, before)
  }

  /** Whether this page has set, cleared or looked up its user. */
  predicate Looked(es: seq<Event>) {
    es != [] &&
    match es[|es| - 1]
    case DoReload => false
    case DoSetUser(user) => true
    case DoSetAuth(token, user) => true
    case DoClearAuth => true
    case DoHydrate => true
    case RefreshEnds(id, Refused) => true
    case RefreshEnds(id, Refreshed(token, user)) => user.Some? || Looked(es[..|es| - 1])
    case _ => Looked(es[..|es| - 1])
  }

  /** In every run the stored user is the last word, and so is the user in memory once this page has
      looked; before that there is none. */
  lemma {:induction false} UserIsLastWord(start: Session, es: seq<Event>)
    requires IsStart(start) && Run(start, es).Some?
    ensures var store := Run(start, es).value.store;
      && Read(store.storedUser) == LastWord(start.store.storedUser, es)
      && store.user == (if Looked(es) then LastWord(start.store.storedUser, es) else None)
      && store.isAuthenticated == store.user.Some?
  {
    if es != [] {
      var before, e := es[..|es| - 1], es[|es| - 1];
      UserIsLastWord(start, before);
      var s := Run(start, before).value;
      assert Enabled(s, e) && Run(start, es) == Some(Step(s, e));
      hide Run, Send, IsExempt;
      match e
      case DoSetUser(user) =>
      case DoSetAuth(token, user) =>
      case DoClearAuth =>
      case DoHydrate =>
      case DoSetHydrated(hydrated) =>
      case DoReload =>
      case Begin(url, authorization) =>
      case Respond(id, status) =>
      case RefreshEnds(id, answer) =>
    }
  }

  /** Reloading the page and hydrating brings back the user, for certain once the page has looked; and
      it does so if and only if there was a user or none is stored. */
  lemma ReloadRestoresUser(start: Session, es: seq<Event>)
    requires IsStart(start) && Run(start, es).Some?
    ensures var store := Run(start, es).value.store;
      && (Hydrate(Reload(store)).user == store.user <==> store.user.Some? || Read(store.storedUser).None?)
      && (Looked(es) ==> Hydrate(Reload(store)).user == store.user)
  {
    UserIsLastWord(start, es);
    hide Run, LastWord, Looked;
  }

  /** The token comes back with the user, as long as only the store changes its cookie. */
  ghost predicate TokenKept(store: Store) {
    store.user.Some? && Truthy(store.accessToken) ==> StoredToken(store) == store.accessToken
  }

  ghost predicate TokenNeedsUser(store: Store) { store.accessToken.Some? ==> store.user.Some? }

  lemma {:induction false} TokenIsKept(start: Session, es: seq<Event>)
    requires IsStart(start) && Run(start, es).Some?
    ensures TokenKept(Run(start, es).value.store) && TokenNeedsUser(Run(start, es).value.store)
  {
    if es != [] {
      var before, e := es[..|es| - 1], es[|es| - 1];
      TokenIsKept(start, before);
      var s := Run(start, before).value;
      assert Enabled(s, e) && Run(start, es) == Some(Step(s, e));
      hide Run, Send, IsExempt;
      match e
      case DoSetUser(user) =>
      case DoSetAuth(token, user) =>
      case DoClearAuth =>
      case DoHydrate =>
      case DoSetHydrated(hydrated) =>
      case DoReload =>
      case Begin(url, authorization) =>
      case Respond(id, status) =>
      case RefreshEnds(id, answer) =>
    }
  }

  lemma ReloadRestoresToken(start: Session, es: seq<Event>)
    requires IsStart(start) && Run(start, es).Some?
    requires Run(start, es).value.store.user.Some? && Truthy(Run(start, es).value.store.accessToken)
    ensures var store := Run(start, es).value.store; Hydrate(Reload(store)).accessToken == store.accessToken
  {
    TokenIsKept(start, es);
    UserIsLastWord(start, es);
    hide Run, LastWord, Looked;
  }

  /** The header of the second sending: the refreshed token if there is one, else the header of the first,
      even if that carried the token that was refused. */
  lemma RetryHeader(s: Session, id: nat, answer: Refreshed)
    requires id in s.calls && answer.Refreshed?
    ensures var call := OnRefreshEnds(s, id, answer).calls[id];
      && call.phase == InFlight && call.sent == s.calls[id].sent + 1
      && (Truthy(answer.accessToken) && answer.user.Some? ==> call.header == answer.accessToken)
      && (!(Truthy(answer.accessToken) && answer.user.Some?) && s.calls[id].header.Some? ==> call.header == s.calls[id].header)
  {
  }

  // ----- Signing out while a refresh is under way -----

  /** The events that bring a user. */
  predicate Gives(e: Event) {
    e.DoSetUser? || e.DoSetAuth? || (e.RefreshEnds? && e.answer.Refreshed? && e.answer.user.Some?)
  }

  /** After signing out nobody is signed in until the next event that brings a user: a sign-in, or the
      answer to a refresh that was under way. */
  lemma {:induction false} SignedOutUntilGiven(start: Session, before: seq<Event>, after: seq<Event>)
    requires IsStart(start) && Run(start, before + [DoClearAuth] + after).Some?
    ensures (forall e <- after :: !Gives(e)) ==>
      var store := Run(start, before + [DoClearAuth] + after).value.store;
      store.user == None && !store.isAuthenticated && Read(store.storedUser) == None
  {
    var es := before + [DoClearAuth] + after;
    if forall e <- after :: !Gives(e) {
      UserIsLastWord(start, es);
      NoWordAfter(start.store.storedUser, before, after);
      hide Run;
    }
  }

  lemma {:induction false} NoWordAfter(stored: Option<Text>, before: seq<Event>, after: seq<Event>)
    requires forall e <- after :: !Gives(e)
    ensures LastWord(stored, before + [DoClearAuth] + after) == None
  {
    var es := before + [DoClearAuth] + after;
    if after == [] {
      assert es[|es| - 1] == DoClearAuth;
    } else {
      var rest := after[..|after| - 1];
      NoWordAfter(stored, before, rest);
      assert es[..|es| - 1] == before + [DoClearAuth] + rest;
      assert es[|es| - 1] == after[|after| - 1] && !Gives(after[|after| - 1]);
    }
  }

  lemma RunSnoc(start: Session, es: seq<Event>, e: Event)
    requires Run(start, es).Some? && Enabled(Run(start, es).value, e)
    ensures Run(start, es + [e]) == Some(Step(Run(start, es).value, e))
  {
    assert (es + [e])[..|es|] == es;
  }

  /** Signing out is not final: the answer to a refresh that was under way signs the user in again. */
  lemma LateRefreshSignsIn(start: Session, es: seq<Event>, id: nat, token: string, user: User)
    requires Run(start, es).Some? && Enabled(Run(start, es).value, RefreshEnds(id, Refused)) && token != ""
    ensures var fs := es + [DoClearAuth, RefreshEnds(id, Refreshed(Some(token), Some(user)))];
      Run(start, fs).Some? && Run(start, fs).value.store.user == Some(user)
  {
    hide Run, Send;
    RunSnoc(start, es, DoClearAuth);
    RunSnoc(start, es + [DoClearAuth], RefreshEnds(id, Refreshed(Some(token), Some(user))));
    assert es + [DoClearAuth] + [RefreshEnds(id, Refreshed(Some(token), Some(user)))]
        == es + [DoClearAuth, RefreshEnds(id, Refreshed(Some(token), Some(user)))];
  }

  /** Of two refreshes under way, one granted and one refused, the later answer decides: refused last,
      the session the first had renewed is gone. */
  lemma LaterAnswerDecides(start: Session, es: seq<Event>, one: nat, other: nat, token: string, user: User)
    requires Run(start, es).Some? && one != other && token != ""
    requires Enabled(Run(start, es).value, RefreshEnds(one, Refused)) && Enabled(Run(start, es).value, RefreshEnds(other, Refused))
    ensures var granted, refused := RefreshEnds(one, Refreshed(Some(token), Some(user))), RefreshEnds(other, Refused);
      && Run(start, es + [granted, refused]).Some? && Run(start, es + [refused, granted]).Some?
      && Run(start, es + [granted, refused]).value.store == ClearAuth(Run(start, es).value.store)
      && Run(start, es + [refused, granted]).value.store.user == Some(user)
      && Run(start, es + [refused, granted]).value.leaving
  {
    hide Run, Send;
    var granted, refused := RefreshEnds(one, Refreshed(Some(token), Some(user))), RefreshEnds(other, Refused);
    RunSnoc(start, es, granted);
    RunSnoc(start, es + [granted], refused);
    assert es + [granted] + [refused] == es + [granted, refused];
    RunSnoc(start, es, refused);
    RunSnoc(start, es + [refused], granted);
    assert es + [refused] + [granted] == es + [refused, granted];
  }

  /** A call that can still bring a user: its refresh is under way, or a 401 would start one. */
  predicate CanRevive(call: Call) {
    call.phase == Refreshing || (call.phase == InFlight && !call.retry && !IsExempt(call.url))
  }

  ghost predicate SignedOut(s: Session) {
    s.store.user == None && Read(s.store.storedUser) == None
  }

  ghost predicate NoneRevives(s: Session) {
    forall id :: id in s.calls ==> !CanRevive(s.calls[id])
  }

  /** Neither a sign-in nor a new call. */
  predicate IsPassive(e: Event) {
    !e.DoSetUser? && !e.DoSetAuth? && !e.Begin?
  }

  lemma StaysSignedOutStep(s: Session, e: Event)
    requires SignedOut(s) && NoneRevives(s) && Enabled(s, e) && IsPassive(e)
    ensures SignedOut(Step(s, e)) && NoneRevives(Step(s, e))
  {
    hide IsExempt;
    match e
    case DoClearAuth =>
    case DoHydrate =>
    case DoSetHydrated(hydrated) =>
    case DoReload =>
    case Respond(id, status) => assert !CanRevive(s.calls[id]);
    case RefreshEnds(id, answer) =>
  }

  lemma {:induction false} StaysSignedOut(s: Session, es: seq<Event>)
    requires SignedOut(s) && NoneRevives(s) && Run(s, es).Some? && forall e <- es :: IsPassive(e)
    ensures SignedOut(Run(s, es).value) && NoneRevives(Run(s, es).value)
  {
    if es != [] {
      StaysSignedOut(s, es[..|es| - 1]);
      assert IsPassive(es[|es| - 1]);
      StaysSignedOutStep(Run(s, es[..|es| - 1]).value, es[|es| - 1]);
      hide SignedOut, NoneRevives, Step, Enabled;
    }
  }

  /** The 401, if it is still to come, and the answer to the refresh. */
  function Revival(id: nat, call: Call): seq<Event> {
    var answered := [RefreshEnds(id, Refreshed(Some("token"), Some(User("", []))))];
    if call.phase == Refreshing then answered else [Respond(id, Some(401))] + answered
  }

  lemma RefreshSignsIn(s: Session, es: seq<Event>, id: nat, token: string, user: User)
    requires Run(s, es).Some? && Enabled(Run(s, es).value, RefreshEnds(id, Refused))
    ensures var fs := es + [RefreshEnds(id, Refreshed(Some(token), Some(user)))]; Run(s, fs).Some? && !SignedOut(Run(s, fs).value)
  {
    RunSnoc(s, es, RefreshEnds(id, Refreshed(Some(token), Some(user))));
    hide Run, Send;
  }

  lemma RevivalSignsIn(s: Session, id: nat)
    requires id in s.calls && CanRevive(s.calls[id])
    ensures var es := Revival(id, s.calls[id]);
      Run(s, es).Some? && !SignedOut(Run(s, es).value) && forall e <- es :: IsPassive(e)
  {
    var answered := RefreshEnds(id, Refreshed(Some("token"), Some(User("", []))));
    var refused := Respond(id, Some(401));
    assert Run(s, []) == Some(s);
    hide Run, SignedOut, IsExempt;
    if s.calls[id].phase == Refreshing {
      RefreshSignsIn(s, [], id, "token", User("", []));
      assert [] + [answered] == [answered];
    } else {
      RunSnoc(s, [], refused);
      assert [] + [refused] == [refused];
      RefreshSignsIn(s, [refused], id, "token", User("", []));
    }
  }

  /** Signing out is final, over every continuation without a sign-in or a new call, if and only if no call is
      waiting for a refresh or for a first answer that could start one. */
  lemma SignOutIsFinalExactly(s: Session)
    requires SignedOut(s)
    ensures (forall es :: Run(s, es).Some? && (forall e <- es :: IsPassive(e)) ==> SignedOut(Run(s, es).value)) <==> NoneRevives(s)
  {
    if NoneRevives(s) {
      forall es | Run(s, es).Some? && (forall e <- es :: IsPassive(e))
        ensures SignedOut(Run(s, es).value)
      {
        StaysSignedOut(s, es);
      }
    } else {
      var id :| id in s.calls && CanRevive(s.calls[id]);
      RevivalSignsIn(s, id);
      var es := Revival(id, s.calls[id]);
      assert Run(s, es).Some? && (forall e <- es :: IsPassive(e)) && !SignedOut(Run(s, es).value);
    }
  }
}
