/** The auth store's actions and the API client's steps in plain text. */
module SessionTable {
  import opened Common
  import opened SessionModel

  // ----- The store -----

  lemma SettingAuth(s: Store, token: string, user: User)
    ensures token != "" ==> SetAuth(s, token, user) == Store(Some(user), true, Some(token), false, Some(Json(user)), Some(token),
      s.storedRefresh, Some(token), s.refreshCookie)
    ensures SetAuth(s, "", user) ==
      Store(Some(user), true, Some(""), false, Some(Json(user)), s.storedToken, s.storedRefresh, s.accessCookie, s.refreshCookie)
    ensures SetUser(s, user) == Store(Some(user), true, s.accessToken, s.isHydrating, Some(Json(user)), s.storedToken, s.storedRefresh,
      s.accessCookie, s.refreshCookie)
    ensures ClearAuth(s) == Store(None, false, None, false, None, None, None, None, None)
  {
  }

  /** The token a page takes up: the stored one, else that of the cookie; an empty one counts as none. */
  lemma TokenTakenUp(s: Store, stored: string, cookie: string)
    ensures stored != "" ==> StoredToken(s.(storedToken := Some(stored))) == Some(stored)
    ensures cookie != "" ==> StoredToken(s.(storedToken := None, accessCookie := Some(cookie))) == Some(cookie)
    ensures cookie != "" ==> StoredToken(s.(storedToken := Some(""), accessCookie := Some(cookie))) == Some(cookie)
    ensures s.accessCookie in {None, Some("")} && s.storedToken in {None, Some("")} ==> StoredToken(s) == None
  {
  }

  /** A page load forgets memory; hydrating takes up a stored user with its token if memory has none. */
  lemma LoadingAndHydrating(s: Store, user: User)
    ensures Reload(s) == Store(None, false, None, true, s.storedUser, s.storedToken, s.storedRefresh, s.accessCookie, s.refreshCookie)
    ensures s.user.None? && s.storedUser == Some(Json(user)) ==>
      Hydrate(s) == s.(user := Some(user), isAuthenticated := true, accessToken := StoredToken(s), isHydrating := false)
    ensures s.user.Some? || s.storedUser.None? || s.storedUser == Some(Garbage) ==> Hydrate(s) == s.(isHydrating := false)
  {
  }

  // ----- The calls -----

  /** A call keeps the header it has; without one it gets the token in memory, else the stored one. */
  lemma CallGoesOut(s: Session, url: string, token: string)
    ensures OnBegin(s, url, Some(token)).calls == s.calls[s.nextId := Call(url, Some(token), false, InFlight, 1, 0)]
    ensures s.store.accessToken == Some(token) && token != "" ==>
      OnBegin(s, url, None).calls == s.calls[s.nextId := Call(url, Some(token), false, InFlight, 1, 0)]
    ensures s.store.accessToken in {None, Some("")} && s.store.storedToken == Some(token) && token != "" ==>
      OnBegin(s, url, None).calls == s.calls[s.nextId := Call(url, Some(token), false, InFlight, 1, 0)]
    ensures s.store.accessToken in {None, Some("")} && s.store.storedToken in {None, Some("")} ==>
      OnBegin(s, url, None).calls == s.calls[s.nextId := Call(url, None, false, InFlight, 1, 0)]
    ensures OnBegin(s, url, None).store == s.store && OnBegin(s, url, None).nextId == s.nextId + 1
  {
  }

  ghost predicate Mentions(url: string, part: string) {
    exists before: string, after: string :: url == before + part + after
  }

  /** The endpoints of the session itself, anywhere in the address. */
  ghost predicate IsOwnEndpoint(url: string) {
    Mentions(url, "auth/login") || Mentions(url, "auth/refresh") || Mentions(url, "auth/me")
  }

  lemma ExemptIs(url: string)
    ensures IsExempt(url) <==> IsOwnEndpoint(url)
  {
    ContainsAnywhere(url, "auth/login");
    ContainsAnywhere(url, "auth/refresh");
    ContainsAnywhere(url, "auth/me");
    hide Contains;
  }

  /** A status from 200 to 299 ends a call well. The first 401 of a call starts a refresh, unless it comes from an
      endpoint of the session; any other status, a second 401 and a failed connection end it badly. */
  lemma AnswerArrives(s: Session, id: nat, status: Option<nat>)
    requires id in s.calls
    ensures var call, after := s.calls[id], OnRespond(s, id, status);
      && after.store == s.store && after.nextId == s.nextId && after.leaving == s.leaving
      && (status.Some? && 200 <= status.value <= 299 ==> after.calls == s.calls[id := call.(phase := Done)])
      && (status == Some(401) && !call.retry && !IsOwnEndpoint(call.url) ==>
            after.calls == s.calls[id := call.(retry := true, phase := Refreshing, refreshes := call.refreshes + 1)])
      && (status == Some(401) && (call.retry || IsOwnEndpoint(call.url)) ==> after.calls == s.calls[id := call.(phase := Rejected)])
      && (status.None? || (status != Some(401) && !(200 <= status.value <= 299)) ==>
            after.calls == s.calls[id := call.(phase := Rejected)])
  {
    ExemptIs(s.calls[id].url);
    hide IsExempt, IsOwnEndpoint;
  }

  /** A call in flight can be answered and a refresh can end, in any order and way; all else can happen at any time. */
  lemma CanHappen(s: Session, e: Event)
    ensures e.Respond? ==> (Enabled(s, e) <==> e.id in s.calls && s.calls[e.id].phase == InFlight)
    ensures e.RefreshEnds? ==> (Enabled(s, e) <==> e.id in s.calls && s.calls[e.id].phase == Refreshing)
    ensures !e.Respond? && !e.RefreshEnds? ==> Enabled(s, e)
  {
  }

  /** A page load forgets the calls of the page before; the store's own actions leave calls alone. */
  lemma StoreEvents(s: Session, user: User, token: string, hydrated: bool)
    ensures Step(s, DoReload) == Session(Reload(s.store), map[], s.nextId, false)
    ensures Step(s, DoSetUser(user)) == Session(SetUser(s.store, user), s.calls, s.nextId, s.leaving)
    ensures Step(s, DoSetAuth(token, user)) == Session(SetAuth(s.store, token, user), s.calls, s.nextId, s.leaving)
    ensures Step(s, DoClearAuth) == Session(ClearAuth(s.store), s.calls, s.nextId, s.leaving)
    ensures Step(s, DoHydrate) == Session(Hydrate(s.store), s.calls, s.nextId, s.leaving)
    ensures Step(s, DoSetHydrated(hydrated)) == Session(s.store.(isHydrating := !hydrated), s.calls, s.nextId, s.leaving)
  {
  }

  /** A refused refresh clears the session and leaves the page. */
  lemma RefreshRefused(s: Session, id: nat)
    requires id in s.calls
    ensures OnRefreshEnds(s, id, Refused) ==
      Session(Store(None, false, None, false, None, None, None, None, None), s.calls[id := s.calls[id].(phase := Rejected)], s.nextId, true)
  {
  }

  /** A refresh that brings a token and a user sets both, and the call goes out with the token. */
  lemma RefreshGranted(s: Session, id: nat, token: string, user: User)
    requires id in s.calls && token != ""
    ensures var after, call := OnRefreshEnds(s, id, Refreshed(Some(token), Some(user))), s.calls[id];
      && after.store == Store(Some(user), true, Some(token), false, Some(Json(user)), Some(token), s.store.storedRefresh, Some(token),
           s.store.refreshCookie)
      && after.calls == s.calls[id := call.(header := Some(token), phase := InFlight, sent := call.sent + 1)]
      && after.nextId == s.nextId && after.leaving == s.leaving
  {
  }

  /** One that brings a user but no token sets the user; one without a user changes nothing in the store, not even the
      token if it brings one. The call goes out again. */
  lemma RefreshPartly(s: Session, id: nat, token: Option<string>, user: User)
    requires id in s.calls
    ensures token in {None, Some("")} ==> var after := OnRefreshEnds(s, id, Refreshed(token, Some(user)));
      after.store == s.store.(user := Some(user), isAuthenticated := true, storedUser := Some(Json(user)))
    ensures OnRefreshEnds(s, id, Refreshed(token, None)).store == s.store
    ensures OnRefreshEnds(s, id, Refreshed(token, None)).calls.Keys == s.calls.Keys
    ensures forall other :: other in s.calls && other != id ==> OnRefreshEnds(s, id, Refreshed(token, None)).calls[other] == s.calls[other]
  {
  }
}
