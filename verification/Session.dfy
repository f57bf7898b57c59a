/** The auth store and the API client as objects, proved against SessionModel. */
module Session {
  import opened Common
  import M = SessionModel

  class AuthStore {
    var user: Option<M.User>
    var isAuthenticated: bool
    var accessToken: Option<string>
    var isHydrating: bool
    var storedUser: Option<M.Text>
    var storedToken: Option<string>
    var storedRefresh: Option<string>
    var accessCookie: Option<string>
    var refreshCookie: Option<string>

    ghost function View(): M.Store
      reads this
    {
      M.Store(user, isAuthenticated, accessToken, isHydrating, storedUser, storedToken, storedRefresh, accessCookie, refreshCookie)
    }

    /** Authenticated means that there is a user, and that user is the stored one. */
    ghost predicate Valid()
      reads this
    {
      M.InSync(View())
    }

    /** A page load over what session storage and cookies hold. */
    constructor (storedUser: Option<M.Text>, storedToken: Option<string>, storedRefresh: Option<string>,
        accessCookie: Option<string>, refreshCookie: Option<string>)
      ensures View() == M.Store(None, false, None, true, storedUser, storedToken, storedRefresh, accessCookie, refreshCookie)
      ensures Valid()
    {
      user, isAuthenticated, accessToken, isHydrating := None, false, None, true;
      this.storedUser, this.storedToken, this.storedRefresh := storedUser, storedToken, storedRefresh;
      this.accessCookie, this.refreshCookie := accessCookie, refreshCookie;
    }

    method SetUser(newUser: M.User)
      modifies this
      ensures View() == M.SetUser(old(View()), newUser) && Valid()
      ensures M.Restored(View()).user == Some(newUser)
    {
      storedUser := Some(M.Json(newUser));
      user, isAuthenticated := Some(newUser), true;
    }

    method ClearAuth()
      modifies this
      ensures View() == M.ClearAuth(old(View())) && Valid()
      ensures M.Restored(View()).user == None && M.Restored(View()).accessToken == None
    {
      storedUser, storedToken, storedRefresh := None, None, None;
      accessCookie, refreshCookie := None, None;
      user, isAuthenticated, accessToken, isHydrating := None, false, None, false;
    }

    method SetAuth(token: string, newUser: M.User)
      modifies this
      ensures View() == M.SetAuth(old(View()), token, newUser) && Valid()
      ensures M.Restored(View()).user == Some(newUser) && (token != "" ==> M.Restored(View()).accessToken == Some(token))
    {
      storedUser := Some(M.Json(newUser));
      if token != "" {
        storedToken := Some(token);
        accessCookie := Some(token);
      }
      user, isAuthenticated, accessToken, isHydrating := Some(newUser), true, Some(token), false;
    }

    method HydrateFromStorage() returns (found: bool)
      requires Valid()
      modifies this
      ensures View() == M.Hydrate(old(View())) && Valid()
      ensures found == user.Some? && user == M.Read(old(storedUser)) == M.Restored(View()).user
    {
      if user.Some? {
        isHydrating := false;
        return true;
      }
      var saved := M.Read(storedUser);
      var token := storedToken;
      if !M.Truthy(token) {
        token := if M.Truthy(accessCookie) then accessCookie else None;
      }
      if saved.Some? {
        user, isAuthenticated, accessToken, isHydrating := saved, true, token, false;
        return true;
      }
      isHydrating := false;
      return false;
    }

    method SetHydrated(hydrated: bool)
      requires Valid()
      modifies this
      ensures View() == old(View()).(isHydrating := !hydrated) && Valid()
    {
      isHydrating := !hydrated;
    }
  }

  /** What the client does next with a call. */
  datatype Outcome = Resolve | Reject | Refresh(refreshToken: Option<string>)

  class ApiClient {
    const store: AuthStore
    var calls: map<nat, M.Call>
    var nextId: nat
    var leaving: bool

    ghost function View(): M.Session
      reads this, store
    {
      M.Session(store.View(), calls, nextId, leaving)
    }

    /** Every call has been sent at most twice and has started at most one refresh. */
    ghost predicate Valid()
      reads this, store
    {
      store.Valid() && M.CallsInv(View())
    }

    constructor (store: AuthStore)
      requires store.View() == M.Reload(store.View())
      ensures this.store == store && M.IsStart(View()) && Valid()
    {
      this.store, calls, nextId, leaving := store, map[], 0, false;
    }

    /** The request interceptor. */
    method Intercept(call: M.Call) returns (sent: M.Call)
      ensures call.header.Some? ==> sent.header == call.header
      ensures call.header.None? && M.Truthy(store.accessToken) ==> sent.header == store.accessToken
      ensures call.header.None? && !M.Truthy(store.accessToken) && M.Truthy(store.storedToken) ==> sent.header == store.storedToken
      ensures call.header.None? && !M.Truthy(store.accessToken) && !M.Truthy(store.storedToken) ==> sent.header == None
      ensures sent == call.(header := sent.header, phase := M.InFlight, sent := call.sent + 1)
    {
      var token := store.accessToken;
      if !M.Truthy(token) {
        token := store.storedToken;
      }
      sent := call;
      if M.Truthy(token) && call.header.None? {
        sent := sent.(header := token);
      }
      sent := sent.(phase := M.InFlight, sent := sent.sent + 1);
    }

    method BeginCall(url: string, authorization: Option<string>) returns (id: nat)
      requires Valid()
      modifies this
      ensures View() == M.OnBegin(old(View()), url, authorization) && Valid()
      ensures id == old(nextId) && calls[id].sent == 1
    {
      M.StepCalls(View(), M.Begin(url, authorization));
      hide M.CallsInv, M.IsExempt;
      id := nextId;
      var sent := Intercept(M.Call(url, authorization, false, M.InFlight, 0, 0));
      calls, nextId := calls[id := sent], nextId + 1;
    }

    /** The response interceptor down to its request for a refresh. */
    method HandleResponse(id: nat, status: Option<nat>) returns (outcome: Outcome)
      requires Valid() && M.Enabled(View(), M.Respond(id, status))
      modifies this
      ensures View() == M.OnRespond(old(View()), id, status) && Valid()
      ensures outcome.Refresh? ==> old(calls)[id].refreshes == 0 && old(calls)[id].sent == 1
      ensures outcome.Resolve? == M.IsSuccess(status)
      // The refresh is asked for with the cookie's token, else the stored one, else with none.
      ensures outcome.Refresh? && M.Truthy(store.refreshCookie) ==> outcome.refreshToken == store.refreshCookie
      ensures outcome.Refresh? && !M.Truthy(store.refreshCookie) ==>
        outcome.refreshToken == if M.Truthy(store.storedRefresh) then store.storedRefresh else None
      ensures outcome.Refresh? == (calls[id].phase == M.Refreshing)
    {
      M.StepCalls(View(), M.Respond(id, status));
      assert M.CallInv(calls[id]);
      hide M.IsExempt, M.CallsInv;
      var call := calls[id];
      if M.IsSuccess(status) {
        calls := calls[id := call.(phase := M.Done)];
        return Resolve;
      }
      if status == Some(401) && !call.retry {
        if M.IsExempt(call.url) {
          calls := calls[id := call.(phase := M.Rejected)];
          return Reject;
        }
        call := call.(retry := true);
        var refreshToken := if M.Truthy(store.refreshCookie) then store.refreshCookie
          else if M.Truthy(store.storedRefresh) then store.storedRefresh else None;
        calls := calls[id := call.(phase := M.Refreshing, refreshes := call.refreshes + 1)];
        return Refresh(refreshToken);
      }
      calls := calls[id := call.(phase := M.Rejected)];
      return Reject;
    }

    /** The rest of the response interceptor, once the refresh is answered. */
    method HandleRefreshed(id: nat, answer: M.Refreshed)
      requires Valid() && M.Enabled(View(), M.RefreshEnds(id, answer))
      modifies this, store
      ensures View() == M.OnRefreshEnds(old(View()), id, answer) && Valid()
      ensures answer.Refused? ==> M.Restored(store.View()).user == None && leaving
      ensures answer.Refreshed? ==> calls[id].sent == 2
      ensures answer.Refreshed? && answer.user.Some? ==> M.Restored(store.View()).user == store.user == answer.user
    {
      M.StepCalls(View(), M.RefreshEnds(id, answer));
      assert M.CallInv(calls[id]);
      hide M.CallsInv, M.IsExempt;
      var call := calls[id];
      match answer {
        case Refused =>
          store.ClearAuth();
          calls := calls[id := call.(phase := M.Rejected)];
          leaving := true;
        case Refreshed(token, user) =>
          if M.Truthy(token) && user.Some? {
            store.SetAuth(token.value, user.value);
            call := call.(header := token);
          } else if user.Some? {
            store.SetUser(user.value);
          }
          var sent := Intercept(call);
          calls := calls[id := sent];
      }
    }
  }
}
