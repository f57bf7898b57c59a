/** The calm steps of ServiceWorker are exactly the ones that keep a request up to date: after any other
    step some calm continuation hands out an answer that is not the newest. */
module ServiceWorkerOverlap {
  import opened Common
  import opened ServiceWorker

  /** The request is calm in all that follows, and yet somebody gets an answer that is not the newest. */
  ghost predicate Broken(s: State, r: Request) {
    exists more :: Run(s, more).Some? && CalmRun(s, more, r) && !AllGotNewest(Run(s, more).value, r)
  }

  lemma {:induction false} RunCons(s: State, e: Event, more: seq<Event>, r: Request)
    requires Enabled(s, e)
    ensures Run(s, [e] + more) == Run(Step(s, e), more)
    ensures IsCalm(s, e, r) && CalmRun(Step(s, e), more, r) ==> CalmRun(s, [e] + more, r)
    decreases |more|
  {
    var all := [e] + more;
    assert Run(s, []) == Some(s) && CalmRun(s, [], r);
    if more == [] {
      assert all[..0] == [];
      hide Step, IsCalm;
    } else {
      var init := more[..|more| - 1];
      RunCons(s, e, init, r);
      assert all[..|all| - 1] == [e] + init && all[|all| - 1] == more[|more| - 1];
      hide Step, IsCalm, Enabled;
    }
  }

  lemma BrokenNow(s: State, r: Request)
    requires !AllGotNewest(s, r)
    ensures Broken(s, r)
  {
    assert Run(s, []) == Some(s) && CalmRun(s, [], r);
  }

  /** What breaks after a calm step can break before it. */
  lemma BrokenBefore(s: State, e: Event, r: Request)
    requires Enabled(s, e) && IsCalm(s, e, r) && Broken(Step(s, e), r)
    ensures Broken(s, r)
  {
    var more :| Run(Step(s, e), more).Some? && CalmRun(Step(s, e), more, r) && !AllGotNewest(Run(Step(s, e), more).value, r);
    RunCons(s, e, more, r);
    hide Run, CalmRun, AllGotNewest, Step, Enabled, IsCalm;
    assert Run(s, [e] + more).Some?;
  }

  /** Requests are served, and this one is served from the cache first. */
  predicate Serves(s: State, r: Request) {
    s.active && IsHandled(r) && !IsNetworkFirst(r)
  }

  ghost predicate OnlyTasks(s: State, r: Request, ids: set<nat>) {
    && FreshIds(s)
    && (forall id :: id in ids ==> id in s.tasks && s.tasks[id].request == r)
    && (forall id :: id in s.tasks && s.tasks[id].request == r ==> id in ids)
  }

  lemma HandedOld(s: State, r: Request, response: Option<Response>, cached: bool)
    requires Newest(s.given, r).Some? && response != Newest(s.given, r)
    ensures !AllGotNewest(Hand(s, r, response, cached), r)
  {
    var t := Hand(s, r, response, cached);
    var h := Handed(r, response, cached, |s.given|);
    assert t.given[..h.seen] == s.given;
    hide Newest;
    assert h in t.handed && !GotNewest(h, t.given, r);
  }

  // ----- A cache that is behind -----

  ghost predicate Behind(s: State, r: Request) {
    Newest(s.given, r).Some? && Match(s.caches, r) != Newest(s.given, r)
  }

  /** An answer that is not this one. */
  function Another(response: Response): (r: Response)
    ensures r != response && r.status != 200
  {
    if response.status == 404 then Response(405, "") else Response(404, "")
  }

  lemma MissBreaks(s: State, r: Request, k: nat)
    requires k in s.tasks && s.tasks[k] == Fetching(r, Miss) && Newest(s.given, r).Some?
    ensures Broken(s, r)
  {
    var y := Another(Newest(s.given, r).value);
    HandedOld(s, r, Some(y), false);
    var t := OnAnswer(s, k, y);
    if AllGotNewest(t, r) {
      AllGotNewestOnly(t, Hand(s, r, Some(y), false), r);
    }
    BrokenNow(t, r);
    hide Broken, AllGotNewest, Newest;
    BrokenBefore(s, Answer(k, y), r);
  }

  lemma LookupBreaks(s: State, r: Request, k: nat)
    requires k in s.tasks && s.tasks[k] == Looking(r) && Behind(s, r)
    ensures Broken(s, r)
  {
    var found := Match(s.caches, r);
    var t := OnResolve(s, k);
    if found.Some? {
      HandedOld(s.(tasks := s.tasks[k := Fetching(r, Refresh)]), r, found, true);
      BrokenNow(t, r);
    } else {
      MissBreaks(t, r, k);
    }
    hide Broken, AllGotNewest, Newest, Match;
    BrokenBefore(s, Resolve(k), r);
  }

  /** Nothing is under way: the next request shows it. */
  lemma BehindBreaks(s: State, r: Request)
    requires Serves(s, r) && OnlyTasks(s, r, {}) && Behind(s, r)
    ensures Broken(s, r)
  {
    hide Broken, Newest, Match;
    LookupBreaks(OnFetch(s, r), r, s.nextId);
    BrokenBefore(s, Fetch(r), r);
  }

  /** One put of an answer that is not the newest. */
  lemma OldPutBreaks(s: State, r: Request, i: nat, older: Response)
    requires Serves(s, r) && OnlyTasks(s, r, {i}) && s.tasks[i] == Putting(r, older)
    requires Newest(s.given, r).Some? && Newest(s.given, r) != Some(older)
    ensures Broken(s, r)
  {
    hide Broken, Newest;
    var t := OnStore(s, i);
    assert Match(t.caches, r) == Some(older);
    BehindBreaks(t, r);
    BrokenBefore(s, Store(i), r);
  }

  // ----- Two tasks of one request -----

  lemma PutsBreak(s: State, r: Request, i: nat, j: nat, older: Response, newer: Response)
    requires Serves(s, r) && i != j && OnlyTasks(s, r, {i, j})
    requires s.tasks[i] == Putting(r, older) && s.tasks[j] == Putting(r, newer)
    requires Newest(s.given, r) == Some(newer) && older != newer
    ensures Broken(s, r)
  {
    hide Broken, Newest;
    OldPutBreaks(OnStore(s, j), r, i, older);
    BrokenBefore(s, Store(j), r);
  }

  /** The answer the network gives to task j while an older one is still to be put. */
  lemma PutAndFetchBreak(s: State, r: Request, i: nat, j: nat, older: Response, purpose: Purpose)
    requires Serves(s, r) && i != j && OnlyTasks(s, r, {i, j})
    requires s.tasks[i] == Putting(r, older) && s.tasks[j] == Fetching(r, purpose)
    ensures Broken(s, r)
  {
    hide Broken, Newest;
    var newer := Response(200, if older.content == "" then "newer" else "");
    var t := OnAnswer(s, j, newer);
    NewestSnoc(s.given, Given(r, newer), r);
    PutsBreak(t, r, i, j, older, newer);
    BrokenBefore(s, Answer(j, newer), r);
  }

  lemma FetchesBreak(s: State, r: Request, i: nat, j: nat, one: Purpose, other: Purpose)
    requires Serves(s, r) && i != j && OnlyTasks(s, r, {i, j})
    requires s.tasks[i] == Fetching(r, one) && s.tasks[j] == Fetching(r, other)
    ensures Broken(s, r)
  {
    hide Broken, Newest;
    var older := Response(200, "older");
    PutAndFetchBreak(OnAnswer(s, i, older), r, i, j, older, other);
    BrokenBefore(s, Answer(i, older), r);
  }

  /** Task j is still looking into the cache. */
  lemma AnyAndLookupBreak(s: State, r: Request, i: nat, j: nat)
    requires Serves(s, r) && i != j && OnlyTasks(s, r, {i, j})
    requires s.tasks[j] == Looking(r) && !s.tasks[i].FallingBack?
    ensures Broken(s, r)
  {
    hide Broken, Newest, Match;
    var purpose := if Match(s.caches, r).Some? then Refresh else Miss;
    var t := OnResolve(s, j);
    assert t.tasks == s.tasks[j := Fetching(r, purpose)];
    match s.tasks[i]
    case Putting(_, older) =>
      PutAndFetchBreak(t, r, i, j, older, purpose);
      BrokenBefore(s, Resolve(j), r);
    case Fetching(_, one) =>
      FetchesBreak(t, r, i, j, one, purpose);
      BrokenBefore(s, Resolve(j), r);
    case Looking(_) =>
      var u := OnResolve(t, i);
      assert u.tasks == t.tasks[i := Fetching(r, purpose)];
      FetchesBreak(u, r, i, j, purpose, purpose);
      BrokenBefore(t, Resolve(i), r);
      BrokenBefore(s, Resolve(j), r);
  }

  // ----- Exactly the calm steps are safe -----

  lemma FetchWhileBusyBreaks(s: State, r: Request)
    requires UpToDate(s, r) && Serves(s, r) && Busy(s, r)
    ensures Broken(OnFetch(s, r), r)
  {
    var i :| i in s.tasks && s.tasks[i].request == r;
    assert TaskInStep(s.tasks[i], Newest(s.given, r));
    hide Broken, Newest, Match, AllGotNewest;
    AnyAndLookupBreak(OnFetch(s, r), r, i, s.nextId);
  }

  lemma InstallAcrossBreaks(s: State, answers: map<Request, Response>, r: Request)
    requires UpToDate(s, r) && Serves(s, r) && !IsCalm(s, Install(answers), r)
    ensures Broken(OnInstall(s, answers), r)
  {
    var i :| i in s.tasks && s.tasks[i].request == r && !Bears(s.tasks[i], answers[r]);
    assert TaskInStep(s.tasks[i], Newest(s.given, r));
    var t := OnInstall(s, answers);
    NewestOfInstall(s.given, STATIC_ASSETS, answers, r);
    hide Broken, Newest, Match, AllGotNewest, AllOk, GivenFor;
    assert Newest(t.given, r) == Some(answers[r]);
    if s.tasks[i].Putting? {
      OldPutBreaks(t, r, i, s.tasks[i].response);
    } else {
      MissBreaks(t, r, i);
    }
  }

  lemma LostPutBreaks(s: State, id: nat, r: Request)
    requires UpToDate(s, r) && Serves(s, r) && Enabled(s, Reject(id)) && !IsCalm(s, Reject(id), r)
    ensures Broken(End(s, id), r)
  {
    assert TaskInStep(s.tasks[id], Newest(s.given, r));
    hide Broken, Newest, Match, AllGotNewest;
    BehindBreaks(End(s, id), r);
  }

  lemma CalmOrBroken(s: State, e: Event, r: Request)
    requires UpToDate(s, r) && Serves(s, r) && Enabled(s, e)
    ensures IsCalm(s, e, r) <==> !Broken(Step(s, e), r)
  {
    if IsCalm(s, e, r) {
      StepUpToDate(s, e, r);
      var t := Step(s, e);
      forall more | Run(t, more).Some? && CalmRun(t, more, r)
        ensures AllGotNewest(Run(t, more).value, r)
      {
        CalmUpToDate(t, more, r);
      }
      hide Step, IsCalm, UpToDate, AllGotNewest;
    } else {
      hide UpToDate, Broken;
      match e
      case Fetch(q) => FetchWhileBusyBreaks(s, r);
      case Install(answers) => InstallAcrossBreaks(s, answers, r);
      case Reject(id) => LostPutBreaks(s, id, r);
    }
  }

  /** Whoever asks gets the newest answer in every calm continuation. */
  ghost predicate StaysNewest(s: State, r: Request) {
    forall more :: Run(s, more).Some? && CalmRun(s, more, r) ==> AllGotNewest(Run(s, more).value, r)
  }

  lemma StaysNewestIs(s: State, r: Request)
    ensures StaysNewest(s, r) <==> !Broken(s, r)
  {
    hide Run, CalmRun, AllGotNewest;
  }

  /** In a state in which a request is up to date, a step keeps it so over every calm continuation (whoever
      asks after an answer was given gets the newest one) if and only if the step is calm: the request is
      not made again while busy, an install does not cross its put or miss, and no put is lost. */
  lemma CalmIsExact(s: State, e: Event, r: Request)
    requires UpToDate(s, r) && Serves(s, r) && Enabled(s, e)
    ensures IsCalm(s, e, r) <==> StaysNewest(Step(s, e), r)
  {
    hide UpToDate, Serves, Enabled, IsCalm, StaysNewest, Step, Broken;
    CalmOrBroken(s, e, r);
    StaysNewestIs(Step(s, e), r);
  }

  /** So at a reachable state of a calm run the request may be made again if and only if it is not busy. */
  lemma RefetchExactly(start: State, es: seq<Event>, r: Request)
    requires IsStart(start) && Run(start, es).Some? && CalmRun(start, es, r) && Serves(Run(start, es).value, r)
    ensures StaysNewest(OnFetch(Run(start, es).value, r), r) <==> !Busy(Run(start, es).value, r)
  {
    hide Run, CalmRun, UpToDate, Broken, StaysNewest, Busy, IsStart, OnFetch;
    StartUpToDate(start, r);
    CalmUpToDate(start, es, r);
    var s := Run(start, es).value;
    CalmIsExact(s, Fetch(r), r);
  }
}
