/** The service worker of the public site: one cache, filled at install and by refreshes that finish in
    any order, in front of a network whose answers are arbitrary. */
module ServiceWorker {
  import opened Common

  const CACHE_NAME := "tfx-shell-v1"

  /** A request is kept in the cache under its whole address. */
  datatype Request = Request(isGet: bool, isOwnOrigin: bool, path: string, query: string)

  datatype Response = Response(status: nat, content: string)

  const STATIC_ASSETS: seq<Request> := [
    Request(true, true, "/", ""),
    Request(true, true, "/manifest.json", ""),
    Request(true, true, "/favicon.png", ""),
    Request(true, true, "/icons/icon-192.png", ""),
    Request(true, true, "/icons/icon-512.png", "")
  ]

  predicate IsHandled(request: Request) { request.isGet && request.isOwnOrigin }

  predicate IsNetworkFirst(request: Request) {
    "/api" <= request.path || "/blog" <= request.path || "/portfolio" <= request.path
  }

  /** The answers `addAll` accepts. */
  predicate IsOk(response: Response) { 200 <= response.status <= 299 && response.status != 206 }

  type Cache = map<Request, Response>

  datatype Purpose = NetworkFirst | Miss | Refresh

  /** What a handler is waiting for. */
  datatype Task =
    | Looking(request: Request)
    | Fetching(request: Request, purpose: Purpose)
    | FallingBack(request: Request)
    | Putting(request: Request, response: Response)

  /** An answer of the network that may be stored. */
  datatype Given = Given(request: Request, response: Response)

  /** What the page got: `seen` counts the answers given before. */
  datatype Handed = Handed(request: Request, response: Option<Response>, cached: bool, seen: nat)

  datatype State = State(
    installed: bool,
    active: bool,
    caches: map<string, Cache>,
    tasks: map<nat, Task>,
    nextId: nat,
    given: seq<Given>,
    handed: seq<Handed>)

  datatype Event =
    | Install(answers: map<Request, Response>)
    | Activate
    | Fetch(request: Request)
    | Resolve(id: nat)
    | Answer(id: nat, response: Response)
    | Fail(id: nat)
    | Store(id: nat)
    | Reject(id: nat)

  function Own(caches: map<string, Cache>): Cache {
    if CACHE_NAME in caches then caches[CACHE_NAME] else map[]
  }

  /** `caches.match` looks through all caches; while requests are served there is only one. */
  function Match(caches: map<string, Cache>, request: Request): Option<Response> {
    if request in Own(caches) then Some(Own(caches)[request]) else None
  }

  predicate AllOk(answers: map<Request, Response>) {
    forall asset <- STATIC_ASSETS :: asset in answers && IsOk(answers[asset])
  }

  function GivenFor(assets: seq<Request>, answers: map<Request, Response>): (given: seq<Given>)
    requires forall asset <- assets :: asset in answers
    ensures |given| == |assets|
    ensures forall i :: 0 <= i < |assets| ==> given[i] == Given(assets[i], answers[assets[i]])
  {
    seq(|assets|, i requires 0 <= i < |assets| => Given(assets[i], answers[assets[i]]))
  }

  // ----- The handlers, cut where they wait -----

  /** All or nothing: one bad answer and none is stored. */
  function OnInstall(s: State, answers: map<Request, Response>): State {
    if !AllOk(answers) then s.(caches := s.caches[CACHE_NAME := Own(s.caches)])
    else
      var shell := map asset | asset in STATIC_ASSETS :: answers[asset];
      s.(installed := true, caches := s.caches[CACHE_NAME := Own(s.caches) + shell], given := s.given + GivenFor(STATIC_ASSETS, answers))
  }

  function OnActivate(s: State): State {
    s.(active := true, caches := map name | name in s.caches && name == CACHE_NAME :: s.caches[name])
  }

  function Begin(s: State, task: Task): State {
    s.(tasks := s.tasks[s.nextId := task], nextId := s.nextId + 1)
  }

  function OnFetch(s: State, request: Request): State {
    if !IsHandled(request) then s
    else if IsNetworkFirst(request) then Begin(s, Fetching(request, NetworkFirst))
    else Begin(s, Looking(request))
  }

  function Hand(s: State, request: Request, response: Option<Response>, cached: bool): State {
    s.(handed := s.handed + [Handed(request, response, cached, |s.given|)])
  }

  function End(s: State, id: nat): State {
    s.(tasks := s.tasks - {id})
  }

  /** A lookup is over. */
  function OnResolve(s: State, id: nat): State
    requires id in s.tasks
  {
    var request := s.tasks[id].request;
    var found := Match(s.caches, request);
    if s.tasks[id].FallingBack? then Hand(End(s, id), request, found, found.Some?)
    else if found.Some? then Hand(s.(tasks := s.tasks[id := Fetching(request, Refresh)]), request, found, true)
    else s.(tasks := s.tasks[id := Fetching(request, Miss)])
  }

  /** The network answered: the page gets the answer unless it already has one, and a 200 will be stored. */
  function OnAnswer(s: State, id: nat, response: Response): State
    requires id in s.tasks && s.tasks[id].Fetching?
  {
    var request := s.tasks[id].request;
    var handed := if s.tasks[id].purpose == Refresh then s else Hand(s, request, Some(response), false);
    if response.status == 200
    then handed.(tasks := handed.tasks[id := Putting(request, response)], given := handed.given + [Given(request, response)])
    else End(handed, id)
  }

  function OnFail(s: State, id: nat): State
    requires id in s.tasks && s.tasks[id].Fetching?
  {
    var request := s.tasks[id].request;
    match s.tasks[id].purpose
    case NetworkFirst => s.(tasks := s.tasks[id := FallingBack(request)])
    case Miss => Hand(End(s, id), request, None, false)
    case Refresh => End(s, id)
  }

  function OnStore(s: State, id: nat): State
    requires id in s.tasks && s.tasks[id].Putting?
  {
    var task := s.tasks[id];
    End(s, id).(caches := s.caches[CACHE_NAME := Own(s.caches)[task.request := task.response]])
  }

  ghost predicate Enabled(s: State, e: Event) {
    match e
    case Install(answers) => true
    case Activate => s.installed
    case Fetch(request) => s.active
    case Resolve(id) => id in s.tasks && (s.tasks[id].Looking? || s.tasks[id].FallingBack?)
    case Answer(id, response) => id in s.tasks && s.tasks[id].Fetching?
    case Fail(id) => id in s.tasks && s.tasks[id].Fetching?
    case Store(id) => id in s.tasks && s.tasks[id].Putting?
    case Reject(id) => id in s.tasks && s.tasks[id].Putting?
  }

  ghost function Step(s: State, e: Event): State
    requires Enabled(s, e)
  {
    match e
    case Install(answers) => OnInstall(s, answers)
    case Activate => OnActivate(s)
    case Fetch(request) => OnFetch(s, request)
    case Resolve(id) => OnResolve(s, id)
    case Answer(id, response) => OnAnswer(s, id, response)
    case Fail(id) => OnFail(s, id)
    case Store(id) => OnStore(s, id)
    case Reject(id) => End(s, id)
  }

  /** Before the first install there may be caches of earlier versions. */
  ghost predicate IsStart(s: State) {
    !s.installed && !s.active && CACHE_NAME !in s.caches && s.tasks == map[] && s.given == [] && s.handed == []
  }

  ghost function Run(start: State, es: seq<Event>): Option<State> {
    if es == [] then Some(start)
    else
      match Run(start, es[..|es| - 1])
      case None => None
      case Some(s) => if Enabled(s, es[|es| - 1]) then Some(Step(s, es[|es| - 1])) else None
  }

  // ----- The cache holds what the network gave -----

  ghost predicate IsGood(given: Given) {
    given.response.status == 200 || (given.request in STATIC_ASSETS && IsOk(given.response))
  }

  ghost predicate AllGood(s: State) { forall g <- s.given :: IsGood(g) }

  ghost predicate CacheGiven(s: State) {
    forall request :: request in Own(s.caches) ==> Given(request, Own(s.caches)[request]) in s.given
  }

  ghost predicate PutsGiven(s: State) {
    forall id :: id in s.tasks && s.tasks[id].Putting? ==> Given(s.tasks[id].request, s.tasks[id].response) in s.given
  }

  /** What was handed out of the cache had been given by then. */
  ghost predicate WasGiven(h: Handed, given: seq<Given>) {
    h.cached ==>
      h.response.Some? && exists i :: 0 <= i < |given| && i < h.seen && given[i] == Given(h.request, h.response.value)
  }

  ghost predicate HandedGiven(s: State) { forall h <- s.handed :: WasGiven(h, s.given) }

  ghost predicate OneCache(s: State) { s.active ==> s.caches.Keys <= {CACHE_NAME} }

  ghost predicate FreshIds(s: State) { forall id :: id in s.tasks ==> id < s.nextId }

  ghost predicate Inv(s: State) {
    AllGood(s) && CacheGiven(s) && PutsGiven(s) && HandedGiven(s) && OneCache(s) && FreshIds(s)
  }

  lemma StartInv(s: State)
    requires IsStart(s)
    ensures Inv(s)
  {
  }

  lemma WasGivenGrows(h: Handed, given: seq<Given>, more: seq<Given>)
    requires WasGiven(h, given)
    ensures WasGiven(h, given + more)
  {
    if h.cached {
      var i :| 0 <= i < |given| && i < h.seen && given[i] == Given(h.request, h.response.value);
      assert (given + more)[i] == given[i];
    }
  }

  lemma GrowsKeeps(s: State, more: seq<Given>)
    requires Inv(s) && forall g <- more :: IsGood(g)
    ensures Inv(s.(given := s.given + more))
  {
    forall h | h in s.handed
      ensures WasGiven(h, s.given + more)
    {
      WasGivenGrows(h, s.given, more);
    }
  }

  lemma HandKeeps(s: State, request: Request, response: Option<Response>, cached: bool)
    requires Inv(s)
    requires cached ==> response.Some? && Given(request, response.value) in s.given
    ensures Inv(Hand(s, request, response, cached))
  {
    var h := Handed(request, response, cached, |s.given|);
    assert WasGiven(h, s.given);
    hide WasGiven;
  }

  lemma InstallKeeps(s: State, answers: map<Request, Response>)
    requires Inv(s)
    ensures Inv(OnInstall(s, answers))
  {
    if AllOk(answers) {
      var more := GivenFor(STATIC_ASSETS, answers);
      GrowsKeeps(s, more);
      var t := OnInstall(s, answers);
      forall request | request in Own(t.caches)
        ensures Given(request, Own(t.caches)[request]) in t.given
      {
        if request in STATIC_ASSETS {
          var i :| 0 <= i < |STATIC_ASSETS| && STATIC_ASSETS[i] == request;
          assert t.given[|s.given| + i] == Given(request, answers[request]);
        }
      }
      hide WasGiven, IsGood;
    }
  }

  lemma TaskKeeps(s: State, id: nat, task: Task)
    requires Inv(s) && id in s.tasks && (task.Putting? ==> Given(task.request, task.response) in s.given)
    ensures Inv(s.(tasks := s.tasks[id := task])) && Inv(End(s, id))
  {
    hide WasGiven, IsGood;
  }

  lemma ResolveKeeps(s: State, id: nat)
    requires Inv(s) && Enabled(s, Resolve(id))
    ensures Inv(OnResolve(s, id))
  {
    var request := s.tasks[id].request;
    var found := Match(s.caches, request);
    assert found.Some? ==> Given(request, found.value) in s.given;
    TaskKeeps(s, id, Fetching(request, Refresh));
    TaskKeeps(s, id, Fetching(request, Miss));
    hide Inv;
    if s.tasks[id].FallingBack? {
      HandKeeps(End(s, id), request, found, found.Some?);
    } else if found.Some? {
      HandKeeps(s.(tasks := s.tasks[id := Fetching(request, Refresh)]), request, found, true);
    }
  }

  lemma AnswerKeeps(s: State, id: nat, response: Response)
    requires Inv(s) && Enabled(s, Answer(id, response))
    ensures Inv(OnAnswer(s, id, response))
  {
    var request := s.tasks[id].request;
    HandKeeps(s, request, Some(response), false);
    var handed := if s.tasks[id].purpose == Refresh then s else Hand(s, request, Some(response), false);
    if response.status == 200 {
      var grown := handed.(given := handed.given + [Given(request, response)]);
      GrowsKeeps(handed, [Given(request, response)]);
      assert grown.given[|handed.given|] == Given(request, response);
      hide Inv;
      TaskKeeps(grown, id, Putting(request, response));
    } else {
      hide Inv;
      TaskKeeps(handed, id, Looking(request));
    }
  }

  lemma FailKeeps(s: State, id: nat)
    requires Inv(s) && Enabled(s, Fail(id))
    ensures Inv(OnFail(s, id))
  {
    hide Inv;
    var request := s.tasks[id].request;
    TaskKeeps(s, id, FallingBack(request));
    HandKeeps(End(s, id), request, None, false);
  }

  lemma StoreKeeps(s: State, id: nat)
    requires Inv(s) && Enabled(s, Store(id))
    ensures Inv(OnStore(s, id))
  {
    TaskKeeps(s, id, Looking(s.tasks[id].request));
    hide WasGiven, IsGood;
  }

  lemma StepKeeps(s: State, e: Event)
    requires Inv(s) && Enabled(s, e)
    ensures Inv(Step(s, e))
  {
    match e
    case Install(answers) => InstallKeeps(s, answers);
    case Activate => {
      assert Own(OnActivate(s).caches) == Own(s.caches);
      hide WasGiven, IsGood;
    }
    case Fetch(request) => { hide WasGiven, IsGood; }
    case Resolve(id) => ResolveKeeps(s, id);
    case Answer(id, response) => AnswerKeeps(s, id, response);
    case Fail(id) => FailKeeps(s, id);
    case Store(id) => StoreKeeps(s, id);
    case Reject(id) => TaskKeeps(s, id, Looking(s.tasks[id].request));
  }

  lemma {:induction false} ReachableInv(start: State, es: seq<Event>)
    requires IsStart(start) && Run(start, es).Some?
    ensures Inv(Run(start, es).value)
  {
    if es == [] {
      StartInv(start);
    } else {
      ReachableInv(start, es[..|es| - 1]);
      StepKeeps(Run(start, es[..|es| - 1]).value, es[|es| - 1]);
      hide Inv, Step, Enabled;
    }
  }

  /** Whatever the order in which lookups, fetches and puts finish, a response handed out of the cache
      was given before by the network for that very request, with status 200 or, for a static asset at
      install, with an ok status; and no cache of another version is left once requests are served. */
  lemma CachedWasGiven(start: State, es: seq<Event>, h: Handed)
    requires IsStart(start) && Run(start, es).Some?
    requires h in Run(start, es).value.handed && h.cached
    ensures var s := Run(start, es).value;
      && (s.active ==> s.caches.Keys <= {CACHE_NAME})
      && h.response.Some?
      && exists i :: 0 <= i < |s.given| && i < h.seen && s.given[i] == Given(h.request, h.response.value) && IsGood(s.given[i])
  {
    ReachableInv(start, es);
    var s := Run(start, es).value;
    assert WasGiven(h, s.given);
    var i :| 0 <= i < |s.given| && i < h.seen && s.given[i] == Given(h.request, h.response.value);
    assert s.given[i] in s.given;
  }

  // ----- The cache is up to date when refreshes do not overlap -----

  /** The last answer given for a request. */
  function Newest(given: seq<Given>, request: Request): Option<Response> {
    if given == [] then None
    else if given[|given| - 1].request == request then Some(given[|given| - 1].response)
    else Newest(given[..|given| - 1], request)
  }

  ghost predicate Busy(s: State, request: Request) {
    exists id :: id in s.tasks && s.tasks[id].request == request
  }

  /** May an answer be installed while this task is under way? */
  predicate Bears(task: Task, installed: Response) {
    match task
    case Looking(r) => true
    case Fetching(r, purpose) => purpose == Refresh
    case FallingBack(r) => false
    case Putting(r, response) => response == installed
  }

  /** The steps at which nothing about the request overlaps or is lost: it is not made while a refresh is
      under way, an install does not cross a put or a miss, and a put fails only if it would change nothing. */
  ghost predicate IsCalm(s: State, e: Event, request: Request) {
    match e
    case Fetch(r) => r == request ==> !Busy(s, request)
    case Install(answers) =>
      request in STATIC_ASSETS && AllOk(answers) ==>
        forall id :: id in s.tasks && s.tasks[id].request == request ==> Bears(s.tasks[id], answers[request])
    case Reject(id) =>
      id in s.tasks && s.tasks[id].Putting? && s.tasks[id].request == request ==> Match(s.caches, request) == Some(s.tasks[id].response)
    case Activate => true
    case Resolve(id) => true
    case Answer(id, response) => true
    case Fail(id) => true
    case Store(id) => true
  }

  ghost predicate CalmRun(start: State, es: seq<Event>, request: Request) {
    es != [] ==>
      && CalmRun(start, es[..|es| - 1], request)
      && (Run(start, es[..|es| - 1]).Some? ==> IsCalm(Run(start, es[..|es| - 1]).value, es[|es| - 1], request))
  }

  /** What is known while a task of the request is under way: a put carries the newest answer, and
      after a miss nothing has been given. */
  predicate TaskInStep(task: Task, newest: Option<Response>) {
    match task
    case Looking(r) => true
    case Fetching(r, purpose) => purpose == Refresh || (purpose == Miss && newest == None)
    case FallingBack(r) => false
    case Putting(r, response) => newest == Some(response)
  }

  ghost predicate PutPending(s: State, request: Request) {
    exists i :: i in s.tasks && s.tasks[i].request == request && s.tasks[i].Putting?
  }

  ghost predicate OneTask(s: State, request: Request) {
    forall i, j :: i in s.tasks && j in s.tasks && s.tasks[i].request == s.tasks[j].request == request ==> i == j
  }

  ghost predicate TasksInStep(s: State, request: Request) {
    forall i :: i in s.tasks && s.tasks[i].request == request ==> TaskInStep(s.tasks[i], Newest(s.given, request))
  }

  /** Unless a put is under way, the cache holds the newest answer. */
  ghost predicate InStep(s: State, request: Request) {
    && OneTask(s, request) && TasksInStep(s, request)
    && (!PutPending(s, request) ==> Newest(s.given, request) == Match(s.caches, request))
  }

  /** A page that asked after an answer had been given got the newest one. */
  ghost predicate GotNewest(h: Handed, given: seq<Given>, request: Request) {
    h.request == request ==>
      h.seen <= |given| && (Newest(given[..h.seen], request).Some? ==> h.response == Newest(given[..h.seen], request))
  }

  ghost predicate AllGotNewest(s: State, request: Request) {
    forall h <- s.handed :: GotNewest(h, s.given, request)
  }

  lemma GotNewestGrows(s: State, more: seq<Given>, request: Request)
    requires AllGotNewest(s, request)
    ensures AllGotNewest(s.(given := s.given + more), request)
  {
    forall h | h in s.handed
      ensures GotNewest(h, s.given + more, request)
    {
      assert GotNewest(h, s.given, request);
      if h.seen <= |s.given| {
        assert (s.given + more)[..h.seen] == s.given[..h.seen];
      }
    }
  }

  lemma HandGotNewest(s: State, r: Request, response: Option<Response>, cached: bool, request: Request)
    requires AllGotNewest(s, request)
    requires r == request ==> Newest(s.given, request) in {None, response}
    ensures AllGotNewest(Hand(s, r, response, cached), request)
  {
    assert s.given[..|s.given|] == s.given;
    hide Newest;
  }

  lemma NewestSnoc(given: seq<Given>, g: Given, request: Request)
    ensures Newest(given + [g], request) == if g.request == request then Some(g.response) else Newest(given, request)
  {
    assert (given + [g])[..|given|] == given;
  }

  /** The assets differ, so each has one answer per install. */
  lemma {:induction false} NewestOfInstall(given: seq<Given>, assets: seq<Request>, answers: map<Request, Response>, request: Request)
    requires forall asset <- assets :: asset in answers
    ensures Newest(given + GivenFor(assets, answers), request) ==
      if request in assets then Some(answers[request]) else Newest(given, request)
  {
    if assets == [] {
      assert given + GivenFor(assets, answers) == given;
    } else {
      var n := |assets| - 1;
      NewestOfInstall(given, assets[..n], answers, request);
      var g := Given(assets[n], answers[assets[n]]);
      assert given + GivenFor(assets, answers) == (given + GivenFor(assets[..n], answers)) + [g];
      NewestSnoc(given + GivenFor(assets[..n], answers), g, request);
      assert request in assets <==> request == assets[n] || request in assets[..n];
    }
  }

  ghost predicate UpToDate(s: State, request: Request) {
    InStep(s, request) && AllGotNewest(s, request) && FreshIds(s)
  }

  lemma InstallMatch(s: State, answers: map<Request, Response>, request: Request)
    ensures Match(OnInstall(s, answers).caches, request) ==
      if AllOk(answers) && request in STATIC_ASSETS then Some(answers[request]) else Match(s.caches, request)
  {
    hide GivenFor;
  }

  lemma InstalledTasks(s: State, answers: map<Request, Response>, request: Request)
    requires TasksInStep(s, request) && IsCalm(s, Install(answers), request)
    ensures TasksInStep(OnInstall(s, answers), request)
  {
    var t := OnInstall(s, answers);
    if AllOk(answers) {
      NewestOfInstall(s.given, STATIC_ASSETS, answers, request);
      hide Newest, IsOk, GivenFor;
      forall i | i in t.tasks && t.tasks[i].request == request
        ensures TaskInStep(t.tasks[i], Newest(t.given, request))
      {
        assert TaskInStep(s.tasks[i], Newest(s.given, request));
      }
    }
  }

  lemma InstallUpToDate(s: State, answers: map<Request, Response>, request: Request)
    requires UpToDate(s, request) && IsCalm(s, Install(answers), request)
    ensures UpToDate(OnInstall(s, answers), request)
  {
    hide Newest, Match, TaskInStep, AllGotNewest, IsOk;
    var t := OnInstall(s, answers);
    InstallMatch(s, answers, request);
    InstalledTasks(s, answers, request);
    hide TasksInStep, Bears;
    if AllOk(answers) {
      GotNewestGrows(s, GivenFor(STATIC_ASSETS, answers), request);
      NewestOfInstall(s.given, STATIC_ASSETS, answers, request);
      AllGotNewestOnly(s.(given := t.given), t, request);
    } else {
      AllGotNewestOnly(s, t, request);
    }
    hide GivenFor, AllOk;
    assert PutPending(t, request) <==> PutPending(s, request);
  }

  lemma AllGotNewestOnly(s: State, t: State, request: Request)
    requires AllGotNewest(s, request) && t.handed == s.handed && t.given == s.given
    ensures AllGotNewest(t, request)
  {
  }

  /** What waits at `id` may change or end while answers and cache do not. */
  lemma TaskUpToDate(s: State, id: nat, task: Task, request: Request)
    requires UpToDate(s, request) && id in s.tasks && task.request == s.tasks[id].request
    requires task.request == request ==> !s.tasks[id].Putting? && !task.Putting? && TaskInStep(task, Newest(s.given, request))
    ensures UpToDate(s.(tasks := s.tasks[id := task]), request) && UpToDate(End(s, id), request)
  {
    hide Newest, GotNewest, AllGotNewest, Match, TaskInStep;
    var t, u := s.(tasks := s.tasks[id := task]), End(s, id);
    AllGotNewestOnly(s, t, request);
    AllGotNewestOnly(s, u, request);
    if PutPending(s, request) {
      var i :| i in s.tasks && s.tasks[i].request == request && s.tasks[i].Putting?;
      assert i != id ==> i in t.tasks && t.tasks[i] == s.tasks[i];
      assert i != id ==> i in u.tasks && u.tasks[i] == s.tasks[i];
    }
  }

  lemma HandUpToDate(s: State, r: Request, response: Option<Response>, cached: bool, request: Request)
    requires UpToDate(s, request)
    requires r == request ==> Newest(s.given, request) in {None, response}
    ensures UpToDate(Hand(s, r, response, cached), request)
  {
    var t := Hand(s, r, response, cached);
    HandGotNewest(s, r, response, cached, request);
    assert PutPending(t, request) == PutPending(s, request);
    hide Newest, GotNewest, Match, TaskInStep;
  }

  lemma BeginUpToDate(s: State, task: Task, request: Request)
    requires UpToDate(s, request) && !task.Putting?
    requires task.request == request ==> !Busy(s, request) && task.Looking?
    ensures UpToDate(Begin(s, task), request)
  {
    var t := Begin(s, task);
    forall i | i in t.tasks && t.tasks[i].request == request
      ensures TaskInStep(t.tasks[i], Newest(t.given, request))
    {
      assert i != s.nextId ==> t.tasks[i] == s.tasks[i];
    }
    if PutPending(s, request) {
      var i :| i in s.tasks && s.tasks[i].request == request && s.tasks[i].Putting?;
      assert t.tasks[i] == s.tasks[i];
    }
    hide Newest, GotNewest, Match, TaskInStep;
  }

  lemma FetchUpToDate(s: State, r: Request, request: Request)
    requires UpToDate(s, request) && IsCalm(s, Fetch(r), request) && !IsNetworkFirst(request)
    ensures UpToDate(OnFetch(s, r), request)
  {
    hide UpToDate, Busy, Begin;
    if IsHandled(r) {
      BeginUpToDate(s, if IsNetworkFirst(r) then Fetching(r, NetworkFirst) else Looking(r), request);
    }
  }

  lemma ResolveUpToDate(s: State, id: nat, request: Request)
    requires UpToDate(s, request) && Enabled(s, Resolve(id))
    ensures UpToDate(OnResolve(s, id), request)
  {
    var r := s.tasks[id].request;
    var found := Match(s.caches, r);
    if r == request {
      assert s.tasks[id].Looking? by { assert TaskInStep(s.tasks[id], Newest(s.given, request)); }
      assert !PutPending(s, request);
    }
    TaskUpToDate(s, id, Fetching(r, if found.Some? then Refresh else Miss), request);
    hide UpToDate, InStep, Newest, Match;
    if s.tasks[id].FallingBack? {
      HandUpToDate(End(s, id), r, found, found.Some?, request);
    } else if found.Some? {
      HandUpToDate(s.(tasks := s.tasks[id := Fetching(r, Refresh)]), r, found, true, request);
    }
  }

  lemma FailUpToDate(s: State, id: nat, request: Request)
    requires UpToDate(s, request) && Enabled(s, Fail(id))
    ensures UpToDate(OnFail(s, id), request)
  {
    var r := s.tasks[id].request;
    if r == request {
      assert TaskInStep(s.tasks[id], Newest(s.given, request));
    }
    TaskUpToDate(s, id, if r == request then Looking(r) else FallingBack(r), request);
    hide UpToDate, InStep, Newest;
    if s.tasks[id].purpose == Miss {
      HandUpToDate(End(s, id), r, None, false, request);
    }
  }

  lemma AnswerUpToDate(s: State, id: nat, response: Response, request: Request)
    requires UpToDate(s, request) && Enabled(s, Answer(id, response))
    ensures UpToDate(OnAnswer(s, id, response), request)
  {
    var r := s.tasks[id].request;
    if r == request {
      assert TaskInStep(s.tasks[id], Newest(s.given, request));
    }
    var handed := if s.tasks[id].purpose == Refresh then s else Hand(s, r, Some(response), false);
    if s.tasks[id].purpose != Refresh {
      HandUpToDate(s, r, Some(response), false, request);
    }
    if response.status == 200 {
      GivenUpToDate(handed, id, response, request);
    } else {
      TaskUpToDate(handed, id, Looking(r), request);
    }
  }

  lemma GivenUpToDate(s: State, id: nat, response: Response, request: Request)
    requires UpToDate(s, request) && id in s.tasks && s.tasks[id].Fetching?
    ensures var r := s.tasks[id].request;
      UpToDate(s.(tasks := s.tasks[id := Putting(r, response)], given := s.given + [Given(r, response)]), request)
  {
    var r := s.tasks[id].request;
    var t := s.(tasks := s.tasks[id := Putting(r, response)], given := s.given + [Given(r, response)]);
    GotNewestGrows(s, [Given(r, response)], request);
    NewestSnoc(s.given, Given(r, response), request);
    if r == request {
      assert t.tasks[id] == Putting(r, response);
      assert PutPending(t, request);
    } else if PutPending(s, request) {
      var i :| i in s.tasks && s.tasks[i].request == request && s.tasks[i].Putting?;
      assert t.tasks[i] == s.tasks[i];
    }
    hide Newest, GotNewest, Match;
  }

  lemma StoreUpToDate(s: State, id: nat, request: Request)
    requires UpToDate(s, request) && Enabled(s, Store(id))
    ensures UpToDate(OnStore(s, id), request)
  {
    var r, t := s.tasks[id].request, OnStore(s, id);
    if r == request {
      assert TaskInStep(s.tasks[id], Newest(s.given, request));
      assert Match(t.caches, request) == Newest(s.given, request);
    } else {
      assert Match(t.caches, request) == Match(s.caches, request);
      if PutPending(s, request) {
        var i :| i in s.tasks && s.tasks[i].request == request && s.tasks[i].Putting?;
        assert t.tasks[i] == s.tasks[i];
      }
    }
    hide Newest, GotNewest, Match, TaskInStep;
  }

  lemma ActivateUpToDate(s: State, request: Request)
    requires UpToDate(s, request)
    ensures UpToDate(OnActivate(s), request)
  {
    var t := OnActivate(s);
    assert Match(t.caches, request) == Match(s.caches, request);
    assert PutPending(t, request) == PutPending(s, request);
    hide Newest, GotNewest, Match, TaskInStep;
  }

  lemma RejectUpToDate(s: State, id: nat, request: Request)
    requires UpToDate(s, request) && Enabled(s, Reject(id)) && IsCalm(s, Reject(id), request)
    ensures UpToDate(End(s, id), request)
  {
    if s.tasks[id].request == request {
      assert TaskInStep(s.tasks[id], Newest(s.given, request));
      AllGotNewestOnly(s, End(s, id), request);
      hide Newest, AllGotNewest, TaskInStep, Match;
    } else {
      TaskUpToDate(s, id, s.tasks[id], request);
    }
  }

  lemma StepUpToDate(s: State, e: Event, request: Request)
    requires UpToDate(s, request) && Enabled(s, e) && IsCalm(s, e, request) && !IsNetworkFirst(request)
    ensures UpToDate(Step(s, e), request)
  {
    match e
    case Install(answers) => InstallUpToDate(s, answers, request);
    case Activate => ActivateUpToDate(s, request);
    case Fetch(r) => FetchUpToDate(s, r, request);
    case Resolve(id) => ResolveUpToDate(s, id, request);
    case Answer(id, response) => AnswerUpToDate(s, id, response, request);
    case Fail(id) => FailUpToDate(s, id, request);
    case Store(id) => StoreUpToDate(s, id, request);
    case Reject(id) => RejectUpToDate(s, id, request);
  }

  lemma StartUpToDate(start: State, request: Request)
    requires IsStart(start)
    ensures UpToDate(start, request)
  {
    assert Own(start.caches) == map[];
  }

  lemma {:induction false} CalmUpToDate(start: State, es: seq<Event>, request: Request)
    requires UpToDate(start, request) && Run(start, es).Some? && CalmRun(start, es, request) && !IsNetworkFirst(request)
    ensures UpToDate(Run(start, es).value, request)
  {
    if es != [] {
      CalmUpToDate(start, es[..|es| - 1], request);
      StepUpToDate(Run(start, es[..|es| - 1]).value, es[|es| - 1], request);
      hide UpToDate, Step, Enabled, IsCalm;
    }
  }

  /** On the cache-first path, if each refresh of a request is over before the request is made again, and no
      install or failed put interferes, whoever asks after the network has given an answer gets exactly
      the newest one. */
  lemma CalmGetsNewest(start: State, es: seq<Event>, h: Handed)
    requires IsStart(start) && Run(start, es).Some? && h in Run(start, es).value.handed
    requires CalmRun(start, es, h.request) && !IsNetworkFirst(h.request)
    ensures var given := Run(start, es).value.given;
      && h.seen <= |given|
      && (Newest(given[..h.seen], h.request).Some? ==> h.response == Newest(given[..h.seen], h.request))
  {
    StartUpToDate(start, h.request);
    CalmUpToDate(start, es, h.request);
    assert GotNewest(h, Run(start, es).value.given, h.request);
  }

  lemma RunSnoc(start: State, es: seq<Event>, e: Event)
    requires Run(start, es).Some? && Enabled(Run(start, es).value, e)
    ensures Run(start, es + [e]) == Some(Step(Run(start, es).value, e))
  {
    assert (es + [e])[..|es|] == es;
  }

  function FirstEvents(): seq<Event> {
    [Install(map asset | asset in STATIC_ASSETS :: Response(200, "")), Activate]
  }

  lemma ServedAfterInstall(start: State, es: seq<Event>)
    requires start == State(false, false, map[], map[], 0, [], [])
    requires es == FirstEvents()
    ensures Run(start, es).Some?
    ensures IsStart(start) && var s := Run(start, es).value; s.active && s.tasks == map[] && s.nextId == 0
  {
    assert Run(start, []) == Some(start);
    RunSnoc(start, [], es[0]);
    RunSnoc(start, [es[0]], es[1]);
    assert [] + [es[0]] == [es[0]] && [es[0]] + [es[1]] == es;
  }

  lemma TwoAtOnce(start: State, es: seq<Event>, request: Request, purpose: Purpose)
    requires Run(start, es).Some? && Run(start, es).value.active
    requires Run(start, es).value.tasks == map[] && Run(start, es).value.nextId == 0
    requires IsHandled(request) && !IsNetworkFirst(request)
    requires purpose == if Match(Run(start, es).value.caches, request).Some? then Refresh else Miss
    ensures var fs := es + [Fetch(request), Fetch(request), Resolve(0), Resolve(1)];
      && Run(start, fs).Some? && Run(start, fs).value.active
      && Run(start, fs).value.tasks == map[0 := Fetching(request, purpose), 1 := Fetching(request, purpose)]
      && Run(start, fs).value.nextId == 2
  {
    hide Match, Run;
    RunSnoc(start, es, Fetch(request));
    var e1 := es + [Fetch(request)];
    RunSnoc(start, e1, Fetch(request));
    var e2 := e1 + [Fetch(request)];
    RunSnoc(start, e2, Resolve(0));
    var e3 := e2 + [Resolve(0)];
    RunSnoc(start, e3, Resolve(1));
    assert e3 + [Resolve(1)] == es + [Fetch(request), Fetch(request), Resolve(0), Resolve(1)];
  }

  lemma BothAnswered(start: State, es: seq<Event>, request: Request, older: Response, newer: Response, purpose: Purpose)
    requires Run(start, es).Some? && Run(start, es).value.active && purpose != NetworkFirst
    requires Run(start, es).value.tasks == map[0 := Fetching(request, purpose), 1 := Fetching(request, purpose)]
    requires Run(start, es).value.nextId == 2 && older.status == newer.status == 200
    ensures var fs := es + [Answer(0, older), Answer(1, newer)];
      && Run(start, fs).Some?
      && var t := Run(start, fs).value;
      && t.active && t.tasks == map[0 := Putting(request, older), 1 := Putting(request, newer)] && t.nextId == 2
      && Newest(t.given, request) == Some(newer)
  {
    hide Run, Newest;
    RunSnoc(start, es, Answer(0, older));
    var e1 := es + [Answer(0, older)];
    RunSnoc(start, e1, Answer(1, newer));
    var e2 := e1 + [Answer(1, newer)];
    assert e2 == es + [Answer(0, older), Answer(1, newer)];
    NewestSnoc(Run(start, e1).value.given, Given(request, newer), request);
  }

  lemma OlderStored(start: State, es: seq<Event>, request: Request, older: Response, newer: Response)
    requires Run(start, es).Some? && Run(start, es).value.active && Run(start, es).value.nextId == 2
    requires Run(start, es).value.tasks == map[0 := Putting(request, older), 1 := Putting(request, newer)]
    ensures var fs := es + [Store(1), Store(0)];
      && Run(start, fs).Some?
      && var s, t := Run(start, es).value, Run(start, fs).value;
      && t.active && t.tasks == map[] && t.nextId == 2 && t.given == s.given && Match(t.caches, request) == Some(older)
  {
    hide Run;
    RunSnoc(start, es, Store(1));
    var e1 := es + [Store(1)];
    RunSnoc(start, e1, Store(0));
    assert e1 + [Store(0)] == es + [Store(1), Store(0)];
  }

  lemma OlderWins(start: State, es: seq<Event>, request: Request, older: Response)
    requires Run(start, es).Some? && Run(start, es).value.active
    requires Run(start, es).value.tasks == map[] && Run(start, es).value.nextId == 2
    requires Match(Run(start, es).value.caches, request) == Some(older)
    requires IsHandled(request) && !IsNetworkFirst(request)
    ensures var fs := es + [Fetch(request), Resolve(2)];
      && Run(start, fs).Some?
      && var s, t := Run(start, es).value, Run(start, fs).value;
      && t.given == s.given && Handed(request, Some(older), true, |t.given|) in t.handed
  {
    hide Run, Match;
    RunSnoc(start, es, Fetch(request));
    var e1 := es + [Fetch(request)];
    RunSnoc(start, e1, Resolve(2));
    assert e1 + [Resolve(2)] == es + [Fetch(request), Resolve(2)];
  }

  lemma GivenToTheEnd(given: seq<Given>)
    ensures given[..|given|] == given
  {
  }

  /** With overlapping refreshes it fails: a slow put of an older answer replaces a newer one, and the
      next visitor gets the older answer. */
  lemma OverlapServesOld(request: Request, older: Response, newer: Response)
    requires IsHandled(request) && !IsNetworkFirst(request) && older != newer && older.status == newer.status == 200
    ensures exists start, es, h ::
      && IsStart(start) && Run(start, es).Some? && h in Run(start, es).value.handed
      && h.request == request && h.response == Some(older) && h.seen <= |Run(start, es).value.given|
      && Newest(Run(start, es).value.given[..h.seen], request) == Some(newer)
  {
    hide Run, Newest, Match, FirstEvents, IsStart, IsHandled, IsNetworkFirst;
    var start := State(false, false, map[], map[], 0, [], []);
    var es := FirstEvents();
    ServedAfterInstall(start, es);
    var purpose := if Match(Run(start, es).value.caches, request).Some? then Refresh else Miss;
    TwoAtOnce(start, es, request, purpose);
    var waiting := es + [Fetch(request), Fetch(request), Resolve(0), Resolve(1)];
    BothAnswered(start, waiting, request, older, newer, purpose);
    var answered := waiting + [Answer(0, older), Answer(1, newer)];
    OlderStored(start, answered, request, older, newer);
    var stored := answered + [Store(1), Store(0)];
    OlderWins(start, stored, request, older);
    var all := stored + [Fetch(request), Resolve(2)];
    var t := Run(start, all).value;
    GivenToTheEnd(t.given);
    var h := Handed(request, Some(older), true, |t.given|);
    assert IsStart(start) && h in t.handed && h.seen <= |t.given| && Newest(t.given[..h.seen], request) == Some(newer);
  }
}
