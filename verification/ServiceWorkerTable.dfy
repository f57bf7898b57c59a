/** The service worker's steps in plain text. */
module ServiceWorkerTable {
  import opened Common
  import opened ServiceWorker

  /** Which requests the worker answers, and which of them go to the network first. */
  lemma FetchStarts(s: State, request: Request)
    ensures !request.isGet || !request.isOwnOrigin ==> OnFetch(s, request) == s
    ensures request.isGet && request.isOwnOrigin && ("/api" <= request.path || "/blog" <= request.path || "/portfolio" <= request.path) ==>
      OnFetch(s, request) == s.(tasks := s.tasks[s.nextId := Fetching(request, NetworkFirst)], nextId := s.nextId + 1)
    ensures request.isGet && request.isOwnOrigin && !("/api" <= request.path || "/blog" <= request.path || "/portfolio" <= request.path) ==>
      OnFetch(s, request) == s.(tasks := s.tasks[s.nextId := Looking(request)], nextId := s.nextId + 1)
  {
  }

  /** A request that is in the cache is handed out of it and asked for again behind the page's back; one that is not
      is asked for. */
  lemma LookupEnds(s: State, id: nat, request: Request)
    requires id in s.tasks && s.tasks[id] == Looking(request)
    ensures "tfx-shell-v1" in s.caches && request in s.caches["tfx-shell-v1"] ==>
      OnResolve(s, id) == s.(
        tasks := s.tasks[id := Fetching(request, Refresh)],
        handed := s.handed + [Handed(request, Some(s.caches["tfx-shell-v1"][request]), true, |s.given|)])
    ensures "tfx-shell-v1" !in s.caches || request !in s.caches["tfx-shell-v1"] ==>
      OnResolve(s, id) == s.(tasks := s.tasks[id := Fetching(request, Miss)])
  {
  }

  /** After the network failed first, the page gets what the cache has, or nothing. */
  lemma FallbackEnds(s: State, id: nat, request: Request)
    requires id in s.tasks && s.tasks[id] == FallingBack(request)
    ensures "tfx-shell-v1" in s.caches && request in s.caches["tfx-shell-v1"] ==>
      OnResolve(s, id) == s.(
        tasks := s.tasks - {id},
        handed := s.handed + [Handed(request, Some(s.caches["tfx-shell-v1"][request]), true, |s.given|)])
    ensures "tfx-shell-v1" !in s.caches || request !in s.caches["tfx-shell-v1"] ==>
      OnResolve(s, id) == s.(tasks := s.tasks - {id}, handed := s.handed + [Handed(request, None, false, |s.given|)])
  {
  }

  /** An answer goes to the page, except that of a refresh; a 200 and no other will be put into the cache. */
  lemma AnswerArrives(s: State, id: nat, request: Request, purpose: Purpose, response: Response)
    requires id in s.tasks && s.tasks[id] == Fetching(request, purpose)
    ensures var after := OnAnswer(s, id, response);
      && after.handed == (if purpose == Refresh then s.handed else s.handed + [Handed(request, Some(response), false, |s.given|)])
      && after.tasks == (if response.status == 200 then s.tasks[id := Putting(request, response)] else s.tasks - {id})
      && after.given == (if response.status == 200 then s.given + [Given(request, response)] else s.given)
      && after.caches == s.caches && after.nextId == s.nextId && after.installed == s.installed && after.active == s.active
  {
  }

  /** A failed fetch: the network-first handler turns to the cache, a miss fails the page, a refresh is forgotten. */
  lemma FailureArrives(s: State, id: nat, request: Request, purpose: Purpose)
    requires id in s.tasks && s.tasks[id] == Fetching(request, purpose)
    ensures purpose == NetworkFirst ==> OnFail(s, id) == s.(tasks := s.tasks[id := FallingBack(request)])
    ensures purpose == Miss ==>
      OnFail(s, id) == s.(tasks := s.tasks - {id}, handed := s.handed + [Handed(request, None, false, |s.given|)])
    ensures purpose == Refresh ==> OnFail(s, id) == s.(tasks := s.tasks - {id})
  {
  }

  /** A put replaces the one entry, whatever was there and however old the response is. */
  lemma PutEnds(s: State, id: nat, request: Request, response: Response)
    requires id in s.tasks && s.tasks[id] == Putting(request, response)
    ensures var own := if "tfx-shell-v1" in s.caches then s.caches["tfx-shell-v1"] else map[];
      OnStore(s, id) == s.(tasks := s.tasks - {id}, caches := s.caches["tfx-shell-v1" := own[request := response]])
  {
  }

  /** A worker serves once it is active and activates once it is installed; a suspended handler can get any answer. */
  lemma CanHappen(s: State, request: Request, id: nat, response: Response, answers: map<Request, Response>)
    ensures Enabled(s, Install(answers)) && (Enabled(s, Activate) <==> s.installed) && (Enabled(s, Fetch(request)) <==> s.active)
    ensures Enabled(s, Resolve(id)) <==> id in s.tasks && (s.tasks[id].Looking? || s.tasks[id].FallingBack?)
    ensures Enabled(s, Answer(id, response)) <==> id in s.tasks && s.tasks[id].Fetching?
    ensures Enabled(s, Fail(id)) <==> id in s.tasks && s.tasks[id].Fetching?
    ensures Enabled(s, Store(id)) <==> id in s.tasks && s.tasks[id].Putting?
    ensures Enabled(s, Reject(id)) <==> id in s.tasks && s.tasks[id].Putting?
    ensures id in s.tasks && s.tasks[id].Putting? ==> Step(s, Reject(id)) == s.(tasks := s.tasks - {id})
  {
  }

  /** The five paths of the shell. */
  ghost predicate IsShell(request: Request) {
    || request == Request(true, true, "/", "") || request == Request(true, true, "/manifest.json", "")
    || request == Request(true, true, "/favicon.png", "") || request == Request(true, true, "/icons/icon-192.png", "")
    || request == Request(true, true, "/icons/icon-512.png", "")
  }

  lemma ShellAre(request: Request)
    ensures request in STATIC_ASSETS <==> IsShell(request)
  {
    assert STATIC_ASSETS[0] == Request(true, true, "/", "") && STATIC_ASSETS[1] == Request(true, true, "/manifest.json", "");
    assert STATIC_ASSETS[2] == Request(true, true, "/favicon.png", "") && STATIC_ASSETS[3] == Request(true, true, "/icons/icon-192.png", "");
    assert STATIC_ASSETS[4] == Request(true, true, "/icons/icon-512.png", "");
  }

  /** Each of the five came with a status from 200 to 299 other than 206. */
  ghost predicate ShellIsOk(answers: map<Request, Response>) {
    forall request :: IsShell(request) ==> request in answers && 200 <= answers[request].status <= 299 && answers[request].status != 206
  }

  lemma AllOkIs(answers: map<Request, Response>)
    ensures AllOk(answers) <==> ShellIsOk(answers)
  {
    forall request: Request
      ensures request in STATIC_ASSETS <==> IsShell(request)
    {
      ShellAre(request);
    }
    hide IsShell, STATIC_ASSETS;
  }

  /** Installing stores all five, over what the cache had, or none. */
  lemma InstallStores(s: State, answers: map<Request, Response>, request: Request)
    ensures var after := OnInstall(s, answers);
      var own := if "tfx-shell-v1" in s.caches then s.caches["tfx-shell-v1"] else map[];
      && (!ShellIsOk(answers) ==> after == s.(caches := s.caches["tfx-shell-v1" := own]))
      && (ShellIsOk(answers) ==>
            && after.installed && "tfx-shell-v1" in after.caches
            && after.caches == s.caches["tfx-shell-v1" := after.caches["tfx-shell-v1"]]
            && var shell := after.caches["tfx-shell-v1"];
            && (IsShell(request) ==> request in shell && request in answers && shell[request] == answers[request])
            && (!IsShell(request) ==> (request in shell <==> request in own) && (request in own ==> shell[request] == own[request]))
            && after.tasks == s.tasks && after.handed == s.handed && after.active == s.active)
  {
    AllOkIs(answers);
    ShellAre(request);
    assert AllOk(answers) && request in STATIC_ASSETS ==> request in answers;
    hide IsShell, AllOk, ShellIsOk, STATIC_ASSETS, GivenFor;
  }

  /** Activating deletes the caches of other versions. */
  lemma ActivateKeeps(s: State)
    ensures var after := OnActivate(s);
      && after.active && (forall name :: name in after.caches <==> name in s.caches && name == "tfx-shell-v1")
      && ("tfx-shell-v1" in s.caches ==> after.caches["tfx-shell-v1"] == s.caches["tfx-shell-v1"])
      && after == s.(active := true, caches := after.caches)
  {
  }
}
