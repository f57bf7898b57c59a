/** The service worker's handlers over their one shared cache, proved against the steps of ServiceWorker. */
module ServiceWorkerShell {
  import opened Common
  import opened ServiceWorker

  class Shell {
    var installed: bool
    var active: bool
    var caches: map<string, Cache>
    var tasks: map<nat, Task>
    var nextId: nat
    ghost var given: seq<Given>
    ghost var handed: seq<Handed>

    ghost function View(): State
      reads this
    {
      State(installed, active, caches, tasks, nextId, given, handed)
    }

    /** What is cached, about to be cached or handed out of the cache was given by the network. */
    ghost predicate Valid()
      reads this
    {
      Inv(View())
    }

    constructor (caches: map<string, Cache>)
      requires CACHE_NAME !in caches
      ensures IsStart(View()) && this.caches == caches && Valid()
    {
      installed, active, this.caches, tasks, nextId := false, false, caches, map[], 0;
      given, handed := [], [];
    }

    method Open()
      modifies this`caches
      ensures caches == old(caches)[CACHE_NAME := Own(old(caches))]
    {
      if CACHE_NAME !in caches {
        caches := caches[CACHE_NAME := map[]];
      }
    }

    method Put(request: Request, response: Response)
      modifies this`caches
      ensures caches == old(caches)[CACHE_NAME := Own(old(caches))[request := response]]
    {
      Open();
      caches := caches[CACHE_NAME := caches[CACHE_NAME][request := response]];
    }

    /** `addAll` with the answers the network gave; a request without one failed. */
    static method AddAll(assets: seq<Request>, answers: map<Request, Response>) returns (shell: Option<Cache>)
      ensures shell.Some? <==> forall asset <- assets :: asset in answers && IsOk(answers[asset])
      ensures shell.Some? ==> shell.value == map asset | asset in assets :: answers[asset]
    {
      var entries: Cache := map[];
      var n := 0;
      while n < |assets|
        invariant 0 <= n <= |assets|
        invariant forall asset <- assets[..n] :: asset in answers && IsOk(answers[asset])
        invariant entries == map asset | asset in assets[..n] :: answers[asset]
      {
        var asset := assets[n];
        if asset !in answers || !IsOk(answers[asset]) {
          return None;
        }
        entries := entries[asset := answers[asset]];
        assert assets[..n + 1] == assets[..n] + [asset];
        n := n + 1;
      }
      assert assets[..n] == assets;
      return Some(entries);
    }

    method HandleInstall(answers: map<Request, Response>)
      requires Valid()
      modifies this
      ensures View() == OnInstall(old(View()), answers) && Valid()
    {
      hide Inv;
      ghost var before := View();
      InstallKeeps(before, answers);
      Open();
      var shell := AddAll(STATIC_ASSETS, answers);
      InstallIs(before, answers, shell);
      hide OnInstall, IsOk, GivenFor;
      if shell.Some? {
        caches := caches[CACHE_NAME := caches[CACHE_NAME] + shell.value];
        installed := true;
        given := given + GivenFor(STATIC_ASSETS, answers);
      }
    }

    static lemma InstallIs(s: State, answers: map<Request, Response>, shell: Option<Cache>)
      requires shell.Some? <==> forall asset <- STATIC_ASSETS :: asset in answers && IsOk(answers[asset])
      requires shell.Some? ==> shell.value == map asset | asset in STATIC_ASSETS :: answers[asset]
      ensures OnInstall(s, answers) == match shell
        case None => s.(caches := s.caches[CACHE_NAME := Own(s.caches)])
        case Some(entries) =>
          s.(installed := true, caches := s.caches[CACHE_NAME := Own(s.caches) + entries], given := s.given + GivenFor(STATIC_ASSETS, answers))
    {
      hide GivenFor;
      assert shell.Some? <==> AllOk(answers);
      hide IsOk, Own;
    }

    /** The caches that are left when those under `names` have still to be looked at. */
    static ghost function Remaining(all: map<string, Cache>, names: set<string>): map<string, Cache> {
      map name | name in all && (name in names || name == CACHE_NAME) :: all[name]
    }

    static lemma OneLess(all: map<string, Cache>, names: set<string>, name: string)
      requires name in names
      ensures Remaining(all, names - {name}) == if name == CACHE_NAME then Remaining(all, names) else Remaining(all, names) - {name}
    {
    }

    method HandleActivate()
      requires Valid() && installed
      modifies this
      ensures View() == OnActivate(old(View())) && Valid()
      ensures caches.Keys <= {CACHE_NAME}
    {
      hide Inv;
      StepKeeps(View(), Activate);
      var names := caches.Keys;
      assert caches == Remaining(caches, names);
      while names != {}
        invariant caches == Remaining(old(caches), names)
        invariant View() == old(View()).(caches := caches)
        decreases |names|
      {
        var name :| name in names;
        OneLess(old(caches), names, name);
        hide Remaining;
        if name != CACHE_NAME {
          caches := caches - {name};
        }
        names := names - {name};
      }
      active := true;
    }

    method BeginTask(task: Task)
      modifies this
      ensures View() == Begin(old(View()), task)
    {
      tasks, nextId := tasks[nextId := task], nextId + 1;
    }

    /** False for a request that is left to the browser. */
    method HandleFetch(request: Request) returns (responds: bool)
      requires Valid() && active
      modifies this
      ensures View() == OnFetch(old(View()), request) && Valid()
      ensures responds == (request.isGet && request.isOwnOrigin)
    {
      hide Inv;
      StepKeeps(View(), Fetch(request));
      if !request.isGet || !request.isOwnOrigin {
        return false;
      }
      if "/api" <= request.path || "/blog" <= request.path || "/portfolio" <= request.path {
        BeginTask(Fetching(request, NetworkFirst));
        return true;
      }
      BeginTask(Looking(request));
      return true;
    }

    /** What a finished lookup hands to the page, unless the handler goes on to the network for it. */
    method LookedUp(id: nat) returns (response: Option<Response>)
      requires Valid() && Enabled(View(), Resolve(id))
      modifies this
      ensures View() == OnResolve(old(View()), id) && Valid()
      ensures response == Match(old(caches), old(tasks)[id].request)
      // What a page gets from the cache the network gave for that very request.
      ensures response.Some? ==> Given(old(tasks)[id].request, response.value) in given
    {
      StepKeeps(View(), Resolve(id));
      assert CacheGiven(View());
      hide Inv;
      var request := tasks[id].request;
      response := Match(caches, request);
      if tasks[id].FallingBack? {
        tasks := tasks - {id};
        handed := handed + [Handed(request, response, response.Some?, |given|)];
      } else if response.Some? {
        tasks := tasks[id := Fetching(request, Refresh)];
        handed := handed + [Handed(request, response, true, |given|)];
      } else {
        tasks := tasks[id := Fetching(request, Miss)];
      }
    }

    method NetworkAnswered(id: nat, response: Response)
      requires Valid() && Enabled(View(), Answer(id, response))
      modifies this
      ensures View() == OnAnswer(old(View()), id, response) && Valid()
      ensures caches == old(caches)
      ensures response.status == 200 ==> id in tasks && tasks[id] == Putting(old(tasks)[id].request, response)
      ensures response.status != 200 ==> tasks == old(tasks) - {id}
    {
      hide Inv;
      StepKeeps(View(), Answer(id, response));
      var request := tasks[id].request;
      if tasks[id].purpose != Refresh {
        handed := handed + [Handed(request, Some(response), false, |given|)];
      }
      if response.status == 200 {
        tasks := tasks[id := Putting(request, response)];
        given := given + [Given(request, response)];
      } else {
        tasks := tasks - {id};
      }
    }

    method NetworkFailed(id: nat)
      requires Valid() && Enabled(View(), Fail(id))
      modifies this
      ensures View() == OnFail(old(View()), id) && Valid()
      ensures caches == old(caches)
    {
      hide Inv;
      StepKeeps(View(), Fail(id));
      var request := tasks[id].request;
      match tasks[id].purpose {
        case NetworkFirst =>
          tasks := tasks[id := FallingBack(request)];
        case Miss =>
          tasks := tasks - {id};
          handed := handed + [Handed(request, None, false, |given|)];
        case Refresh =>
          tasks := tasks - {id};
      }
    }

    method PutDone(id: nat)
      requires Valid() && Enabled(View(), Store(id))
      modifies this
      ensures View() == OnStore(old(View()), id) && Valid()
      ensures Match(caches, old(tasks)[id].request) == Some(old(tasks)[id].response)
    {
      hide Inv;
      StepKeeps(View(), Store(id));
      Put(tasks[id].request, tasks[id].response);
      tasks := tasks - {id};
    }
  }
}
