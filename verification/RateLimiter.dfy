/** The in-memory sliding-window limiter of the AI service. Between reading a client's list and
    storing it again the middleware does not await, so each request is one step. */
module RateLimiter {
  import opened Common

  const RATE_LIMIT: nat := 120
  const RATE_WINDOW: real := 60.0

  type Store = map<string, seq<real>>

  /** One request: who, and what the clock said. */
  datatype Request = Request(client: string, time: real)

  function ClientKey(host: Option<string>): string {
    if host.Some? then host.value else "unknown"
  }

  /** [t for t in hits if now - t < _RATE_WINDOW] */
  function Recent(hits: seq<real>, now: real): seq<real> {
    if hits == [] then []
    else
      var before, last := Recent(hits[..|hits| - 1], now), hits[|hits| - 1];
      if now - last < RATE_WINDOW then before + [last] else before
  }

  function Hits(store: Store, client: string): seq<real> {
    if client in store then store[client] else []
  }

  datatype Decision = Decision(accepted: bool, store: Store)

  function Decide(store: Store, client: string, now: real): Decision {
    var hits := Recent(Hits(store, client), now);
    if |hits| >= RATE_LIMIT then Decision(false, store[client := hits])
    else Decision(true, store[client := hits + [now]])
  }

  class Limiter {
    var rateStore: Store

    constructor ()
      ensures rateStore == map[]
    {
      rateStore := map[];
    }

    method Middleware(host: Option<string>, now: real) returns (accepted: bool)
      modifies this
      ensures Decision(accepted, rateStore) == Decide(old(rateStore), ClientKey(host), now)
      // A host is decided on by its own entry; all that have none share one.
      ensures host.Some? ==> var hits := if host.value in old(rateStore) then old(rateStore)[host.value] else [];
        && (accepted <==> |Recent(hits, now)| < 120)
        && rateStore == old(rateStore)[host.value := if accepted then Recent(hits, now) + [now] else Recent(hits, now)]
      ensures host.None? ==> var hits := if "unknown" in old(rateStore) then old(rateStore)["unknown"] else [];
        && (accepted <==> |Recent(hits, now)| < 120)
        && rateStore == old(rateStore)["unknown" := if accepted then Recent(hits, now) + [now] else Recent(hits, now)]
      ensures forall other :: other in old(rateStore) && other != (if host.Some? then host.value else "unknown") ==>
        other in rateStore && rateStore[other] == old(rateStore)[other]
    {
      var client := if host.Some? then host.value else "unknown";
      var hits := if client in rateStore then rateStore[client] else [];
      rateStore := rateStore[client := Recent(hits, now)];
      if |rateStore[client]| >= RATE_LIMIT {
        return false;
      }
      rateStore := rateStore[client := rateStore[client] + [now]];
      return true;
    }
  }

  // ----- Runs -----

  /** The store after a sequence of requests. */
  function StoreAfter(requests: seq<Request>): Store {
    if requests == [] then map[]
    else
      var r := requests[|requests| - 1];
      Decide(StoreAfter(requests[..|requests| - 1]), r.client, r.time).store
  }

  /** Was the last request of the sequence accepted? */
  predicate LastAccepted(requests: seq<Request>)
    requires requests != []
  {
    var r := requests[|requests| - 1];
    Decide(StoreAfter(requests[..|requests| - 1]), r.client, r.time).accepted
  }

  /** Was request i accepted? */
  predicate AcceptedAt(requests: seq<Request>, i: nat)
    requires i < |requests|
  {
    LastAccepted(requests[..i + 1])
  }

  /** The times of the requests of one client, and of those that were accepted: the complete logs. */
  function Asked(requests: seq<Request>, client: string): seq<real> {
    if requests == [] then []
    else
      var before, r := Asked(requests[..|requests| - 1], client), requests[|requests| - 1];
      if r.client == client then before + [r.time] else before
  }

  function Accepted(requests: seq<Request>, client: string): seq<real> {
    if requests == [] then []
    else
      var before, r := Accepted(requests[..|requests| - 1], client), requests[|requests| - 1];
      if r.client == client && LastAccepted(requests) then before + [r.time] else before
  }

  /** The times in [from, from + window). */
  function Within(times: seq<real>, from: real): seq<real> {
    if times == [] then []
    else
      var before, last := Within(times[..|times| - 1], from), times[|times| - 1];
      if from <= last < from + RATE_WINDOW then before + [last] else before
  }

  ghost predicate Nondecreasing(requests: seq<Request>) {
    forall i, j :: 0 <= i < j < |requests| ==> requests[i].time <= requests[j].time
  }

  ghost predicate Sorted(times: seq<real>) {
    forall i, j :: 0 <= i < j < |times| ==> times[i] <= times[j]
  }

  // ----- The pruned list refines the complete log -----

  lemma RecentSnoc(hits: seq<real>, t: real, now: real)
    ensures Recent(hits + [t], now) == if now - t < RATE_WINDOW then Recent(hits, now) + [t] else Recent(hits, now)
  {
    assert (hits + [t])[..|hits|] == hits;
  }

  /** Pruning twice, the second time later, is pruning once. */
  lemma {:induction false} RecentTwice(hits: seq<real>, earlier: real, now: real)
    requires earlier <= now
    ensures Recent(Recent(hits, earlier), now) == Recent(hits, now)
  {
    if hits != [] {
      var init, last := hits[..|hits| - 1], hits[|hits| - 1];
      RecentTwice(init, earlier, now);
      assert hits == init + [last];
      if earlier - last < RATE_WINDOW {
        RecentSnoc(Recent(init, earlier), last, now);
      }
    }
  }

  /** What one more request does to the store and to the log of a client. */
  lemma LastStep(requests: seq<Request>, client: string)
    requires requests != []
    ensures var init, r := requests[..|requests| - 1], requests[|requests| - 1];
      var kept := Recent(Hits(StoreAfter(init), client), r.time);
      if r.client != client then
        Hits(StoreAfter(requests), client) == Hits(StoreAfter(init), client) && Accepted(requests, client) == Accepted(init, client)
      else if |kept| < RATE_LIMIT then
        Hits(StoreAfter(requests), client) == kept + [r.time] && Accepted(requests, client) == Accepted(init, client) + [r.time]
      else
        Hits(StoreAfter(requests), client) == kept && Accepted(requests, client) == Accepted(init, client)
  {
    hide Recent;
  }

  /** What the store keeps for a client is the part of its accepted log that was recent at its last
      request, so pruning the store now and pruning the log now are the same. */
  lemma {:induction false} StoreIsRecent(requests: seq<Request>, client: string, now: real)
    requires Nondecreasing(requests)
    requires forall i :: 0 <= i < |requests| ==> requests[i].time <= now
    ensures Recent(Hits(StoreAfter(requests), client), now) == Recent(Accepted(requests, client), now)
  {
    if requests != [] {
      var init, r := requests[..|requests| - 1], requests[|requests| - 1];
      LastStep(requests, client);
      if r.client == client {
        StoreIsRecent(init, client, r.time);
        hide Recent, Nondecreasing, Hits, Accepted, StoreAfter;
        var hits, log := Hits(StoreAfter(init), client), Accepted(init, client);
        RecentTwice(hits, r.time, now);
        RecentTwice(log, r.time, now);
        RecentSnoc(Recent(hits, r.time), r.time, now);
        RecentSnoc(log, r.time, now);
      } else {
        StoreIsRecent(init, client, now);
        hide Recent, Hits, Accepted, StoreAfter;
      }
    } else {
      assert Hits(StoreAfter(requests), client) == [];
    }
  }

  /** Each decision is the one made by counting, in the complete log of accepted requests of that
      client, those less than a window old. Rejected requests never count. */
  lemma DecisionCountsLog(requests: seq<Request>, i: nat)
    requires Nondecreasing(requests) && i < |requests|
    ensures AcceptedAt(requests, i) <==>
      |Recent(Accepted(requests[..i], requests[i].client), requests[i].time)| < RATE_LIMIT
  {
    assert requests[..i + 1][..i] == requests[..i];
    StoreIsRecent(requests[..i], requests[i].client, requests[i].time);
    hide Recent, Accepted, Hits, Nondecreasing;
  }

  lemma SortedSnoc(times: seq<real>, t: real)
    requires Sorted(times) && forall x :: x in times ==> x <= t
    ensures Sorted(times + [t])
  {
    var longer := times + [t];
    forall i, j | 0 <= i < j < |longer|
      ensures longer[i] <= longer[j]
    {
      assert longer[i] == times[i] && times[i] in times;
    }
  }

  lemma {:induction false} AcceptedAreAsked(requests: seq<Request>, client: string)
    requires Nondecreasing(requests)
    ensures Sorted(Accepted(requests, client)) && Sorted(Asked(requests, client))
    ensures requests != [] ==>
      (forall t :: t in Accepted(requests, client) || t in Asked(requests, client) ==> t <= requests[|requests| - 1].time)
  {
    if requests != [] {
      var init, r := requests[..|requests| - 1], requests[|requests| - 1];
      AcceptedAreAsked(init, client);
      assert forall t :: t in Accepted(init, client) || t in Asked(init, client) ==> t <= r.time;
      SortedSnoc(Accepted(init, client), r.time);
      SortedSnoc(Asked(init, client), r.time);
    }
  }

  lemma {:induction false} RecentIsPart(hits: seq<real>, now: real)
    ensures forall t :: t in Recent(hits, now) <==> t in hits && now - t < RATE_WINDOW
    ensures Sorted(hits) ==> Sorted(Recent(hits, now))
  {
    if hits != [] {
      var init, last := hits[..|hits| - 1], hits[|hits| - 1];
      RecentIsPart(init, now);
      assert hits == init + [last];
      RecentSnoc(init, last, now);
      hide Recent;
      if Sorted(hits) {
        forall x | x in init
          ensures x <= last
        {
          var k :| 0 <= k < |init| && init[k] == x;
          assert hits[k] <= hits[|hits| - 1];
        }
        SortedSnoc(Recent(init, now), last);
      }
    }
  }

  /** The lists the service keeps stay sorted and at most 120 long. */
  lemma {:induction false} StoreStaysSmall(requests: seq<Request>, client: string)
    requires Nondecreasing(requests)
    ensures |Hits(StoreAfter(requests), client)| <= RATE_LIMIT
    ensures Sorted(Hits(StoreAfter(requests), client))
    ensures requests != [] ==> forall t :: t in Hits(StoreAfter(requests), client) ==> t <= requests[|requests| - 1].time
  {
    if requests != [] {
      var init, r := requests[..|requests| - 1], requests[|requests| - 1];
      StoreStaysSmall(init, client);
      var hits := Hits(StoreAfter(init), client);
      RecentIsPart(hits, r.time);
      RecentShorter(hits, r.time);
      if r.client == client {
        forall x | x in hits
          ensures x <= r.time
        {
          assert init != [] && x <= init[|init| - 1].time;
        }
        SortedSnoc(Recent(hits, r.time), r.time);
      }
    }
  }

  lemma {:induction false} RecentShorter(hits: seq<real>, now: real)
    ensures |Recent(hits, now)| <= |hits|
  {
    if hits != [] { RecentShorter(hits[..|hits| - 1], now); }
  }

  // ----- Every window -----

  /** A window that contains now lies within the last minute. */
  lemma {:induction false} WithinIsRecent(times: seq<real>, from: real, now: real)
    requires from <= now < from + RATE_WINDOW
    ensures |Within(times, from)| <= |Recent(times, now)|
  {
    if times != [] {
      WithinIsRecent(times[..|times| - 1], from, now);
    }
  }

  /** In every run with a nondecreasing clock, for every client, every window of 60 seconds has at
      most 120 accepted requests, wherever it begins. */
  lemma {:induction false} EveryWindowIsBounded(requests: seq<Request>, client: string, from: real)
    requires Nondecreasing(requests)
    ensures |Within(Accepted(requests, client), from)| <= RATE_LIMIT
  {
    if requests != [] {
      var init, r := requests[..|requests| - 1], requests[|requests| - 1];
      EveryWindowIsBounded(init, client, from);
      if r.client == client && LastAccepted(requests) {
        var before := Accepted(init, client);
        WithinSnoc(before, r.time, from);
        StoreIsRecent(init, client, r.time);
        hide StoreAfter;
        assert |Recent(before, r.time)| < RATE_LIMIT;
        if from <= r.time < from + RATE_WINDOW {
          WithinIsRecent(before, from, r.time);
        }
      }
    }
  }

  // ----- Who is never rejected -----

  ghost predicate NeverRejected(requests: seq<Request>, client: string) {
    forall i :: 0 <= i < |requests| && requests[i].client == client ==> AcceptedAt(requests, i)
  }

  /** The client never asks more than 120 times in a window. */
  ghost predicate Sparse(requests: seq<Request>, client: string) {
    forall from :: |Within(Asked(requests, client), from)| <= RATE_LIMIT
  }

  lemma {:induction false} AcceptedWhenAll(requests: seq<Request>, client: string)
    requires NeverRejected(requests, client)
    ensures Accepted(requests, client) == Asked(requests, client)
  {
    if requests != [] {
      var init := requests[..|requests| - 1];
      assert requests[..|requests|] == requests;
      forall i | 0 <= i < |init| && init[i].client == client
        ensures AcceptedAt(init, i)
      {
        assert AcceptedAt(requests, i);
        assert init[..i + 1] == requests[..i + 1];
      }
      AcceptedWhenAll(init, client);
      if requests[|requests| - 1].client == client { assert AcceptedAt(requests, |requests| - 1); }
    }
  }

  /** If the oldest recent time is where a window begins, the window has all the recent times. */
  lemma {:induction false} RecentIsWithin(times: seq<real>, from: real, now: real)
    requires Sorted(times) && (forall t :: t in times ==> t <= now)
    requires now < from + RATE_WINDOW && forall t :: t in Recent(times, now) ==> from <= t
    ensures |Recent(times, now)| <= |Within(times, from)|
  {
    if times != [] {
      var init, last := times[..|times| - 1], times[|times| - 1];
      assert forall t :: t in init ==> t in times;
      assert last in times;
      forall t | t in Recent(init, now)
        ensures from <= t
      {
        assert t in Recent(times, now);
      }
      if now - last < RATE_WINDOW { assert last in Recent(times, now); }
      RecentIsWithin(init, from, now);
    }
  }

  lemma WithinSnoc(times: seq<real>, t: real, from: real)
    ensures Within(times + [t], from) == if from <= t < from + RATE_WINDOW then Within(times, from) + [t] else Within(times, from)
  {
    assert (times + [t])[..|times|] == times;
  }

  lemma {:induction false} AskedGrows(requests: seq<Request>, n: nat, client: string, from: real)
    requires n <= |requests|
    ensures |Within(Asked(requests[..n], client), from)| <= |Within(Asked(requests, client), from)|
    decreases |requests|
  {
    if n == |requests| {
      assert requests[..n] == requests;
    } else {
      var init, r := requests[..|requests| - 1], requests[|requests| - 1];
      assert init[..n] == requests[..n];
      AskedGrows(init, n, client, from);
      if r.client == client { WithinSnoc(Asked(init, client), r.time, from); } else { assert Asked(requests, client) == Asked(init, client); }
    }
  }

  lemma AskedSnoc(requests: seq<Request>, i: nat)
    requires i < |requests|
    ensures Asked(requests[..i + 1], requests[i].client) == Asked(requests[..i], requests[i].client) + [requests[i].time]
  {
    assert requests[..i + 1][..i] == requests[..i];
  }

  /** A request is accepted if the requests of its client so far, itself included, never exceed 120
      in a window and were all accepted. */
  lemma AcceptedIfSparse(requests: seq<Request>, i: nat)
    requires Nondecreasing(requests) && i < |requests|
    requires Accepted(requests[..i], requests[i].client) == Asked(requests[..i], requests[i].client)
    requires Sparse(requests, requests[i].client)
    ensures AcceptedAt(requests, i)
  {
    hide AcceptedAt, Asked, Accepted, Recent, Within;
    var r, before := requests[i], Asked(requests[..i], requests[i].client);
    var recent := Recent(before, r.time);
    var from := if recent == [] then r.time else recent[0];
    DecisionCountsLog(requests, i);
    RecentStartsWindow(requests[..i], r.client, r.time);
    WithinSnoc(before, r.time, from);
    AskedSnoc(requests, i);
    AskedGrows(requests, i + 1, r.client, from);
  }

  /** The window that begins with the oldest recent request has them all, and now. */
  lemma RecentStartsWindow(requests: seq<Request>, client: string, now: real)
    requires Nondecreasing(requests) && forall i :: 0 <= i < |requests| ==> requests[i].time <= now
    ensures
      var recent := Recent(Asked(requests, client), now);
      var from := if recent == [] then now else recent[0];
      from <= now < from + RATE_WINDOW && |recent| <= |Within(Asked(requests, client), from)|
  {
    var asked := Asked(requests, client);
    var recent := Recent(asked, now);
    var from := if recent == [] then now else recent[0];
    AcceptedAreAsked(requests, client);
    RecentIsPart(asked, now);
    if recent != [] { assert recent[0] in recent && recent[0] in asked; }
    forall t | t in recent
      ensures from <= t
    {
      var k :| 0 <= k < |recent| && recent[k] == t;
    }
    assert forall t :: t in asked ==> t <= now;
    RecentIsWithin(asked, from, now);
  }

  /** A client is never rejected exactly when its whole sequence of requests never exceeds 120 in a
      window of 60 seconds. */
  lemma NeverRejectedExactly(requests: seq<Request>, client: string)
    requires Nondecreasing(requests)
    ensures NeverRejected(requests, client) <==> Sparse(requests, client)
  {
    if NeverRejected(requests, client) {
      AcceptedWhenAll(requests, client);
      forall from
        ensures |Within(Asked(requests, client), from)| <= RATE_LIMIT
      {
        EveryWindowIsBounded(requests, client, from);
      }
    }
    if Sparse(requests, client) {
      SparseAreAccepted(requests, client, |requests|);
    }
  }

  lemma {:induction false} SparseAreAccepted(requests: seq<Request>, client: string, n: nat)
    requires Nondecreasing(requests) && n <= |requests|
    requires Sparse(requests, client)
    ensures forall i :: 0 <= i < n && requests[i].client == client ==> AcceptedAt(requests, i)
  {
    if n > 0 {
      SparseAreAccepted(requests, client, n - 1);
      if requests[n - 1].client == client {
        PrefixAccepted(requests, client, n - 1);
        AcceptedIfSparse(requests, n - 1);
      }
    }
  }

  lemma PrefixAccepted(requests: seq<Request>, client: string, n: nat)
    requires n <= |requests|
    requires forall i :: 0 <= i < n && requests[i].client == client ==> AcceptedAt(requests, i)
    ensures Accepted(requests[..n], client) == Asked(requests[..n], client)
  {
    var init := requests[..n];
    forall k | 0 <= k < n && init[k].client == client
      ensures AcceptedAt(init, k)
    {
      assert init[..k + 1] == requests[..k + 1];
      assert AcceptedAt(requests, k);
    }
    AcceptedWhenAll(init, client);
  }

  lemma AcceptSnoc(requests: seq<Request>, r: Request)
    requires |Recent(Hits(StoreAfter(requests), r.client), r.time)| < RATE_LIMIT
    ensures Accepted(requests + [r], r.client) == Accepted(requests, r.client) + [r.time]
    ensures Hits(StoreAfter(requests + [r]), r.client) == Recent(Hits(StoreAfter(requests), r.client), r.time) + [r.time]
  {
    assert (requests + [r])[..|requests|] == requests;
  }
}
