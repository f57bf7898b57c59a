/** Which requests the limiter counts for whom. */
module RateLimiterClients {
  import opened RateLimiter

  /** `ps` are, in order, exactly the positions that are chosen. */
  ghost predicate Picks(ps: seq<nat>, chosen: seq<bool>) {
    (forall i, j :: 0 <= i < j < |ps| ==> ps[i] < ps[j]) && forall i: nat :: i in ps <==> i < |chosen| && chosen[i]
  }

  ghost predicate At(kept: seq<real>, all: seq<real>, ps: seq<nat>) {
    |kept| == |ps| && forall k :: 0 <= k < |ps| ==> ps[k] < |all| && kept[k] == all[ps[k]]
  }

  /** `kept` has, in their order, exactly the chosen ones of all. */
  ghost predicate Keeps(kept: seq<real>, all: seq<real>, chosen: seq<bool>) {
    |chosen| == |all| && exists ps: seq<nat> :: Picks(ps, chosen) && At(kept, all, ps)
  }

  lemma PicksSnoc(ps: seq<nat>, chosen: seq<bool>, last: bool)
    requires Picks(ps, chosen)
    ensures last ==> Picks(ps + [|chosen|], chosen + [last])
    ensures !last ==> Picks(ps, chosen + [last])
  {
    forall k | 0 <= k < |ps|
      ensures ps[k] < |chosen|
    {
      assert ps[k] in ps;
    }
    if last {
      var longer := ps + [|chosen|];
      forall i: nat
        ensures i in longer <==> i < |chosen| + 1 && (chosen + [last])[i]
      {
        assert i in longer <==> i in ps || i == |chosen|;
      }
    }
  }

  lemma KeepsNone()
    ensures Keeps([], [], [])
  {
    assert Picks([], []) && At([], [], []);
  }

  lemma KeepsSnoc(kept: seq<real>, all: seq<real>, chosen: seq<bool>, t: real, last: bool)
    requires Keeps(kept, all, chosen)
    ensures last ==> Keeps(kept + [t], all + [t], chosen + [last])
    ensures !last ==> Keeps(kept, all + [t], chosen + [last])
  {
    var ps: seq<nat> :| Picks(ps, chosen) && At(kept, all, ps);
    PicksSnoc(ps, chosen, last);
    hide Picks;
    if last {
      assert At(kept + [t], all + [t], ps + [|chosen|]);
    } else {
      assert At(kept, all + [t], ps);
    }
  }

  /** Pruning keeps, in their order, exactly the times less than sixty seconds old. */
  lemma {:induction false} RecentAre(hits: seq<real>, now: real) returns (young: seq<bool>)
    ensures |young| == |hits| && forall i :: 0 <= i < |hits| ==> (young[i] <==> now - hits[i] < 60.0)
    ensures Keeps(Recent(hits, now), hits, young)
  {
    hide Keeps;
    if hits == [] {
      young := [];
      KeepsNone();
    } else {
      var init, t := hits[..|hits| - 1], hits[|hits| - 1];
      var flags := RecentAre(init, now);
      KeepsSnoc(Recent(init, now), init, flags, t, now - t < 60.0);
      assert init + [t] == hits;
      young := flags + [now - t < 60.0];
    }
  }

  /** The times in a window are exactly those from its beginning until sixty seconds later. */
  lemma {:induction false} WithinAre(times: seq<real>, from: real) returns (inside: seq<bool>)
    ensures |inside| == |times| && forall i :: 0 <= i < |times| ==> (inside[i] <==> from <= times[i] < from + 60.0)
    ensures Keeps(Within(times, from), times, inside)
  {
    hide Keeps;
    if times == [] {
      inside := [];
      KeepsNone();
    } else {
      var init, t := times[..|times| - 1], times[|times| - 1];
      var flags := WithinAre(init, from);
      KeepsSnoc(Within(init, from), init, flags, t, from <= t < from + 60.0);
      assert init + [t] == times;
      inside := flags + [from <= t < from + 60.0];
    }
  }

  function Times(requests: seq<Request>): (r: seq<real>)
    ensures |r| == |requests| && forall i :: 0 <= i < |r| ==> r[i] == requests[i].time
  {
    seq(|requests|, i requires 0 <= i < |requests| => requests[i].time)
  }

  /** The log of a client has exactly its accepted requests, in their order. */
  lemma {:induction false} AcceptedAre(requests: seq<Request>, client: string) returns (logged: seq<bool>)
    ensures |logged| == |requests|
    ensures forall i :: 0 <= i < |requests| ==> (logged[i] <==> requests[i].client == client && AcceptedAt(requests, i))
    ensures Keeps(Accepted(requests, client), Times(requests), logged)
  {
    hide Keeps, LastAccepted;
    if requests == [] {
      logged := [];
      assert Times(requests) == [];
      KeepsNone();
    } else {
      var n := |requests| - 1;
      var init, r := requests[..n], requests[n];
      var flags := AcceptedAre(init, client);
      assert requests[..n + 1] == requests;
      var last := r.client == client && AcceptedAt(requests, n);
      KeepsSnoc(Accepted(init, client), Times(init), flags, r.time, last);
      assert Times(init) + [r.time] == Times(requests);
      logged := flags + [last];
      AcceptedBefore(requests, n);
    }
  }

  lemma AcceptedBefore(requests: seq<Request>, n: nat)
    requires n <= |requests|
    ensures forall i :: 0 <= i < n ==> requests[..n][i] == requests[i] && AcceptedAt(requests[..n], i) == AcceptedAt(requests, i)
  {
    hide LastAccepted;
    forall i | 0 <= i < n
      ensures AcceptedAt(requests[..n], i) == AcceptedAt(requests, i)
    {
      assert requests[..n][..i + 1] == requests[..i + 1];
    }
  }

  /** The requests of one client alone. */
  function Own(requests: seq<Request>, client: string): seq<Request> {
    if requests == [] then []
    else
      var before, r := Own(requests[..|requests| - 1], client), requests[|requests| - 1];
      if r.client == client then before + [r] else before
  }

  /** On any clock, what is kept for a client depends on its own requests alone. */
  lemma {:induction false} OwnEntry(requests: seq<Request>, client: string)
    ensures client in StoreAfter(requests) <==> client in StoreAfter(Own(requests, client))
    ensures client in StoreAfter(requests) ==> StoreAfter(requests)[client] == StoreAfter(Own(requests, client))[client]
  {
    if requests != [] {
      var init, r := requests[..|requests| - 1], requests[|requests| - 1];
      OwnEntry(init, client);
      if r.client == client { assert (Own(init, client) + [r])[..|Own(init, client)|] == Own(init, client); }
      hide Recent;
    }
  }

  /** On any clock, nobody is refused for the requests of others: each request is decided as it would be if its
      client had been alone. */
  lemma OthersDoNotCount(requests: seq<Request>, i: nat)
    requires i < |requests|
    ensures Own(requests[..i + 1], requests[i].client) != []
    ensures AcceptedAt(requests, i) <==> LastAccepted(Own(requests[..i + 1], requests[i].client))
  {
    var before, r := requests[..i], requests[i];
    assert requests[..i + 1][..i] == before;
    OwnEntry(before, r.client);
    assert (Own(before, r.client) + [r])[..|Own(before, r.client)|] == Own(before, r.client);
    hide Recent, Own, StoreAfter;
    assert Own(requests[..i + 1], r.client) == Own(before, r.client) + [r] by { OwnSnoc(requests, i); }
  }

  lemma OwnSnoc(requests: seq<Request>, i: nat)
    requires i < |requests|
    ensures Own(requests[..i + 1], requests[i].client) == Own(requests[..i], requests[i].client) + [requests[i]]
  {
    assert requests[..i + 1][..i] == requests[..i];
  }
}
