/** Which clocks keep the limiter's bound: exactly those that never come back to within a minute of a reading
    after having been a minute past it. */
module RateLimiterClock {
  import opened Common
  import opened RateLimiter

  /** After a reading x and a later one of at least x + 60, no third is less than 60 away from x. */
  ghost predicate NoReturn(times: seq<real>) {
    forall i, j, k :: 0 <= i < j < k < |times| && times[j] - times[i] >= RATE_WINDOW ==>
      !(times[i] - RATE_WINDOW < times[k] < times[i] + RATE_WINDOW)
  }

  lemma NoReturnWithout(times: seq<real>, b: real, now: real)
    requires NoReturn(times + [b] + [now])
    ensures NoReturn(times + [b]) && NoReturn(times + [now])
  {
    var all := times + [b] + [now];
    var with, without := times + [b], times + [now];
    forall i, j, k | 0 <= i < j < k < |with| && with[j] - with[i] >= RATE_WINDOW
      ensures !(with[i] - RATE_WINDOW < with[k] < with[i] + RATE_WINDOW)
    {
      assert with[i] == all[i] && with[j] == all[j] && with[k] == all[k];
    }
    forall i, j, k | 0 <= i < j < k < |without| && without[j] - without[i] >= RATE_WINDOW
      ensures !(without[i] - RATE_WINDOW < without[k] < without[i] + RATE_WINDOW)
    {
      assert without[i] == all[i] && without[j] == all[j] && without[k] == all[if k == |times| then k + 1 else k];
    }
  }

  // ----- Such a clock keeps the bound -----

  /** Pruning takes nothing out of a window that it may not. */
  lemma {:induction false} KeptInWindow(hits: seq<real>, b: real, from: real)
    requires forall x :: x in hits && from <= x < from + RATE_WINDOW ==> b - x < RATE_WINDOW
    ensures Within(Recent(hits, b), from) == Within(hits, from)
  {
    if hits != [] {
      var init, last := hits[..|hits| - 1], hits[|hits| - 1];
      assert hits == init + [last];
      assert forall x :: x in init ==> x in hits;
      KeptInWindow(init, b, from);
      RecentSnoc(init, last, b);
      WithinSnoc(init, last, from);
      WithinSnoc(Recent(init, b), last, from);
      hide Recent, Within;
      assert last in hits;
    }
  }

  /** A request at b pruned nothing that a window containing the later now holds. */
  lemma PrunedIsFar(asked: seq<real>, b: real, now: real, x: real, from: real)
    requires NoReturn(asked + [b] + [now]) && x in asked
    requires from <= now < from + RATE_WINDOW && from <= x < from + RATE_WINDOW
    ensures b - x < RATE_WINDOW
  {
    var i :| 0 <= i < |asked| && asked[i] == x;
    var all := asked + [b] + [now];
    assert all[i] == x && all[|asked|] == b && all[|asked| + 1] == now;
  }

  lemma AskedLast(requests: seq<Request>, client: string)
    requires requests != []
    ensures var init, r := requests[..|requests| - 1], requests[|requests| - 1];
      Asked(requests, client) == if r.client == client then Asked(init, client) + [r.time] else Asked(init, client)
  {
  }

  /** In a window that contains now the store has everything the complete log has. */
  lemma {:induction false} StoreCoversWindow(requests: seq<Request>, client: string, from: real, now: real)
    requires from <= now < from + RATE_WINDOW && NoReturn(Asked(requests, client) + [now])
    ensures Within(Hits(StoreAfter(requests), client), from) == Within(Accepted(requests, client), from)
    ensures forall x :: x in Hits(StoreAfter(requests), client) ==> x in Asked(requests, client)
  {
    if requests == [] {
      assert Hits(StoreAfter(requests), client) == [];
    } else {
      var init, r := requests[..|requests| - 1], requests[|requests| - 1];
      LastStep(requests, client);
      AskedLast(requests, client);
      hide Recent, Within, Hits, StoreAfter, Accepted, Asked;
      if r.client != client {
        hide NoReturn;
        StoreCoversWindow(init, client, from, now);
      } else {
        var hits, asked, b := Hits(StoreAfter(init), client), Asked(init, client), r.time;
        NoReturnWithout(asked, b, now);
        hide NoReturn;
        StoreCoversWindow(init, client, from, now);
        forall x | x in hits && from <= x < from + RATE_WINDOW
          ensures b - x < RATE_WINDOW
        {
          PrunedIsFar(asked, b, now, x, from);
        }
        KeptInWindow(hits, b, from);
        RecentIsPart(hits, b);
        WithinSnoc(Recent(hits, b), b, from);
        WithinSnoc(Accepted(init, client), b, from);
      }
    }
  }

  /** The bound, for every clock of a client's requests that does not return. */
  lemma {:induction false} WindowIsBounded(requests: seq<Request>, client: string, from: real)
    requires NoReturn(Asked(requests, client))
    ensures |Within(Accepted(requests, client), from)| <= RATE_LIMIT
  {
    if requests != [] {
      var init, r := requests[..|requests| - 1], requests[|requests| - 1];
      LastStep(requests, client);
      AskedLast(requests, client);
      hide Recent, Hits, StoreAfter, Accepted, Asked;
      if r.client == client {
        NoReturnPrefix(Asked(init, client), r.time);
        hide NoReturn;
        WindowIsBounded(init, client, from);
        var hits := Hits(StoreAfter(init), client);
        WithinSnoc(Accepted(init, client), r.time, from);
        if from <= r.time < from + RATE_WINDOW {
          StoreCoversWindow(init, client, from, r.time);
          WithinIsRecent(hits, from, r.time);
        }
        hide Within;
      } else {
        hide NoReturn, Within;
        WindowIsBounded(init, client, from);
      }
    }
  }

  lemma NoReturnPrefix(times: seq<real>, t: real)
    requires NoReturn(times + [t])
    ensures NoReturn(times)
  {
    var longer := times + [t];
    forall i, j, k | 0 <= i < j < k < |times| && times[j] - times[i] >= RATE_WINDOW
      ensures !(times[i] - RATE_WINDOW < times[k] < times[i] + RATE_WINDOW)
    {
      assert longer[i] == times[i] && longer[j] == times[j] && longer[k] == times[k];
    }
  }

  // ----- Any other clock breaks it -----

  function Burst(n: nat, time: real): seq<Request> {
    seq(n, _ => Request("c", time))
  }

  function Same(n: nat, time: real): (r: seq<real>)
    ensures |r| == n
  {
    seq(n, _ => time)
  }

  lemma {:induction false} AllRecent(n: nat, time: real, now: real, from: real)
    ensures Recent(Same(n, time), now) == if now - time < RATE_WINDOW then Same(n, time) else []
    ensures Within(Same(n, time), from) == if from <= time < from + RATE_WINDOW then Same(n, time) else []
  {
    if n > 0 {
      AllRecent(n - 1, time, now, from);
      assert Same(n, time)[..n - 1] == Same(n - 1, time);
      assert Same(n, time) == Same(n - 1, time) + [time];
    }
  }

  lemma NothingAsked()
    ensures Hits(StoreAfter([]), "c") == [] && Accepted([], "c") == []
  {
  }

  lemma {:induction false} BurstIsAccepted(n: nat, time: real)
    requires n <= RATE_LIMIT
    ensures Hits(StoreAfter(Burst(n, time)), "c") == Same(n, time)
    ensures Accepted(Burst(n, time), "c") == Same(n, time)
  {
    hide Recent, Hits, StoreAfter, Accepted, Within;
    if n == 0 {
      NothingAsked();
      assert Burst(n, time) == [] && Same(n, time) == [];
    } else {
      BurstIsAccepted(n - 1, time);
      BurstSnoc(n - 1, time);
      AllRecent(n - 1, time, time, time);
      hide Burst, Same;
      AcceptSnoc(Burst(n - 1, time), Request("c", time));
    }
  }

  lemma BurstSnoc(n: nat, time: real)
    ensures Burst(n + 1, time) == Burst(n, time) + [Request("c", time)]
    ensures Same(n + 1, time) == Same(n, time) + [time]
  {
  }

  /** A full burst at a, one request at b that empties the list, and one at c, back within a minute of a. */
  function Return(a: real, b: real, c: real): seq<Request> {
    Burst(RATE_LIMIT, a) + [Request("c", b)] + [Request("c", c)]
  }

  lemma ReturnBreaksBound(a: real, b: real, c: real)
    requires b - a >= RATE_WINDOW && a - RATE_WINDOW < c < a + RATE_WINDOW
    ensures |Within(Accepted(Return(a, b, c), "c"), if a < c then a else c)| == RATE_LIMIT + 1
  {
    hide Recent, Within, Hits, StoreAfter, Accepted;
    var from := if a < c then a else c;
    var burst := Burst(RATE_LIMIT, a);
    BurstIsAccepted(RATE_LIMIT, a);
    AllRecent(RATE_LIMIT, a, b, from);
    AcceptSnoc(burst, Request("c", b));
    RecentShorter([b], c);
    assert [] + [b] == [b];
    AcceptSnoc(burst + [Request("c", b)], Request("c", c));
    WithinSnoc(Same(RATE_LIMIT, a), b, from);
    WithinSnoc(Same(RATE_LIMIT, a) + [b], c, from);
  }

  /** For example a clock that reaches 60 and is set back to 0. */
  lemma SetBackClockBreaksBound()
    ensures |Within(Accepted(Return(0.0, 60.0, 0.0), "c"), 0.0)| == RATE_LIMIT + 1
  {
    ReturnBreaksBound(0.0, 60.0, 0.0);
  }

  // ----- Exactly these clocks -----

  function Times(requests: seq<Request>): (times: seq<real>)
    ensures |times| == |requests|
  {
    seq(|requests|, i requires 0 <= i < |requests| => requests[i].time)
  }

  /** The times are read off the clock in its order, each reading as often as one likes. */
  ghost predicate ReadsAt(times: seq<real>, clock: seq<real>, at: seq<nat>) {
    && |at| == |times|
    && (forall i :: 0 <= i < |at| ==> at[i] < |clock| && times[i] == clock[at[i]])
    && (forall i, j :: 0 <= i < j < |at| ==> at[i] <= at[j])
  }

  ghost predicate OnClock(requests: seq<Request>, clock: seq<real>) {
    exists at :: ReadsAt(Times(requests), clock, at)
  }

  lemma {:induction false} AskedOnClock(requests: seq<Request>, client: string, clock: seq<real>, at: seq<nat>) returns (sub: seq<nat>)
    requires ReadsAt(Times(requests), clock, at)
    ensures ReadsAt(Asked(requests, client), clock, sub)
    ensures sub != [] ==> at != [] && sub[|sub| - 1] <= at[|at| - 1]
  {
    if requests == [] {
      sub := [];
    } else {
      var n := |requests| - 1;
      assert Times(requests[..n]) == Times(requests)[..n];
      AskedLast(requests, client);
      hide Asked;
      var before := AskedOnClock(requests[..n], client, clock, at[..n]);
      sub := if requests[n].client == client then before + [at[n]] else before;
    }
  }

  lemma NoReturnOnClock(times: seq<real>, clock: seq<real>, at: seq<nat>)
    requires NoReturn(clock) && ReadsAt(times, clock, at)
    ensures NoReturn(times)
  {
    forall i, j, k | 0 <= i < j < k < |times| && times[j] - times[i] >= RATE_WINDOW
      ensures !(times[i] - RATE_WINDOW < times[k] < times[i] + RATE_WINDOW)
    {
      assert at[i] <= at[j] <= at[k];
      if at[j] < at[k] {
        assert at[i] < at[j] < at[k];
      }
    }
  }

  lemma ReturnOnClock(clock: seq<real>, i: nat, j: nat, k: nat)
    requires i < j < k < |clock|
    ensures OnClock(Return(clock[i], clock[j], clock[k]), clock)
  {
    var requests := Return(clock[i], clock[j], clock[k]);
    var at := seq(RATE_LIMIT, _ => i) + [j] + [k];
    assert ReadsAt(Times(requests), clock, at);
  }

  /** Whatever the clients do, the bound holds on a clock if and only if the clock does not return. */
  lemma ClockIsSafeExactly(clock: seq<real>)
    ensures (forall requests, client, from :: OnClock(requests, clock) ==> |Within(Accepted(requests, client), from)| <= RATE_LIMIT)
      <==> NoReturn(clock)
  {
    hide Within, Accepted, Asked;
    if NoReturn(clock) {
      forall requests, client, from | OnClock(requests, clock)
        ensures |Within(Accepted(requests, client), from)| <= RATE_LIMIT
      {
        var at :| ReadsAt(Times(requests), clock, at);
        var sub := AskedOnClock(requests, client, clock, at);
        NoReturnOnClock(Asked(requests, client), clock, sub);
        WindowIsBounded(requests, client, from);
      }
    } else {
      var i: nat, j: nat, k: nat :| i < j < k < |clock| && clock[j] - clock[i] >= RATE_WINDOW
        && clock[i] - RATE_WINDOW < clock[k] < clock[i] + RATE_WINDOW;
      var a, c := clock[i], clock[k];
      ReturnOnClock(clock, i, j, k);
      ReturnBreaksBound(a, clock[j], c);
      hide OnClock, NoReturn, Return;
      var from := if a < c then a else c;
      assert !(|Within(Accepted(Return(a, clock[j], c), "c"), from)| <= RATE_LIMIT);
    }
  }

  /** A clock that never goes back does not return, and neither does one that stays within a minute. */
  lemma SafeClocks(clock: seq<real>)
    ensures (forall i, j :: 0 <= i < j < |clock| ==> clock[i] <= clock[j]) ==> NoReturn(clock)
    ensures (forall i, j :: 0 <= i < j < |clock| ==> clock[j] - clock[i] < RATE_WINDOW) ==> NoReturn(clock)
  {
    if forall i, j :: 0 <= i < j < |clock| ==> clock[i] <= clock[j] {
      forall i, j, k | 0 <= i < j < k < |clock| && clock[j] - clock[i] >= RATE_WINDOW
        ensures !(clock[i] - RATE_WINDOW < clock[k] < clock[i] + RATE_WINDOW)
      {
        assert clock[j] <= clock[k];
      }
    }
  }
}
