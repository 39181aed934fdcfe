/** How often the bus COUNTs, and what a refusal from the cache is based on. */
module BackpressureRate {
  import opened Counting
  import opened Types
  import opened BackpressureProtocol

  /** Refreshes are at least one TTL apart, the cache remembers the last one, and what it counts is that
      refresh plus the sends since. */
  ghost predicate Spaced(s: State) {
    && s.count == s.base + s.since
    && (s.cachedAt.Some? <==> s.refreshes != [])
    && (s.cachedAt.Some? ==>
          s.refreshes[|s.refreshes| - 1] == s.cachedAt.value && s.cachedAt.value <= s.clock)
    && (s.flight.Counting? || s.flight.Counted? ==> !Live(s))
    && (s.ttl > 0 ==> forall n | 0 <= n < |s.refreshes| - 1 :: s.refreshes[n] + s.ttl <= s.refreshes[n + 1])
  }

  lemma StepSpaced(s: State, a: Action)
    requires Spaced(s) && Enabled(s, a)
    ensures Spaced(Apply(s, a)) && Apply(s, a).ttl == s.ttl
  {
  }

  lemma {:induction false} RunSpaced(s: State, acts: seq<Action>, t: State)
    requires Spaced(s) && Exec(s, acts, t)
    ensures Spaced(t) && t.ttl == s.ttl
    decreases |acts|
  {
    if acts != [] {
      StepSpaced(s, acts[0]);
      RunSpaced(Apply(s, acts[0]), acts[1..], t);
    }
  }

  lemma {:induction false} SpreadOut(times: seq<nat>, ttl: nat, i: nat, j: nat)
    requires i <= j < |times|
    requires forall n | 0 <= n < |times| - 1 :: times[n] + ttl <= times[n + 1]
    ensures times[i] + (j - i) * ttl <= times[j]
    decreases j
  {
    if i < j {
      SpreadOut(times, ttl, i, j - 1);
      assert times[j - 1] + ttl <= times[j];
      assert (j - 1 - i) * ttl + ttl == (j - i) * ttl;
    }
  }

  lemma QuotientBound(n: nat, ttl: nat, window: nat)
    requires ttl > 0 && n * ttl <= window
    ensures n <= window / ttl
  {
    var q := window / ttl;
    assert window < q * ttl + ttl;
    MulOrder(n, q + 1, ttl);
  }

  /** However many Sends run, the refreshes i..j that fall into a window of any length number at most
      window / TTL + 1. */
  lemma CountRate(max: nat, ttl: nat, senders: nat, pending: nat, acts: seq<Action>, s: State, i: nat, j: nat,
                  window: nat)
    requires ttl > 0 && Exec(Init(max, ttl, senders, pending), acts, s)
    requires i <= j < |s.refreshes| && s.refreshes[j] <= s.refreshes[i] + window
    ensures j - i + 1 <= window / ttl + 1
  {
    RunSpaced(Init(max, ttl, senders, pending), acts, s);
    SpreadOut(s.refreshes, ttl, i, j);
    QuotientBound(j - i, ttl, window);
  }

  /** A Send refused from the cache: the last refresh is younger than the TTL, and its count plus the sends
      counted since has reached MaxPending. */
  lemma CacheRefusal(max: nat, ttl: int, senders: nat, pending: nat, acts: seq<Action>, s: State, i: nat)
    requires Exec(Init(max, ttl, senders, pending), acts, s)
    requires Enabled(s, CacheHit(i)) && Apply(s, CacheHit(i)).slots[i] == Idle
    ensures s.base + s.since >= s.max
    ensures s.refreshes != [] && s.clock - s.refreshes[|s.refreshes| - 1] < ttl
  {
    RunSpaced(Init(max, ttl, senders, pending), acts, s);
  }
}
