/** How far concurrent Sends can overshoot MaxPending, and how often they COUNT. */
module BackpressureBound {
  import opened Counting
  import opened Types
  import opened BackpressureProtocol

  /** This Send has passed the capacity check, or will pass it, and has not recorded its command yet. */
  function Cleared(max: nat, p: Slot): int {
    if p.Admitted? || (p.Got? && p.count < max) then 1 else 0
  }

  /** This Send has recorded its command but not counted it yet. */
  function Uncounted(p: Slot): int {
    if p.Recorded? then 1 else 0
  }

  function ClearedEach(s: State): (r: seq<int>)
    ensures |r| == |s.slots|
  {
    seq(|s.slots|, i requires 0 <= i < |s.slots| => Cleared(s.max, s.slots[i]))
  }

  function UncountedEach(s: State): (r: seq<int>)
    ensures |r| == |s.slots|
  {
    seq(|s.slots|, i requires 0 <= i < |s.slots| => Uncounted(s.slots[i]))
  }

  function BusyEach(s: State): (r: seq<int>)
    ensures |r| == |s.slots|
  {
    seq(|s.slots|, i requires 0 <= i < |s.slots| => Cleared(s.max, s.slots[i]) + Uncounted(s.slots[i]))
  }

  function TotalCleared(s: State): int {
    Sum(ClearedEach(s))
  }

  function TotalUncounted(s: State): int {
    Sum(UncountedEach(s))
  }

  /** Every Send but one may be in the gap at the same time, once for each way to act on an old count. */
  function Slack(s: State): int {
    (if s.ttl > 0 then 3 else 2) * (|s.slots| - 1)
  }

  ghost predicate HasLeader(s: State) {
    exists i :: 0 <= i < |s.slots| && s.slots[i].Leader?
  }

  ghost predicate Bounded(s: State) {
    && |s.slots| >= 1 && s.max >= 1
    && (!s.flight.NoFlight? ==> HasLeader(s))
    // the cached count lags behind the table by at most the other Sends and those not counted yet
    && (s.ttl > 0 && s.cachedAt.Some? ==> s.pending <= s.count + TotalUncounted(s) + |s.slots| - 1)
    // while a COUNT is under way the cache is dead, so nobody new is cleared
    && (s.flight.Counting? || s.flight.Counted? ==> !Live(s))
    && (s.flight.Counted? ==> s.pending + TotalCleared(s) <= s.flight.count + |s.slots| - 1)
    && (s.flight.Returning? && s.flight.count < s.max ==>
          s.pending + TotalCleared(s) <= s.max - 1 + Slack(s) - (|s.slots| - 1))
    && s.pending + TotalCleared(s) <= s.max + Slack(s)
  }

  lemma NonNegative(s: State)
    ensures TotalCleared(s) >= 0 && TotalUncounted(s) >= 0
  {
    var zeros := seq(|s.slots|, _ => 0);
    SumOfConstant(|s.slots|, 0);
    SumAtMost(zeros, ClearedEach(s));
    SumAtMost(zeros, UncountedEach(s));
  }

  /** A Send that is neither cleared nor uncounted leaves room for at most the others. */
  lemma RoomForOthers(s: State, i: nat)
    requires i < |s.slots| && Cleared(s.max, s.slots[i]) + Uncounted(s.slots[i]) == 0
    ensures TotalCleared(s) + TotalUncounted(s) <= |s.slots| - 1
  {
    SumPlus(ClearedEach(s), UncountedEach(s), BusyEach(s));
    SumOfConstant(|s.slots|, 1);
    SumMoves(seq(|s.slots|, _ => 1), BusyEach(s), i);
  }

  lemma RoomForAllButTwo(s: State, i: nat, j: nat)
    requires i < |s.slots| && j < |s.slots| && i != j
    requires Cleared(s.max, s.slots[i]) + Uncounted(s.slots[i]) == 0
    requires Cleared(s.max, s.slots[j]) + Uncounted(s.slots[j]) == 0
    ensures TotalCleared(s) + TotalUncounted(s) <= |s.slots| - 2
  {
    SumPlus(ClearedEach(s), UncountedEach(s), BusyEach(s));
    SumOfConstant(|s.slots|, 1);
    var half := BusyEach(s)[i := 1];
    SumMoves(half, BusyEach(s), i);
    SumMoves(seq(|s.slots|, _ => 1), half, j);
  }

  lemma GotoTotals(s: State, i: nat, p: Slot)
    requires i < |s.slots|
    ensures TotalCleared(Goto(s, i, p)) == TotalCleared(s) - Cleared(s.max, s.slots[i]) + Cleared(s.max, p)
    ensures TotalUncounted(Goto(s, i, p)) == TotalUncounted(s) - Uncounted(s.slots[i]) + Uncounted(p)
  {
    SumUpdate(ClearedEach(s), ClearedEach(Goto(s, i, p)), i);
    SumUpdate(UncountedEach(s), UncountedEach(Goto(s, i, p)), i);
  }

  lemma TotalsFrame(s: State, t: State)
    requires t.slots == s.slots && t.max == s.max
    ensures TotalCleared(t) == TotalCleared(s) && TotalUncounted(t) == TotalUncounted(s)
  {
    assert ClearedEach(t) == ClearedEach(s);
    assert UncountedEach(t) == UncountedEach(s);
  }

  lemma LeaderStays(s: State, i: nat, p: Slot)
    requires i < |s.slots| && !s.slots[i].Leader? && HasLeader(s)
    ensures HasLeader(Goto(s, i, p))
  {
    var l :| 0 <= l < |s.slots| && s.slots[l].Leader?;
    assert Goto(s, i, p).slots[l].Leader?;
  }

  /** One Send moves; the flight, the cache and the clock stay. */
  lemma SlotMove(s: State, i: nat, p: Slot, t: State)
    requires Bounded(s) && i < |s.slots| && !s.slots[i].Leader?
    requires t.slots == s.slots[i := p] && t.max == s.max && t.ttl == s.ttl && t.clock == s.clock
    requires t.flight == s.flight && t.cachedAt == s.cachedAt
    requires t.pending + Cleared(s.max, p) <= s.pending + Cleared(s.max, s.slots[i])
    requires t.pending - t.count - Uncounted(p) <= s.pending - s.count - Uncounted(s.slots[i])
    ensures Bounded(t)
  {
    GotoTotals(s, i, p);
    TotalsFrame(Goto(s, i, p), t);
    if HasLeader(s) {
      LeaderStays(s, i, p);
      assert HasLeader(t) by {
        var l :| 0 <= l < |s.slots| && Goto(s, i, p).slots[l].Leader?;
        assert t.slots[l].Leader?;
      }
    }
  }

  /** A Send cleared by the cache: the cached count was below the limit and lags by a bounded amount. */
  lemma CacheHitBounded(s: State, i: nat)
    requires Bounded(s) && Enabled(s, CacheHit(i)) && s.count < s.max
    ensures Bounded(Apply(s, CacheHit(i)))
  {
    var t := Apply(s, CacheHit(i));
    GotoTotals(s, i, Admitted);
    RoomForOthers(s, i);
    if HasLeader(s) {
      LeaderStays(s, i, Admitted);
      var l :| 0 <= l < |s.slots| && s.slots[l].Leader?;
      RoomForAllButTwo(s, i, l);
    }
  }

  lemma JoinBounded(s: State, i: nat)
    requires Bounded(s) && Enabled(s, Join(i))
    ensures Bounded(Apply(s, Join(i)))
  {
    if s.flight.NoFlight? {
      var t := Apply(s, Join(i));
      GotoTotals(s, i, Leader);
      TotalsFrame(Goto(s, i, Leader), t);
      assert t.slots[i].Leader?;
    } else {
      SlotMove(s, i, Waiting, Apply(s, Join(i)));
    }
  }

  lemma RecheckBounded(s: State)
    requires Bounded(s) && Enabled(s, Recheck)
    ensures Bounded(Apply(s, Recheck))
  {
    var t := Apply(s, Recheck);
    TotalsFrame(s, t);
    var l :| 0 <= l < |s.slots| && s.slots[l].Leader?;
    assert t.slots[l].Leader?;
    RoomForOthers(s, l);
  }

  lemma CountBounded(s: State)
    requires Bounded(s) && Enabled(s, Count)
    ensures Bounded(Apply(s, Count))
  {
    var t := Apply(s, Count);
    TotalsFrame(s, t);
    var l :| 0 <= l < |s.slots| && s.slots[l].Leader?;
    assert t.slots[l].Leader?;
    RoomForOthers(s, l);
    NonNegative(s);
  }

  lemma StoreBounded(s: State)
    requires Bounded(s) && Enabled(s, Store)
    ensures Bounded(Apply(s, Store))
  {
    var t := Apply(s, Store);
    TotalsFrame(s, t);
    var l :| 0 <= l < |s.slots| && s.slots[l].Leader?;
    assert t.slots[l].Leader?;
    NonNegative(s);
  }

  /** A flight released with a count below the limit clears at most everyone in flight. */
  lemma ReleaseTotals(s: State)
    requires Enabled(s, Release)
    ensures var t := Apply(s, Release);
      && TotalUncounted(t) == TotalUncounted(s)
      && TotalCleared(t) <= TotalCleared(s) + |s.slots|
      && (s.flight.Erring? || s.flight.count >= s.max ==> TotalCleared(t) == TotalCleared(s))
  {
    var t := Apply(s, Release);
    var ones := seq(|s.slots|, _ => 1);
    var raised := seq(|s.slots|, i requires 0 <= i < |s.slots| => ClearedEach(s)[i] + 1);
    SumOfConstant(|s.slots|, 1);
    SumPlus(ClearedEach(s), ones, raised);
    SumAtMost(ClearedEach(t), raised);
    assert UncountedEach(t) == UncountedEach(s);
    if s.flight.Erring? || s.flight.count >= s.max {
      assert ClearedEach(t) == ClearedEach(s);
    }
  }

  lemma ReleaseBounded(s: State)
    requires Bounded(s) && Enabled(s, Release)
    ensures Bounded(Apply(s, Release))
  {
    ReleaseTotals(s);
  }

  lemma RestartBounded(s: State)
    requires Bounded(s)
    ensures Bounded(Apply(s, Restart))
  {
    var t := Apply(s, Restart);
    NonNegative(s);
    SumOfConstant(|s.slots|, 0);
    assert ClearedEach(t) == seq(|s.slots|, _ => 0);
  }

  lemma FlightFrame(s: State, t: State)
    requires Bounded(s) && t.slots == s.slots && t.max == s.max && t.ttl == s.ttl && t.count == s.count
    requires t.cachedAt == s.cachedAt && t.clock >= s.clock && t.pending <= s.pending
    requires t.flight == s.flight || t.flight.Erring?
    requires t.flight.Erring? ==> s.flight.Counting? || s.flight.Erring?
    ensures Bounded(t)
  {
    TotalsFrame(s, t);
    if HasLeader(s) {
      var l :| 0 <= l < |s.slots| && s.slots[l].Leader?;
      assert t.slots[l].Leader?;
    }
  }

  lemma StepBounded(s: State, a: Action)
    requires Bounded(s) && Enabled(s, a)
    ensures Bounded(Apply(s, a))
  {
    var t := Apply(s, a);
    match a
    case Begin(i) => SlotMove(s, i, Entered, t);
    case CacheHit(i) =>
      if s.count >= s.max { SlotMove(s, i, Idle, t); } else { CacheHitBounded(s, i); }
    case CacheMiss(i) => SlotMove(s, i, Missed, t);
    case Join(i) => JoinBounded(s, i);
    case Recheck => RecheckBounded(s);
    case Count => CountBounded(s);
    case CountFails => FlightFrame(s, t);
    case Store => StoreBounded(s);
    case Release => ReleaseBounded(s);
    case Compare(i) => SlotMove(s, i, t.slots[i], t);
    case SendFails(i) => SlotMove(s, i, Idle, t);
    case Insert(i, _) => SlotMove(s, i, Recorded, t);
    case Increment(i) => SlotMove(s, i, Idle, t);
    case Complete => FlightFrame(s, t);
    case Tick(_) => FlightFrame(s, t);
    case Restart => RestartBounded(s);
  }

  lemma ParametersStay(s: State, a: Action)
    requires Enabled(s, a)
    ensures var t := Apply(s, a); t.max == s.max && t.ttl == s.ttl && |t.slots| == |s.slots|
  {
  }

  lemma {:induction false} RunBounded(s: State, acts: seq<Action>, t: State)
    requires Bounded(s) && Exec(s, acts, t)
    ensures Bounded(t) && t.max == s.max && t.ttl == s.ttl && |t.slots| == |s.slots|
    decreases |acts|
  {
    if acts != [] {
      StepBounded(s, acts[0]);
      ParametersStay(s, acts[0]);
      RunBounded(Apply(s, acts[0]), acts[1..], t);
    }
  }

  lemma InitBounded(max: nat, ttl: int, senders: nat, pending: nat)
    requires max >= 1 && senders >= 1 && pending <= max
    ensures Bounded(Init(max, ttl, senders, pending))
  {
    var s := Init(max, ttl, senders, pending);
    SumOfConstant(senders, 0);
    assert ClearedEach(s) == seq(senders, _ => 0);
  }

  /** With `senders` Sends in flight at a time the table never holds more than MaxPending plus 3 (senders - 1)
      pending rows, and plus 2 (senders - 1) when the cache is disabled. */
  lemma OvershootBound(max: nat, ttl: int, senders: nat, pending: nat, acts: seq<Action>, s: State)
    requires max >= 1 && senders >= 1 && pending <= max
    requires Exec(Init(max, ttl, senders, pending), acts, s)
    ensures s.pending <= max + (if ttl > 0 then 3 else 2) * (senders - 1)
  {
    InitBounded(max, ttl, senders, pending);
    RunBounded(Init(max, ttl, senders, pending), acts, s);
    NonNegative(s);
  }

  /** With one Send at a time MaxPending is a hard limit, and between Sends the cached count is never below the
      number of pending rows. */
  lemma SingleSenderHardLimit(max: nat, ttl: int, pending: nat, acts: seq<Action>, s: State)
    requires max >= 1 && pending <= max && ttl > 0
    requires Exec(Init(max, ttl, 1, pending), acts, s)
    ensures s.pending <= max
    ensures s.slots == [Idle] && s.cachedAt.Some? ==> s.pending <= s.count
  {
    OvershootBound(max, ttl, 1, pending, acts, s);
    InitBounded(max, ttl, 1, pending);
    RunBounded(Init(max, ttl, 1, pending), acts, s);
    if s.slots == [Idle] {
      assert UncountedEach(s) == [0];
      assert [0][..0] == [];
    }
  }
}
