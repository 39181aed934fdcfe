/** The overshoot bound is exact: for every number of senders some run attains it. */
module BackpressureSharp {
  import opened Types
  import opened BackpressureProtocol
  import opened BackpressureBound

  /** What a range of slots does one after another. */
  datatype Sweep = Joins | Hits | Writes | Compares(count: nat)

  function From(w: Sweep): Slot {
    match w
    case Joins => Idle
    case Hits => Idle
    case Writes => Admitted
    case Compares(c) => Got(c)
  }

  function To(w: Sweep): Slot {
    match w
    case Joins => Waiting
    case Hits => Admitted
    case Writes => Idle
    case Compares(_) => Admitted
  }

  function Script(w: Sweep, i: nat): seq<Action> {
    match w
    case Joins => [Begin(i), CacheMiss(i), Join(i)]
    case Hits => [Begin(i), CacheHit(i)]
    case Writes => [Insert(i, true), Increment(i)]
    case Compares(_) => [Compare(i)]
  }

  predicate Possible(w: Sweep, s: State) {
    match w
    case Joins => !Live(s) && !s.flight.NoFlight?
    case Hits => Live(s) && s.count < s.max
    case Writes => true
    case Compares(c) => c < s.max
  }

  /** Slots lo..hi replaced by `p`. */
  function Filled(slots: seq<Slot>, lo: nat, hi: nat, p: Slot): (r: seq<Slot>)
    requires lo <= hi <= |slots|
    ensures |r| == |slots|
    ensures forall i | 0 <= i < |slots| :: r[i] == if lo <= i < hi then p else slots[i]
  {
    slots[..lo] + seq(hi - lo, _ => p) + slots[hi..]
  }

  /** The state after slots lo..hi have swept: each write adds one pending row and one to the cached count. */
  function Swept(w: Sweep, s: State, lo: nat, hi: nat): State
    requires lo <= hi <= |s.slots|
  {
    var n := if w.Writes? then hi - lo else 0;
    s.(slots := Filled(s.slots, lo, hi, To(w)),
       pending := s.pending + n, count := s.count + n, since := s.since + n)
  }

  lemma Exec1(s: State, a: Action)
    requires Enabled(s, a)
    ensures Exec(s, [a], Apply(s, a))
  {
    assert [a][1..] == [];
  }

  lemma Exec2(s: State, a: Action, b: Action)
    requires Enabled(s, a) && Enabled(Apply(s, a), b)
    ensures Exec(s, [a, b], Apply(Apply(s, a), b))
  {
    Exec1(Apply(s, a), b);
    assert [a, b][1..] == [b];
  }

  lemma Exec3(s: State, a: Action, b: Action, c: Action)
    requires Enabled(s, a) && Enabled(Apply(s, a), b) && Enabled(Apply(Apply(s, a), b), c)
    ensures Exec(s, [a, b, c], Apply(Apply(Apply(s, a), b), c))
  {
    Exec2(Apply(s, a), b, c);
    assert [a, b, c][1..] == [b, c];
  }

  lemma SweepOne(w: Sweep, s: State, i: nat)
    requires Possible(w, s) && At(s, i, From(w))
    ensures Exec(s, Script(w, i), Swept(w, s, i, i + 1))
  {
    match w
    case Joins =>
      Exec3(s, Begin(i), CacheMiss(i), Join(i));
      assert Apply(Apply(Apply(s, Begin(i)), CacheMiss(i)), Join(i)).slots == Swept(w, s, i, i + 1).slots;
    case Hits =>
      Exec2(s, Begin(i), CacheHit(i));
      assert Apply(Apply(s, Begin(i)), CacheHit(i)).slots == Swept(w, s, i, i + 1).slots;
    case Writes =>
      Exec2(s, Insert(i, true), Increment(i));
      assert Apply(Apply(s, Insert(i, true)), Increment(i)).slots == Swept(w, s, i, i + 1).slots;
    case Compares(_) =>
      Exec1(s, Compare(i));
      assert Apply(s, Compare(i)).slots == Swept(w, s, i, i + 1).slots;
  }

  lemma SweptOneMore(w: Sweep, s: State, lo: nat, hi: nat)
    requires lo < hi <= |s.slots|
    ensures Swept(w, Swept(w, s, lo, hi - 1), hi - 1, hi) == Swept(w, s, lo, hi)
  {
    assert Swept(w, Swept(w, s, lo, hi - 1), hi - 1, hi).slots == Swept(w, s, lo, hi).slots;
  }

  lemma SweptPossible(w: Sweep, s: State, lo: nat, hi: nat)
    requires lo <= hi <= |s.slots| && Possible(w, s)
    ensures Possible(w, Swept(w, s, lo, hi))
  {
  }

  lemma {:induction false} SweepAll(w: Sweep, s: State, lo: nat, hi: nat) returns (acts: seq<Action>)
    requires lo <= hi <= |s.slots| && Possible(w, s)
    requires forall i | lo <= i < hi :: s.slots[i] == From(w)
    ensures Exec(s, acts, Swept(w, s, lo, hi))
    decreases hi - lo
  {
    if lo == hi {
      acts := [];
      assert Swept(w, s, lo, hi).slots == s.slots;
    } else {
      var m := Swept(w, s, lo, hi - 1);
      acts := SweepAll(w, s, lo, hi - 1);
      SweptPossible(w, s, lo, hi - 1);
      SweepOne(w, m, hi - 1);
      SweptOneMore(w, s, lo, hi);
      ExecConcat(s, acts, m, Script(w, hi - 1), Swept(w, s, lo, hi));
      acts := acts + Script(w, hi - 1);
    }
  }

  ghost predicate Shape(s: State, first: Slot, rest: Slot) {
    |s.slots| >= 1 && s.slots[0] == first && forall i | 1 <= i < |s.slots| :: s.slots[i] == rest
  }

  lemma Sweeping(s: State, acts: seq<Action>, t: State, w: Sweep, lo: nat) returns (acts': seq<Action>, t': State)
    requires Exec(s, acts, t) && lo <= |t.slots| && Possible(w, t)
    requires forall i | lo <= i < |t.slots| :: t.slots[i] == From(w)
    ensures Exec(s, acts', t') && t' == Swept(w, t, lo, |t.slots|)
  {
    var more := SweepAll(w, t, lo, |t.slots|);
    ExecConcat(s, acts, t, more, Swept(w, t, lo, |t.slots|));
    acts', t' := acts + more, Swept(w, t, lo, |t.slots|);
  }

  /** Slot 0 starts a flight and counts the table. */
  lemma Lead(s: State, rest: Slot) returns (acts: seq<Action>, t: State)
    requires Shape(s, Idle, rest) && !Live(s) && s.flight.NoFlight?
    ensures Exec(s, acts, t)
    ensures t == s.(slots := s.slots[0 := Leader], flight := Counted(s.pending))
  {
    acts, t := [], s;
    acts, t := Then(s, acts, t, Begin(0));
    acts, t := Then(s, acts, t, CacheMiss(0));
    acts, t := Then(s, acts, t, Join(0));
    acts, t := Then(s, acts, t, Recheck);
    acts, t := Then(s, acts, t, Count);
  }

  /** Release hands the flight's count to everyone, and everyone is admitted. */
  lemma AdmitAll(s: State, acts: seq<Action>, t: State) returns (acts': seq<Action>, t': State)
    requires Exec(s, acts, t) && Shape(t, Leader, Waiting) && t.flight.Returning? && t.flight.count < t.max
    ensures Exec(s, acts', t') && Shape(t', Admitted, Admitted) && |t'.slots| == |t.slots|
    ensures t' == t.(slots := t'.slots, flight := NoFlight)
  {
    var c := t.flight.count;
    acts', t' := Then(s, acts, t, Release);
    acts', t' := Sweeping(s, acts', t', Compares(c), 0);
  }

  /** Let the cache expire. */
  lemma Expire(s: State, acts: seq<Action>, t: State) returns (acts': seq<Action>, t': State)
    requires Exec(s, acts, t) && (t.cachedAt.Some? ==> t.cachedAt.value <= t.clock)
    ensures Exec(s, acts', t') && !Live(t') && t' == t.(clock := t'.clock) && t'.clock >= t.clock
  {
    acts', t' := Then(s, acts, t, Tick(if t.ttl > 0 then t.ttl else 0));
  }

  /** All Sends but the first are cleared by one flight and pause before recording. */
  lemma ClearOthers(s: State) returns (acts: seq<Action>, t: State)
    requires Shape(s, Idle, Idle) && !Live(s) && s.flight.NoFlight? && s.pending < s.max
    ensures Exec(s, acts, t) && Shape(t, Idle, Admitted) && !Live(t) && t.flight.NoFlight?
    ensures t.max == s.max && t.ttl == s.ttl && t.pending == s.pending && |t.slots| == |s.slots|
  {
    acts, t := Lead(s, Idle);
    acts, t := Sweeping(s, acts, t, Joins, 1);
    acts, t := Then(s, acts, t, Store);
    acts, t := AdmitAll(s, acts, t);
    acts, t := Then(s, acts, t, SendFails(0));
    acts, t := Expire(s, acts, t);
  }

  /** A second flight counts the table, then the others record, then the old count is stored. */
  lemma StoreStaleCount(s: State) returns (acts: seq<Action>, t: State)
    requires Shape(s, Idle, Admitted) && !Live(s) && s.flight.NoFlight?
    ensures Exec(s, acts, t) && Shape(t, Leader, Idle) && t.flight == Returning(s.pending)
    ensures t.count == s.pending && t.cachedAt == Some(t.clock)
    ensures t.max == s.max && t.ttl == s.ttl && t.pending == s.pending + |s.slots| - 1 && |t.slots| == |s.slots|
  {
    acts, t := Lead(s, Admitted);
    acts, t := Sweeping(s, acts, t, Writes, 1);
    acts, t := Then(s, acts, t, Store);
  }

  /** With a live cache that remembers too little, the others are cleared and record once more. */
  lemma ReuseStaleCache(s: State) returns (acts: seq<Action>, t: State)
    requires Shape(s, Leader, Idle) && s.flight.Returning? && s.ttl > 0 && s.cachedAt == Some(s.clock) &&
      s.count < s.max
    ensures Exec(s, acts, t) && Shape(t, Leader, Idle) && t.flight == s.flight && t.cachedAt == Some(t.clock)
    ensures t.max == s.max && t.ttl == s.ttl && t.pending == s.pending + |s.slots| - 1 && |t.slots| == |s.slots|
  {
    acts, t := [], s;
    acts, t := Sweeping(s, acts, t, Hits, 1);
    acts, t := Sweeping(s, acts, t, Writes, 1);
  }

  /** The others join the finished but unreleased flight, and everyone in it records. */
  lemma JoinLate(s: State) returns (acts: seq<Action>, t: State)
    requires Shape(s, Leader, Idle) && s.flight.Returning? && s.flight.count < s.max && s.cachedAt == Some(s.clock)
    ensures Exec(s, acts, t) && t.pending == s.pending + |s.slots|
  {
    acts, t := Expire(s, [], s);
    acts, t := Sweeping(s, acts, t, Joins, 1);
    acts, t := AdmitAll(s, acts, t);
    acts, t := Sweeping(s, acts, t, Writes, 0);
  }

  /** For every limit, TTL and number of senders the bound of OvershootBound is reached. */
  lemma OvershootAttained(max: nat, ttl: int, senders: nat) returns (acts: seq<Action>, t: State)
    requires max >= 1 && senders >= 1
    ensures Exec(Init(max, ttl, senders, max - 1), acts, t)
    ensures t.pending == max + (if ttl > 0 then 3 else 2) * (senders - 1)
  {
    var s := Init(max, ttl, senders, max - 1);
    var more;
    acts, t := ClearOthers(s);
    var m := t;
    more, t := StoreStaleCount(m);
    ExecConcat(s, acts, m, more, t);
    acts := acts + more;
    if ttl > 0 {
      m := t;
      more, t := ReuseStaleCache(m);
      ExecConcat(s, acts, m, more, t);
      acts := acts + more;
    }
    m := t;
    more, t := JoinLate(m);
    ExecConcat(s, acts, m, more, t);
    acts := acts + more;
  }
}
