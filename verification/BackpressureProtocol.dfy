/**
 Concurrent Sends on one bus as a labelled transition system: at most |slots| of them in flight, the cached
 pending count with its TTL, the singleflight COUNT query, and workers that complete commands meanwhile.
 */
module BackpressureProtocol {
  import opened Types

  /** Where one Send is. */
  datatype Slot =
    | Idle
    | Entered
    | Missed
    | Leader
    | Waiting
    | Got(count: nat)
    | Admitted
    | Recorded

  /** The singleflight call: a flight that is Returning or Erring has finished its function but still takes joiners. */
  datatype Flight = NoFlight | Rechecking | Counting | Counted(count: nat) | Returning(count: nat) | Erring

  /** `base` and `since` are history: the last refreshed count and the increments since; `refreshes` holds the
      times of successful refreshes. */
  datatype State = State(
    max: nat,
    ttl: int,
    slots: seq<Slot>,
    pending: nat,
    count: nat,
    cachedAt: Option<nat>,
    clock: nat,
    flight: Flight,
    base: nat,
    since: nat,
    refreshes: seq<nat>
  )

  datatype Action =
    | Begin(i: nat)
    | CacheHit(i: nat)
    | CacheMiss(i: nat)
    | Join(i: nat)
    | Recheck
    | Count
    | CountFails
    | Store
    | Release
    | Compare(i: nat)
    | SendFails(i: nat)
    | Insert(i: nat, added: bool)
    | Increment(i: nat)
    | Complete
    | Tick(step: nat)
    | Restart

  function Init(max: nat, ttl: int, senders: nat, pending: nat): State {
    State(max, ttl, seq(senders, _ => Idle), pending, 0, None, 0, NoFlight, 0, 0, [])
  }

  predicate Live(s: State) {
    s.ttl > 0 && s.cachedAt.Some? && s.clock - s.cachedAt.value < s.ttl
  }

  predicate At(s: State, i: nat, p: Slot) {
    i < |s.slots| && s.slots[i] == p
  }

  predicate Enabled(s: State, a: Action) {
    match a
    case Begin(i) => At(s, i, Idle)
    case CacheHit(i) => At(s, i, Entered) && Live(s)
    case CacheMiss(i) => At(s, i, Entered) && !Live(s)
    case Join(i) => At(s, i, Missed)
    case Recheck => s.flight.Rechecking?
    case Count => s.flight.Counting?
    case CountFails => s.flight.Counting?
    case Store => s.flight.Counted?
    case Release => s.flight.Returning? || s.flight.Erring?
    case Compare(i) => i < |s.slots| && s.slots[i].Got?
    case SendFails(i) => At(s, i, Admitted)
    case Insert(i, _) => At(s, i, Admitted)
    case Increment(i) => At(s, i, Recorded)
    case Complete => s.pending > 0
    case Tick(_) => true
    case Restart => true
  }

  function Goto(s: State, i: nat, p: Slot): State
    requires i < |s.slots|
  {
    s.(slots := s.slots[i := p])
  }

  /** What a finished flight hands to everyone in it. */
  function Handed(f: Flight, p: Slot): Slot {
    if p.Leader? || p.Waiting? then (if f.Returning? then Got(f.count) else Idle) else p
  }

  function Apply(s: State, a: Action): State
    requires Enabled(s, a)
  {
    match a
    case Begin(i) => Goto(s, i, Entered)
    case CacheHit(i) => Goto(s, i, if s.count >= s.max then Idle else Admitted)
    case CacheMiss(i) => Goto(s, i, Missed)
    case Join(i) => if s.flight.NoFlight? then Goto(s, i, Leader).(flight := Rechecking) else Goto(s, i, Waiting)
    case Recheck => s.(flight := if Live(s) then Returning(s.count) else Counting)
    case Count => s.(flight := Counted(s.pending))
    case CountFails => s.(flight := Erring)
    case Store =>
      var c := s.flight.count;
      s.(flight := Returning(c), count := c, cachedAt := Some(s.clock), base := c, since := 0,
         refreshes := s.refreshes + [s.clock])
    case Release =>
      s.(flight := NoFlight, slots := seq(|s.slots|, i requires 0 <= i < |s.slots| => Handed(s.flight, s.slots[i])))
    case Compare(i) => Goto(s, i, if s.slots[i].count >= s.max then Idle else Admitted)
    case SendFails(i) => Goto(s, i, Idle)
    case Insert(i, added) => Goto(s, i, Recorded).(pending := if added then s.pending + 1 else s.pending)
    case Increment(i) => Goto(s, i, Idle).(count := s.count + 1, since := s.since + 1)
    case Complete => s.(pending := s.pending - 1)
    case Tick(step) => s.(clock := s.clock + step)
    case Restart =>
      s.(slots := seq(|s.slots|, _ => Idle), count := 0, cachedAt := None, flight := NoFlight,
         base := 0, since := 0, refreshes := [])
  }

  ghost predicate Exec(s: State, acts: seq<Action>, t: State)
    decreases |acts|
  {
    if acts == [] then s == t else Enabled(s, acts[0]) && Exec(Apply(s, acts[0]), acts[1..], t)
  }

  lemma {:induction false} ExecConcat(s: State, a: seq<Action>, m: State, b: seq<Action>, t: State)
    requires Exec(s, a, m) && Exec(m, b, t)
    ensures Exec(s, a + b, t)
    decreases |a|
  {
    if a == [] {
      assert a + b == b;
    } else {
      ExecConcat(Apply(s, a[0]), a[1..], m, b, t);
      assert (a + b)[1..] == a[1..] + b;
    }
  }

  /** One more step of a run under construction. */
  lemma Then(s: State, acts: seq<Action>, t: State, a: Action) returns (acts': seq<Action>, t': State)
    requires Exec(s, acts, t) && Enabled(t, a)
    ensures Exec(s, acts', t') && t' == Apply(t, a)
  {
    assert [a][1..] == [];
    ExecConcat(s, acts, t, [a], Apply(t, a));
    acts', t' := acts + [a], Apply(t, a);
  }
}
