/** When overlapping deliveries of one command commit its effects more than once, exactly. */
module DeliveryOverlap {
  import opened Types
  import opened DeliveryProtocol
  import T = ExecutionTable

  predicate IsCommit(a: Action) {
    a.Commit? || a.CommitAckLost?
  }

  ghost predicate CommitsTwice(acts: seq<Action>) {
    exists j, k :: 0 <= j < k < |acts| && IsCommit(acts[j]) && IsCommit(acts[k])
  }

  /** The delivery that commits in step `k` did its last status check in step `c`, and no crash came between. */
  ghost predicate Brackets(acts: seq<Action>, c: nat, k: nat) {
    && c < k < |acts| && IsCommit(acts[k]) && acts[c] == Check(acts[k].d)
    && forall i | c < i < k :: acts[i] != acts[c] && !acts[i].Crash?
  }

  /** Of two deliveries that commit, one checks the status between the other's check and its commit. */
  ghost predicate Overlapped(acts: seq<Action>) {
    exists c: nat, k: nat, c': nat, k': nat :: Brackets(acts, c, k) && Brackets(acts, c', k') && c < c' < k
  }

  /** A transaction that has recorded success sees it. */
  ghost predicate Ok(s: State) {
    forall d | 0 <= d < |s.positions| && s.positions[d].Succeeded? :: s.positions[d].work.status == Success
  }

  ghost predicate NotInFlight(s: State, d: nat) {
    d < |s.positions| && !InFlight(s.positions[d])
  }

  lemma StepOk(s: State, a: Action)
    requires Ok(s) && Enabled(s, a)
    ensures Ok(Apply(s, a)) && |Apply(s, a).positions| == |s.positions| && Apply(s, a).id == s.id
    ensures Done(s) || IsCommit(a) ==> Done(Apply(s, a))
  {
  }

  lemma {:induction false} RunOk(s: State, acts: seq<Action>, t: State)
    requires Ok(s) && Exec(s, acts, t)
    ensures Ok(t) && |t.positions| == |s.positions| && t.id == s.id
    ensures Done(s) ==> Done(t)
    decreases |acts|
  {
    if acts != [] {
      StepOk(s, acts[0]);
      RunOk(Apply(s, acts[0]), acts[1..], t);
    }
  }

  /** A delivery gets into flight only by a status check that finds nothing terminal. */
  lemma EntryStep(s: State, a: Action, d: nat)
    requires Enabled(s, a) && d < |s.positions|
    ensures !InFlight(s.positions[d]) && InFlight(Apply(s, a).positions[d]) ==> a == Check(d) && !Done(s)
    ensures InFlight(s.positions[d]) ==> a != Check(d)
    ensures InFlight(Apply(s, a).positions[d]) ==> !a.Crash?
  {
  }

  /** The last status check of a delivery in flight, and the state it was made in. */
  lemma {:induction false} LastCheck(s: State, acts: seq<Action>, t: State, d: nat) returns (c: nat, m: State)
    requires Ok(s) && Exec(s, acts, t) && NotInFlight(s, d) && d < |t.positions| && InFlight(t.positions[d])
    ensures c < |acts| && acts[c] == Check(d)
    ensures forall i | c < i < |acts| :: acts[i] != Check(d) && !acts[i].Crash?
    ensures Exec(s, acts[..c], m) && !Done(m)
    decreases |acts|
  {
    var n := |acts| - 1;
    var last := ExecSplit(s, acts, t, n);
    RunOk(s, acts[..n], last);
    EntryStep(last, acts[n], d);
    if InFlight(last.positions[d]) {
      c, m := LastCheck(s, acts[..n], last, d);
      assert acts[..n][..c] == acts[..c];
    } else {
      c, m := n, last;
    }
  }

  /** Once the status is terminal nothing gets into flight any more. */
  lemma NotInFlightStays(s: State, acts: seq<Action>, t: State, d: nat)
    requires Ok(s) && Exec(s, acts, t) && Done(s) && NotInFlight(s, d)
    ensures NotInFlight(t, d)
  {
    RunOk(s, acts, t);
    if InFlight(t.positions[d]) {
      var c, m := LastCheck(s, acts, t, d);
      RunOk(s, acts[..c], m);
    }
  }

  lemma {:induction false} NoRecheck(s: State, acts: seq<Action>, t: State, d: nat)
    requires Ok(s) && Exec(s, acts, t) && Done(s)
    requires d < |s.positions| && d < |t.positions| && InFlight(t.positions[d])
    ensures InFlight(s.positions[d]) && Check(d) !in acts
    decreases |acts|
  {
    if !InFlight(s.positions[d]) {
      NotInFlightStays(s, acts, t, d);
    } else if acts != [] {
      StepOk(s, acts[0]);
      EntryStep(s, acts[0], d);
      NoRecheck(Apply(s, acts[0]), acts[1..], t, d);
    }
  }

  /** The status check that a commit goes back to. */
  lemma CheckOf(s: State, acts: seq<Action>, t: State, k: nat) returns (c: nat, m: State)
    requires Ok(s) && Exec(s, acts, t) && k < |acts| && IsCommit(acts[k])
    requires forall d | 0 <= d < |s.positions| :: NotInFlight(s, d)
    ensures Brackets(acts, c, k) && !Done(m) && Exec(s, acts[..c], m)
  {
    var before := ExecSplit(s, acts, t, k);
    RunOk(s, acts[..k], before);
    c, m := LastCheck(s, acts[..k], before, acts[k].d);
    assert acts[..k][..c] == acts[..c];
    forall i | c < i < k ensures acts[i] != Check(acts[k].d) && !acts[i].Crash? {
      assert acts[..k][i] == acts[i];
    }
  }

  /** The states before and after the first of two commits, and before the second. */
  lemma Around(s: State, acts: seq<Action>, t: State, j: nat, k: nat) returns (first: State, second: State)
    requires Ok(s) && Exec(s, acts, t) && j < k < |acts| && IsCommit(acts[j]) && IsCommit(acts[k])
    ensures Ok(first) && Enabled(first, acts[j]) && Exec(Apply(first, acts[j]), acts[j + 1..k], second)
    ensures Enabled(second, acts[k])
  {
    first := ExecSplit(s, acts, t, j);
    RunOk(s, acts[..j], first);
    assert acts[j..][1..] == acts[j + 1..];
    second := ExecSplit(Apply(first, acts[j]), acts[j + 1..], t, k - j - 1);
    assert acts[j + 1..][..k - j - 1] == acts[j + 1..k];
    assert acts[j + 1..][k - j - 1..][0] == acts[k];
  }

  /** At the first of two commits the delivery that makes the second one is in flight, and does not check again. */
  lemma SecondInFlight(s: State, acts: seq<Action>, t: State, j: nat, k: nat)
    requires Ok(s) && Exec(s, acts, t) && j < k < |acts| && IsCommit(acts[j]) && IsCommit(acts[k])
    ensures acts[j].d != acts[k].d && forall i | j <= i < k :: acts[i] != Check(acts[k].d)
  {
    var first, second := Around(s, acts, t, j, k);
    var next := Apply(first, acts[j]);
    StepOk(first, acts[j]);
    RunOk(next, acts[j + 1..k], second);
    NoRecheck(next, acts[j + 1..k], second, acts[k].d);
    forall i | j < i < k ensures acts[i] != Check(acts[k].d) {
      assert acts[i] == acts[j + 1..k][i - j - 1];
    }
  }

  lemma TwiceMeansOverlap(s: State, acts: seq<Action>, t: State)
    requires Ok(s) && Exec(s, acts, t) && CommitsTwice(acts)
    requires forall d | 0 <= d < |s.positions| :: NotInFlight(s, d)
    ensures Overlapped(acts)
  {
    var j, k :| 0 <= j < k < |acts| && IsCommit(acts[j]) && IsCommit(acts[k]);
    var c, _ := CheckOf(s, acts, t, j);
    var c', _ := CheckOf(s, acts, t, k);
    SecondInFlight(s, acts, t, j, k);
    assert c' < j;
    if c < c' {
      assert Brackets(acts, c, j) && Brackets(acts, c', k);
    } else {
      assert Brackets(acts, c', k) && Brackets(acts, c, j);
    }
  }

  /** Over all runs of any number of overlapping deliveries, with errors, lost acknowledgements, crashes and
      redeliveries: the effects commit at most once if and only if no delivery that commits checks the status
      between another one's check and its commit. */
  lemma OnceUnlessOverlapped(id: Id, rows: Table, deliveries: nat, acts: seq<Action>, t: State)
    requires Exec(Init(id, rows, deliveries), acts, t)
    ensures CommitsTwice(acts) <==> Overlapped(acts)
  {
    if CommitsTwice(acts) {
      TwiceMeansOverlap(Init(id, rows, deliveries), acts, t);
    }
    if Overlapped(acts) {
      var c: nat, k: nat, c': nat, k': nat :| Brackets(acts, c, k) && Brackets(acts, c', k') && c < c' < k;
      assert k != k';
      assert if k < k' then IsCommit(acts[k]) && IsCommit(acts[k']) else IsCommit(acts[k']) && IsCommit(acts[k]);
    }
  }

  lemma {:induction false} InRange(s: State, acts: seq<Action>, t: State, i: nat)
    requires Ok(s) && Exec(s, acts, t) && i < |acts| && !acts[i].Crash?
    ensures acts[i].d < |s.positions|
    decreases |acts|
  {
    if i > 0 {
      StepOk(s, acts[0]);
      InRange(Apply(s, acts[0]), acts[1..], t, i - 1);
    }
  }

  ghost predicate AlwaysOnce(id: Id, rows: Table, deliveries: nat) {
    forall acts, t | Exec(Init(id, rows, deliveries), acts, t) :: !CommitsTwice(acts)
  }

  /** A commit needs a delivery that found no terminal status. */
  lemma TerminalNone(s: State, acts: seq<Action>, t: State, k: nat)
    requires Ok(s) && Exec(s, acts, t) && Done(s) && k < |acts|
    requires forall d | 0 <= d < |s.positions| :: NotInFlight(s, d)
    ensures !IsCommit(acts[k])
  {
    if IsCommit(acts[k]) {
      var c, m := CheckOf(s, acts, t, k);
      RunOk(s, acts[..c], m);
    }
  }

  lemma SerialOnce(id: Id, rows: Table, deliveries: nat, acts: seq<Action>, t: State)
    requires Exec(Init(id, rows, deliveries), acts, t)
    requires deliveries <= 1 || Terminal(StatusIn(rows, id))
    ensures !CommitsTwice(acts)
  {
    var s := Init(id, rows, deliveries);
    if CommitsTwice(acts) {
      var j, k :| 0 <= j < k < |acts| && IsCommit(acts[j]) && IsCommit(acts[k]);
      SecondInFlight(s, acts, t, j, k);
      InRange(s, acts, t, j);
      InRange(s, acts, t, k);
      TerminalNone(s, acts, t, k);
    }
  }

  /** Both deliveries have checked the status and the first one is about to commit. */
  lemma BothSeen(id: Id, rows: Table, deliveries: nat) returns (acts: seq<Action>, t: State)
    requires deliveries >= 2 && !Terminal(StatusIn(rows, id))
    ensures Exec(Init(id, rows, deliveries), acts, t)
    ensures t == Init(id, rows, deliveries).(positions := seq(deliveries, _ => Idle)[0 := Seen][1 := Seen])
  {
    var s := Init(id, rows, deliveries);
    acts, t := Then(s, [], s, Check(0));
    acts, t := Then(s, acts, t, Check(1));
  }

  /** Delivery `d`, which has seen nothing terminal, goes through while no other one holds the lock. */
  lemma GoesThrough(s: State, acts: seq<Action>, t: State, d: nat) returns (acts': seq<Action>, t': State)
    requires Exec(s, acts, t) && d < |t.positions| && t.positions[d].Seen? && !Locked(t)
    ensures Exec(s, acts', t') && t'.positions == t.positions[d := Idle]
    ensures |acts'| == |acts| + 4 && acts'[..|acts|] == acts && acts'[|acts| + 3] == Commit(d)
  {
    acts', t' := Then(s, acts, t, Start(d, "h", 0));
    var _ := t'.positions[d];
    acts', t' := Then(s, acts', t', HandlerSucceeds(d));
    acts', t' := Then(s, acts', t', RecordSuccess(d, 0));
    acts', t' := Then(s, acts', t', Commit(d));
  }

  lemma TwoOverlap(id: Id, rows: Table, deliveries: nat) returns (acts: seq<Action>, t: State)
    requires deliveries >= 2 && !Terminal(StatusIn(rows, id))
    ensures Exec(Init(id, rows, deliveries), acts, t) && CommitsTwice(acts)
  {
    var s := Init(id, rows, deliveries);
    acts, t := BothSeen(id, rows, deliveries);
    var n := |acts| + 3;
    acts, t := GoesThrough(s, acts, t, 0);
    assert IsCommit(acts[n]);
    var before := acts;
    acts, t := GoesThrough(s, acts, t, 1);
    assert acts[..|before|][n] == before[n];
    assert IsCommit(acts[n]) && IsCommit(acts[|before| + 3]);
  }

  /** The effects of a command commit at most once in every run if and only if its deliveries cannot overlap or it
      already has a terminal status: serialising the deliveries is necessary. */
  lemma OnceIffSerial(id: Id, rows: Table, deliveries: nat)
    ensures AlwaysOnce(id, rows, deliveries) <==> deliveries <= 1 || Terminal(StatusIn(rows, id))
  {
    if deliveries <= 1 || Terminal(StatusIn(rows, id)) {
      forall acts, t | Exec(Init(id, rows, deliveries), acts, t) ensures !CommitsTwice(acts) {
        SerialOnce(id, rows, deliveries, acts, t);
      }
    } else {
      var acts, t := TwoOverlap(id, rows, deliveries);
    }
  }

  /** At most one delivery holds the row's lock. */
  ghost predicate Exclusive(s: State) {
    forall d, e | 0 <= d < e < |s.positions| :: !Holds(s.positions[d]) || !Holds(s.positions[e])
  }

  lemma StepExclusive(s: State, a: Action)
    requires Exclusive(s) && Enabled(s, a)
    ensures Exclusive(Apply(s, a))
  {
  }

  lemma {:induction false} RunExclusive(s: State, acts: seq<Action>, t: State)
    requires Exclusive(s) && Exec(s, acts, t)
    ensures Exclusive(t)
    decreases |acts|
  {
    if acts != [] {
      StepExclusive(s, acts[0]);
      RunExclusive(Apply(s, acts[0]), acts[1..], t);
    }
  }

  /** Overlapping deliveries run their handlers one after another: from RecordStarted to the end of its transaction
      a delivery has the row to itself. */
  lemma HandlersTakeTurns(id: Id, rows: Table, deliveries: nat, acts: seq<Action>, t: State, d: nat, e: nat)
    requires Exec(Init(id, rows, deliveries), acts, t)
    requires d < |t.positions| && e < |t.positions| && d != e && Holds(t.positions[d])
    ensures !Holds(t.positions[e])
  {
    RunExclusive(Init(id, rows, deliveries), acts, t);
  }
}
