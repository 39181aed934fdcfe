/** The outbox worker runs dry: left alone it empties the table and goes to sleep. */
module OutboxQuiescence {
  import opened Types
  import opened OutboxTable
  import opened OutboxProtocol
  import opened OutboxSafety
  import opened OutboxWakeup
  import W = OutboxWorker

  /** Steps of the worker and of hooks already registered: no commit, poll, stop, crash or error. */
  predicate Quiet(a: Action) {
    a.RunHook? || a.Select? || a.Publish? || a.Delete? || a.EndBatch? || a.EndBackoff? || a.Wake?
  }

  /** A batch that has been begun is worth its next SELECT, an untouched one only its own end. */
  function Rank(w: Worker): nat {
    match w
    case Ready => 2
    case Publishing(_, next, _) => if next == 0 then 1 else 3
    case Deleting(_, next, _) => if next == 0 then 0 else 2
    case Backoff => 1
    case Sleeping => 0
    case Exited => 0
  }

  function Measure(s: State): nat {
    4 * |s.table| + 4 * s.hooks + (if s.token then 3 else 0) + Rank(s.worker)
  }

  lemma DeleteDecreases(s: State)
    requires Consistent(s) && Enabled(s, Delete)
    ensures Measure(Apply(s, Delete)) < Measure(s)
  {
    var id := Current(s).id;
    assert id in s.table;
    assert (s.table - {id}).Keys == s.table.Keys - {id};
    assert |(s.table - {id}).Keys| == |s.table.Keys| - 1;
  }

  lemma StepDecreases(s: State, a: Action)
    requires Consistent(s) && s.limit > 0 && Quiet(a) && Enabled(s, a)
    ensures Measure(Apply(s, a)) < Measure(s)
  {
    if a.Delete? {
      DeleteDecreases(s);
    }
  }

  ghost predicate Stuck(s: State) {
    forall a | Quiet(a) :: !Enabled(s, a)
  }

  ghost predicate Idle(s: State) {
    s.table == map[] && !s.token && s.hooks == 0 && s.worker.Sleeping?
  }

  /** The SELECT always has an answer. */
  lemma BatchExists(table: Outbox, limit: nat) returns (batch: seq<Record>)
    requires forall id | id in table :: table[id].id == id
    ensures IsBatch(table, limit, batch)
  {
    batch := Extended(table, table.Keys, [], limit);
  }

  lemma {:induction false} Extended(table: Outbox, todo: set<Id>, records: seq<Record>, limit: nat)
    returns (batch: seq<Record>)
    requires forall id | id in table :: table[id].id == id
    requires W.Selecting(table, todo, records, limit)
    ensures IsBatch(table, limit, batch)
    decreases todo
  {
    if |records| < limit && todo != {} {
      var id := W.EarliestExists(table, todo);
      W.SelectingMore(table, todo, records, limit, id);
      batch := Extended(table, todo - {id}, records + [table[id]], limit);
    } else {
      W.SelectingDone(table, todo, records, limit);
      batch := records;
    }
  }

  lemma CanStep(s: State) returns (a: Action)
    requires Consistent(s) && !s.worker.Sleeping? && !s.worker.Exited?
    ensures Quiet(a) && Enabled(s, a)
  {
    match s.worker
    case Ready =>
      var batch := BatchExists(s.table, s.limit);
      a := Select(batch);
    case Publishing(batch, next, _) => a := if next < |batch| then Publish else EndBatch;
    case Deleting(_, _, _) => a := Delete;
    case Backoff => a := EndBackoff;
  }

  lemma StuckIsIdle(s: State)
    requires Consistent(s) && Tended(s) && !s.worker.Exited?
    requires Stuck(s)
    ensures Idle(s)
  {
    if !s.worker.Sleeping? {
      var a := CanStep(s);
      assert false;
    }
    assert !Enabled(s, Wake) && !Enabled(s, RunHook);
    assert s.table.Keys <= Remaining(s.worker);
  }

  lemma IdleIsStuck(s: State)
    requires Idle(s)
    ensures Stuck(s)
  {
  }

  /** The worker exits only when it is stopped, and the batch size is fixed. */
  lemma StepFacts(s: State, a: Action)
    requires Enabled(s, a) && (!s.stopping ==> !s.worker.Exited?)
    ensures !Apply(s, a).stopping ==> !Apply(s, a).worker.Exited?
    ensures Apply(s, a).limit == s.limit
  {
  }

  lemma {:induction false} RunFacts(s: State, acts: seq<Action>, t: State)
    requires (!s.stopping ==> !s.worker.Exited?) && Exec(s, acts, t)
    ensures (!t.stopping ==> !t.worker.Exited?) && t.limit == s.limit
    decreases |acts|
  {
    if acts != [] {
      StepFacts(s, acts[0]);
      RunFacts(Apply(s, acts[0]), acts[1..], t);
    }
  }

  /** A quiet step keeps the table tended to, after an error too. */
  lemma QuietTended(s: State, a: Action)
    requires Consistent(s) && Tended(s) && Quiet(a) && Enabled(s, a)
    ensures Tended(Apply(s, a))
  {
    if a.Select? {
      SelectTended(s, a.batch);
    } else if a.Delete? {
      DeleteTended(s);
    } else if a.EndBatch? {
      assert s.worker.batch[s.worker.next..] == [];
    }
  }

  /** What a quiet step keeps once the worker is up to look at the table. */
  ghost predicate Repairing(s: State) {
    Consistent(s) && Tended(s) && s.limit > 0 && !s.stopping && !s.worker.Exited?
  }

  lemma RepairFrame(s: State, a: Action)
    requires Enabled(s, a) && Quiet(a) && !s.stopping && !s.worker.Exited?
    ensures !Apply(s, a).stopping && !Apply(s, a).worker.Exited? && Apply(s, a).limit == s.limit
  {
  }

  lemma StepRepairing(s: State, a: Action)
    requires Repairing(s) && Quiet(a) && Enabled(s, a)
    ensures Repairing(Apply(s, a))
  {
    StepConsistent(s, a);
    QuietTended(s, a);
    RepairFrame(s, a);
  }

  lemma {:induction false} RepairRun(s: State, acts: seq<Action>, t: State)
    requires Repairing(s) && Exec(s, acts, t) && forall a | a in acts :: Quiet(a)
    ensures Repairing(t) && |acts| + Measure(t) <= Measure(s)
    decreases |acts|
  {
    if acts != [] {
      var a := acts[0];
      assert a in acts;
      StepRepairing(s, a);
      StepDecreases(s, a);
      RepairRun(Apply(s, a), acts[1..], t);
    }
  }

  lemma RepairedIffIdle(s: State)
    requires Repairing(s)
    ensures Stuck(s) <==> Idle(s)
  {
    if Stuck(s) {
      StuckIsIdle(s);
    }
    if Idle(s) {
      IdleIsStuck(s);
    }
  }

  /** From any reachable state with no error outstanding the outbox worker takes at most Measure(s) steps without
      new commits, polls or errors, and it cannot go on exactly when the table is empty, no signal is pending and
      it sleeps. */
  lemma WorkerRunsDry(limit: nat, past: seq<Action>, s: State, acts: seq<Action>, t: State)
    requires limit > 0 && Exec(Init(limit), past, s) && !s.lapsed && !s.stopping
    requires Exec(s, acts, t) && forall a | a in acts :: Quiet(a)
    ensures |acts| <= Measure(s)
    ensures Stuck(t) <==> Idle(t)
  {
    RunConsistent(Init(limit), past, s);
    RunTended(Init(limit), past, s);
    RunFacts(Init(limit), past, s);
    RepairRun(s, acts, t);
    RepairedIffIdle(t);
  }

  /** The fallback poll repairs what an error, or a transaction that bypassed the hooks, has stranded: from any
      reachable state that is not being stopped, one poll and then a run without new commits, polls or errors is
      bounded, and it cannot be continued exactly when the table is empty and the worker sleeps unsignalled. */
  lemma PollRepairs(limit: nat, past: seq<Action>, s: State, acts: seq<Action>, t: State)
    requires limit > 0 && Exec(Init(limit), past, s) && !s.stopping && Enabled(s, Poll)
    requires Exec(Apply(s, Poll), acts, t) && forall a | a in acts :: Quiet(a)
    ensures |acts| <= Measure(Apply(s, Poll))
    ensures Stuck(t) <==> Idle(t)
  {
    RunConsistent(Init(limit), past, s);
    RunFacts(Init(limit), past, s);
    StepConsistent(s, Poll);
    RepairRun(Apply(s, Poll), acts, t);
    RepairedIffIdle(t);
  }

  /** The drain on startup recovers: a restart loses the batch, the signal and the hooks but no record, and from the
      state it leaves, whatever came before, a quiet run is bounded and ends only when the table is empty. */
  lemma RestartRecovers(limit: nat, past: seq<Action>, s: State, acts: seq<Action>, t: State)
    requires limit > 0 && Exec(Init(limit), past, s)
    requires Exec(Apply(s, Crash), acts, t) && forall a | a in acts :: Quiet(a)
    ensures var restarted := Apply(s, Crash);
      && restarted.table == s.table && restarted.committed == s.committed && restarted.log == s.log
      && !restarted.token && restarted.hooks == 0 && !restarted.lapsed && !restarted.stopping
      && |acts| <= Measure(restarted)
    ensures Stuck(t) <==> Idle(t)
  {
    RunConsistent(Init(limit), past, s);
    RunFacts(Init(limit), past, s);
    StepConsistent(s, Crash);
    RepairRun(Apply(s, Crash), acts, t);
    RepairedIffIdle(t);
  }

  lemma {:induction false} ExitedRun(s: State, acts: seq<Action>, t: State)
    requires Exec(s, acts, t) && s.worker.Exited? && forall a | a in acts :: !a.Crash?
    ensures t.worker.Exited? && t.log == s.log && t.deleted == s.deleted
    decreases |acts|
  {
    if acts != [] {
      assert acts[0] in acts;
      ExitedRun(Apply(s, acts[0]), acts[1..], t);
    }
  }

  /** A stop request lets the worker leave between two batches or from its sleep, and until a restart nothing more is
      published or deleted. */
  lemma StopIsFinal(s: State, acts: seq<Action>, t: State)
    requires s.worker.Ready? || s.worker.Sleeping?
    requires Exec(Apply(Apply(s, Stop), Exit), acts, t) && forall a | a in acts :: !a.Crash?
    ensures t.worker.Exited? && t.log == s.log && t.deleted == s.deleted
  {
    ExitedRun(Apply(Apply(s, Stop), Exit), acts, t);
  }

  /** What is committed and no longer in the table has been published. */
  lemma IdleMeansPublished(s: State, r: Record) returns (k: nat)
    requires Consistent(s) && Idle(s) && r.id in s.committed && s.committed[r.id] == r
    ensures k < |s.log| && s.log[k].record == r
  {
    k := PublishedAt(s.log, r.id);
  }
}
