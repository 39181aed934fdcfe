/** The worker pool runs dry: left alone, it stops after boundedly many steps with nothing pending. */
module QueueQuiescence {
  import opened Counting
  import opened Types
  import opened ExecutionTable
  import opened QueueProtocol
  import opened QueueSafety
  import opened QueueOutcome
  import opened QueueWakeup

  /** Steps of the workers and of senders already in flight: no new send, poll, stop, crash or database error. */
  predicate Quiet(a: Action) {
    a.Fetch? || a.FetchEmpty? || a.RecordStarted? || a.HandlerSucceeds? || a.HandlerFails? || a.RecordSuccess? ||
    a.Commit? || a.RecordFailure? || a.NotifyOutbox? || a.NotifyPeers? || a.EndBackoff? || a.Wake? || a.SenderNotify?
  }

  function Rank(p: Worker): nat {
    match p
    case Ready => 1
    case Claimed(_, _) => 9
    case Running(_, _) => 8
    case Handled(_, _, _) => 7
    case Finished(_, _, _) => 6
    case Failing(_) => 5
    case Committed => 5
    case Processed => 4
    case Backoff => 1
    case Sleeping => 0
    case Exited => 0
  }

  /** The row this worker is attempting; it will not be able to claim that row again. */
  function Attempting(p: Worker): set<Id> {
    if InTx(p) || p.Failing? then {p.id} else {}
  }

  /** Nine for every pending row the worker may still claim, and a little for the step it is at. */
  function Potential(pending: set<Id>, p: Worker): nat {
    9 * |pending - Attempting(p)| + Rank(p)
  }

  function Potentials(pending: set<Id>, ws: seq<Worker>): (r: seq<int>)
    ensures |r| == |ws|
  {
    seq(|ws|, i requires 0 <= i < |ws| => Potential(pending, ws[i]))
  }

  /** The termination measure of the whole system. */
  function Measure(s: State): int {
    Sum(Potentials(PendingIds(s.rows), s.workers)) + (if s.token then 2 else 0) + 3 * s.notifying
  }

  lemma PotentialShrinks(a: set<Id>, b: set<Id>, p: Worker)
    requires a <= b
    ensures Potential(a, p) <= Potential(b, p)
  {
    SubsetSize(a - Attempting(p), b - Attempting(p));
  }

  lemma MeasureMoves(s: State, t: State, w: nat)
    requires Is(s, w) && Is(t, w) && t.workers == s.workers[w := t.workers[w]]
    requires PendingIds(t.rows) <= PendingIds(s.rows)
    ensures Measure(t) + Potential(PendingIds(s.rows), s.workers[w]) + (if s.token then 2 else 0) + 3 * s.notifying
      <= Measure(s) + Potential(PendingIds(t.rows), t.workers[w]) + (if t.token then 2 else 0) + 3 * t.notifying
  {
    var before := Potentials(PendingIds(s.rows), s.workers);
    var after := Potentials(PendingIds(t.rows), t.workers);
    forall v | 0 <= v < |before| && v != w ensures after[v] <= before[v] {
      PotentialShrinks(PendingIds(t.rows), PendingIds(s.rows), s.workers[v]);
    }
    SumMoves(before, after, w);
  }

  lemma FetchDecreases(s: State, w: nat, id: Id)
    requires Enabled(s, Fetch(w, id))
    ensures Measure(Apply(s, Fetch(w, id))) < Measure(s)
  {
    var t := Apply(s, Fetch(w, id));
    var pending := PendingIds(s.rows);
    assert t.workers[w] == Claimed(id, s.rows[id]);
    assert |pending - {id}| == |pending| - 1;
    assert pending - {} == pending;
    MeasureMoves(s, t, w);
  }

  /** A move that keeps the worker's claims and lowers its rank, or spends a signal. */
  predicate Descends(s: State, t: State, w: nat)
    requires Is(s, w) && Is(t, w)
  {
    && Attempting(t.workers[w]) == Attempting(s.workers[w])
    && t.notifying == s.notifying
    && Rank(t.workers[w]) + (if t.token then 2 else 0) < Rank(s.workers[w]) + (if s.token then 2 else 0)
  }

  lemma TxMoveRank(s: State, a: Action)
    requires Enabled(s, a) && TxMove(a) && !a.Fetch?
    ensures Descends(s, Apply(s, a), a.w)
  {
  }

  lemma OtherMoveRank(s: State, a: Action)
    requires Enabled(s, a) && Moves(a) && Quiet(a) && !TxMove(a)
    ensures Descends(s, Apply(s, a), a.w)
  {
  }

  lemma MoveRank(s: State, a: Action)
    requires Enabled(s, a) && Moves(a) && Quiet(a) && !a.Fetch?
    ensures Descends(s, Apply(s, a), a.w)
  {
    if TxMove(a) {
      TxMoveRank(s, a);
    } else {
      OtherMoveRank(s, a);
    }
  }

  lemma MoveDecreases(s: State, a: Action)
    requires Enabled(s, a) && Moves(a) && Quiet(a) && !a.Fetch?
    ensures Measure(Apply(s, a)) < Measure(s)
  {
    MoveShape(s, a);
    MoveRank(s, a);
    MeasureMoves(s, Apply(s, a), a.w);
  }

  /** A worker that takes its own row off the pending set has as many rows left to claim as before. */
  lemma SettleDecreases(s: State, t: State, w: nat)
    requires Is(s, w) && Is(t, w) && t.workers == s.workers[w := t.workers[w]]
    requires t.token == s.token && t.notifying == s.notifying
    requires Attempting(t.workers[w]) == {} && Rank(t.workers[w]) < Rank(s.workers[w])
    requires PendingIds(t.rows) == PendingIds(s.rows) - Attempting(s.workers[w])
    ensures Measure(t) < Measure(s)
  {
    assert PendingIds(t.rows) - {} == PendingIds(t.rows);
    MeasureMoves(s, t, w);
  }

  lemma CommitDecreases(s: State, w: nat)
    requires Safe(s) && Enabled(s, Commit(w))
    ensures Measure(Apply(s, Commit(w))) < Measure(s)
  {
    assert WorkerOk(s, s.workers[w]);
    SettleDecreases(s, Apply(s, Commit(w)), w);
  }

  lemma RecordFailureDecreases(s: State, a: Action)
    requires Safe(s) && a.RecordFailure? && Enabled(s, a)
    ensures Measure(Apply(s, a)) < Measure(s)
  {
    assert WorkerOk(s, s.workers[a.w]);
    SettleDecreases(s, Apply(s, a), a.w);
  }

  lemma StepDecreases(s: State, a: Action)
    requires Safe(s) && Quiet(a) && Enabled(s, a)
    ensures Measure(Apply(s, a)) < Measure(s)
  {
    if a.Fetch? {
      FetchDecreases(s, a.w, a.id);
    } else if a.Commit? {
      CommitDecreases(s, a.w);
    } else if a.RecordFailure? {
      RecordFailureDecreases(s, a);
    } else if !a.SenderNotify? {
      MoveDecreases(s, a);
    }
  }

  /** No quiet step is possible. */
  ghost predicate Stuck(s: State) {
    forall a | Quiet(a) :: !Enabled(s, a)
  }

  ghost predicate Idle(s: State) {
    && PendingIds(s.rows) == {}
    && !s.token
    && s.notifying == 0
    && forall w | 0 <= w < |s.workers| :: s.workers[w].Sleeping?
  }

  ghost predicate NoneExited(s: State) {
    !s.stopping ==> forall w | 0 <= w < |s.workers| :: !s.workers[w].Exited?
  }

  /** A worker inside a transaction can always take its next step, so no lock lasts. */
  lemma HolderCanStep(s: State, w: nat) returns (a: Action)
    requires Is(s, w) && InTx(s.workers[w])
    ensures Quiet(a) && Enabled(s, a)
  {
    match s.workers[w]
    case Claimed(_, _) => a := RecordStarted(w, "", 0);
    case Running(_, _) => a := HandlerFails(w);
    case Handled(_, _, _) => a := RecordSuccess(w, 0);
    case Finished(_, _, _) => a := Commit(w);
  }

  lemma WorkerCanStep(s: State, w: nat) returns (a: Action)
    requires Is(s, w) && LockedIds(s) == {}
    requires !s.workers[w].Sleeping? && !s.workers[w].Exited?
    ensures Quiet(a) && Enabled(s, a)
  {
    match s.workers[w]
    case Ready =>
      if PendingIds(s.rows) - LockedIds(s) == {} {
        a := FetchEmpty(w);
      } else {
        var id := NextExists(s.rows, LockedIds(s));
        a := Fetch(w, id);
      }
    case Failing(_) => a := RecordFailure(w, "", 0);
    case Committed => a := NotifyOutbox(w);
    case Processed => a := NotifyPeers(w);
    case Backoff => a := EndBackoff(w);
    case _ => a := HolderCanStep(s, w);
  }

  lemma StuckSleeps(s: State)
    requires Stuck(s) && NoneExited(s) && !s.stopping
    ensures forall w | 0 <= w < |s.workers| :: s.workers[w].Sleeping?
  {
    forall w | 0 <= w < |s.workers| ensures !InTx(s.workers[w]) {
      if InTx(s.workers[w]) {
        var a := HolderCanStep(s, w);
        assert false;
      }
    }
    assert LockedIds(s) == {};
    forall w | 0 <= w < |s.workers| ensures s.workers[w].Sleeping? {
      if !s.workers[w].Sleeping? {
        var a := WorkerCanStep(s, w);
        assert false;
      }
    }
  }

  lemma StuckIsIdle(s: State)
    requires Stuck(s) && NoLostWakeup(s) && NoneExited(s) && |s.workers| == s.cfg.workers
    requires s.cfg.wakeup && s.cfg.workers > 0 && !s.lapsed && !s.stopping
    ensures Idle(s)
  {
    StuckSleeps(s);
    assert LockedIds(s) == {};
    assert !Enabled(s, SenderNotify);
    assert !Enabled(s, Wake(0));
  }

  lemma IdleIsStuck(s: State)
    requires Idle(s)
    ensures Stuck(s)
  {
  }

  lemma QuietFrame(s: State, a: Action)
    requires Enabled(s, a) && Quiet(a) && !s.lapsed && !s.stopping
    ensures !Apply(s, a).lapsed && !Apply(s, a).stopping
  {
    if Moves(a) {
      MoveShape(s, a);
    }
  }

  lemma StepNoneExited(s: State, a: Action)
    requires NoneExited(s) && Enabled(s, a)
    ensures NoneExited(Apply(s, a))
  {
    if Moves(a) {
      MoveShape(s, a);
    }
  }

  lemma {:induction false} RunNoneExited(s: State, acts: seq<Action>, t: State)
    requires NoneExited(s) && Exec(s, acts, t)
    ensures NoneExited(t)
    decreases |acts|
  {
    if acts != [] {
      StepNoneExited(s, acts[0]);
      RunNoneExited(Apply(s, acts[0]), acts[1..], t);
    }
  }

  lemma MeasureNonnegative(s: State)
    ensures Measure(s) >= 0
  {
    var ps := Potentials(PendingIds(s.rows), s.workers);
    SumAtMost(seq(|ps|, _ => 0), ps);
    SumOfConstant(|ps|, 0);
  }

  /** Unlike NoLostWakeup this speaks of states after an error too, and of pools without wake-ups. */
  ghost predicate Watched(s: State) {
    Unclaimed(s) != {} ==> Attended(s)
  }

  lemma BackoffWatched(s: State, w: nat)
    requires Watched(s) && Enabled(s, EndBackoff(w))
    ensures Watched(Apply(s, EndBackoff(w)))
  {
    var t := Apply(s, EndBackoff(w));
    if Awake(s) {
      var v :| 0 <= v < |s.workers| && WillFetch(s.workers[v]);
      AwakeWitness(t, v);
    }
    forall id | id in LockedIds(s) ensures id in LockedIds(t) {
      var v :| 0 <= v < |s.workers| && InTx(s.workers[v]) && s.workers[v].id == id;
      assert t.workers[v] == s.workers[v];
    }
  }

  lemma RousedWatched(s: State, a: Action)
    requires Enabled(s, a) && Quiet(a) && Moves(a) && !a.FetchEmpty? && !a.EndBackoff?
    ensures Watched(Apply(s, a))
  {
    MoveShape(s, a);
    AwakeWitness(Apply(s, a), a.w);
  }

  lemma QuietWatched(s: State, a: Action)
    requires Watched(s) && Quiet(a) && Enabled(s, a)
    ensures Watched(Apply(s, a))
  {
    if a.FetchEmpty? {
      FetchEmptyLeavesNothing(s, a.w);
    } else if a.EndBackoff? {
      BackoffWatched(s, a.w);
    } else if a.Commit? || a.RecordFailure? {
      AwakeWitness(Apply(s, a), a.w);
    } else if !a.SenderNotify? {
      RousedWatched(s, a);
    }
  }

  /** Nobody signals a pool whose wake-ups are disabled. */
  ghost predicate Silent(s: State) {
    !s.cfg.wakeup ==> !s.token && s.notifying == 0
  }

  lemma StepSilent(s: State, a: Action)
    requires Silent(s) && Enabled(s, a)
    ensures Silent(Apply(s, a))
  {
  }

  lemma {:induction false} RunSilent(s: State, acts: seq<Action>, t: State)
    requires Silent(s) && Exec(s, acts, t)
    ensures Silent(t)
    decreases |acts|
  {
    if acts != [] {
      StepSilent(s, acts[0]);
      RunSilent(Apply(s, acts[0]), acts[1..], t);
    }
  }

  /** What a quiet step keeps once the table is watched, after an error too. */
  ghost predicate Repairing(s: State) {
    Safe(s) && Watched(s) && Silent(s) && NoneExited(s) && s.cfg.workers > 0 && !s.stopping
  }

  lemma QuietStopping(s: State, a: Action)
    requires Enabled(s, a) && Quiet(a)
    ensures Apply(s, a).stopping == s.stopping
  {
    if Moves(a) {
      MoveShape(s, a);
    }
  }

  lemma StepRepairing(s: State, a: Action)
    requires Repairing(s) && Quiet(a) && Enabled(s, a)
    ensures Repairing(Apply(s, a))
  {
    StepSafe(s, a);
    QuietWatched(s, a);
    StepSilent(s, a);
    StepNoneExited(s, a);
    WorkersStay(s, a);
    QuietStopping(s, a);
  }

  lemma {:induction false} RepairRun(s: State, acts: seq<Action>, t: State)
    requires Repairing(s) && Exec(s, acts, t) && forall a | a in acts :: Quiet(a)
    ensures Repairing(t) && |acts| + Measure(t) <= Measure(s)
    decreases |acts|
  {
    if acts != [] {
      var a := acts[0];
      assert a in acts;
      StepRepairing(s, a);
      StepDecreases(s, a);
      RepairRun(Apply(s, a), acts[1..], t);
    }
  }

  lemma RepairedIffIdle(s: State)
    requires Repairing(s)
    ensures Stuck(s) <==> Idle(s)
  {
    if Stuck(s) {
      StuckSleeps(s);
      assert LockedIds(s) == {};
      assert !Enabled(s, SenderNotify);
      assert !Enabled(s, Wake(0));
    }
    if Idle(s) {
      IdleIsStuck(s);
    }
  }

  /** From any reachable state `s` with no error outstanding, a run of N workers without new sends, polls or
      errors has at most Measure(s) steps, and it cannot be continued exactly when the queue is empty, no
      signal is pending and every worker sleeps. */
  lemma PoolRunsDry(cfg: Config, past: seq<Action>, s: State, acts: seq<Action>, t: State)
    requires cfg.wakeup && cfg.workers > 0
    requires Exec(Init(cfg), past, s) && !s.lapsed && !s.stopping
    requires Exec(s, acts, t) && forall a | a in acts :: Quiet(a)
    ensures |acts| <= Measure(s)
    ensures Stuck(t) <==> Idle(t)
  {
    ReachableFacts(cfg, past, s);
    NoWakeupIsLost(cfg, past, s);
    RepairRun(s, acts, t);
    MeasureNonnegative(t);
    RepairedIffIdle(t);
  }

  lemma ReachableFacts(cfg: Config, past: seq<Action>, s: State)
    requires Exec(Init(cfg), past, s)
    ensures Safe(s) && Silent(s) && NoneExited(s) && s.cfg == cfg
  {
    InitSafe(cfg);
    RunSound(Init(cfg), past, s);
    RunSilent(Init(cfg), past, s);
    RunNoneExited(Init(cfg), past, s);
  }

  /** The fallback poll repairs what an error, or disabled wake-ups, have stranded: from any reachable state that is
      not being stopped, one poll and then a run without new sends, polls or errors is bounded, and it cannot be
      continued exactly when the queue is empty, no signal is pending and every worker sleeps. */
  lemma PollRepairs(cfg: Config, past: seq<Action>, s: State, w: nat, acts: seq<Action>, t: State)
    requires Exec(Init(cfg), past, s) && !s.stopping && Enabled(s, Poll(w))
    requires Exec(Apply(s, Poll(w)), acts, t) && forall a | a in acts :: Quiet(a)
    ensures |acts| <= Measure(Apply(s, Poll(w)))
    ensures Stuck(t) <==> Idle(t)
  {
    PolledIsRepairing(cfg, past, s, w);
    RepairRun(Apply(s, Poll(w)), acts, t);
    MeasureNonnegative(t);
    RepairedIffIdle(t);
  }

  lemma PolledIsRepairing(cfg: Config, past: seq<Action>, s: State, w: nat)
    requires Exec(Init(cfg), past, s) && !s.stopping && Enabled(s, Poll(w))
    ensures Repairing(Apply(s, Poll(w)))
  {
    ReachableFacts(cfg, past, s);
    StepSafe(s, Poll(w));
    StepNoneExited(s, Poll(w));
    AwakeWitness(Apply(s, Poll(w)), w);
  }

  /** The drain on startup recovers: a restart loses every position, lock and signal but no command, and from the
      state it leaves, whatever came before, a run without new sends, polls or errors is bounded and ends only when
      nothing is pending. */
  lemma RestartRecovers(cfg: Config, past: seq<Action>, s: State, acts: seq<Action>, t: State)
    requires Exec(Init(cfg), past, s) && cfg.workers > 0
    requires Exec(Apply(s, Crash), acts, t) && forall a | a in acts :: Quiet(a)
    ensures var restarted := Apply(s, Crash);
      && restarted.rows == s.rows && restarted.ledger == s.ledger && LockedIds(restarted) == {}
      && !restarted.token && restarted.notifying == 0 && !restarted.lapsed && !restarted.stopping
      && |acts| <= Measure(restarted)
    ensures Stuck(t) <==> Idle(t)
  {
    ReachableFacts(cfg, past, s);
    RestartedIsRepairing(s);
    RepairRun(Apply(s, Crash), acts, t);
    MeasureNonnegative(t);
    RepairedIffIdle(t);
  }

  lemma RestartedIsRepairing(s: State)
    requires Safe(s) && Silent(s) && NoneExited(s) && s.cfg.workers > 0
    ensures Repairing(Apply(s, Crash))
  {
    StepSafe(s, Crash);
    AwakeWitness(Apply(s, Crash), 0);
  }

  lemma ExitedStep(s: State, a: Action, w: nat)
    requires Enabled(s, a) && !a.Crash? && Is(s, w) && s.workers[w].Exited?
    ensures Is(Apply(s, a), w) && Apply(s, a).workers[w].Exited?
  {
    WorkersStay(s, a);
    if Moves(a) {
      MoveShape(s, a);
    }
  }

  lemma {:induction false} ExitedRun(s: State, acts: seq<Action>, t: State, w: nat)
    requires Exec(s, acts, t) && Is(s, w) && s.workers[w].Exited? && forall a | a in acts :: !a.Crash?
    ensures Is(t, w) && t.workers[w].Exited?
    decreases |acts|
  {
    if acts != [] {
      assert acts[0] in acts;
      ExitedStep(s, acts[0], w);
      ExitedRun(Apply(s, acts[0]), acts[1..], t, w);
    }
  }

  /** A stop request lets every worker that is between two commands, or asleep, leave, and it has left for good: until
      a restart it is not seen again, whatever else happens. */
  lemma StopIsFinal(s: State, w: nat, acts: seq<Action>, t: State)
    requires Is(s, w) && (s.workers[w].Ready? || s.workers[w].Sleeping?)
    requires Exec(Apply(Apply(s, Stop), Exit(w)), acts, t) && forall a | a in acts :: !a.Crash?
    ensures Is(t, w) && t.workers[w].Exited?
  {
    ExitedRun(Apply(Apply(s, Stop), Exit(w)), acts, t, w);
  }

  /** Once all workers have left, no transaction commits and no status changes except by a send. */
  lemma {:induction false} StoppedPoolIsInert(s: State, acts: seq<Action>, t: State, id: Id)
    requires Exec(s, acts, t) && forall w | 0 <= w < |s.workers| :: s.workers[w].Exited?
    requires forall a | a in acts :: !a.Crash? && !(a.Send? && a.id == id)
    ensures t.ledger == s.ledger && StatusOf(t, id) == StatusOf(s, id)
    decreases |acts|
  {
    if acts != [] {
      var a := acts[0];
      assert a in acts;
      InertStep(s, a, id);
      forall w | 0 <= w < |Apply(s, a).workers| ensures Apply(s, a).workers[w].Exited? {
        WorkersStay(s, a);
        ExitedStep(s, a, w);
      }
      StoppedPoolIsInert(Apply(s, a), acts[1..], t, id);
    }
  }

  lemma InertStep(s: State, a: Action, id: Id)
    requires Enabled(s, a) && !a.Crash? && !(a.Send? && a.id == id)
    requires forall w | 0 <= w < |s.workers| :: s.workers[w].Exited?
    ensures Apply(s, a).ledger == s.ledger && StatusOf(Apply(s, a), id) == StatusOf(s, id)
  {
    OthersOnly(s, a);
  }

  lemma OthersOnly(s: State, a: Action)
    requires Enabled(s, a) && forall w | 0 <= w < |s.workers| :: s.workers[w].Exited?
    ensures a.Send? || a.SenderNotify? || a.Stop? || a.Crash?
  {
  }

  /** Worker `w` can no longer claim `id`: it is attempting it, or the row is not pending any more. */
  ghost predicate Spent(s: State, w: nat, id: Id) {
    Is(s, w) && (id in Attempting(s.workers[w]) || id !in PendingIds(s.rows))
  }

  lemma SpentCommit(s: State, v: nat, w: nat, id: Id)
    requires Safe(s) && Enabled(s, Commit(v)) && Spent(s, w, id)
    ensures Spent(Apply(s, Commit(v)), w, id)
  {
    assert WorkerOk(s, s.workers[v]);
  }

  lemma SpentFailure(s: State, a: Action, w: nat, id: Id)
    requires a.RecordFailure? && Enabled(s, a) && Spent(s, w, id)
    ensures Spent(Apply(s, a), w, id)
  {
  }

  lemma SpentMove(s: State, a: Action, w: nat, id: Id)
    requires Moves(a) && Quiet(a) && Enabled(s, a) && Spent(s, w, id)
    ensures a != Fetch(w, id) && Spent(Apply(s, a), w, id)
  {
    MoveShape(s, a);
    if !a.Fetch? {
      MoveRank(s, a);
    }
  }

  lemma SpentStays(s: State, a: Action, w: nat, id: Id)
    requires Safe(s) && Quiet(a) && Enabled(s, a) && Spent(s, w, id)
    ensures a != Fetch(w, id) && Spent(Apply(s, a), w, id)
  {
    if a.Commit? {
      SpentCommit(s, a.w, w, id);
    } else if a.RecordFailure? {
      SpentFailure(s, a, w, id);
    } else if !a.SenderNotify? {
      SpentMove(s, a, w, id);
    }
  }

  lemma {:induction false} SpentForever(s: State, acts: seq<Action>, t: State, w: nat, id: Id)
    requires Safe(s) && Exec(s, acts, t) && (forall a | a in acts :: Quiet(a)) && Spent(s, w, id)
    ensures Fetch(w, id) !in acts
    decreases |acts|
  {
    if acts != [] {
      assert acts[0] in acts;
      SpentStays(s, acts[0], w, id);
      StepSafe(s, acts[0]);
      SpentForever(Apply(s, acts[0]), acts[1..], t, w, id);
    }
  }

  /** Each worker attempts each row at most once in a quiet run, although several workers may fail the same row. */
  lemma {:induction false} OneAttemptEach(s: State, acts: seq<Action>, t: State, i: nat, j: nat, w: nat, id: Id)
    requires Safe(s) && Exec(s, acts, t) && forall a | a in acts :: Quiet(a)
    requires i < j < |acts| && acts[i] == Fetch(w, id)
    ensures acts[j] != Fetch(w, id)
    decreases |acts|
  {
    var a := acts[0];
    assert a in acts;
    var m := Apply(s, a);
    StepSafe(s, a);
    if i == 0 {
      SpentForever(m, acts[1..], t, w, id);
      assert acts[j] == acts[1..][j - 1];
    } else {
      OneAttemptEach(m, acts[1..], t, i - 1, j - 1, w, id);
    }
  }
}
