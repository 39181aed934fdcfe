/** No lost wake-up: a claimable command is never left behind with every worker asleep and no signal. */
module QueueWakeup {
  import opened Types
  import opened ExecutionTable
  import opened QueueProtocol
  import opened QueueSafety
  import opened QueueOutcome

  /** Without a database error this worker fetches again before it sleeps. */
  predicate WillFetch(p: Worker) {
    !p.Sleeping? && !p.Backoff? && !p.Exited?
  }

  ghost predicate Awake(s: State) {
    exists w :: 0 <= w < |s.workers| && WillFetch(s.workers[w])
  }

  function Unclaimed(s: State): set<Id> {
    PendingIds(s.rows) - LockedIds(s)
  }

  /** Someone is going to look at the table: a signal is set, a sender is about to set it, or a worker is up. */
  ghost predicate Attended(s: State) {
    s.token || s.notifying > 0 || Awake(s)
  }

  ghost predicate NoLostWakeup(s: State) {
    s.cfg.wakeup && s.cfg.workers > 0 && !s.lapsed && !s.stopping && Unclaimed(s) != {} ==> Attended(s)
  }

  lemma AwakeWitness(s: State, w: nat)
    requires Is(s, w) && WillFetch(s.workers[w])
    ensures Awake(s)
  {
  }

  /** A worker that stays up, or wakes up, attends to the table by itself. */
  lemma RousedMove(s: State, a: Action)
    requires Enabled(s, a) && Moves(a) && WillFetch(Target(s, a))
    ensures NoLostWakeup(Apply(s, a))
  {
    MoveShape(s, a);
    AwakeWitness(Apply(s, a), a.w);
  }

  /** A worker that goes to sleep has just seen every pending row claimed by someone else. */
  lemma FetchEmptyLeavesNothing(s: State, w: nat)
    requires Enabled(s, FetchEmpty(w))
    ensures Unclaimed(Apply(s, FetchEmpty(w))) == {}
  {
    var t := Apply(s, FetchEmpty(w));
    forall id | id in LockedIds(s) ensures id in LockedIds(t) {
      var v :| 0 <= v < |s.workers| && InTx(s.workers[v]) && s.workers[v].id == id;
      assert t.workers[v] == s.workers[v];
    }
  }

  lemma EndBackoffWakeup(s: State, w: nat)
    requires NoLostWakeup(s) && Enabled(s, EndBackoff(w))
    ensures NoLostWakeup(Apply(s, EndBackoff(w)))
  {
    var t := Apply(s, EndBackoff(w));
    if Awake(s) {
      var v :| 0 <= v < |s.workers| && WillFetch(s.workers[v]);
      AwakeWitness(t, v);
    }
    forall id | id in LockedIds(s) ensures id in LockedIds(t) {
      var v :| 0 <= v < |s.workers| && InTx(s.workers[v]) && s.workers[v].id == id;
      assert t.workers[v] == s.workers[v];
    }
  }

  lemma CommitWakeup(s: State, w: nat)
    requires Enabled(s, Commit(w))
    ensures NoLostWakeup(Apply(s, Commit(w)))
  {
    AwakeWitness(Apply(s, Commit(w)), w);
  }

  lemma RecordFailureWakeup(s: State, a: Action)
    requires a.RecordFailure? && Enabled(s, a)
    ensures NoLostWakeup(Apply(s, a))
  {
    AwakeWitness(Apply(s, a), a.w);
  }

  lemma CrashWakeup(s: State)
    requires |s.workers| == s.cfg.workers
    ensures NoLostWakeup(Apply(s, Crash))
  {
    if s.cfg.workers > 0 {
      AwakeWitness(Apply(s, Crash), 0);
    }
  }

  /** A worker that gives up on an error or exits, and a stop, are covered by the premises. */
  lemma ExcusedWakeup(s: State, a: Action)
    requires a.InfraError? || a.CommitAckLost? || a.Exit? || a.Stop?
    requires NoLostWakeup(s) && Enabled(s, a)
    ensures NoLostWakeup(Apply(s, a))
  {
  }

  /** A sender that has recorded its command is about to signal, and one that signals has signalled. */
  lemma SenderWakeup(s: State, a: Action)
    requires a.Send? || a.SenderNotify?
    requires Enabled(s, a)
    ensures NoLostWakeup(Apply(s, a))
  {
  }

  lemma StepWakeup(s: State, a: Action)
    requires |s.workers| == s.cfg.workers && NoLostWakeup(s) && Enabled(s, a)
    ensures NoLostWakeup(Apply(s, a))
  {
    match a
    case Send(_, _, _, _, _) => SenderWakeup(s, a);
    case SenderNotify => SenderWakeup(s, a);
    case FetchEmpty(w) => FetchEmptyLeavesNothing(s, w);
    case EndBackoff(w) => EndBackoffWakeup(s, w);
    case InfraError(_) => ExcusedWakeup(s, a);
    case CommitAckLost(_) => ExcusedWakeup(s, a);
    case Exit(_) => ExcusedWakeup(s, a);
    case Stop => ExcusedWakeup(s, a);
    case Commit(w) => CommitWakeup(s, w);
    case RecordFailure(_, _, _) => RecordFailureWakeup(s, a);
    case Crash => CrashWakeup(s);
    case Fetch(_, _) => RousedMove(s, a);
    case RecordStarted(_, _, _) => RousedMove(s, a);
    case HandlerSucceeds(_, _) => RousedMove(s, a);
    case HandlerFails(_) => RousedMove(s, a);
    case RecordSuccess(_, _) => RousedMove(s, a);
    case FailureWriteError(_) => RousedMove(s, a);
    case NotifyOutbox(_) => RousedMove(s, a);
    case NotifyPeers(_) => RousedMove(s, a);
    case Wake(_) => RousedMove(s, a);
    case Poll(_) => RousedMove(s, a);
  }

  lemma {:induction false} RunWakeup(s: State, acts: seq<Action>, t: State)
    requires |s.workers| == s.cfg.workers && NoLostWakeup(s) && Exec(s, acts, t)
    ensures NoLostWakeup(t)
    decreases |acts|
  {
    if acts != [] {
      StepWakeup(s, acts[0]);
      WorkersStay(s, acts[0]);
      RunWakeup(Apply(s, acts[0]), acts[1..], t);
    }
  }

  /** In every reachable state, for any number of workers: unless a worker gave up on a database error since
      the last full drain, or the workers are being stopped, a claimable command is attended to. */
  lemma NoWakeupIsLost(cfg: Config, acts: seq<Action>, s: State)
    requires Exec(Init(cfg), acts, s)
    requires cfg.wakeup && cfg.workers > 0
    requires !s.lapsed && !s.stopping
    ensures Unclaimed(s) != {} ==> Attended(s)
  {
    InitSafe(cfg);
    RunSound(Init(cfg), acts, s);
    RunWakeup(Init(cfg), acts, s);
  }

  /** A database error that makes a worker give up, or a Send return although its command is recorded. */
  predicate Lapses(a: Action) {
    a.InfraError? || a.CommitAckLost? || (a.Send? && !a.acked)
  }

  ghost predicate ErrorFree(acts: seq<Action>) {
    forall a | a in acts :: !Lapses(a)
  }

  lemma {:induction false} ErrorFreeRun(s: State, acts: seq<Action>, t: State)
    requires Exec(s, acts, t) && ErrorFree(acts) && !s.lapsed
    ensures !t.lapsed
    decreases |acts|
  {
    if acts != [] {
      assert acts[0] in acts;
      ErrorFreeRun(Apply(s, acts[0]), acts[1..], t);
    }
  }

  /** In every reachable state without a stop a claimable command is attended to; `errors` tells whether runs with
      database errors are meant as well. */
  ghost predicate AlwaysAttended(cfg: Config, errors: bool) {
    forall acts, s | Exec(Init(cfg), acts, s) && !s.stopping && (errors || ErrorFree(acts)) ::
      Unclaimed(s) != {} ==> Attended(s)
  }

  /** Command "a" is pending and unclaimed, and nothing is going to happen before a poll or another send. */
  ghost predicate Stranded(s: State) {
    Unclaimed(s) == {"a"} && !Attended(s) && !s.stopping
  }

  /** One more step of a run without errors. */
  lemma ThenFree(cfg: Config, acts: seq<Action>, s: State, a: Action) returns (acts': seq<Action>, t: State)
    requires Exec(Init(cfg), acts, s) && Enabled(s, a) && ErrorFree(acts) && !Lapses(a)
    ensures Exec(Init(cfg), acts', t) && t == Apply(s, a) && ErrorFree(acts')
  {
    ExecSnoc(Init(cfg), acts, s, a);
    acts', t := acts + [a], Apply(s, a);
  }

  function Asleep(cfg: Config, n: nat): State {
    Init(cfg).(workers := seq(cfg.workers, i => if i < n then Sleeping else Ready))
  }

  /** The first `n` workers have found the queue empty. */
  lemma {:induction false} FallAsleep(cfg: Config, n: nat) returns (acts: seq<Action>, t: State)
    requires n <= cfg.workers
    ensures Exec(Init(cfg), acts, t) && t == Asleep(cfg, n) && ErrorFree(acts)
  {
    if n == 0 {
      acts, t := [], Init(cfg);
    } else {
      acts, t := FallAsleep(cfg, n - 1);
      acts, t := ThenFree(cfg, acts, t, FetchEmpty(n - 1));
    }
  }

  /** Without workers neither a signal nor a sender about to signal survives a restart. */
  lemma RestartStrands(cfg: Config) returns (acts: seq<Action>, t: State)
    requires cfg.workers == 0
    ensures Exec(Init(cfg), acts, t) && ErrorFree(acts) && Stranded(t)
  {
    acts, t := [], Init(cfg);
    acts, t := ThenFree(cfg, acts, t, Send("a", "c", "p", 0, true));
    if cfg.wakeup {
      acts, t := ThenFree(cfg, acts, t, SenderNotify);
      acts, t := ThenFree(cfg, acts, t, Send("a", "c", "p", 0, true));
    }
    acts, t := ThenFree(cfg, acts, t, Crash);
  }

  /** With wake-ups disabled a command sent to sleeping workers waits for the poll. */
  lemma SilenceStrands(cfg: Config) returns (acts: seq<Action>, t: State)
    requires !cfg.wakeup
    ensures Exec(Init(cfg), acts, t) && ErrorFree(acts) && Stranded(t)
  {
    acts, t := FallAsleep(cfg, cfg.workers);
    acts, t := ThenFree(cfg, acts, t, Send("a", "c", "p", 0, true));
  }

  /** After a database error a pending command can be left with all workers asleep and no signal. */
  lemma ErrorStrandsCommand(cfg: Config) returns (acts: seq<Action>, t: State)
    requires cfg.wakeup && cfg.workers > 0
    ensures Exec(Init(cfg), acts, t) && Stranded(t)
  {
    acts, t := OneWoken(cfg);
    acts, t := Then(Init(cfg), acts, t, InfraError(0));
    acts, t := Then(Init(cfg), acts, t, EndBackoff(0));
  }

  lemma OneWoken(cfg: Config) returns (acts: seq<Action>, t: State)
    requires cfg.wakeup && cfg.workers > 0
    ensures Exec(Init(cfg), acts, t)
    ensures t.workers == seq(cfg.workers, _ => Sleeping)[0 := Ready]
    ensures t.rows.Keys == {"a"} && t.rows["a"].status == Pending
    ensures !t.token && t.notifying == 0 && !t.stopping
  {
    acts, t := FallAsleep(cfg, cfg.workers);
    acts, t := Then(Init(cfg), acts, t, Send("a", "c", "p", 0, true));
    acts, t := Then(Init(cfg), acts, t, SenderNotify);
    acts, t := Then(Init(cfg), acts, t, Wake(0));
  }

  /** And a Send whose INSERT took effect unacknowledged leaves one behind by itself. */
  lemma LostAckStrandsCommand(cfg: Config) returns (acts: seq<Action>, t: State)
    ensures Exec(Init(cfg), acts, t) && Stranded(t)
  {
    acts, t := FallAsleep(cfg, cfg.workers);
    acts, t := Then(Init(cfg), acts, t, Send("a", "c", "p", 0, false));
  }

  /** For every configuration: no wake-up is lost in any run if and only if there are workers, wake-ups are enabled
      and runs with database errors are left out. */
  lemma AttendedExactly(cfg: Config, errors: bool)
    ensures AlwaysAttended(cfg, errors) <==> cfg.wakeup && cfg.workers > 0 && !errors
  {
    if cfg.workers == 0 {
      var acts, s := RestartStrands(cfg);
    } else if !cfg.wakeup {
      var acts, s := SilenceStrands(cfg);
    } else if errors {
      var acts, s := ErrorStrandsCommand(cfg);
    } else {
      forall acts, s | Exec(Init(cfg), acts, s) && !s.stopping && ErrorFree(acts)
        ensures Unclaimed(s) != {} ==> Attended(s)
      {
        ErrorFreeRun(Init(cfg), acts, s);
        NoWakeupIsLost(cfg, acts, s);
      }
    }
  }
}
