/** What every run of the queue keeps: at-most-once commits, lock discipline and the meaning of each status. */
module QueueSafety {
  import opened Types
  import opened ExecutionTable
  import opened QueueProtocol

  function PendingBit(rows: Table, id: Id): nat {
    if id in PendingIds(rows) then 1 else 0
  }

  /** No two workers hold the same row. */
  ghost predicate Exclusive(s: State) {
    forall v, w | 0 <= v < |s.workers| && 0 <= w < |s.workers| && v != w && InTx(s.workers[v]) && InTx(s.workers[w]) ::
      s.workers[v].id != s.workers[w].id
  }

  /** A held row is frozen: it stays committed as pending until its holder's transaction ends. */
  ghost predicate WorkerOk(s: State, p: Worker) {
    && (InTx(p) ==> p.id in PendingIds(s.rows))
    && (p.Finished? ==> p.work.status == Success)
    && (p.Failing? ==> p.id in s.rows)
  }

  ghost predicate Budgeted(s: State) {
    forall id :: Commits(s.ledger, id) + PendingBit(s.rows, id) <= s.sends[id]
  }

  ghost predicate Safe(s: State) {
    && |s.workers| == s.cfg.workers
    && Exclusive(s)
    && (forall w | 0 <= w < |s.workers| :: WorkerOk(s, s.workers[w]))
    && (forall id :: id in s.rows <==> id in s.sends)
    && Budgeted(s)
  }

  lemma InitSafe(cfg: Config)
    ensures Safe(Init(cfg))
  {
  }

  lemma LockedBy(s: State, w: nat)
    requires Is(s, w) && InTx(s.workers[w])
    ensures s.workers[w].id in LockedIds(s)
  {
  }

  /** Moving one worker keeps Safe when the new position holds no row that another worker holds. */
  lemma GotoSafe(s: State, w: nat, p: Worker)
    requires Safe(s) && Is(s, w) && WorkerOk(s, p)
    requires InTx(p) ==> Holds(s.workers[w], p.id) || p.id !in LockedIds(s)
    ensures Safe(Goto(s, w, p))
  {
    forall v | 0 <= v < |s.workers| && v != w && InTx(s.workers[v]) && InTx(p) ensures s.workers[v].id != p.id {
      LockedBy(s, v);
    }
  }

  lemma SendSafe(s: State, a: Action)
    requires Safe(s) && a.Send? && Enabled(s, a)
    ensures Safe(Apply(s, a))
  {
    var t := Apply(s, a);
    forall w | 0 <= w < |t.workers| ensures WorkerOk(t, t.workers[w]) {
      assert WorkerOk(s, s.workers[w]);
    }
    forall id ensures Commits(t.ledger, id) + PendingBit(t.rows, id) <= t.sends[id] {
      assert Commits(s.ledger, id) + PendingBit(s.rows, id) <= s.sends[id];
    }
  }

  lemma InstallSafe(s: State, w: nat, p: Worker)
    requires Safe(s) && Is(s, w) && s.workers[w].Finished?
    requires p.Committed? || p.Backoff?
    ensures Safe(Goto(Install(s, w), w, p))
  {
    var own := s.workers[w];
    var t := Goto(Install(s, w), w, p);
    assert WorkerOk(s, own);
    CommitsAppend(s.ledger, Entry(own.id, own.events));
    forall v | 0 <= v < |t.workers| ensures WorkerOk(t, t.workers[v]) {
      assert WorkerOk(s, s.workers[v]);
    }
    forall id ensures Commits(t.ledger, id) + PendingBit(t.rows, id) <= t.sends[id] {
      assert Commits(s.ledger, id) + PendingBit(s.rows, id) <= s.sends[id];
    }
  }

  lemma RecordFailureSafe(s: State, a: Action)
    requires Safe(s) && a.RecordFailure? && Enabled(s, a)
    ensures Safe(Apply(s, a))
  {
    var t := Apply(s, a);
    forall v | 0 <= v < |t.workers| ensures WorkerOk(t, t.workers[v]) {
      assert WorkerOk(s, s.workers[v]);
      if v != a.w && InTx(s.workers[v]) { LockedBy(s, v); }
    }
    forall id ensures Commits(t.ledger, id) + PendingBit(t.rows, id) <= t.sends[id] {
      assert Commits(s.ledger, id) + PendingBit(s.rows, id) <= s.sends[id];
    }
  }

  /** The action moves one worker and changes nothing that Safe speaks of. */
  predicate Moves(a: Action) {
    a.Fetch? || a.FetchEmpty? || a.RecordStarted? || a.HandlerSucceeds? || a.HandlerFails? || a.RecordSuccess? ||
    a.InfraError? || a.FailureWriteError? || a.NotifyOutbox? || a.NotifyPeers? || a.EndBackoff? || a.Wake? ||
    a.Poll? || a.Exit?
  }

  /** The position the moving worker ends in. */
  function Target(s: State, a: Action): Worker
    requires Enabled(s, a) && Moves(a)
  {
    Apply(s, a).workers[a.w]
  }

  lemma MoveShape(s: State, a: Action)
    requires Enabled(s, a) && Moves(a)
    ensures var t := Apply(s, a);
      t == Goto(s, a.w, Target(s, a)).(token := t.token, lapsed := t.lapsed)
  {
  }

  /** The moves that start, continue or roll back a transaction. */
  predicate TxMove(a: Action) {
    a.Fetch? || a.RecordStarted? || a.HandlerSucceeds? || a.HandlerFails? || a.RecordSuccess?
  }

  lemma TxMoveTarget(s: State, a: Action)
    requires Safe(s) && Enabled(s, a) && TxMove(a)
    ensures WorkerOk(s, Target(s, a))
    ensures InTx(Target(s, a)) ==> Holds(s.workers[a.w], Target(s, a).id) || Target(s, a).id !in LockedIds(s)
  {
    assert WorkerOk(s, s.workers[a.w]);
  }

  lemma OtherMoveTarget(s: State, a: Action)
    requires Enabled(s, a) && Moves(a) && !TxMove(a)
    ensures !InTx(Target(s, a)) && !Target(s, a).Failing?
  {
  }

  lemma MoveTarget(s: State, a: Action)
    requires Safe(s) && Enabled(s, a) && Moves(a)
    ensures WorkerOk(s, Target(s, a))
    ensures InTx(Target(s, a)) ==> Holds(s.workers[a.w], Target(s, a).id) || Target(s, a).id !in LockedIds(s)
  {
    if TxMove(a) {
      TxMoveTarget(s, a);
    } else {
      OtherMoveTarget(s, a);
    }
  }

  /** Safe looks at rows, workers, ledger and sends only. */
  lemma SafeFrame(s: State, t: State)
    requires Safe(s)
    requires t.cfg == s.cfg && t.rows == s.rows && t.workers == s.workers && t.ledger == s.ledger && t.sends == s.sends
    ensures Safe(t)
  {
    forall w | 0 <= w < |t.workers| ensures WorkerOk(t, t.workers[w]) {
      assert WorkerOk(s, s.workers[w]);
    }
  }

  lemma MoveSafe(s: State, a: Action)
    requires Safe(s) && Moves(a) && Enabled(s, a)
    ensures Safe(Apply(s, a))
  {
    var p := Target(s, a);
    MoveTarget(s, a);
    MoveShape(s, a);
    GotoSafe(s, a.w, p);
    SafeFrame(Goto(s, a.w, p), Apply(s, a));
  }

  lemma CrashSafe(s: State)
    requires Safe(s)
    ensures Safe(Apply(s, Crash))
  {
  }

  lemma StepSafe(s: State, a: Action)
    requires Safe(s) && Enabled(s, a)
    ensures Safe(Apply(s, a))
  {
    if Moves(a) {
      MoveSafe(s, a);
    } else {
      match a
      case Send(_, _, _, _, _) => SendSafe(s, a);
      case Commit(w) => InstallSafe(s, w, Committed);
      case CommitAckLost(w) =>
        InstallSafe(s, w, Backoff);
        SafeFrame(Goto(Install(s, w), w, Backoff), Apply(s, a));
      case RecordFailure(_, _, _) => RecordFailureSafe(s, a);
      case SenderNotify => SafeFrame(s, Apply(s, a));
      case Stop => SafeFrame(s, Apply(s, a));
      case Crash => CrashSafe(s);
    }
  }

  /** While a worker holds a row nobody else changes it: not another worker's commit or failure record, and not a
      Send, which waits for the lock. */
  lemma HeldRowFrozen(s: State, a: Action, w: nat)
    requires Safe(s) && Enabled(s, a) && Is(s, w) && InTx(s.workers[w])
    ensures var id := s.workers[w].id;
      && id in s.rows && id in Apply(s, a).rows
      && (Apply(s, a).rows[id] != s.rows[id] ==> (a.Commit? || a.CommitAckLost?) && a.w == w)
  {
    LockedBy(s, w);
    assert WorkerOk(s, s.workers[w]);
    if Moves(a) {
      MoveShape(s, a);
    }
  }

  lemma {:induction false} RunSafe(s: State, acts: seq<Action>, t: State)
    requires Safe(s) && Exec(s, acts, t)
    ensures Safe(t)
    decreases |acts|
  {
    if acts != [] {
      StepSafe(s, acts[0]);
      RunSafe(Apply(s, acts[0]), acts[1..], t);
    }
  }

  /** However workers, senders, crashes and database errors interleave, a command commits at most once per
      recorded send, and while it is still pending one send is yet unspent. */
  lemma AtMostOnceCommit(cfg: Config, acts: seq<Action>, s: State, id: Id)
    requires Exec(Init(cfg), acts, s)
    ensures Commits(s.ledger, id) + PendingBit(s.rows, id) <= s.sends[id]
  {
    InitSafe(cfg);
    RunSafe(Init(cfg), acts, s);
  }
}
