/** What a command's persisted status says about its effects, and which steps may change it. */
module QueueOutcome {
  import opened Types
  import opened ExecutionTable
  import opened QueueProtocol
  import opened QueueSafety

  function StatusOf(s: State, id: Id): Option<Status> {
    if id in s.rows then Some(s.rows[id].status) else None
  }

  /** The meaning of the status of a command that was sent once. */
  ghost predicate OutcomeAt(s: State, id: Id)
    requires id in s.rows
  {
    match s.rows[id].status
    case Success => Commits(s.ledger, id) == 1 && id !in s.overwritten
    case Pending => Commits(s.ledger, id) == 0 && id !in s.overwritten
    case Failed => Commits(s.ledger, id) == if id in s.overwritten then 1 else 0
  }

  ghost predicate Outcome(s: State) {
    && (forall id :: id in s.overwritten ==> id in s.rows)
    && (forall id | id in s.rows && s.sends[id] == 1 :: OutcomeAt(s, id))
  }

  /** With one worker, nobody can finish a row while its only worker is about to record a failure. */
  ghost predicate Alone(s: State) {
    s.cfg.workers <= 1 ==>
      && s.overwritten == {}
      && (forall w | 0 <= w < |s.workers| && s.workers[w].Failing? :: s.workers[w].id in PendingIds(s.rows))
  }

  ghost predicate Sound(s: State) {
    Safe(s) && Outcome(s) && Alone(s)
  }

  /** Every change of a persisted status: re-sends make it pending, the row's holder makes it successful,
      and only a worker whose own attempt was rolled back makes it failed. */
  lemma StatusStep(s: State, a: Action, id: Id)
    requires Safe(s) && Enabled(s, a)
    requires StatusOf(Apply(s, a), id) != StatusOf(s, id)
    ensures
      || (a.Send? && a.id == id && StatusOf(Apply(s, a), id) == Some(Pending))
      || ((a.Commit? || a.CommitAckLost?) && Holds(s.workers[a.w], id) &&
          StatusOf(s, id) == Some(Pending) && StatusOf(Apply(s, a), id) == Some(Success))
      || (a.RecordFailure? && s.workers[a.w] == Failing(id) && StatusOf(Apply(s, a), id) == Some(Failed))
  {
    if Moves(a) {
      MoveShape(s, a);
    } else if a.Commit? || a.CommitAckLost? {
      assert WorkerOk(s, s.workers[a.w]);
    }
  }

  lemma MoveOutcome(s: State, a: Action)
    requires Outcome(s) && Moves(a) && Enabled(s, a)
    ensures Outcome(Apply(s, a))
  {
    MoveShape(s, a);
    forall id | id in s.rows && s.sends[id] == 1 ensures OutcomeAt(Apply(s, a), id) {
      assert OutcomeAt(s, id);
    }
  }

  lemma SendOutcome(s: State, a: Action)
    requires Sound(s) && a.Send? && Enabled(s, a)
    ensures Outcome(Apply(s, a))
  {
    var t := Apply(s, a);
    forall id | id in t.rows && t.sends[id] == 1 ensures OutcomeAt(t, id) {
      if id == a.id {
        assert Commits(s.ledger, id) + PendingBit(s.rows, id) <= s.sends[id];
      } else {
        assert OutcomeAt(s, id);
      }
    }
  }

  lemma InstallOutcome(s: State, w: nat)
    requires Sound(s) && Is(s, w) && s.workers[w].Finished?
    ensures Outcome(Install(s, w))
  {
    var own := s.workers[w];
    var t := Install(s, w);
    assert WorkerOk(s, own);
    CommitsAppend(s.ledger, Entry(own.id, own.events));
    forall id | id in t.rows && t.sends[id] == 1 ensures OutcomeAt(t, id) {
      assert OutcomeAt(s, id);
    }
  }

  lemma RecordFailureOutcome(s: State, a: Action)
    requires Sound(s) && a.RecordFailure? && Enabled(s, a)
    ensures Outcome(Apply(s, a))
  {
    var t := Apply(s, a);
    assert WorkerOk(s, s.workers[a.w]);
    forall id | id in t.rows && t.sends[id] == 1 ensures OutcomeAt(t, id) {
      assert OutcomeAt(s, id);
    }
  }

  lemma OutcomeFrame(s: State, t: State)
    requires Outcome(s)
    requires t.rows == s.rows && t.ledger == s.ledger && t.sends == s.sends && t.overwritten == s.overwritten
    ensures Outcome(t)
  {
    forall id | id in t.rows && t.sends[id] == 1 ensures OutcomeAt(t, id) {
      assert OutcomeAt(s, id);
    }
  }

  lemma StepOutcome(s: State, a: Action)
    requires Sound(s) && Enabled(s, a)
    ensures Outcome(Apply(s, a))
  {
    if Moves(a) {
      MoveOutcome(s, a);
    } else if a.Send? {
      SendOutcome(s, a);
    } else if a.RecordFailure? {
      RecordFailureOutcome(s, a);
    } else if a.Commit? || a.CommitAckLost? {
      InstallOutcome(s, a.w);
      OutcomeFrame(Install(s, a.w), Apply(s, a));
    } else {
      OutcomeFrame(s, Apply(s, a));
    }
  }

  lemma MoveAlone(s: State, a: Action)
    requires Sound(s) && Moves(a) && Enabled(s, a)
    ensures Alone(Apply(s, a))
  {
    MoveShape(s, a);
    if Target(s, a).Failing? {
      FailsPending(s, a);
    }
  }

  /** A worker that has just failed a row leaves it pending. */
  lemma FailsPending(s: State, a: Action)
    requires Safe(s) && Moves(a) && Enabled(s, a) && Target(s, a).Failing?
    ensures Target(s, a).id in PendingIds(s.rows)
  {
    assert WorkerOk(s, s.workers[a.w]);
    if !TxMove(a) {
      OtherMoveTarget(s, a);
    }
  }

  lemma StepAlone(s: State, a: Action)
    requires Sound(s) && Enabled(s, a)
    ensures Alone(Apply(s, a))
  {
    if Moves(a) {
      MoveAlone(s, a);
    }
  }

  lemma StepSound(s: State, a: Action)
    requires Sound(s) && Enabled(s, a)
    ensures Sound(Apply(s, a))
  {
    StepSafe(s, a);
    StepOutcome(s, a);
    StepAlone(s, a);
  }

  lemma {:induction false} RunSound(s: State, acts: seq<Action>, t: State)
    requires Sound(s) && Exec(s, acts, t)
    ensures Sound(t) && t.cfg == s.cfg
    decreases |acts|
  {
    if acts != [] {
      StepSound(s, acts[0]);
      WorkersStay(s, acts[0]);
      RunSound(Apply(s, acts[0]), acts[1..], t);
    }
  }

  /** Reading the status tells whether the command's effects and events are committed. */
  ghost predicate StatusTells(s: State, id: Id) {
    id in s.rows && (s.rows[id].status == Success <==> Commits(s.ledger, id) == 1)
  }

  /** For any number of workers and a command sent once: success means its effects and events committed
      exactly once, pending means they did not, and failed means they did not unless a late failure
      overwrote the success. With one worker there are no late failures, so the status is the outcome. */
  lemma StatusIsOutcome(cfg: Config, acts: seq<Action>, s: State, id: Id)
    requires Exec(Init(cfg), acts, s)
    requires s.sends[id] == 1
    ensures id in s.rows && OutcomeAt(s, id)
    ensures cfg.workers <= 1 ==> id !in s.overwritten
    ensures id !in s.overwritten <==> StatusTells(s, id)
  {
    InitSafe(cfg);
    RunSound(Init(cfg), acts, s);
  }

  lemma {:induction false} FailedAbsorbs(s: State, acts: seq<Action>, t: State, id: Id)
    requires Sound(s) && Exec(s, acts, t)
    requires StatusOf(s, id) == Some(Failed)
    requires forall a | a in acts :: !(a.Send? && a.id == id)
    ensures StatusOf(t, id) == Some(Failed)
    decreases |acts|
  {
    if acts != [] {
      var m := Apply(s, acts[0]);
      assert acts[0] in acts;
      if StatusOf(m, id) != StatusOf(s, id) {
        StatusStep(s, acts[0], id);
      }
      RunSound(s, [acts[0]], m);
      FailedAbsorbs(m, acts[1..], t, id);
    }
  }

  /** With one worker every terminal status is final until the command is sent again. */
  lemma {:induction false} TerminalAbsorbsAlone(s: State, acts: seq<Action>, t: State, id: Id)
    requires Sound(s) && s.cfg.workers == 1 && Exec(s, acts, t)
    requires StatusOf(s, id) == Some(Failed) || StatusOf(s, id) == Some(Success)
    requires forall a | a in acts :: !(a.Send? && a.id == id)
    ensures StatusOf(t, id) == StatusOf(s, id)
    decreases |acts|
  {
    if acts != [] {
      var m := Apply(s, acts[0]);
      assert acts[0] in acts;
      if StatusOf(m, id) != StatusOf(s, id) {
        StatusStep(s, acts[0], id);
      }
      RunSound(s, [acts[0]], m);
      TerminalAbsorbsAlone(m, acts[1..], t, id);
    }
  }

  /** Only a handler error on row `id`, in the worker's own transaction, makes it record a failure for `id`. */
  lemma FailingEntry(s: State, a: Action, w: nat, id: Id)
    requires Enabled(s, a) && Is(s, w) && s.workers[w] != Failing(id)
    ensures Apply(s, a).workers[w] == Failing(id) ==>
      a == HandlerFails(w) && s.workers[w].Running? && s.workers[w].id == id
  {
    if Moves(a) {
      MoveShape(s, a);
    }
  }

  /** In step `i` of the run, which finds the state `m`, worker `w`'s own attempt on `id` fails. */
  ghost predicate FailsAttempt(s: State, acts: seq<Action>, i: nat, m: State, w: nat, id: Id) {
    && i < |acts| && acts[i] == HandlerFails(w) && Exec(s, acts[..i], m)
    && Is(m, w) && m.workers[w].Running? && m.workers[w].id == id
  }

  /** All along the run `acts` from `s`, worker `w` is about to record a failure for `id`. */
  ghost predicate StaysFailing(s: State, acts: seq<Action>, w: nat, id: Id)
    decreases |acts|
  {
    && Is(s, w) && s.workers[w] == Failing(id)
    && (acts != [] ==> Enabled(s, acts[0]) && StaysFailing(Apply(s, acts[0]), acts[1..], w, id))
  }

  /** In step `i` the attempt of worker `w` on `id` fails, and from then on it has that failure to record. */
  ghost predicate OwnAttempt(s: State, acts: seq<Action>, i: nat, m: State, w: nat, id: Id) {
    FailsAttempt(s, acts, i, m, w, id) && StaysFailing(Apply(m, acts[i]), acts[i + 1..], w, id)
  }

  /** The failure that a worker is about to record is that of its own latest attempt on the row. */
  lemma {:induction false} FailureHasOwnAttempt(s: State, acts: seq<Action>, t: State, w: nat, id: Id)
    returns (i: nat, m: State)
    requires Exec(s, acts, t) && Is(s, w) && !StaysFailing(s, acts, w, id)
    requires Is(t, w) && t.workers[w] == Failing(id)
    ensures OwnAttempt(s, acts, i, m, w, id)
    decreases |acts|
  {
    var a := acts[0];
    var next := Apply(s, a);
    WorkersStay(s, a);
    if StaysFailing(next, acts[1..], w, id) {
      FailingEntry(s, a, w, id);
      i, m := 0, s;
    } else {
      i, m := FailureHasOwnAttempt(next, acts[1..], t, w, id);
      assert acts[..i + 1][1..] == acts[1..][..i];
      assert acts[i + 2..] == acts[1..][i + 1..];
      i := i + 1;
    }
  }

  lemma WorkersStay(s: State, a: Action)
    requires Enabled(s, a)
    ensures |Apply(s, a).workers| == |s.workers| && Apply(s, a).cfg == s.cfg
  {
    if Moves(a) {
      MoveShape(s, a);
    }
  }

  lemma {:induction false} FirstChange(s: State, acts: seq<Action>, t: State, id: Id) returns (j: nat, m: State)
    requires Exec(s, acts, t) && StatusOf(t, id) != StatusOf(s, id)
    ensures j < |acts| && Exec(s, acts[..j], m) && Enabled(m, acts[j]) && Exec(Apply(m, acts[j]), acts[j + 1..], t)
    ensures StatusOf(m, id) == StatusOf(s, id) != StatusOf(Apply(m, acts[j]), id)
    decreases |acts|
  {
    var next := Apply(s, acts[0]);
    if StatusOf(next, id) != StatusOf(s, id) {
      j, m := 0, s;
    } else {
      j, m := FirstChange(next, acts[1..], t, id);
      assert acts[..j + 1][1..] == acts[1..][..j];
      assert acts[j + 2..] == acts[1..][j + 1..];
      j := j + 1;
    }
  }

  /** In any run that leads to a worker about to record a failure, that worker's attempt failed earlier. */
  lemma RunHasOwnAttempt(cfg: Config, acts: seq<Action>, t: State, w: nat, id: Id) returns (i: nat, m: State)
    requires Exec(Init(cfg), acts, t) && Is(t, w) && t.workers[w] == Failing(id)
    ensures OwnAttempt(Init(cfg), acts, i, m, w, id)
  {
    WorkerCount(Init(cfg), acts, t);
    i, m := FailureHasOwnAttempt(Init(cfg), acts, t, w, id);
  }

  lemma {:induction false} WorkerCount(s: State, acts: seq<Action>, t: State)
    requires Exec(s, acts, t)
    ensures |t.workers| == |s.workers|
    decreases |acts|
  {
    if acts != [] {
      WorkersStay(s, acts[0]);
      WorkerCount(Apply(s, acts[0]), acts[1..], t);
    }
  }

  lemma {:induction false} RunKeepsSound(cfg: Config, past: seq<Action>, s: State, acts: seq<Action>, t: State)
    requires Exec(Init(cfg), past, s) && Exec(s, acts, t)
    ensures Sound(s) && Sound(t)
  {
    InitSafe(cfg);
    RunSound(Init(cfg), past, s);
    RunSound(s, acts, t);
  }

  /** The first change is to failed, and the rest of the run keeps that. */
  lemma ChangeIsFailure(s: State, a: Action, rest: seq<Action>, t: State, id: Id)
    requires Sound(s) && Enabled(s, a) && Exec(Apply(s, a), rest, t)
    requires StatusOf(s, id) != StatusOf(Apply(s, a), id)
    requires StatusOf(s, id) == Some(Failed) || StatusOf(s, id) == Some(Success)
    requires !(a.Send? && a.id == id) && forall b | b in rest :: !(b.Send? && b.id == id)
    ensures a.RecordFailure? && Is(s, a.w) && s.workers[a.w] == Failing(id)
    ensures StatusOf(s, id) == Some(Success) && StatusOf(t, id) == Some(Failed)
  {
    StatusStep(s, a, id);
    StepSound(s, a);
    FailedAbsorbs(Apply(s, a), rest, t, id);
  }

  /** Over any stretch of any run in which the command is not sent again, the only change out of a terminal status
      is from success to failed. Step `j` of the stretch makes it: a worker records the failure of its own attempt on
      the command, which failed in step `i` of the run up to there. */
  lemma TerminalChange(cfg: Config, past: seq<Action>, s: State, acts: seq<Action>, t: State, id: Id)
    returns (j: nat, i: nat, m: State)
    requires Exec(Init(cfg), past, s) && Exec(s, acts, t)
    requires forall a | a in acts :: !(a.Send? && a.id == id)
    requires StatusOf(s, id) == Some(Failed) || StatusOf(s, id) == Some(Success)
    requires StatusOf(t, id) != StatusOf(s, id)
    ensures StatusOf(s, id) == Some(Success) && StatusOf(t, id) == Some(Failed)
    ensures j < |acts| && acts[j].RecordFailure?
    ensures OwnAttempt(Init(cfg), past + acts[..j], i, m, acts[j].w, id)
  {
    var n;
    j, n := FirstChange(s, acts, t, id);
    RunKeepsSound(cfg, past, s, acts[..j], n);
    assert acts[j] in acts;
    ChangeIsFailure(n, acts[j], acts[j + 1..], t, id);
    ExecConcat(Init(cfg), past, s, acts[..j], n);
    i, m := RunHasOwnAttempt(cfg, past + acts[..j], n, acts[j].w, id);
  }

  /** With two workers or more a success can be overwritten: two of them attempt the row in turn, the second
      commits, and the first one's delayed failure record then replaces the status although the effects stay. */
  lemma SuccessCanBeOverwritten(cfg: Config) returns (acts: seq<Action>, t: State)
    requires cfg.workers >= 2
    ensures Exec(Init(cfg), acts, t)
    ensures t.sends["a"] == 1
    ensures StatusOf(t, "a") == Some(Failed) && Commits(t.ledger, "a") == 1
  {
    acts, t := SecondAttemptFinishes(cfg);
    CommitsAppend(t.ledger, Entry("a", []));
    acts, t := Then(Init(cfg), acts, t, Commit(1));
    acts, t := Then(Init(cfg), acts, t, RecordFailure(0, "e", 4));
  }

  /** Workers 0 and 1 are where they are said to be, and all others have not moved. */
  ghost predicate TwoMoved(cfg: Config, t: State, p: Worker, q: Worker) {
    && cfg.workers >= 2
    && t.workers == seq(cfg.workers, _ => Ready)[0 := p][1 := q]
    && t.rows.Keys == {"a"} && t.rows["a"].status == Pending && t.sends["a"] == 1 && t.ledger == []
  }

  lemma SecondAttemptFinishes(cfg: Config) returns (acts: seq<Action>, t: State)
    requires cfg.workers >= 2
    ensures Exec(Init(cfg), acts, t)
    ensures Is(t, 1) && t.workers[1].Finished? && TwoMoved(cfg, t, Failing("a"), t.workers[1])
    ensures t.workers[1].id == "a" && t.workers[1].events == []
  {
    acts, t := SecondClaim(cfg);
    acts, t := Then(Init(cfg), acts, t, HandlerSucceeds(1, []));
    acts, t := Then(Init(cfg), acts, t, RecordSuccess(1, 3));
  }

  lemma SecondClaim(cfg: Config) returns (acts: seq<Action>, t: State)
    requires cfg.workers >= 2
    ensures Exec(Init(cfg), acts, t)
    ensures Is(t, 1) && t.workers[1].Running? && t.workers[1].id == "a" && TwoMoved(cfg, t, Failing("a"), t.workers[1])
  {
    acts, t := FirstAttemptFails(cfg);
    acts, t := Then(Init(cfg), acts, t, Fetch(1, "a"));
    acts, t := Then(Init(cfg), acts, t, RecordStarted(1, "h", 2));
  }

  lemma FirstAttemptFails(cfg: Config) returns (acts: seq<Action>, t: State)
    requires cfg.workers >= 2
    ensures Exec(Init(cfg), acts, t) && TwoMoved(cfg, t, Failing("a"), Ready)
  {
    acts, t := FirstClaim(cfg);
    acts, t := Then(Init(cfg), acts, t, RecordStarted(0, "h", 1));
    acts, t := Then(Init(cfg), acts, t, HandlerFails(0));
  }

  lemma FirstClaim(cfg: Config) returns (acts: seq<Action>, t: State)
    requires cfg.workers >= 2
    ensures Exec(Init(cfg), acts, t)
    ensures Is(t, 0) && t.workers[0].Claimed? && t.workers[0].id == "a" && TwoMoved(cfg, t, t.workers[0], Ready)
  {
    acts, t := [], Init(cfg);
    acts, t := Then(Init(cfg), acts, t, Send("a", "c", "p", 0, true));
    acts, t := Then(Init(cfg), acts, t, Fetch(0, "a"));
  }

  ghost predicate AlwaysTells(cfg: Config) {
    forall acts, s, id | Exec(Init(cfg), acts, s) && s.sends[id] == 1 :: StatusTells(s, id)
  }

  /** For every configuration: the status of every command sent once tells its outcome, in every reachable state,
      if and only if there is at most one worker. */
  lemma StatusTellsIffAlone(cfg: Config)
    ensures AlwaysTells(cfg) <==> cfg.workers <= 1
  {
    if cfg.workers <= 1 {
      forall acts, s, id | Exec(Init(cfg), acts, s) && s.sends[id] == 1 ensures StatusTells(s, id) {
        StatusIsOutcome(cfg, acts, s, id);
      }
    } else {
      var acts, s := SuccessCanBeOverwritten(cfg);
      assert !StatusTells(s, "a");
    }
  }
}
