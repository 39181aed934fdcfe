/**
 Queue and outbox run dry together: left alone, both kinds of workers stop after finitely many steps, with no
 command pending, no record waiting and every event of every committed command published.
 */
module PipelineQuiescence {
  import opened Types
  import opened OutboxTable
  import opened Pipeline
  import Q = QueueProtocol
  import QS = QueueSafety
  import QO = QueueOutcome
  import QW = QueueWakeup
  import QQ = QueueQuiescence
  import O = OutboxProtocol
  import OS = OutboxSafety
  import OQ = OutboxQuiescence

  /** No new sends, polls, stops, crashes or errors on either side. */
  predicate Quiet(a: Action) {
    match a
    case Queue(qa) => QQ.Quiet(qa)
    case Outbox(oa) => OQ.Quiet(oa)
    case Commit(_) => true
    case CommitAckLost(_) => false
    case Signal(_) => true
    case Crash => false
  }

  ghost predicate Stuck(s: State) {
    forall a | Quiet(a) :: !Enabled(s, a)
  }

  ghost predicate Idle(s: State) {
    QQ.Idle(s.q) && OQ.Idle(s.o)
  }

  /** The events in open transactions have ids that are neither committed nor in another transaction. */
  ghost predicate FreshInFlight(s: State) {
    forall w: nat :: NewIds(s, w, Carried(s.q, w))
  }

  /** What a step does to the open transactions: they keep their events, get new ones, or end. */
  lemma CarriedStep(s: Q.State, a: Q.Action, v: nat)
    requires Q.Enabled(s, a)
    ensures var now := Carried(Q.Apply(s, a), v);
      now == Carried(s, v) || now == [] || (a.HandlerSucceeds? && v == a.w && now == a.events)
  {
    if QS.Moves(a) {
      QS.MoveShape(s, a);
    }
  }

  lemma CarriedCommit(s: Q.State, a: Q.Action)
    requires Q.Enabled(s, a) && (a.Commit? || a.CommitAckLost?)
    ensures Carried(Q.Apply(s, a), a.w) == []
  {
  }

  /** Ids stay apart when transactions keep or drop their events and the committed records stay. */
  lemma FreshKept(s: State, a: Action)
    requires FreshInFlight(s) && Enabled(s, a) && !a.Commit? && !a.CommitAckLost?
    ensures FreshInFlight(Apply(s, a))
  {
    var t := Apply(s, a);
    if OutboxPart(s, a).Some? {
      CommittedStays(s.o, OutboxPart(s, a).value);
    }
    forall w: nat ensures NewIds(t, w, Carried(t.q, w)) {
      assert NewIds(s, w, Carried(s.q, w));
      forall v: nat | v != w ensures Ids(Carried(t.q, v)) !! Ids(Carried(t.q, w)) {
        assert NewIds(s, v, Carried(s.q, v));
        if QueuePart(a).Some? {
          CarriedStep(s.q, QueuePart(a).value, v);
          CarriedStep(s.q, QueuePart(a).value, w);
        }
      }
      if QueuePart(a).Some? {
        CarriedStep(s.q, QueuePart(a).value, w);
      }
    }
  }

  lemma FreshCommit(s: State, a: Action)
    requires FreshInFlight(s) && Enabled(s, a) && (a.Commit? || a.CommitAckLost?)
    ensures FreshInFlight(Apply(s, a))
  {
    var t := Apply(s, a);
    var qa := QueuePart(a).value;
    CarriedCommit(s.q, qa);
    InsertKeys(s.o.committed, Carried(s.q, a.w));
    forall w: nat ensures NewIds(t, w, Carried(t.q, w)) {
      assert NewIds(s, w, Carried(s.q, w));
      CarriedStep(s.q, qa, w);
      forall v: nat | v != w ensures Ids(Carried(t.q, v)) !! Ids(Carried(t.q, w)) {
        CarriedStep(s.q, qa, v);
      }
    }
  }

  /** What every step keeps, quiet or not. */
  ghost predicate Orderly(s: State) {
    && Good(s) && FreshInFlight(s)
    && QW.NoLostWakeup(s.q) && QQ.NoneExited(s.q) && QQ.Silent(s.q)
    && (!s.o.stopping ==> !s.o.worker.Exited?)
  }

  lemma QueueStepOrderly(s: Q.State, a: Q.Action)
    requires QO.Sound(s) && QW.NoLostWakeup(s) && QQ.NoneExited(s) && QQ.Silent(s) && Q.Enabled(s, a)
    ensures QW.NoLostWakeup(Q.Apply(s, a)) && QQ.NoneExited(Q.Apply(s, a)) && QQ.Silent(Q.Apply(s, a))
  {
    QW.StepWakeup(s, a);
    QQ.StepNoneExited(s, a);
    QQ.StepSilent(s, a);
  }

  lemma OutboxStepOrderly(s: O.State, a: O.Action)
    requires O.Enabled(s, a) && (!s.stopping ==> !s.worker.Exited?)
    ensures !O.Apply(s, a).stopping ==> !O.Apply(s, a).worker.Exited?
  {
  }

  lemma StepOrderly(s: State, a: Action)
    requires Orderly(s) && Enabled(s, a)
    ensures Orderly(Apply(s, a))
  {
    StepGood(s, a);
    if QueuePart(a).Some? {
      QueueStepOrderly(s.q, QueuePart(a).value);
    }
    if OutboxPart(s, a).Some? {
      OutboxStepOrderly(s.o, OutboxPart(s, a).value);
    }
    if a.Commit? || a.CommitAckLost? {
      FreshCommit(s, a);
    } else {
      FreshKept(s, a);
    }
  }

  lemma {:induction false} RunOrderly(s: State, acts: seq<Action>, t: State)
    requires Orderly(s) && Exec(s, acts, t)
    ensures Orderly(t)
    decreases |acts|
  {
    if acts != [] {
      StepOrderly(s, acts[0]);
      RunOrderly(Apply(s, acts[0]), acts[1..], t);
    }
  }

  /** Both tables are watched and nobody is being stopped. */
  ghost predicate Calm(s: State) {
    Good(s) && FreshInFlight(s) && QQ.Repairing(s.q) && OQ.Repairing(s.o)
  }

  lemma CommitRepairing(s: O.State, a: O.Action)
    requires OQ.Repairing(s) && O.Enabled(s, a) && (a.Commit? || a.ExternalNotify?)
    ensures OQ.Repairing(O.Apply(s, a))
  {
    OS.StepConsistent(s, a);
  }

  lemma OutboxStepRepairing(s: State, a: Action)
    requires Calm(s) && Quiet(a) && Enabled(s, a) && OutboxPart(s, a).Some?
    ensures OQ.Repairing(Apply(s, a).o)
  {
    if a.Outbox? {
      OQ.StepRepairing(s.o, a.oa);
    } else {
      CommitRepairing(s.o, OutboxPart(s, a).value);
    }
  }

  lemma StepFresh(s: State, a: Action)
    requires FreshInFlight(s) && Enabled(s, a)
    ensures FreshInFlight(Apply(s, a))
  {
    if a.Commit? || a.CommitAckLost? {
      FreshCommit(s, a);
    } else {
      FreshKept(s, a);
    }
  }

  lemma StepCalm(s: State, a: Action)
    requires Calm(s) && Quiet(a) && Enabled(s, a)
    ensures Calm(Apply(s, a))
  {
    StepGood(s, a);
    StepFresh(s, a);
    if QueuePart(a).Some? {
      QQ.StepRepairing(s.q, QueuePart(a).value);
    }
    if OutboxPart(s, a).Some? {
      OutboxStepRepairing(s, a);
    }
  }

  /** Every quiet step lowers the queue's measure, or leaves the queue alone and lowers the outbox's. */
  ghost predicate Descends(s: State, t: State) {
    || 0 <= QQ.Measure(t.q) < QQ.Measure(s.q)
    || (t.q == s.q && OQ.Measure(t.o) < OQ.Measure(s.o))
  }

  lemma StepDescends(s: State, a: Action)
    requires Calm(s) && Quiet(a) && Enabled(s, a)
    ensures Descends(s, Apply(s, a))
  {
    if QueuePart(a).Some? {
      QQ.StepDecreases(s.q, QueuePart(a).value);
      QQ.MeasureNonnegative(Apply(s, a).q);
    } else {
      OQ.StepDecreases(s.o, a.oa);
    }
  }

  /** Step `k` of an endless run: it is quiet and leads from run(k) to run(k + 1). */
  ghost predicate Follows(run: nat -> State, acts: nat -> Action, k: nat) {
    Quiet(acts(k)) && Enabled(run(k), acts(k)) && run(k + 1) == Apply(run(k), acts(k))
  }

  ghost predicate Lower(run: nat -> State, k: nat) {
    Descends(run(k), run(k + 1))
  }

  lemma {:induction false} EndlessFrom(run: nat -> State, i: nat)
    requires forall k: nat :: Lower(run, k)
    ensures false
    decreases QQ.Measure(run(i).q), OQ.Measure(run(i).o)
  {
    assert Lower(run, i);
    EndlessFrom(run, i + 1);
  }

  lemma FollowsStep(run: nat -> State, acts: nat -> Action, k: nat)
    requires CalmAt(run, k) && Follows(run, acts, k)
    ensures CalmAt(run, k + 1) && Lower(run, k)
  {
    StepCalm(run(k), acts(k));
    StepDescends(run(k), acts(k));
  }

  ghost predicate CalmAt(run: nat -> State, k: nat) {
    Calm(run(k))
  }

  ghost predicate Endless(run: nat -> State, acts: nat -> Action) {
    forall k: nat :: Follows(run, acts, k)
  }

  lemma EndlessStep(run: nat -> State, acts: nat -> Action, k: nat)
    requires CalmAt(run, k) && Endless(run, acts)
    ensures CalmAt(run, k + 1) && Lower(run, k)
  {
    assert Follows(run, acts, k);
    FollowsStep(run, acts, k);
  }

  lemma {:induction false} EndlessCalm(run: nat -> State, acts: nat -> Action, k: nat)
    requires CalmAt(run, 0) && Endless(run, acts)
    ensures CalmAt(run, k)
  {
    if k > 0 {
      EndlessCalm(run, acts, k - 1);
      EndlessStep(run, acts, k - 1);
    }
  }

  lemma NotEndless(run: nat -> State, acts: nat -> Action)
    requires Calm(run(0))
    ensures exists k: nat :: !Follows(run, acts, k)
  {
    if Endless(run, acts) {
      forall k: nat ensures Lower(run, k) {
        EndlessCalm(run, acts, k);
        EndlessStep(run, acts, k);
      }
      EndlessFrom(run, 0);
    }
  }

  /** No transaction in flight in `s`, and no handler in `acts`, publishes more than `m` events. */
  ghost predicate AtMost(s: State, acts: seq<Action>, m: nat) {
    && (forall w: nat :: |Carried(s.q, w)| <= m)
    && (forall a | a in acts && a.Queue? && a.qa.HandlerSucceeds? :: |a.qa.events| <= m)
  }

  lemma StepAtMost(s: State, acts: seq<Action>, m: nat)
    requires AtMost(s, acts, m) && acts != [] && Enabled(s, acts[0])
    ensures AtMost(Apply(s, acts[0]), acts[1..], m)
  {
    var a := acts[0];
    assert a in acts;
    forall w: nat ensures |Carried(Apply(s, a).q, w)| <= m {
      if QueuePart(a).Some? {
        CarriedStep(s.q, QueuePart(a).value, w);
      }
    }
  }

  /** What all workers have to do in `s` when a transaction publishes at most `m` events: a queue step may give the
      outbox worker a signal and the records of one transaction. */
  function Ceiling(s: State, m: nat): int {
    (5 + 4 * m) * QQ.Measure(s.q) + OQ.Measure(s.o)
  }

  lemma CommitAdds(s: O.State, recs: seq<Record>)
    requires OS.Conserved(s) && O.Enabled(s, O.Commit(recs))
    ensures OQ.Measure(O.Apply(s, O.Commit(recs))) <= OQ.Measure(s) + 4 * |recs| + 4
  {
    var t := O.Apply(s, O.Commit(recs));
    InsertKeys(s.table, recs);
    DistinctSize(recs);
    assert Ids(recs) !! s.table.Keys;
    assert |t.table.Keys| == |s.table.Keys| + |Ids(recs)|;
  }

  lemma {:induction false} Scaled(factor: nat, x: int, y: int)
    requires x < y
    ensures factor * x + factor <= factor * y
  {
    if factor > 0 {
      Scaled(factor - 1, x, y);
      assert factor * x == (factor - 1) * x + x && factor * y == (factor - 1) * y + y;
    }
  }

  lemma QueueLowers(s: State, a: Action, m: nat)
    requires Calm(s) && Quiet(a) && Enabled(s, a) && QueuePart(a).Some?
    requires forall w: nat :: |Carried(s.q, w)| <= m
    ensures Ceiling(Apply(s, a), m) < Ceiling(s, m)
  {
    QQ.StepDecreases(s.q, QueuePart(a).value);
    Scaled(5 + 4 * m, QQ.Measure(Apply(s, a).q), QQ.Measure(s.q));
    OutboxGrows(s, a, m);
  }

  lemma OutboxGrows(s: State, a: Action, m: nat)
    requires Good(s) && Quiet(a) && Enabled(s, a) && QueuePart(a).Some?
    requires forall w: nat :: |Carried(s.q, w)| <= m
    ensures OQ.Measure(Apply(s, a).o) <= OQ.Measure(s.o) + 4 * m + 4
  {
    if a.Commit? {
      CommitAdds(s.o, Carried(s.q, a.w));
    }
  }

  lemma StepLowers(s: State, a: Action, m: nat)
    requires Calm(s) && Quiet(a) && Enabled(s, a) && forall w: nat :: |Carried(s.q, w)| <= m
    ensures Ceiling(Apply(s, a), m) < Ceiling(s, m)
  {
    if QueuePart(a).Some? {
      QueueLowers(s, a, m);
    } else {
      OQ.StepDecreases(s.o, a.oa);
    }
  }

  lemma {:induction false} QuietRun(s: State, acts: seq<Action>, t: State, m: nat)
    requires Calm(s) && Exec(s, acts, t) && (forall a | a in acts :: Quiet(a)) && AtMost(s, acts, m)
    ensures Calm(t) && |acts| + Ceiling(t, m) <= Ceiling(s, m)
    decreases |acts|
  {
    if acts != [] {
      assert acts[0] in acts;
      StepCalm(s, acts[0]);
      StepLowers(s, acts[0], m);
      StepAtMost(s, acts, m);
      QuietRun(Apply(s, acts[0]), acts[1..], t, m);
    }
  }

  /** A quiet step of the queue is one of the pipeline, for a commit because its events are fresh. */
  lemma Lift(s: State, qa: Q.Action) returns (a: Action)
    requires FreshInFlight(s) && QQ.Quiet(qa) && Q.Enabled(s.q, qa)
    ensures Quiet(a) && Enabled(s, a)
  {
    if qa.Commit? {
      a := Commit(qa.w);
      assert NewIds(s, qa.w, Carried(s.q, qa.w));
    } else if qa.HandlerSucceeds? {
      a := Queue(Q.HandlerSucceeds(qa.w, []));
    } else {
      a := Queue(qa);
    }
  }

  lemma StuckIsIdle(s: State)
    requires Calm(s) && Stuck(s)
    ensures Idle(s)
  {
    forall qa | QQ.Quiet(qa) ensures !Q.Enabled(s.q, qa) {
      if Q.Enabled(s.q, qa) {
        var a := Lift(s, qa);
        assert false;
      }
    }
    QQ.RepairedIffIdle(s.q);
    forall oa | OQ.Quiet(oa) ensures !O.Enabled(s.o, oa) {
      assert Quiet(Outbox(oa));
    }
    OQ.RepairedIffIdle(s.o);
  }

  lemma IdleIsStuck(s: State)
    requires Idle(s)
    ensures Stuck(s)
  {
    QQ.IdleIsStuck(s.q);
    OQ.IdleIsStuck(s.o);
    forall a | Quiet(a) ensures !Enabled(s, a) {
      if Enabled(s, a) && QueuePart(a).Some? {
        assert QQ.Quiet(QueuePart(a).value);
      }
    }
  }

  lemma InitOrderly(cfg: Q.Config, limit: nat)
    requires cfg.workers > 0
    ensures Orderly(Init(cfg, limit))
  {
    QS.InitSafe(cfg);
  }

  lemma LimitStep(s: O.State, a: O.Action)
    requires O.Enabled(s, a)
    ensures O.Apply(s, a).limit == s.limit
  {
  }

  lemma OutboxLimit(s: State, a: Action)
    requires Enabled(s, a)
    ensures Apply(s, a).o.limit == s.o.limit
  {
    if OutboxPart(s, a).Some? {
      LimitStep(s.o, OutboxPart(s, a).value);
    }
  }

  lemma {:induction false} LimitStays(s: State, acts: seq<Action>, t: State)
    requires Exec(s, acts, t)
    ensures t.o.limit == s.o.limit
    decreases |acts|
  {
    if acts != [] {
      OutboxLimit(s, acts[0]);
      LimitStays(Apply(s, acts[0]), acts[1..], t);
    }
  }

  lemma ReachableIsOrderly(cfg: Q.Config, limit: nat, past: seq<Action>, s: State)
    requires cfg.workers > 0 && Exec(Init(cfg, limit), past, s)
    ensures Orderly(s) && s.q.cfg == cfg && s.o.limit == limit
  {
    InitOrderly(cfg, limit);
    RunOrderly(Init(cfg, limit), past, s);
    CfgStays(Init(cfg, limit), past, s);
    LimitStays(Init(cfg, limit), past, s);
  }

  lemma ReachableIsCalm(cfg: Q.Config, limit: nat, past: seq<Action>, s: State)
    requires cfg.wakeup && cfg.workers > 0 && limit > 0
    requires Exec(Init(cfg, limit), past, s)
    requires !s.q.lapsed && !s.q.stopping && !s.o.lapsed && !s.o.stopping
    ensures Calm(s)
  {
    ReachableIsOrderly(cfg, limit, past, s);
  }

  /** Every event of every committed command has been handed to the publisher. */
  ghost predicate AllPublished(s: State) {
    forall i, r | 0 <= i < |s.q.ledger| && r in s.q.ledger[i].events :: WasPublished(s.o, r)
  }

  lemma IdleMeansPublished(s: State)
    requires Good(s) && Idle(s)
    ensures AllPublished(s)
  {
    forall i, r | 0 <= i < |s.q.ledger| && r in s.q.ledger[i].events ensures WasPublished(s.o, r) {
      var k := OQ.IdleMeansPublished(s.o, r);
    }
  }

  lemma StuckIffIdle(s: State)
    requires Calm(s)
    ensures Stuck(s) <==> Idle(s)
    ensures Stuck(s) ==> AllPublished(s)
  {
    if Stuck(s) {
      StuckIsIdle(s);
      IdleMeansPublished(s);
    }
    if Idle(s) {
      IdleIsStuck(s);
    }
  }

  lemma CalmRun(s: State, acts: seq<Action>, t: State, m: nat)
    requires Calm(s) && Exec(s, acts, t) && (forall a | a in acts :: Quiet(a)) && AtMost(s, acts, m)
    ensures |acts| <= Ceiling(s, m)
    ensures Stuck(t) <==> Idle(t)
    ensures Stuck(t) ==> AllPublished(t)
  {
    QuietRun(s, acts, t, m);
    QQ.MeasureNonnegative(t.q);
    Positive(5 + 4 * m, QQ.Measure(t.q));
    StuckIffIdle(t);
  }

  lemma Positive(factor: nat, x: nat)
    ensures factor * x >= 0
  {
  }

  /** From any reachable state `s` with no error outstanding, a run of all workers without new sends, polls and
      errors whose transactions publish at most `m` events each has at most Ceiling(s, m) steps. It cannot be
      continued exactly when nothing is pending, no record is waiting, no signal is set and every worker sleeps, and
      then every event of every committed command has been published. */
  lemma PipelineRunsDry(cfg: Q.Config, limit: nat, past: seq<Action>, s: State, acts: seq<Action>, t: State, m: nat)
    requires cfg.wakeup && cfg.workers > 0 && limit > 0
    requires Exec(Init(cfg, limit), past, s)
    requires !s.q.lapsed && !s.q.stopping && !s.o.lapsed && !s.o.stopping
    requires Exec(s, acts, t) && (forall a | a in acts :: Quiet(a)) && AtMost(s, acts, m)
    ensures |acts| <= (5 + 4 * m) * QQ.Measure(s.q) + OQ.Measure(s.o)
    ensures Stuck(t) <==> Idle(t)
    ensures Stuck(t) ==> AllPublished(t)
  {
    ReachableIsCalm(cfg, limit, past, s);
    CalmRun(s, acts, t, m);
  }

  /** However many events the transactions publish, no such run is endless. */
  lemma NoEndlessRun(cfg: Q.Config, limit: nat, past: seq<Action>, run: nat -> State, acts: nat -> Action)
    requires cfg.wakeup && cfg.workers > 0 && limit > 0
    requires Exec(Init(cfg, limit), past, run(0))
    requires !run(0).q.lapsed && !run(0).q.stopping && !run(0).o.lapsed && !run(0).o.stopping
    ensures exists k: nat :: !Follows(run, acts, k)
  {
    ReachableIsCalm(cfg, limit, past, run(0));
    NotEndless(run, acts);
  }

  /** Whatever errors have stranded: once a queue worker and the outbox worker have polled, the same holds. */
  lemma PollsRepair(cfg: Q.Config, limit: nat, past: seq<Action>, s: State, w: nat, polled: State, acts: seq<Action>,
                    t: State, m: nat)
    requires limit > 0 && Exec(Init(cfg, limit), past, s) && !s.q.stopping && !s.o.stopping
    requires Exec(s, [Queue(Q.Poll(w)), Outbox(O.Poll)], polled)
    requires Exec(polled, acts, t) && (forall a | a in acts :: Quiet(a)) && AtMost(polled, acts, m)
    ensures |acts| <= (5 + 4 * m) * QQ.Measure(polled.q) + OQ.Measure(polled.o)
    ensures Stuck(t) <==> Idle(t)
    ensures Stuck(t) ==> AllPublished(t)
  {
    PolledIsCalm(cfg, limit, past, s, w, polled);
    CalmRun(polled, acts, t, m);
  }

  lemma QueuePolled(s: Q.State, w: nat)
    requires QO.Sound(s) && QQ.NoneExited(s) && QQ.Silent(s) && !s.stopping && Q.Enabled(s, Q.Poll(w))
    ensures QQ.Repairing(Q.Apply(s, Q.Poll(w)))
  {
    QS.StepSafe(s, Q.Poll(w));
    QQ.StepNoneExited(s, Q.Poll(w));
    QW.AwakeWitness(Q.Apply(s, Q.Poll(w)), w);
  }

  lemma OutboxPolled(s: O.State)
    requires OS.Consistent(s) && s.limit > 0 && !s.stopping && O.Enabled(s, O.Poll)
    ensures OQ.Repairing(O.Apply(s, O.Poll))
  {
    OS.StepConsistent(s, O.Poll);
  }

  lemma PolledShape(s: State, w: nat, polled: State)
    requires Exec(s, [Queue(Q.Poll(w)), Outbox(O.Poll)], polled)
    ensures Enabled(s, Queue(Q.Poll(w))) && Enabled(Apply(s, Queue(Q.Poll(w))), Outbox(O.Poll))
    ensures polled == Apply(Apply(s, Queue(Q.Poll(w))), Outbox(O.Poll))
    ensures polled == State(Q.Apply(s.q, Q.Poll(w)), O.Apply(s.o, O.Poll))
  {
    var a, b := Queue(Q.Poll(w)), Outbox(O.Poll);
    assert [a, b][1..] == [b] && [b][1..] == [];
    assert Exec(Apply(s, a), [b], polled);
    assert Exec(Apply(Apply(s, a), b), [], polled);
  }

  lemma PolledIsCalm(cfg: Q.Config, limit: nat, past: seq<Action>, s: State, w: nat, polled: State)
    requires limit > 0 && Exec(Init(cfg, limit), past, s) && !s.q.stopping && !s.o.stopping
    requires Exec(s, [Queue(Q.Poll(w)), Outbox(O.Poll)], polled)
    ensures Calm(polled)
  {
    PolledShape(s, w, polled);
    WorkersExist(cfg, limit, past, s, w);
    ReachableIsOrderly(cfg, limit, past, s);
    StepOrderly(s, Queue(Q.Poll(w)));
    StepOrderly(Apply(s, Queue(Q.Poll(w))), Outbox(O.Poll));
    QueuePolled(s.q, w);
    OutboxPolled(s.o);
  }

  /** A worker that can be named exists by configuration. */
  lemma WorkersExist(cfg: Q.Config, limit: nat, past: seq<Action>, s: State, w: nat)
    requires Exec(Init(cfg, limit), past, s) && Q.Is(s.q, w)
    ensures cfg.workers > 0
  {
    QS.InitSafe(cfg);
    RunGood(Init(cfg, limit), past, s);
    CfgStays(Init(cfg, limit), past, s);
  }

  lemma RestartShape(s: State, restarted: State)
    requires Enabled(s, Crash) && restarted == Apply(s, Crash)
    ensures restarted == State(Q.Apply(s.q, Q.Crash), O.Apply(s.o, O.Crash))
  {
  }

  lemma OutboxRestarted(s: O.State)
    requires OS.Consistent(s) && s.limit > 0
    ensures OQ.Repairing(O.Apply(s, O.Crash))
  {
    OS.StepConsistent(s, O.Crash);
  }

  lemma RestartedIsCalm(cfg: Q.Config, limit: nat, past: seq<Action>, s: State, restarted: State)
    requires cfg.workers > 0 && limit > 0 && Exec(Init(cfg, limit), past, s)
    requires Enabled(s, Crash) && restarted == Apply(s, Crash)
    ensures Calm(restarted)
  {
    ReachableIsOrderly(cfg, limit, past, s);
    StepOrderly(s, Crash);
    RestartShape(s, restarted);
    QQ.RestartedIsRepairing(s.q);
    OutboxRestarted(s.o);
  }

  /** And the same holds after every restart, whatever came before it. */
  lemma RestartRecovers(cfg: Q.Config, limit: nat, past: seq<Action>, s: State, restarted: State, acts: seq<Action>,
                        t: State, m: nat)
    requires cfg.workers > 0 && limit > 0 && Exec(Init(cfg, limit), past, s)
    requires Enabled(s, Crash) && restarted == Apply(s, Crash)
    requires Exec(restarted, acts, t) && (forall a | a in acts :: Quiet(a)) && AtMost(restarted, acts, m)
    ensures |acts| <= (5 + 4 * m) * QQ.Measure(restarted.q) + OQ.Measure(restarted.o)
    ensures Stuck(t) <==> Idle(t)
    ensures Stuck(t) ==> AllPublished(t)
  {
    RestartedIsCalm(cfg, limit, past, s, restarted);
    CalmRun(restarted, acts, t, m);
  }
}
