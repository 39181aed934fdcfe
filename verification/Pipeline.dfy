/**
 Queue and outbox together: a command's commit puts its events in the outbox table in the same step, and a
 crash takes both workers down. End to end, from a command's status to what its subscribers were sent.
 */
module Pipeline {
  import opened Types
  import opened OutboxTable
  import Q = QueueProtocol
  import QS = QueueSafety
  import QO = QueueOutcome
  import O = OutboxProtocol
  import OS = OutboxSafety
  import OW = OutboxWakeup

  datatype State = State(q: Q.State, o: O.State)

  /** A transaction's own commit, with or without its acknowledgement, the signal a worker with an outbox notifier
      sends after a commit, and a crash are joint steps. */
  datatype Action =
    | Queue(qa: Q.Action)
    | Outbox(oa: O.Action)
    | Commit(w: nat)
    | CommitAckLost(w: nat)
    | Signal(w: nat)
    | Crash

  function Init(cfg: Q.Config, limit: nat): State {
    State(Q.Init(cfg), O.Init(limit))
  }

  /** The events in a worker's open transaction. */
  function Carried(q: Q.State, w: nat): seq<Record> {
    if Q.Is(q, w) && (q.workers[w].Handled? || q.workers[w].Finished?) then q.workers[w].events else []
  }

  /** What an action is for the queue, and for the outbox. When the acknowledgement of a commit is lost its records
      are in the table but its hooks never run. */
  function QueuePart(a: Action): Option<Q.Action> {
    match a
    case Queue(qa) => Some(qa)
    case Outbox(_) => None
    case Commit(w) => Some(Q.Commit(w))
    case CommitAckLost(w) => Some(Q.CommitAckLost(w))
    case Signal(w) => Some(Q.NotifyOutbox(w))
    case Crash => Some(Q.Crash)
  }

  function OutboxPart(s: State, a: Action): Option<O.Action> {
    match a
    case Queue(_) => None
    case Outbox(oa) => Some(oa)
    case Commit(w) => Some(O.Commit(Carried(s.q, w)))
    case CommitAckLost(w) => Some(O.ExternalCommit(Carried(s.q, w)))
    case Signal(_) => Some(O.ExternalNotify)
    case Crash => Some(O.Crash)
  }

  /** Joint steps are not taken by one side alone, and a handler's events get ids that nothing else has. */
  ghost predicate Proper(s: State, a: Action) {
    match a
    case Queue(qa) =>
      && !qa.Commit? && !qa.CommitAckLost? && !qa.Crash?
      && (qa.HandlerSucceeds? ==> NewIds(s, qa.w, qa.events))
    case Outbox(oa) => !oa.Commit? && !oa.ExternalCommit? && !oa.Crash?
    case Commit(_) => true
    case CommitAckLost(_) => true
    case Signal(_) => true
    case Crash => true
  }

  ghost predicate NewIds(s: State, w: nat, events: seq<Record>) {
    && O.Fresh(s.o, events)
    && forall v: nat | v != w :: Ids(Carried(s.q, v)) !! Ids(events)
  }

  ghost predicate Enabled(s: State, a: Action) {
    && Proper(s, a)
    && (QueuePart(a).Some? ==> Q.Enabled(s.q, QueuePart(a).value))
    && (OutboxPart(s, a).Some? ==> O.Enabled(s.o, OutboxPart(s, a).value))
  }

  function Apply(s: State, a: Action): State
    requires Enabled(s, a)
  {
    State(if QueuePart(a).Some? then Q.Apply(s.q, QueuePart(a).value) else s.q,
          if OutboxPart(s, a).Some? then O.Apply(s.o, OutboxPart(s, a).value) else s.o)
  }

  ghost predicate Exec(s: State, acts: seq<Action>, t: State)
    decreases |acts|
  {
    if acts == [] then s == t else Enabled(s, acts[0]) && Exec(Apply(s, acts[0]), acts[1..], t)
  }

  lemma {:induction false} ExecSnoc(s: State, acts: seq<Action>, t: State, a: Action)
    requires Exec(s, acts, t) && Enabled(t, a)
    ensures Exec(s, acts + [a], Apply(t, a))
    decreases |acts|
  {
    if acts == [] {
      assert [a][1..] == [];
    } else {
      ExecSnoc(Apply(s, acts[0]), acts[1..], t, a);
      assert (acts + [a])[1..] == acts[1..] + [a];
    }
  }

  /** One more step of a run under construction. */
  lemma Then(s: State, acts: seq<Action>, t: State, a: Action) returns (acts': seq<Action>, t': State)
    requires Exec(s, acts, t) && Enabled(t, a)
    ensures Exec(s, acts', t') && t' == Apply(t, a)
  {
    ExecSnoc(s, acts, t, a);
    acts', t' := acts + [a], Apply(t, a);
  }

  /** The outbox has received exactly the events of committed commands. */
  ghost predicate Linked(s: State) {
    && (forall i, r | 0 <= i < |s.q.ledger| && r in s.q.ledger[i].events ::
          r.id in s.o.committed && s.o.committed[r.id] == r)
    && (forall id | id in s.o.committed :: FromLedger(s.q.ledger, s.o.committed[id]))
  }

  ghost predicate FromLedger(ledger: seq<Q.Entry>, r: Record) {
    exists i :: 0 <= i < |ledger| && r in ledger[i].events
  }

  ghost predicate Good(s: State) {
    QO.Sound(s.q) && OS.Consistent(s.o) && OW.NoLostWakeup(s.o) && Linked(s)
  }

  lemma LinkedCommit(s: State, w: nat, t: State)
    requires Good(s) && Q.Is(s.q, w) && s.q.workers[w].Finished? && O.Fresh(s.o, Carried(s.q, w))
    requires t.q.ledger == s.q.ledger + [Q.Entry(s.q.workers[w].id, Carried(s.q, w))]
    requires t.o.committed == O.AddRecords(s.o, Carried(s.q, w)).committed
    ensures Linked(t)
  {
    var recs := Carried(s.q, w);
    var n := |s.q.ledger|;
    OS.AddFacts(s.o, recs);
    forall i, r | 0 <= i < |t.q.ledger| && r in t.q.ledger[i].events
      ensures r.id in t.o.committed && t.o.committed[r.id] == r
    {
      if i < n {
        assert t.q.ledger[i] == s.q.ledger[i];
      } else {
        var k :| 0 <= k < |recs| && recs[k] == r;
        InsertHas(s.o.committed, recs, k);
      }
    }
    forall id | id in t.o.committed ensures FromLedger(t.q.ledger, t.o.committed[id]) {
      if id in s.o.committed {
        var i :| 0 <= i < n && s.o.committed[id] in s.q.ledger[i].events;
        assert t.q.ledger[i] == s.q.ledger[i];
      } else {
        var k := IdsIndex(recs, id);
        InsertHas(s.o.committed, recs, k);
        assert t.q.ledger[n].events == recs;
      }
    }
  }

  lemma LedgerStays(s: Q.State, a: Q.Action)
    requires Q.Enabled(s, a) && !a.Commit? && !a.CommitAckLost?
    ensures Q.Apply(s, a).ledger == s.ledger
  {
  }

  lemma CommittedStays(s: O.State, a: O.Action)
    requires O.Enabled(s, a) && !a.Commit? && !a.ExternalCommit?
    ensures O.Apply(s, a).committed == s.committed
  {
    if a.Publish? || a.PublishAckLost? || a.Delete? || a.DeleteAckLost? {
      assert O.Published(s).committed == s.committed && O.Removed(s).committed == s.committed;
    }
  }

  lemma OutboxStepGood(s: O.State, a: O.Action)
    requires OS.Consistent(s) && OW.NoLostWakeup(s) && O.Enabled(s, a)
    ensures OS.Consistent(O.Apply(s, a)) && OW.NoLostWakeup(O.Apply(s, a))
  {
    OS.StepConsistent(s, a);
    OW.StepTended(s, a);
  }

  lemma CommitLinked(s: State, a: Action)
    requires Good(s) && Enabled(s, a) && (a.Commit? || a.CommitAckLost?)
    ensures Linked(Apply(s, a))
  {
    var t := Apply(s, a);
    assert Carried(s.q, a.w) == s.q.workers[a.w].events;
    assert t.q.ledger == s.q.ledger + [Q.Entry(s.q.workers[a.w].id, Carried(s.q, a.w))];
    assert t.o.committed == O.AddRecords(s.o, Carried(s.q, a.w)).committed;
    LinkedCommit(s, a.w, t);
  }

  /** Linked looks at the ledger and the committed records only. */
  lemma OtherLinked(s: State, a: Action)
    requires Good(s) && Enabled(s, a) && !a.Commit? && !a.CommitAckLost?
    ensures Linked(Apply(s, a))
  {
    if QueuePart(a).Some? {
      LedgerStays(s.q, QueuePart(a).value);
    }
    if OutboxPart(s, a).Some? {
      CommittedStays(s.o, OutboxPart(s, a).value);
    }
  }

  lemma StepLinked(s: State, a: Action)
    requires Good(s) && Enabled(s, a)
    ensures Linked(Apply(s, a))
  {
    if a.Commit? || a.CommitAckLost? {
      CommitLinked(s, a);
    } else {
      OtherLinked(s, a);
    }
  }

  lemma StepGood(s: State, a: Action)
    requires Good(s) && Enabled(s, a)
    ensures Good(Apply(s, a))
  {
    if QueuePart(a).Some? {
      QO.StepSound(s.q, QueuePart(a).value);
    }
    if OutboxPart(s, a).Some? {
      OutboxStepGood(s.o, OutboxPart(s, a).value);
    }
    StepLinked(s, a);
  }

  lemma {:induction false} RunGood(s: State, acts: seq<Action>, t: State)
    requires Good(s) && Exec(s, acts, t)
    ensures Good(t)
    decreases |acts|
  {
    if acts != [] {
      StepGood(s, acts[0]);
      RunGood(Apply(s, acts[0]), acts[1..], t);
    }
  }

  lemma {:induction false} CfgStays(s: State, acts: seq<Action>, t: State)
    requires Exec(s, acts, t)
    ensures t.q.cfg == s.q.cfg
    decreases |acts|
  {
    if acts != [] {
      CfgStep(s, acts[0]);
      CfgStays(Apply(s, acts[0]), acts[1..], t);
    }
  }

  lemma CfgStep(s: State, a: Action)
    requires Enabled(s, a)
    ensures Apply(s, a).q.cfg == s.q.cfg
  {
    if QueuePart(a).Some? {
      QO.WorkersStay(s.q, QueuePart(a).value);
    }
  }

  lemma {:induction false} CommitsAt(ledger: seq<Q.Entry>, i: nat)
    requires i < |ledger|
    ensures Q.Commits(ledger, ledger[i].id) >= 1
  {
    var n := |ledger| - 1;
    if i < n {
      CommitsAt(ledger[..n], i);
    }
  }

  lemma {:induction false} EntryOf(ledger: seq<Q.Entry>, id: Id) returns (i: nat)
    requires Q.Commits(ledger, id) >= 1
    ensures i < |ledger| && ledger[i].id == id
  {
    i := |ledger| - 1;
    if ledger[i].id != id {
      i := EntryOf(ledger[..i], id);
    }
  }

  /** Nothing from a rolled-back attempt reaches a subscriber: every published record is an event of some
      committed command, and with one worker that command, sent once, shows as successful. */
  lemma PublishedMeansSuccess(cfg: Q.Config, limit: nat, acts: seq<Action>, s: State, k: nat) returns (i: nat)
    requires Exec(Init(cfg, limit), acts, s) && k < |s.o.log|
    ensures i < |s.q.ledger| && s.o.log[k].record in s.q.ledger[i].events
    ensures var id := s.q.ledger[i].id;
      cfg.workers == 1 && s.q.sends[id] == 1 ==> id in s.q.rows && s.q.rows[id].status == Success
  {
    QS.InitSafe(cfg);
    RunGood(Init(cfg, limit), acts, s);
    CfgStays(Init(cfg, limit), acts, s);
    var r := s.o.log[k].record;
    assert FromLedger(s.q.ledger, s.o.committed[r.id]);
    i :| 0 <= i < |s.q.ledger| && r in s.q.ledger[i].events;
    CommitsAt(s.q.ledger, i);
    var id := s.q.ledger[i].id;
    assert Q.Commits(s.q.ledger, id) + QS.PendingBit(s.q.rows, id) <= s.q.sends[id];
    if cfg.workers == 1 && s.q.sends[id] == 1 {
      assert QO.OutcomeAt(s.q, id);
    }
  }

  /** A command that shows as successful has a committed transaction all of whose events are in the outbox or
      already published; once the outbox worker sleeps with nothing signalled, all are published. */
  lemma SuccessMeansDelivery(cfg: Q.Config, limit: nat, acts: seq<Action>, s: State, id: Id) returns (i: nat)
    requires Exec(Init(cfg, limit), acts, s)
    requires s.q.sends[id] == 1 && id in s.q.rows && s.q.rows[id].status == Success
    ensures i < |s.q.ledger| && s.q.ledger[i].id == id
    ensures forall r | r in s.q.ledger[i].events ::
      (r.id in s.o.table && s.o.table[r.id] == r) || WasPublished(s.o, r)
    ensures s.o.worker.Sleeping? && !s.o.token && s.o.hooks == 0 && !s.o.lapsed && !s.o.stopping ==>
      forall r | r in s.q.ledger[i].events :: WasPublished(s.o, r)
  {
    QS.InitSafe(cfg);
    RunGood(Init(cfg, limit), acts, s);
    assert QO.OutcomeAt(s.q, id);
    i := EntryOf(s.q.ledger, id);
    forall r | r in s.q.ledger[i].events
      ensures (r.id in s.o.table && s.o.table[r.id] == r) || WasPublished(s.o, r)
    {
      CommittedGoesOn(s, i, r);
    }
  }

  /** An event of a committed command is in the outbox, or it has been published. */
  lemma CommittedGoesOn(s: State, i: nat, r: Record)
    requires Good(s) && i < |s.q.ledger| && r in s.q.ledger[i].events
    ensures (r.id in s.o.table && s.o.table[r.id] == r) || WasPublished(s.o, r)
  {
    assert r.id in s.o.committed && s.o.committed[r.id] == r;
    if r.id !in s.o.table {
      var k := O.PublishedAt(s.o.log, r.id);
      assert s.o.log[k].record == r;
    }
  }

  /** With one worker, a command sent once that is pending or failed has left no committed transaction, so by
      PublishedMeansSuccess nothing published stems from it. */
  lemma UnsuccessfulMeansSilence(cfg: Q.Config, limit: nat, acts: seq<Action>, s: State, id: Id)
    requires Exec(Init(cfg, limit), acts, s) && cfg.workers == 1
    requires s.q.sends[id] == 1 && id in s.q.rows && s.q.rows[id].status != Success
    ensures forall i | 0 <= i < |s.q.ledger| :: s.q.ledger[i].id != id
  {
    QS.InitSafe(cfg);
    RunGood(Init(cfg, limit), acts, s);
    CfgStays(Init(cfg, limit), acts, s);
    assert QO.OutcomeAt(s.q, id);
    forall i | 0 <= i < |s.q.ledger| ensures s.q.ledger[i].id != id {
      CommitsAt(s.q.ledger, i);
    }
  }

  ghost predicate WasPublished(o: O.State, r: Record) {
    exists k :: 0 <= k < |o.log| && o.log[k].record == r
  }
}
