/** The queue worker's code refines the pipeline: a round is a run of queue and outbox together. */
module PipelineRefinement {
  import opened Types
  import opened EventBus
  import opened CommandProcessing
  import opened OutboxTable
  import opened Pipeline
  import T = ExecutionTable
  import WR = WorkerRefinement
  import Q = QueueProtocol
  import O = OutboxProtocol

  /** One worker at the top of its loop, over the same tables. */
  ghost predicate Beside(s: State, db: Db) {
    WR.Alongside(s.q, db) && s.o.table == db.outbox && s.o.table.Keys <= s.o.committed.Keys
  }

  /** Generated ids have never been used for a record. */
  ghost predicate Unused(s: State, stamps: nat -> Stamp) {
    forall n: nat :: NewStamps(s.o.committed, n, stamps)
  }

  lemma LiftOne(s: State, acts: seq<Action>, t: State, qa: Q.Action) returns (acts': seq<Action>, t': State)
    requires Exec(s, acts, t) && WR.Plain(qa) && Q.Enabled(t.q, qa)
    ensures Exec(s, acts', t') && t' == t.(q := Q.Apply(t.q, qa))
  {
    acts', t' := Then(s, acts, t, Queue(qa));
  }

  /** A run of the queue that publishes and commits nothing is one of the pipeline that leaves the outbox alone. */
  lemma {:induction false} Lift(s: State, acts: seq<Action>, m: State, qacts: seq<Q.Action>, t: Q.State)
    returns (acts': seq<Action>, t': State)
    requires Exec(s, acts, m) && Q.Exec(m.q, qacts, t) && WR.AllPlain(qacts)
    ensures Exec(s, acts', t') && t' == m.(q := t)
    decreases |qacts|
  {
    if qacts == [] {
      acts', t' := acts, m;
    } else {
      assert qacts[0] in qacts;
      acts', t' := LiftOne(s, acts, m, qacts[0]);
      acts', t' := Lift(s, acts', t', qacts[1..], t);
    }
  }

  /** The ids of a handler's events are new to the whole pipeline. */
  lemma EventsAreNew(s: State, events: seq<Event>, stamps: nat -> Stamp)
    requires Unused(s, stamps) && |s.q.workers| == 1
    ensures NewIds(s, 0, RecordsOf(events, stamps))
  {
    SaveSucceeds(s.o.committed, events, stamps);
    assert NewStamps(s.o.committed, |events|, stamps);
    forall v: nat | v != 0 ensures Ids(Carried(s.q, v)) !! Ids(RecordsOf(events, stamps)) {
      assert Carried(s.q, v) == [];
    }
  }

  /** The worker's transaction with its handler's events, about to commit. */
  lemma FinishedIsRun(s: State, db: Db, id: Id, handler: string, events: seq<Event>, env: Env)
    returns (acts: seq<Action>, t: State)
    requires Beside(s, db) && T.IsNext(db.rows, {}, id) && Unused(s, env.stamps)
    ensures Exec(s, acts, t) && t.o == s.o
    ensures t.q == s.q.(workers := [Q.Finished(id, T.Succeeded(T.Started(db.rows[id], handler, env.now), env.now),
                                               RecordsOf(events, env.stamps))])
  {
    var recs := RecordsOf(events, env.stamps);
    var qacts, m := WR.ClaimAndStart(s.q, db, id, handler, env);
    acts, t := Lift(s, [], s, qacts, m);
    EventsAreNew(t, events, env.stamps);
    acts, t := Then(s, acts, t, Queue(Q.HandlerSucceeds(0, recs)));
    acts, t := LiftOne(s, acts, t, Q.RecordSuccess(0, env.now));
  }

  /** The queue's side of a commit. */
  function Installed(q: Q.State, id: Id, work: Row, recs: seq<Record>, p: Q.Worker): Q.State {
    q.(workers := [p], rows := q.rows[id := work], ledger := q.ledger + [Q.Entry(id, recs)])
  }

  ghost predicate AboutToCommit(m: State, id: Id, work: Row, recs: seq<Record>) {
    m.q.workers == [Q.Finished(id, work, recs)] && O.Fresh(m.o, recs)
  }

  lemma AckedCommit(s: State, acts: seq<Action>, m: State, id: Id, work: Row, recs: seq<Record>)
    returns (acts': seq<Action>, t: State)
    requires Exec(s, acts, m) && AboutToCommit(m, id, work, recs)
    ensures Exec(s, acts', t)
    ensures t == State(Installed(m.q, id, work, recs, Q.Committed), O.Apply(m.o, O.Commit(recs)))
  {
    assert Carried(m.q, 0) == recs;
    acts', t := Then(s, acts, m, Commit(0));
  }

  lemma UnackedCommit(s: State, acts: seq<Action>, m: State, id: Id, work: Row, recs: seq<Record>)
    returns (acts': seq<Action>, t: State)
    requires Exec(s, acts, m) && AboutToCommit(m, id, work, recs)
    ensures Exec(s, acts', t)
    ensures t == State(Installed(m.q, id, work, recs, Q.Backoff).(lapsed := true), O.Apply(m.o, O.ExternalCommit(recs)))
  {
    assert Carried(m.q, 0) == recs;
    acts', t := Then(s, acts, m, CommitAckLost(0));
  }

  lemma HookRuns(s: State, acts: seq<Action>, m: State) returns (acts': seq<Action>, t: State)
    requires Exec(s, acts, m) && m.o.hooks > 0
    ensures Exec(s, acts', t) && t == m.(o := m.o.(hooks := m.o.hooks - 1, token := true))
  {
    acts', t := Then(s, acts, m, Outbox(O.RunHook));
  }

  lemma WorkerSignals(s: State, acts: seq<Action>, m: State, signals: bool) returns (acts': seq<Action>, t: State)
    requires Exec(s, acts, m) && m.q.workers == [Q.Committed]
    ensures Exec(s, acts', t)
    ensures t == State(m.q.(workers := [Q.Processed]), m.o.(token := m.o.token || signals))
  {
    if signals {
      acts', t := Then(s, acts, m, Signal(0));
    } else {
      acts', t := LiftOne(s, acts, m, Q.NotifyOutbox(0));
    }
  }

  /** Commit, hook and signal; without its acknowledgement a commit runs no hook and signals nobody. `signals` tells
      whether the worker has an outbox notifier of its own. */
  lemma CommitIsRun(s: State, acts: seq<Action>, m: State, id: Id, work: Row, recs: seq<Record>, ackLost: bool,
                    signals: bool)
    returns (acts': seq<Action>, t: State)
    requires Exec(s, acts, m) && AboutToCommit(m, id, work, recs)
    ensures Exec(s, acts', t)
    ensures t.q == Installed(m.q, id, work, recs, if ackLost then Q.Backoff else Q.Processed).(
      lapsed := m.q.lapsed || ackLost)
    ensures t.o == O.AddRecords(m.o, recs).(
      token := m.o.token || (!ackLost && (signals || recs != [])), lapsed := m.o.lapsed || ackLost)
  {
    if ackLost {
      acts', t := UnackedCommit(s, acts, m, id, work, recs);
    } else {
      acts', t := AckedCommit(s, acts, m, id, work, recs);
      if recs != [] {
        acts', t := HookRuns(s, acts', t);
      }
      acts', t := WorkerSignals(s, acts', t, signals);
    }
  }

  /** What the outbox is left with: untouched, or the committed records with one wake-up if the commit was
      acknowledged and there is someone to wake. */
  ghost predicate OutboxLeft(s: State, t: State, db: Db, out: Outcome, signals: bool) {
    && t.o.table == out.db.outbox
    && (!out.committed ==> t.o == s.o)
    && (out.committed ==>
          && t.o.hooks == s.o.hooks && t.o.worker == s.o.worker && t.o.log == s.o.log
          && (t.o.lapsed <==> s.o.lapsed || out.err)
          && (t.o.token <==> s.o.token || (!out.err && (signals || out.db.outbox != db.outbox))))
  }

  lemma UncommittedIsRun(s: State, db: Db, next: Option<Id>, handlers: Handlers, env: Env)
    returns (acts: seq<Action>, t: State)
    requires Beside(s, db) && WR.MayClaim(db, next, env) && !Process(db, next, handlers, env).committed
    ensures Exec(s, acts, t) && t.o == s.o
    ensures t.q.rows == Process(db, next, handlers, env).db.rows && t.q.ledger == s.q.ledger
    ensures t.q.workers == [WR.After(Process(db, next, handlers, env))]
  {
    var qacts, m;
    if next.None? {
      qacts, m := WR.NoClaimIsRun(s.q, db, handlers, env);
    } else {
      var row := db.rows[next.value];
      if Process(db, next, handlers, env).err {
        qacts, m := WR.InfraErrorIsRun(s.q, db, next.value, env);
      } else {
        var attempt := Try(db.domain, db.outbox, handlers[row.name], row.payload, env.stamps);
        qacts, m := WR.FailureIsRun(s.q, db, next.value, attempt.error, env);
      }
    }
    acts, t := Lift(s, [], s, qacts, m);
  }

  lemma CommittedIsRun(s: State, db: Db, id: Id, handlers: Handlers, env: Env, signals: bool)
    returns (acts: seq<Action>, t: State)
    requires Beside(s, db) && T.IsNext(db.rows, {}, id) && Unused(s, env.stamps)
    requires Process(db, Some(id), handlers, env).committed
    ensures Exec(s, acts, t) && OutboxLeft(s, t, db, Process(db, Some(id), handlers, env), signals)
    ensures t.q.rows == Process(db, Some(id), handlers, env).db.rows
    ensures t.q.ledger == s.q.ledger + WR.Committed(db, id, handlers, env)
    ensures t.q.workers == [WR.After(Process(db, Some(id), handlers, env))]
  {
    var row := db.rows[id];
    var h := handlers[row.name];
    var events := h.run(db.domain, row.payload).events;
    var recs := RecordsOf(events, env.stamps);
    NewRecordsShow(db.domain, db.outbox, h, row.payload, env.stamps);
    EventsAreNew(s, events, env.stamps);
    var m;
    acts, m := FinishedIsRun(s, db, id, h.name, events, env);
    acts, t := CommitIsRun(s, acts, m, id, m.q.workers[0].work, recs, env.commit.AckLost?, signals);
  }

  /** Every round of the code is a run of the pipeline: the same rows and outbox table, the same ledger entry, and the
      outbox worker woken exactly when an acknowledged commit gives it reason to be. */
  lemma RoundIsRun(s: State, db: Db, next: Option<Id>, handlers: Handlers, env: Env, signals: bool)
    returns (acts: seq<Action>, t: State)
    requires Beside(s, db) && WR.MayClaim(db, next, env) && Unused(s, env.stamps)
    ensures Exec(s, acts, t) && OutboxLeft(s, t, db, Process(db, next, handlers, env), signals)
    ensures t.q.rows == Process(db, next, handlers, env).db.rows
    ensures t.q.ledger == s.q.ledger + if next.Some? then WR.Committed(db, next.value, handlers, env) else []
    ensures t.q.workers == [WR.After(Process(db, next, handlers, env))]
  {
    if next.Some? && Process(db, next, handlers, env).committed {
      acts, t := CommittedIsRun(s, db, next.value, handlers, env, signals);
    } else {
      acts, t := UncommittedIsRun(s, db, next, handlers, env);
    }
  }
}
