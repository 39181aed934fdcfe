/** The worker's code refines the protocol: every round, and every drain, is a run of the protocol. */
module WorkerRefinement {
  import opened Types
  import opened CommandProcessing
  import opened DrainRounds
  import T = ExecutionTable
  import Q = QueueProtocol
  import QO = QueueOutcome

  /** One worker at the top of its loop, over the same table. */
  ghost predicate Alongside(s: Q.State, db: Db) {
    s.workers == [Q.Ready] && s.rows == db.rows
  }

  predicate SameSystem(s: Q.State, t: Q.State) {
    t.cfg == s.cfg && t.sends == s.sends && t.token == s.token
  }

  /** The worker has signalled its peers, if there are any, exactly when it has `processed` a command. */
  predicate Signals(s: Q.State, t: Q.State, processed: bool) {
    t.cfg == s.cfg && t.sends == s.sends &&
    (t.token <==> s.token || (processed && s.cfg.workers > 1 && s.cfg.wakeup))
  }

  /** A step that concerns the queue alone: nothing is published and no transaction ends. */
  predicate Plain(a: Q.Action) {
    !a.HandlerSucceeds? && !a.Commit? && !a.CommitAckLost? && !a.Crash?
  }

  ghost predicate AllPlain(acts: seq<Q.Action>) {
    forall a | a in acts :: Plain(a)
  }

  /** What the round claimed is what its SELECT may return. */
  ghost predicate MayClaim(db: Db, next: Option<Id>, env: Env) {
    if env.beginFails || env.fetchFails then next.None?
    else if next.None? then T.PendingIds(db.rows) == {}
    else T.IsNext(db.rows, {}, next.value)
  }

  function After(out: Outcome): Q.Worker {
    if out.err then Q.Backoff else if out.processed then Q.Processed else Q.Sleeping
  }

  /** The ledger entry of a round on `id`, if it commits. */
  function Committed(db: Db, id: Id, handlers: Handlers, env: Env): seq<Q.Entry>
    requires id in db.rows
  {
    if Process(db, Some(id), handlers, env).committed && db.rows[id].name in handlers then
      match Try(db.domain, db.outbox, handlers[db.rows[id].name], db.rows[id].payload, env.stamps)
      case Done(_, _, recs) => [Q.Entry(id, recs)]
      case Aborted(_) => []
    else []
  }

  /** The ledger entries of the rounds of a drain, in order. */
  ghost function Entries(db: Db, order: seq<Id>, handlers: Handlers, envs: nat -> Env, i: nat, mid: Db): seq<Q.Entry>
    requires Claims(db, order, handlers, envs, i, mid)
    decreases |order|
  {
    if order == [] then []
    else
      Committed(db, order[0], handlers, envs(i)) +
      Entries(Process(db, Some(order[0]), handlers, envs(i)).db, order[1..], handlers, envs, i + 1, mid)
  }

  lemma NoClaimIsRun(s: Q.State, db: Db, handlers: Handlers, env: Env) returns (acts: seq<Q.Action>, t: Q.State)
    requires Alongside(s, db) && MayClaim(db, None, env)
    ensures AllPlain(acts)
    ensures Q.Exec(s, acts, t) && t.rows == db.rows && t.ledger == s.ledger && SameSystem(s, t)
    ensures t.workers == [After(Process(db, None, handlers, env))]
  {
    if env.beginFails || env.fetchFails || !env.commit.Applied? {
      acts, t := Q.Then(s, [], s, Q.InfraError(0));
    } else {
      acts, t := Q.Then(s, [], s, Q.FetchEmpty(0));
    }
  }

  lemma ClaimAndStart(s: Q.State, db: Db, id: Id, handler: string, env: Env) returns (acts: seq<Q.Action>, t: Q.State)
    requires Alongside(s, db) && T.IsNext(db.rows, {}, id)
    ensures AllPlain(acts)
    ensures Q.Exec(s, acts, t)
    ensures t == s.(workers := [Q.Running(id, T.Started(db.rows[id], handler, env.now))])
  {
    assert Q.LockedIds(s) == {};
    acts, t := Q.Then(s, [], s, Q.Fetch(0, id));
    acts, t := Q.Then(s, acts, t, Q.RecordStarted(0, handler, env.now));
  }

  lemma InfraErrorIsRun(s: Q.State, db: Db, id: Id, env: Env) returns (acts: seq<Q.Action>, t: Q.State)
    requires Alongside(s, db) && T.IsNext(db.rows, {}, id)
    ensures AllPlain(acts)
    ensures Q.Exec(s, acts, t) && t.rows == db.rows && t.ledger == s.ledger && SameSystem(s, t) &&
      t.workers == [Q.Backoff]
  {
    acts, t := ClaimAndStart(s, db, id, "", env);
    acts, t := Q.Then(s, acts, t, Q.InfraError(0));
  }

  lemma FailsInTx(s: Q.State, db: Db, id: Id, env: Env) returns (acts: seq<Q.Action>, t: Q.State)
    requires Alongside(s, db) && T.IsNext(db.rows, {}, id)
    ensures AllPlain(acts)
    ensures Q.Exec(s, acts, t) && t == s.(workers := [Q.Failing(id)])
  {
    acts, t := ClaimAndStart(s, db, id, "", env);
    acts, t := Q.Then(s, acts, t, Q.HandlerFails(0));
  }

  lemma FailureIsRun(s: Q.State, db: Db, id: Id, error: string, env: Env) returns (acts: seq<Q.Action>, t: Q.State)
    requires Alongside(s, db) && T.IsNext(db.rows, {}, id)
    ensures AllPlain(acts)
    ensures Q.Exec(s, acts, t) && t.ledger == s.ledger && SameSystem(s, t) && t.workers == [Q.Processed]
    ensures t.rows == if env.failureFails then db.rows else T.RecordFailure(db.rows, id, error, env.now)
  {
    acts, t := FailsInTx(s, db, id, env);
    assert Q.LockedIds(t) == {};
    if env.failureFails {
      acts, t := Q.Then(s, acts, t, Q.FailureWriteError(0));
    } else {
      acts, t := Q.Then(s, acts, t, Q.RecordFailure(0, error, env.now));
    }
  }

  lemma HandlerSucceedsInTx(s: Q.State, db: Db, id: Id, handler: string, recs: seq<Record>, env: Env)
    returns (acts: seq<Q.Action>, t: Q.State)
    requires Alongside(s, db) && T.IsNext(db.rows, {}, id)
    ensures Q.Exec(s, acts, t)
    ensures t == s.(workers := [Q.Finished(id, T.Succeeded(T.Started(db.rows[id], handler, env.now), env.now), recs)])
  {
    acts, t := ClaimAndStart(s, db, id, handler, env);
    acts, t := Q.Then(s, acts, t, Q.HandlerSucceeds(0, recs));
    acts, t := Q.Then(s, acts, t, Q.RecordSuccess(0, env.now));
  }

  lemma CommitIsRun(s: Q.State, id: Id, work: Row, recs: seq<Record>, ackLost: bool)
    returns (acts: seq<Q.Action>, t: Q.State)
    requires s.workers == [Q.Finished(id, work, recs)]
    ensures Q.Exec(s, acts, t) && t.ledger == s.ledger + [Q.Entry(id, recs)] && SameSystem(s, t)
    ensures t.workers == [if ackLost then Q.Backoff else Q.Processed] && t.rows == s.rows[id := work]
  {
    if ackLost {
      acts, t := Q.Then(s, [], s, Q.CommitAckLost(0));
    } else {
      acts, t := Q.Then(s, [], s, Q.Commit(0));
      acts, t := Q.Then(s, acts, t, Q.NotifyOutbox(0));
    }
  }

  lemma SuccessIsRun(s: Q.State, db: Db, id: Id, handler: string, recs: seq<Record>, env: Env)
    returns (acts: seq<Q.Action>, t: Q.State)
    requires Alongside(s, db) && T.IsNext(db.rows, {}, id) && !env.commit.Refused?
    ensures Q.Exec(s, acts, t) && t.ledger == s.ledger + [Q.Entry(id, recs)] && SameSystem(s, t)
    ensures t.workers == [if env.commit.AckLost? then Q.Backoff else Q.Processed]
    ensures t.rows == T.RecordSuccess(T.RecordStarted(db.rows, id, handler, env.now), id, env.now)
  {
    var m, more;
    acts, m := HandlerSucceedsInTx(s, db, id, handler, recs, env);
    more, t := CommitIsRun(m, id, m.workers[0].work, recs, env.commit.AckLost?);
    Q.ExecConcat(s, acts, m, more, t);
    acts := acts + more;
  }

  /** One round of the code, whatever the environment does, is a run of the protocol that leaves the same table,
      the corresponding worker position and a ledger entry exactly when the round committed. */
  lemma RoundIsRun(s: Q.State, db: Db, next: Option<Id>, handlers: Handlers, env: Env)
    returns (acts: seq<Q.Action>, t: Q.State)
    requires Alongside(s, db) && MayClaim(db, next, env)
    ensures Q.Exec(s, acts, t) && SameSystem(s, t)
    ensures t.rows == Process(db, next, handlers, env).db.rows
    ensures t.workers == [After(Process(db, next, handlers, env))]
    ensures t.ledger == s.ledger + if next.Some? then Committed(db, next.value, handlers, env) else []
  {
    if next.None? {
      acts, t := NoClaimIsRun(s, db, handlers, env);
      return;
    }
    var id := next.value;
    var row := db.rows[id];
    if row.name !in handlers || env.startFails || !handlers[row.name].decodes(row.payload) {
      acts, t := InfraErrorIsRun(s, db, id, env);
      return;
    }
    match Try(db.domain, db.outbox, handlers[row.name], row.payload, env.stamps)
    case Aborted(error) =>
      acts, t := FailureIsRun(s, db, id, error, env);
    case Done(_, _, recs) =>
      if env.successFails || env.commit.Refused? {
        acts, t := InfraErrorIsRun(s, db, id, env);
      } else {
        acts, t := SuccessIsRun(s, db, id, handlers[row.name].name, recs, env);
      }
  }

  /** A round that goes on ends at the top of the loop again, having signalled its peers. */
  lemma RoundAndOn(s: Q.State, db: Db, id: Id, handlers: Handlers, env: Env) returns (acts: seq<Q.Action>, t: Q.State)
    requires Alongside(s, db) && MayClaim(db, Some(id), env) && !Process(db, Some(id), handlers, env).err
    ensures Q.Exec(s, acts, t) && Signals(s, t, true)
    ensures Alongside(t, Process(db, Some(id), handlers, env).db)
    ensures t.ledger == s.ledger + Committed(db, id, handlers, env)
  {
    acts, t := RoundIsRun(s, db, Some(id), handlers, env);
    acts, t := Q.Then(s, acts, t, Q.NotifyPeers(0));
  }

  lemma {:induction false} ClaimsIsRun(s: Q.State, db: Db, order: seq<Id>, handlers: Handlers, envs: nat -> Env,
                                       i: nat, mid: Db)
    returns (acts: seq<Q.Action>, t: Q.State)
    requires Alongside(s, db) && Claims(db, order, handlers, envs, i, mid)
    ensures Q.Exec(s, acts, t) && Signals(s, t, order != []) && Alongside(t, mid)
    ensures t.ledger == s.ledger + Entries(db, order, handlers, envs, i, mid)
    decreases |order|
  {
    if order == [] {
      acts, t := [], s;
    } else {
      var m, more;
      var next := Process(db, Some(order[0]), handlers, envs(i)).db;
      acts, m := RoundAndOn(s, db, order[0], handlers, envs(i));
      more, t := ClaimsIsRun(m, next, order[1..], handlers, envs, i + 1, mid);
      Q.ExecConcat(s, acts, m, more, t);
      var rest := Entries(next, order[1..], handlers, envs, i + 1, mid);
      Associative(s.ledger, Committed(db, order[0], handlers, envs(i)), rest);
      acts := acts + more;
    }
  }

  lemma Associative(a: seq<Q.Entry>, b: seq<Q.Entry>, c: seq<Q.Entry>)
    ensures a + b + c == a + (b + c)
  {
  }

  /** So is a whole drain, with the table it leaves, the ledger entries of exactly the rounds that committed, their
      events included, its peers signalled, and the position its end puts the worker in. */
  lemma DrainIsRun(s: Q.State, db: Db, order: seq<Id>, mid: Db, last: Option<Id>, end: Db, handlers: Handlers,
                   envs: nat -> Env)
    returns (acts: seq<Q.Action>, t: Q.State)
    requires Alongside(s, db)
    requires Claims(db, order, handlers, envs, 0, mid) && Ends(mid, last, handlers, envs(|order|), end)
    ensures Q.Exec(s, acts, t) && Signals(s, t, order != []) && t.rows == end.rows
    ensures t.ledger == s.ledger + Entries(db, order, handlers, envs, 0, mid) +
      if last.Some? then Committed(mid, last.value, handlers, envs(|order|)) else []
    ensures t.workers == [if envs(|order|).stop then Q.Ready else After(Process(mid, last, handlers, envs(|order|)))]
  {
    acts, t := ClaimsIsRun(s, db, order, handlers, envs, 0, mid);
    if !envs(|order|).stop {
      var m, more := t, [];
      more, t := RoundIsRun(m, mid, last, handlers, envs(|order|));
      Q.ExecConcat(s, acts, m, more, t);
      acts := acts + more;
    }
  }

  /** So what holds of all runs holds of the code's drain. For one, after it the status of every command sent once
      tells the outcome: success exactly if a round of this drain or something before it committed the command. */
  lemma DrainOutcome(wakeup: bool, past: seq<Q.Action>, s: Q.State, db: Db, order: seq<Id>, mid: Db, last: Option<Id>,
                     end: Db, handlers: Handlers, envs: nat -> Env, id: Id)
    requires Q.Exec(Q.Init(Q.Config(1, wakeup)), past, s) && Alongside(s, db)
    requires Claims(db, order, handlers, envs, 0, mid) && Ends(mid, last, handlers, envs(|order|), end)
    requires s.sends[id] == 1
    ensures id in end.rows
    ensures end.rows[id].status == Success <==>
      Q.Commits(s.ledger + Entries(db, order, handlers, envs, 0, mid) +
        (if last.Some? then Committed(mid, last.value, handlers, envs(|order|)) else []), id) == 1
  {
    var acts, t := DrainIsRun(s, db, order, mid, last, end, handlers, envs);
    Q.ExecConcat(Q.Init(Q.Config(1, wakeup)), past, s, acts, t);
    QO.StatusIsOutcome(Q.Config(1, wakeup), past + acts, t, id);
  }

  /** On any dialect but MySQL the status of a command sent once is its outcome, whatever was configured. */
  lemma SingleWorkerOutcome(configured: int, dialect: Option<Dialect>, storeDialect: Option<Dialect>, wakeup: bool,
                            acts: seq<Q.Action>, s: Q.State, id: Id)
    requires dialect != Some(MySQL) && (dialect.None? ==> storeDialect != Some(MySQL))
    requires Q.Exec(Q.Init(Q.Config(EffectiveConcurrency(configured, dialect, storeDialect), wakeup)), acts, s)
    requires s.sends[id] == 1
    ensures id in s.rows && (s.rows[id].status == Success <==> Q.Commits(s.ledger, id) == 1)
  {
    QO.StatusIsOutcome(Q.Config(1, wakeup), acts, s, id);
  }
}
