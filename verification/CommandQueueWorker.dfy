/** The command queue worker: one claimed command per transaction, drained until nothing is pending. */
module CommandQueueWorker {
  import opened Types
  import opened Database
  import opened EventBus
  import opened ExecutionStore
  import opened CommandProcessing
  import opened DrainRounds
  import T = ExecutionTable

  class SQLCommandQueueWorker {
    const store: SQLCommandExecutionStore
    const txManager: SQLTransactionManager
    const eventBus: EventBusImpl
    const handlers: Handlers
    const concurrency: nat
    const notifier: ChannelNotifier?
    const outboxNotifier: ChannelNotifier?

    constructor (store: SQLCommandExecutionStore, txManager: SQLTransactionManager, eventBus: EventBusImpl,
                 handlers: Handlers, configured: int, dialect: Option<Dialect>, storeDialect: Option<Dialect>,
                 notifier: ChannelNotifier?, outboxNotifier: ChannelNotifier?)
      ensures this.store == store && this.txManager == txManager && this.eventBus == eventBus
      ensures this.handlers == handlers && this.concurrency == EffectiveConcurrency(configured, dialect, storeDialect)
      ensures this.notifier == notifier && this.outboxNotifier == outboxNotifier
    {
      this.store := store;
      this.txManager := txManager;
      this.eventBus := eventBus;
      this.handlers := handlers;
      this.concurrency := EffectiveConcurrency(configured, dialect, storeDialect);
      this.notifier := notifier;
      this.outboxNotifier := outboxNotifier;
    }

    /** The parts are wired to one database, one outbox notifier and a separate command notifier. */
    ghost predicate Valid()
      reads this, txManager, txManager.outboxNotifier, notifier, eventBus
    {
      && store.db == txManager.db
      && eventBus.outbox != null && eventBus.outboxNotifier == txManager.outboxNotifier
      && txManager.outboxNotifier.Valid()
      && (outboxNotifier != null ==> outboxNotifier == txManager.outboxNotifier)
      && (notifier != null ==> notifier.Valid() && notifier != txManager.outboxNotifier)
    }

    /** One round: claim the next pending command, run it and record its outcome. `claimed` is the command. The
        outbox is woken by a hook exactly when the round added records to it, and the hook finds them committed. */
    method ProcessNext(env: Env) returns (processed: bool, err: bool, ghost claimed: Option<Id>)
      requires Valid()
      modifies txManager.db, txManager, txManager.outboxNotifier, eventBus
      ensures Valid()
      ensures env.beginFails || env.fetchFails ==> claimed.None?
      ensures !env.beginFails && !env.fetchFails ==>
        (claimed.None? <==> T.PendingIds(old(txManager.db.state.rows)) == {})
      ensures claimed.Some? ==> T.IsNext(old(txManager.db.state.rows), {}, claimed.value)
      ensures var out := Process(old(txManager.db.state), claimed, handlers, env);
        && txManager.db.state == out.db && processed == out.processed && err == out.err
        && txManager.outboxNotifier.buffered ==
             (if out.committed && !out.err &&
                 (outboxNotifier != null || out.db.outbox != old(txManager.db.state.outbox))
              then 1 else old(txManager.outboxNotifier.buffered))
        && txManager.ran == old(txManager.ran) +
             if !out.err && out.db.outbox != old(txManager.db.state.outbox) then [(WakeOutbox, out.db)] else []
    {
      processed, claimed := false, None;
      if env.beginFails {
        return false, true, None;
      }
      var tx, hooks := txManager.Begin();
      if env.fetchFails {
        return false, true, None;
      }
      var next := store.GetNextPending(tx);
      if next.None? {
        var ok := txManager.Commit(tx, hooks, env.commit);
        return false, !ok, None;
      }
      processed, claimed := true, next;
      var id := next.value;
      var row := tx.state.rows[id];
      if row.name !in handlers {
        err := true;
        return;
      }
      var handler := handlers[row.name];
      var started := store.RecordStarted(tx, id, handler.name, env.now, env.startFails);
      if !started || !handler.decodes(row.payload) {
        err := true;
        return;
      }
      err := Execute(tx, hooks, id, handler, row.payload, env);
    }

    /** The rest of a round whose command is claimed, started and decoded. A failing handler drops the
        transaction, and its failure is recorded on the database itself. */
    method Execute(tx: Conn, hooks: TxHooks, id: Id, h: Handler, payload: string, env: Env) returns (err: bool)
      requires Valid() && tx != txManager.db && hooks.afterCommit == []
      modifies tx, hooks, txManager.db, txManager, txManager.outboxNotifier, eventBus
      ensures Valid()
      ensures var before := old(txManager.db.state);
        match Try(old(tx.state.domain), old(tx.state.outbox), h, payload, env.stamps)
        case Aborted(error) =>
          && !err && txManager.ran == old(txManager.ran)
          && txManager.outboxNotifier.buffered == old(txManager.outboxNotifier.buffered)
          && txManager.db.state ==
               (if env.failureFails then before else before.(rows := T.RecordFailure(before.rows, id, error, env.now)))
        case Done(domain, outbox, recs) =>
          && (err <==> env.successFails || !env.commit.Applied?)
          && txManager.db.state ==
               (if env.successFails || env.commit.Refused? then before
                else Db(T.RecordSuccess(old(tx.state.rows), id, env.now), domain, outbox))
          && txManager.ran == old(txManager.ran) +
               (if !err && recs != [] then [(WakeOutbox, txManager.db.state)] else [])
          && txManager.outboxNotifier.buffered ==
               (if !err && (outboxNotifier != null || recs != []) then 1 else old(txManager.outboxNotifier.buffered))
          && (outbox == old(tx.state.outbox) <==> recs == [])
    {
      NewRecordsShow(tx.state.domain, tx.state.outbox, h, payload, env.stamps);
      var processErr := CallHandler(eventBus, h, tx, hooks, payload, env.stamps);
      if processErr.Some? {
        var recorded := store.RecordFailure(null, id, processErr.value, env.now, env.failureFails);
        return false;
      }
      err := Finish(tx, hooks, id, env);
    }

    /** The end of a successful round: record the success, commit, and wake the outbox. */
    method Finish(tx: Conn, hooks: TxHooks, id: Id, env: Env) returns (err: bool)
      requires Valid() && tx != txManager.db
      modifies tx, txManager.db, txManager, txManager.outboxNotifier
      ensures Valid()
      ensures err <==> env.successFails || !env.commit.Applied?
      ensures txManager.db.state ==
        if env.successFails || env.commit.Refused? then old(txManager.db.state)
        else old(tx.state).(rows := T.RecordSuccess(old(tx.state.rows), id, env.now))
      ensures txManager.ran == old(txManager.ran) +
        if err then [] else RunsIn(old(hooks.afterCommit), txManager.db.state)
      ensures txManager.outboxNotifier.buffered ==
        if !err && (outboxNotifier != null || WakeOutbox in old(hooks.afterCommit)) then 1
        else old(txManager.outboxNotifier.buffered)
    {
      var succeeded := store.RecordSuccess(tx, id, env.now, env.successFails);
      if !succeeded {
        return true;
      }
      var committed := txManager.Commit(tx, hooks, env.commit);
      if !committed {
        return true;
      }
      if outboxNotifier != null {
        outboxNotifier.Notify();
      }
      return false;
    }

    /** The drain loop. Round i meets `envs(i)`. The premise is that the loop is not held up for ever by failures it
        cannot record; without it the loop would not end. `order` lists the commands of the rounds that ended
        without an error. */
    method Drain(envs: nat -> Env) returns (ghost order: seq<Id>, ghost mid: Db, ghost last: Option<Id>)
      requires Valid()
      requires NeverSticks(txManager.db.state, handlers, envs)
      modifies txManager.db, txManager, txManager.outboxNotifier, eventBus, notifier
      ensures Valid()
      ensures Claims(old(txManager.db.state), order, handlers, envs, 0, mid)
      ensures Ends(mid, last, handlers, envs(|order|), txManager.db.state)
      ensures notifier != null ==>
        notifier.buffered == if concurrency > 1 && order != [] then 1 else old(notifier.buffered)
    {
      ghost var bound := RoundsBounded(txManager.db.state, handlers, envs);
      var round := 0;
      order := [];
      while true
        invariant Valid() && round == |order|
        invariant Claims(old(txManager.db.state), order, handlers, envs, 0, txManager.db.state)
        invariant notifier != null ==>
          notifier.buffered == if concurrency > 1 && order != [] then 1 else old(notifier.buffered)
        decreases bound - round
      {
        mid, last := txManager.db.state, None;
        if envs(round).stop {
          return;
        }
        var processed, err, claimed := ProcessNext(envs(round));
        if err {
          last := claimed;
          return;
        }
        if !processed {
          return;
        }
        Advance(old(txManager.db.state), order, handlers, envs, bound, mid, claimed.value, txManager.db.state);
        order := order + [claimed.value];
        if concurrency > 1 && notifier != null {
          notifier.Notify();
        }
        round := round + 1;
      }
    }
  }
}
