/** What one round of the command queue worker does to the database, as a function of what the environment does. */
module CommandProcessing {
  import opened Types
  import opened Database
  import opened EventBus
  import T = ExecutionTable
  import OutboxTable

  /** A handler's answer: new domain state and events to publish, or an error. */
  datatype Reaction = Accept(domain: Domain, events: seq<Event>) | Reject(error: string)

  datatype Handler = Handler(name: string, decodes: string -> bool, run: (Domain, string) -> Reaction)

  /** What the environment does in one round: a stop request seen at its start, errors of the single
      statements, the fate of the commit, the clock and the stamps of published events. */
  datatype Env = Env(
    stop: bool,
    beginFails: bool,
    fetchFails: bool,
    startFails: bool,
    successFails: bool,
    commit: CommitOutcome,
    failureFails: bool,
    now: nat,
    stamps: nat -> Stamp
  )

  datatype Attempt = Done(domain: Domain, outbox: Outbox, events: seq<Record>) | Aborted(error: string)

  /** Running a handler in a transaction: its writes and its events, or nothing at all. A handler passes on the
      error of a failed publication. */
  function Try(domain: Domain, outbox: Outbox, h: Handler, payload: string, stamps: nat -> Stamp): Attempt {
    match h.run(domain, payload)
    case Reject(error) => Aborted(error)
    case Accept(domain', events) =>
      var recs := RecordsOf(events, stamps);
      if CanInsert(outbox, recs) then Done(domain', OutboxTable.Insert(outbox, recs), recs) else Aborted("outbox")
  }

  /** The handler returns an error: its own, or that of publishing events whose ids clash. */
  predicate HandlerFails(domain: Domain, outbox: Outbox, h: Handler, payload: string, stamps: nat -> Stamp) {
    match h.run(domain, payload)
    case Reject(_) => true
    case Accept(_, events) => !NewStamps(outbox, |events|, stamps)
  }

  /** What an attempt comes to, in terms of the handler's own answer. */
  lemma AttemptMeans(domain: Domain, outbox: Outbox, h: Handler, payload: string, stamps: nat -> Stamp)
    ensures var attempt := Try(domain, outbox, h, payload, stamps);
      && (attempt.Aborted? <==> HandlerFails(domain, outbox, h, payload, stamps))
      && match h.run(domain, payload)
         case Reject(e) => attempt == Aborted(e)
         case Accept(domain', events) =>
           attempt.Done? ==>
             && attempt.domain == domain' && Stored(outbox, attempt.outbox, events, stamps)
             && |attempt.events| == |events|
             && forall i | 0 <= i < |events| :: Describes(attempt.events[i], events[i], stamps(i))
  {
    match h.run(domain, payload)
    case Reject(_) =>
    case Accept(_, events) =>
      SaveSucceeds(outbox, events, stamps);
      if CanInsert(outbox, RecordsOf(events, stamps)) {
        SaveStores(outbox, events, stamps);
      }
  }

  /** The handler's own answer: its error, or its domain state and one record for each of its events. */
  ghost predicate Answered(h: Handler, payload: string, stamps: nat -> Stamp, before: Db, after: Db,
                           error: Option<string>)
  {
    match h.run(before.domain, payload)
    case Reject(e) => error == Some(e)
    case Accept(domain, events) =>
      && (error.None? <==> NewStamps(before.outbox, |events|, stamps))
      && (error.None? ==>
            after.rows == before.rows && after.domain == domain && Stored(before.outbox, after.outbox, events, stamps))
  }

  /** The handler's writes and publications, in the transaction `tx`. */
  method CallHandler(bus: EventBusImpl, h: Handler, tx: Conn, hooks: TxHooks, payload: string, stamps: nat -> Stamp)
    returns (error: Option<string>)
    requires bus.outbox != null && bus.outboxNotifier != null && bus.outboxNotifier.Valid()
    modifies tx, hooks, bus, bus.outboxNotifier
    ensures bus.outboxNotifier.Valid()
    ensures bus.outboxNotifier.buffered == old(bus.outboxNotifier.buffered)
    ensures var before := old(tx.state);
      match Try(before.domain, before.outbox, h, payload, stamps)
      case Aborted(e) => error == Some(e)
      case Done(domain, outbox, recs) =>
        && error.None? && tx.state == Db(before.rows, domain, outbox)
        && hooks.afterCommit == old(hooks.afterCommit) + if recs == [] then [] else [WakeOutbox]
    ensures Answered(h, payload, stamps, old(tx.state), tx.state, error)
  {
    AttemptMeans(tx.state.domain, tx.state.outbox, h, payload, stamps);
    match h.run(tx.state.domain, payload) {
      case Reject(e) =>
        error := Some(e);
      case Accept(domain, events) =>
        tx.state := tx.state.(domain := domain);
        var ok := true;
        if events != [] {
          ok := bus.Publish(hooks, tx, events, stamps, 0);
        }
        error := if ok then None else Some("outbox");
    }
  }

  /** A successful attempt changes the outbox exactly when it published something. */
  lemma NewRecordsShow(domain: Domain, outbox: Outbox, h: Handler, payload: string, stamps: nat -> Stamp)
    ensures var attempt := Try(domain, outbox, h, payload, stamps);
      attempt.Done? ==> (attempt.outbox == outbox <==> attempt.events == [])
  {
    var attempt := Try(domain, outbox, h, payload, stamps);
    if attempt.Done? && attempt.events != [] {
      OutboxTable.InsertKeys(outbox, attempt.events);
      OutboxTable.IdsHas(attempt.events, 0);
    }
  }

  /** `committed` tells whether the command's transaction became durable. */
  datatype Outcome = Outcome(db: Db, processed: bool, err: bool, committed: bool)

  type Handlers = map<string, Handler>

  datatype Dialect = MySQL | SQLite

  /** The number of worker goroutines: the configured one, at least one, but a single one unless the dialect,
      taken from the configuration or else from the store, is MySQL. */
  function EffectiveConcurrency(configured: int, dialect: Option<Dialect>, storeDialect: Option<Dialect>): (n: nat)
    ensures n >= 1 && (configured <= 1 ==> n == 1)
    ensures dialect == Some(SQLite) || (dialect.None? && storeDialect != Some(MySQL)) ==> n == 1
    ensures dialect == Some(MySQL) || (dialect.None? && storeDialect == Some(MySQL)) ==>
      (n == configured <==> configured >= 1)
  {
    var chosen := if dialect.Some? then dialect else storeDialect;
    if chosen != Some(MySQL) || configured <= 0 then 1 else configured
  }

  function Process(db: Db, next: Option<Id>, handlers: Handlers, env: Env): Outcome
    requires next.Some? ==> next.value in db.rows
  {
    if env.beginFails || env.fetchFails then Outcome(db, false, true, false)
    else if next.None? then Outcome(db, false, !env.commit.Applied?, false)
    else
      var id := next.value;
      var row := db.rows[id];
      if row.name !in handlers || env.startFails || !handlers[row.name].decodes(row.payload)
      then Outcome(db, true, true, false)
      else
        match Try(db.domain, db.outbox, handlers[row.name], row.payload, env.stamps)
        case Aborted(error) =>
          var rows := if env.failureFails then db.rows else T.RecordFailure(db.rows, id, error, env.now);
          Outcome(db.(rows := rows), true, false, false)
        case Done(domain, outbox, _) =>
          if env.successFails || env.commit.Refused? then Outcome(db, true, true, false)
          else
            var rows := T.RecordSuccess(T.RecordStarted(db.rows, id, handlers[row.name].name, env.now), id, env.now);
            Outcome(Db(rows, domain, outbox), true, env.commit.AckLost?, true)
  }

  /** A round that reads and writes without errors. */
  predicate Clean(env: Env) {
    !env.stop && !env.beginFails && !env.fetchFails && !env.startFails && !env.successFails &&
    env.commit.Applied? && !env.failureFails
  }

  /** All or nothing: either the handler's domain state and events and the success status are all in the
      database, or domain and outbox are untouched and at most this row's status has become failed. */
  lemma AllOrNothing(db: Db, id: Id, handlers: Handlers, env: Env)
    requires id in T.PendingIds(db.rows)
    ensures var out := Process(db, Some(id), handlers, env);
      if out.committed then
        && out.db.rows[id].status == Success
        && db.rows[id].name in handlers
        && var attempt := Try(db.domain, db.outbox, handlers[db.rows[id].name], db.rows[id].payload, env.stamps);
        && attempt.Done? && out.db.domain == attempt.domain && out.db.outbox == attempt.outbox
      else
        && out.db.domain == db.domain && out.db.outbox == db.outbox
        && out.db.rows.Keys == db.rows.Keys
        && out.db.rows[id].status != Success
        && (out.db.rows[id].status == Failed ==> !out.err)
    ensures forall other | other in db.rows && other != id ::
      other in Process(db, Some(id), handlers, env).db.rows &&
      Process(db, Some(id), handlers, env).db.rows[other] == db.rows[other]
  {
  }

  /** Infrastructure errors leave the row pending; only a handler's own error or a commit settles it. */
  lemma SettledExactly(db: Db, id: Id, handlers: Handlers, env: Env)
    requires id in T.PendingIds(db.rows)
    ensures var out := Process(db, Some(id), handlers, env);
      id in T.PendingIds(out.db.rows) <==>
        !out.committed && (out.err || env.failureFails)
    ensures forall other | other != id ::
      other in T.PendingIds(Process(db, Some(id), handlers, env).db.rows) <==> other in T.PendingIds(db.rows)
  {
  }

  /** A failing handler whose failure cannot be recorded changes nothing, yet the round reports a processed
      command without an error: the drain loop goes on to the same command, without its error backoff. */
  lemma UnrecordedFailureRepeats(db: Db, id: Id, handlers: Handlers, env: Env)
    requires T.IsNext(db.rows, {}, id) && db.rows[id].name in handlers
    requires handlers[db.rows[id].name].decodes(db.rows[id].payload)
    requires Try(db.domain, db.outbox, handlers[db.rows[id].name], db.rows[id].payload, env.stamps).Aborted?
    requires !env.beginFails && !env.fetchFails && !env.startFails
    ensures Process(db, Some(id), handlers, env) == Outcome(db, true, false, false) <==> env.failureFails
    ensures env.failureFails ==> T.IsNext(Process(db, Some(id), handlers, env).db.rows, {}, id)
  {
  }
}
