/** From the caller's arguments to their effects: the command that is sent is the command that runs, and the events
    its handler publishes are the messages that go out. */
module EndToEnd {
  import opened Types
  import opened Database
  import opened EventBus
  import opened CommandProcessing
  import opened OutboxTable
  import T = ExecutionTable
  import W = OutboxWorker

  /** The row says to run this handler on this payload. */
  ghost predicate Names(db: Db, id: Id, handlers: Handlers, h: Handler, payload: string) {
    && id in db.rows && db.rows[id].payload == payload
    && db.rows[id].name in handlers && handlers[db.rows[id].name] == h
  }

  /** The statements before the handler succeed. */
  predicate Starts(h: Handler, payload: string, env: Env) {
    !env.beginFails && !env.fetchFails && !env.startFails && h.decodes(payload)
  }

  /** A round whose handler accepts commits exactly the handler's domain state, one record for each of its events,
      and the row as successful; if anything fails before the commit, nothing. */
  lemma AcceptedCommand(db: Db, id: Id, handlers: Handlers, h: Handler, payload: string, env: Env, domain: Domain,
                        events: seq<Event>)
    requires Names(db, id, handlers, h, payload) && Starts(h, payload, env)
    requires h.run(db.domain, payload) == Accept(domain, events) && NewStamps(db.outbox, |events|, env.stamps)
    ensures var out := Process(db, Some(id), handlers, env);
      && out.processed && (out.err <==> env.successFails || !env.commit.Applied?)
      && (out.committed <==> !env.successFails && !env.commit.Refused?)
      && (!out.committed ==> out.db == db)
      && (out.committed ==>
            && out.db.domain == domain
            && Stored(db.outbox, out.db.outbox, events, env.stamps)
            && T.OthersKept(db.rows, out.db.rows, id) && id in out.db.rows
            && out.db.rows[id] ==
                 Row(db.rows[id].name, payload, h.name, Success, None, env.now, Some(env.now)))
  {
    AttemptMeans(db.domain, db.outbox, h, payload, env.stamps);
  }

  /** A round whose handler fails leaves domain and outbox alone and records the failure, unless that fails too. */
  lemma RejectedCommand(db: Db, id: Id, handlers: Handlers, h: Handler, payload: string, env: Env)
    requires Names(db, id, handlers, h, payload) && Starts(h, payload, env)
    requires HandlerFails(db.domain, db.outbox, h, payload, env.stamps)
    ensures var out := Process(db, Some(id), handlers, env);
      && out.processed && !out.err && !out.committed
      && out.db.domain == db.domain && out.db.outbox == db.outbox
      && T.OthersKept(db.rows, out.db.rows, id) && id in out.db.rows
      && (env.failureFails ==> out.db.rows[id] == db.rows[id])
      && (!env.failureFails ==>
            && out.db.rows[id].error.Some?
            && out.db.rows[id] ==
                 db.rows[id].(status := Failed, error := out.db.rows[id].error, finishedAt := Some(env.now)))
      && (h.run(db.domain, payload).Reject? && !env.failureFails ==>
            out.db.rows[id].error == Some(h.run(db.domain, payload).error))
  {
    AttemptMeans(db.domain, db.outbox, h, payload, env.stamps);
  }

  /** A round that does not get as far as its handler is reported as an error and changes nothing. */
  lemma UnstartedCommand(db: Db, id: Id, handlers: Handlers, env: Env)
    requires id in db.rows
    requires db.rows[id].name in handlers ==> !Starts(handlers[db.rows[id].name], db.rows[id].payload, env)
    ensures var out := Process(db, Some(id), handlers, env); out.err && !out.committed && out.db == db
  {
  }

  /** The command sent is the command run. `before` and `after` are the tables a Send found and left, and `db` is the
      database of a later round that claims the command, its row being as it was sent. */
  lemma SentCommandRuns(before: Table, after: Table, id: Id, name: string, payload: string, now: nat, db: Db,
                        handlers: Handlers, env: Env, domain: Domain, events: seq<Event>)
    requires T.Recorded(before, after, id, name, payload, now)
    requires id in db.rows && db.rows[id] == after[id]
    requires name in handlers && Starts(handlers[name], payload, env) && !env.successFails && env.commit.Applied?
    requires handlers[name].run(db.domain, payload) == Accept(domain, events)
    requires NewStamps(db.outbox, |events|, env.stamps)
    ensures var out := Process(db, Some(id), handlers, env);
      && !out.err && out.db.domain == domain && Stored(db.outbox, out.db.outbox, events, env.stamps)
      && id in out.db.rows && out.db.rows[id].status == Success
      && out.db.rows[id].name == name && out.db.rows[id].payload == payload
  {
    AcceptedCommand(db, id, handlers, handlers[name], payload, env, domain, events);
  }

  /** Message `k` is event `e`, under its own name as topic and with its own payload. */
  predicate IsMessage(m: W.Message, e: Event, stamp: Stamp) {
    m.topic == e.name && m.payload == e.payload && m.id == stamp.id && m.metadata == map["name" := e.name]
  }

  lemma {:induction false} SentIndex(sent: seq<Record>, id: Id) returns (k: nat)
    requires id in Ids(sent)
    ensures k < |sent| && sent[k].id == id
  {
    k := IdsIndex(sent, id);
  }

  /** The events published are the messages that go out: a drain of the outbox, whatever goes wrong in it, has
      removed the record of an event only after it sent the event as a message. */
  lemma EventGoesOut(before: Outbox, table: Outbox, events: seq<Event>, stamps: nat -> Stamp, i: nat,
                     trace: seq<W.Round>, limit: nat, log: seq<W.Message>, after: seq<W.Message>)
    returns (k: nat)
    requires Stored(before, table, events, stamps) && i < |events|
    requires W.Plausible(table, trace, limit) && W.SentOn(log, after, W.Sent(trace))
    requires stamps(i).id !in W.After(table, trace)
    ensures |log| <= k < |after| && IsMessage(after[k], events[i], stamps(i))
  {
    W.DrainLosesNothing(table, trace, limit);
    var sent := W.Sent(trace);
    var n := SentIndex(sent, stamps(i).id);
    assert sent[n] in sent;
    assert Describes(table[stamps(i).id], events[i], stamps(i));
    assert W.Carries(after[|log| + n], sent[n]);
    k := |log| + n;
  }

  /** So after a clean round and a clean drain every event of the command has gone out under its own name. */
  lemma CommandReachesSubscribers(db: Db, id: Id, handlers: Handlers, h: Handler, payload: string, env: Env,
                                  domain: Domain, events: seq<Event>, i: nat, trace: seq<W.Round>,
                                  faults: nat -> W.Fault, stops: nat -> bool, limit: nat, log: seq<W.Message>,
                                  after: seq<W.Message>)
    returns (k: nat)
    requires Names(db, id, handlers, h, payload) && Starts(h, payload, env)
    requires !env.successFails && !env.commit.Refused?
    requires h.run(db.domain, payload) == Accept(domain, events) && NewStamps(db.outbox, |events|, env.stamps)
    requires i < |events|
    requires var table := Process(db, Some(id), handlers, env).db.outbox;
      W.Plausible(table, trace, limit) && W.Complete(trace, faults, stops, limit)
    requires (forall n :: faults(n) == W.NoFault && !stops(n)) && W.SentOn(log, after, W.Sent(trace))
    ensures |log| <= k < |after| && IsMessage(after[k], events[i], env.stamps(i))
  {
    var table := Process(db, Some(id), handlers, env).db.outbox;
    AcceptedCommand(db, id, handlers, h, payload, env, domain, events);
    W.CleanDrain(table, trace, faults, stops, limit);
    k := EventGoesOut(db.outbox, table, events, env.stamps, i, trace, limit, log, after);
  }
}
