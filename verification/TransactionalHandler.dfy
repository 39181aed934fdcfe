/** The transactional command handler behind a message bus: deliveries may repeat, effects may not. */
module TransactionalHandler {
  import opened Types
  import opened Database
  import opened EventBus
  import opened ExecutionStore
  import opened CommandProcessing
  import T = ExecutionTable
  import P = DeliveryProtocol
  import DeliveryOverlap

  /** What the environment does during one delivery. */
  datatype Weather = Weather(
    beginFails: bool,
    statusFails: bool,
    startFails: bool,
    successFails: bool,
    commit: CommitOutcome,
    failureFails: bool,
    now: nat,
    stamps: nat -> Stamp
  )

  /** The outcome of a delivery: `err` makes the bus deliver again, `committed` tells whether the handler's
      effects became durable. */
  datatype Delivered = Delivered(db: Db, err: bool, committed: bool)

  function StatusIn(db: Db, id: Id): Option<Status> {
    P.StatusIn(db.rows, id)
  }

  predicate Terminal(status: Option<Status>) {
    P.Terminal(status)
  }

  /** A delivery that is not overlapped by another one of the same command. */
  function Deliver(db: Db, id: Id, payload: string, h: Handler, wx: Weather): Delivered {
    if wx.beginFails || wx.statusFails then Delivered(db, true, false)
    else if Terminal(StatusIn(db, id)) then Delivered(db, !wx.commit.Applied?, false)
    else if wx.startFails then Delivered(db, true, false)
    else
      match Try(db.domain, db.outbox, h, payload, wx.stamps)
      case Aborted(error) =>
        if wx.failureFails then Delivered(db, true, false)
        else Delivered(db.(rows := T.RecordFailure(db.rows, id, error, wx.now)), false, false)
      case Done(domain, outbox, _) =>
        if wx.successFails || wx.commit.Refused? then Delivered(db, true, false)
        else
          var rows := T.RecordSuccess(T.RecordStarted(db.rows, id, h.name, wx.now), id, wx.now);
          Delivered(Db(rows, domain, outbox), wx.commit.AckLost?, true)
  }

  /** Without an execution store, or for a message that is not a Command, there is a transaction and nothing else. */
  function DeliverUntracked(db: Db, payload: string, h: Handler, wx: Weather): Delivered {
    if wx.beginFails then Delivered(db, true, false)
    else
      match Try(db.domain, db.outbox, h, payload, wx.stamps)
      case Aborted(_) => Delivered(db, true, false)
      case Done(domain, outbox, _) =>
        if wx.commit.Refused? then Delivered(db, true, false)
        else Delivered(db.(domain := domain, outbox := outbox), wx.commit.AckLost?, true)
  }

  class TransactionalCommandHandler {
    const next: Handler
    const txManager: SQLTransactionManager
    const execStore: SQLCommandExecutionStore?
    const eventBus: EventBusImpl

    constructor (next: Handler, txManager: SQLTransactionManager, execStore: SQLCommandExecutionStore?,
                 eventBus: EventBusImpl)
      ensures this.next == next && this.txManager == txManager && this.execStore == execStore &&
        this.eventBus == eventBus
    {
      this.next := next;
      this.txManager := txManager;
      this.execStore := execStore;
      this.eventBus := eventBus;
    }

    ghost predicate Valid()
      reads txManager.outboxNotifier
    {
      && (execStore != null ==> execStore.db == txManager.db)
      && eventBus.outbox != null && eventBus.outboxNotifier == txManager.outboxNotifier
      && txManager.outboxNotifier.Valid()
    }

    /** Handle one delivery; `id` is absent when the message is not a Command. The outbox is woken by a hook exactly
        when the delivery added records to it, and the hook finds them committed. */
    method Handle(id: Option<Id>, payload: string, wx: Weather) returns (err: bool)
      requires Valid()
      modifies txManager.db, txManager, txManager.outboxNotifier, eventBus
      ensures Valid()
      ensures var d :=
          if id.Some? && execStore != null then Deliver(old(txManager.db.state), id.value, payload, next, wx)
          else DeliverUntracked(old(txManager.db.state), payload, next, wx);
        && txManager.db.state == d.db && err == d.err
        && var woken := !err && txManager.db.state.outbox != old(txManager.db.state.outbox);
        && txManager.ran == old(txManager.ran) + (if woken then [(WakeOutbox, txManager.db.state)] else [])
        && txManager.outboxNotifier.buffered == if woken then 1 else old(txManager.outboxNotifier.buffered)
    {
      if wx.beginFails {
        return true;
      }
      var tx, hooks := txManager.Begin();
      if id.Some? && execStore != null {
        if wx.statusFails {
          return true;
        }
        var status := execStore.GetStatus(tx, id.value);
        if Terminal(status) {
          var skipped := txManager.Commit(tx, hooks, wx.commit);
          return !skipped;
        }
        var started := execStore.RecordStarted(tx, id.value, next.name, wx.now, wx.startFails);
        if !started {
          return true;
        }
      }
      NewRecordsShow(tx.state.domain, tx.state.outbox, next, payload, wx.stamps);
      var processErr := CallHandler(eventBus, next, tx, hooks, payload, wx.stamps);
      if processErr.Some? {
        if id.Some? && execStore != null {
          var recorded := execStore.RecordFailure(null, id.value, processErr.value, wx.now, wx.failureFails);
          return !recorded;
        }
        return true;
      }
      if id.Some? && execStore != null {
        var succeeded := execStore.RecordSuccess(tx, id.value, wx.now, wx.successFails);
        if !succeeded {
          return true;
        }
      }
      var committed := txManager.Commit(tx, hooks, wx.commit);
      return !committed;
    }
  }

  /** The life of one command: its deliveries, and whatever other commands do to the database between them. */
  datatype Step = Redeliver(wx: Weather) | Elsewhere(db: Db)

  predicate SameRow(a: Db, b: Db, id: Id) {
    (id in a.rows <==> id in b.rows) && (id in a.rows ==> a.rows[id] == b.rows[id])
  }

  /** Other commands leave the row of this one alone. */
  ghost predicate Serialised(db: Db, steps: seq<Step>, id: Id, payload: string, h: Handler)
    decreases |steps|
  {
    steps != [] ==>
      && (steps[0].Elsewhere? ==> SameRow(db, steps[0].db, id))
      && Serialised(Next(db, steps[0], id, payload, h).db, steps[1..], id, payload, h)
  }

  function Next(db: Db, step: Step, id: Id, payload: string, h: Handler): Delivered {
    match step
    case Redeliver(wx) => Deliver(db, id, payload, h, wx)
    case Elsewhere(other) => Delivered(other, false, false)
  }

  /** How often the command's effects were committed. */
  function Commits(db: Db, steps: seq<Step>, id: Id, payload: string, h: Handler): nat
    decreases |steps|
  {
    if steps == [] then 0
    else
      var d := Next(db, steps[0], id, payload, h);
      (if d.committed then 1 else 0) + Commits(d.db, steps[1..], id, payload, h)
  }

  /** A delivery never leaves a terminal status, and a commit reaches one. */
  lemma DeliveryStatus(db: Db, id: Id, payload: string, h: Handler, wx: Weather)
    ensures var d := Deliver(db, id, payload, h, wx);
      && (Terminal(StatusIn(db, id)) ==> d.db == db && !d.committed)
      && (d.committed ==> StatusIn(d.db, id) == Some(Success))
  {
  }

  lemma {:induction false} NeverAfterTerminal(db: Db, steps: seq<Step>, id: Id, payload: string, h: Handler)
    requires Terminal(StatusIn(db, id)) && Serialised(db, steps, id, payload, h)
    ensures Commits(db, steps, id, payload, h) == 0
    decreases |steps|
  {
    if steps != [] {
      var d := Next(db, steps[0], id, payload, h);
      if steps[0].Redeliver? {
        DeliveryStatus(db, id, payload, h, steps[0].wx);
      }
      NeverAfterTerminal(d.db, steps[1..], id, payload, h);
    }
  }

  /** Over any sequence of deliveries, with errors of the store and of commits in between, lost commit
      acknowledgements included, the effects are committed at most once. */
  lemma {:induction false} EffectsAtMostOnce(db: Db, steps: seq<Step>, id: Id, payload: string, h: Handler)
    requires Serialised(db, steps, id, payload, h)
    ensures Commits(db, steps, id, payload, h) <= 1
    decreases |steps|
  {
    if steps != [] {
      var d := Next(db, steps[0], id, payload, h);
      if d.committed {
        DeliveryStatus(db, id, payload, h, steps[0].wx);
        NeverAfterTerminal(d.db, steps[1..], id, payload, h);
      } else {
        EffectsAtMostOnce(d.db, steps[1..], id, payload, h);
      }
    }
  }

  /** Nothing goes wrong but, possibly, the handler. */
  predicate Smooth(wx: Weather) {
    && !wx.beginFails && !wx.statusFails && !wx.startFails && !wx.successFails && wx.commit.Applied?
    && !wx.failureFails
  }

  /** Nil, after which the bus does not deliver again, is answered only for a command whose status is terminal by
      then, or whose handler failed without a committed row to record that on, and only after an acknowledged commit
      or failure record. An error leaves everything as it was, unless the commit took effect unacknowledged. And
      without store errors the answer is nil. */
  lemma AnswerMeans(db: Db, id: Id, payload: string, h: Handler, wx: Weather)
    ensures var d := Deliver(db, id, payload, h, wx);
      && (!d.err ==>
            || Terminal(StatusIn(d.db, id))
            || (HandlerFails(db.domain, db.outbox, h, payload, wx.stamps) && id !in db.rows && d.db == db))
      && (!d.err ==> !wx.beginFails && !wx.statusFails && (wx.startFails ==> Terminal(StatusIn(db, id))))
      && (!d.err && !wx.commit.Applied? ==>
            && HandlerFails(db.domain, db.outbox, h, payload, wx.stamps) && !wx.failureFails
            && !Terminal(StatusIn(db, id)))
      && (d.err ==> d.db == db || (d.committed && wx.commit.AckLost?))
      && (Smooth(wx) ==> !d.err)
  {
    AttemptMeans(db.domain, db.outbox, h, payload, wx.stamps);
  }

  /** A delivery commits the handler's own domain state and events, with the success, or it leaves domain and outbox
      alone. Answered with nil it has committed unless the status was terminal before or the handler failed. */
  lemma DeliveryEffects(db: Db, id: Id, payload: string, h: Handler, wx: Weather)
    ensures var d := Deliver(db, id, payload, h, wx);
      && T.OthersKept(db.rows, d.db.rows, id)
      && (!d.committed ==> d.db.domain == db.domain && d.db.outbox == db.outbox)
      && (d.committed ==>
            match h.run(db.domain, payload)
            case Reject(_) => false
            case Accept(domain, events) =>
              && d.db.domain == domain && Stored(db.outbox, d.db.outbox, events, wx.stamps)
              && id in d.db.rows && d.db.rows[id].status == Success
              && d.db.rows[id].handler == h.name && d.db.rows[id].finishedAt == Some(wx.now))
      && (!d.err && !Terminal(StatusIn(db, id)) ==>
            (d.committed <==> !HandlerFails(db.domain, db.outbox, h, payload, wx.stamps)))
  {
    AttemptMeans(db.domain, db.outbox, h, payload, wx.stamps);
  }

  /** Without a status to go by, nil is answered only after an acknowledged commit of the handler's effects, and an
      error, a failing handler's included, leaves everything as it was unless the commit took effect. */
  lemma UntrackedAnswer(db: Db, payload: string, h: Handler, wx: Weather)
    ensures var d := DeliverUntracked(db, payload, h, wx);
      && d.db.rows == db.rows
      && (!d.err ==> d.committed && wx.commit.Applied?)
      && (d.err ==> d.db == db || (d.committed && wx.commit.AckLost?))
      && (d.committed ==>
            match h.run(db.domain, payload)
            case Reject(_) => false
            case Accept(domain, events) =>
              d.db.domain == domain && Stored(db.outbox, d.db.outbox, events, wx.stamps))
      && (Smooth(wx) ==> (d.err <==> HandlerFails(db.domain, db.outbox, h, payload, wx.stamps)))
  {
    AttemptMeans(db.domain, db.outbox, h, payload, wx.stamps);
  }

  /** Exactly once: the first delivery that meets no store error, of a command not yet terminal whose handler does not
      fail then, commits the effects, and no later one does. */
  lemma EffectsExactlyOnce(db: Db, first: Weather, rest: seq<Step>, id: Id, payload: string, h: Handler)
    requires Serialised(db, [Redeliver(first)] + rest, id, payload, h) && !Terminal(StatusIn(db, id)) && Smooth(first)
    requires !HandlerFails(db.domain, db.outbox, h, payload, first.stamps)
    ensures Commits(db, [Redeliver(first)] + rest, id, payload, h) == 1
  {
    var steps := [Redeliver(first)] + rest;
    assert steps[1..] == rest;
    var d := Deliver(db, id, payload, h, first);
    AnswerMeans(db, id, payload, h, first);
    DeliveryEffects(db, id, payload, h, first);
    DeliveryStatus(db, id, payload, h, first);
    NeverAfterTerminal(d.db, rest, id, payload, h);
  }

  /** A handler failure is answered with nil if and only if its record could be written. That record is there
      exactly when a committed row of the command existed before; otherwise nothing changes. */
  lemma FailureOnRecord(db: Db, id: Id, payload: string, h: Handler, wx: Weather)
    requires !Terminal(StatusIn(db, id)) && !wx.beginFails && !wx.statusFails && !wx.startFails
    requires HandlerFails(db.domain, db.outbox, h, payload, wx.stamps)
    ensures var d := Deliver(db, id, payload, h, wx);
      && (!d.err <==> !wx.failureFails)
      && (!d.err ==> (StatusIn(d.db, id) == Some(Failed) <==> id in db.rows))
      && (d.err || id !in db.rows ==> d.db == db)
      && (h.run(db.domain, payload).Reject? && !d.err && id in db.rows ==>
            d.db.rows[id].error == Some(h.run(db.domain, payload).error))
  {
    AttemptMeans(db.domain, db.outbox, h, payload, wx.stamps);
  }

  /** A delivery that nothing overlaps is a run of the protocol of overlapping ones, which leaves the same table
      and commits exactly if the delivery does. */
  lemma DeliveryIsRun(s: P.State, d: nat, db: Db, payload: string, h: Handler, wx: Weather)
    returns (acts: seq<P.Action>, t: P.State)
    requires d < |s.positions| && s.positions[d].Idle? && !P.Locked(s) && s.rows == db.rows
    ensures P.Exec(s, acts, t) && t.positions == s.positions
    ensures t.rows == Deliver(db, s.id, payload, h, wx).db.rows
    ensures (exists a :: a in acts && DeliveryOverlap.IsCommit(a)) <==> Deliver(db, s.id, payload, h, wx).committed
  {
    acts, t := [], s;
    if wx.beginFails || wx.statusFails {
      return;
    }
    acts, t := P.Then(s, acts, t, P.Check(d));
    if Terminal(StatusIn(db, s.id)) {
      return;
    }
    if wx.startFails {
      acts, t := P.Then(s, acts, t, P.StoreError(d));
      return;
    }
    match Try(db.domain, db.outbox, h, payload, wx.stamps)
    case Aborted(error) =>
      acts, t := FailureIsRun(s, acts, t, d, h.name, error, wx);
    case Done(_, _, _) =>
      acts, t := SuccessIsRun(s, acts, t, d, h.name, wx);
  }

  lemma FailureIsRun(s: P.State, acts: seq<P.Action>, t: P.State, d: nat, handler: string, error: string, wx: Weather)
    returns (acts': seq<P.Action>, t': P.State)
    requires P.Exec(s, acts, t) && d < |t.positions| && t.positions[d].Seen? && !P.Locked(t)
    requires forall a | a in acts :: !DeliveryOverlap.IsCommit(a)
    ensures P.Exec(s, acts', t') && t'.positions == t.positions[d := P.Idle]
    ensures t'.rows == if wx.failureFails then t.rows else T.RecordFailure(t.rows, t.id, error, wx.now)
    ensures forall a | a in acts' :: !DeliveryOverlap.IsCommit(a)
  {
    acts', t' := P.Then(s, acts, t, P.Start(d, handler, wx.now));
    acts', t' := P.Then(s, acts', t', P.HandlerFails(d));
    if wx.failureFails {
      acts', t' := P.Then(s, acts', t', P.FailureWriteError(d));
    } else {
      assert !P.Locked(t');
      acts', t' := P.Then(s, acts', t', P.RecordFailure(d, error, wx.now));
    }
  }

  lemma SuccessIsRun(s: P.State, acts: seq<P.Action>, t: P.State, d: nat, handler: string, wx: Weather)
    returns (acts': seq<P.Action>, t': P.State)
    requires P.Exec(s, acts, t) && d < |t.positions| && t.positions[d].Seen? && !P.Locked(t)
    requires forall a | a in acts :: !DeliveryOverlap.IsCommit(a)
    ensures P.Exec(s, acts', t') && t'.positions == t.positions[d := P.Idle]
    ensures var dropped := wx.successFails || wx.commit.Refused?;
      && t'.rows == (if dropped then t.rows
                     else T.RecordSuccess(T.RecordStarted(t.rows, t.id, handler, wx.now), t.id, wx.now))
      && ((exists a :: a in acts' && DeliveryOverlap.IsCommit(a)) <==> !dropped)
  {
    acts', t' := P.Then(s, acts, t, P.Start(d, handler, wx.now));
    acts', t' := P.Then(s, acts', t', P.HandlerSucceeds(d));
    if wx.successFails || wx.commit.Refused? {
      acts', t' := P.Then(s, acts', t', P.StoreError(d));
      return;
    }
    acts', t' := P.Then(s, acts', t', P.RecordSuccess(d, wx.now));
    var last := if wx.commit.AckLost? then P.CommitAckLost(d) else P.Commit(d);
    acts', t' := P.Then(s, acts', t', last);
    assert last in acts' && DeliveryOverlap.IsCommit(last);
  }
}
