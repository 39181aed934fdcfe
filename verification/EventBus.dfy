/** Publishing events: into the outbox inside a transaction, or straight to the bus. */
module EventBus {
  import opened Types
  import opened Database
  import OutboxTable

  datatype Event = Event(name: string, payload: string)

  /** The generated id and the time of each event of one Publish call. */
  datatype Stamp = Stamp(id: Id, at: nat)

  function RecordOf(e: Event, stamp: Stamp): Record {
    Record(stamp.id, e.name, e.payload, map["name" := e.name], stamp.at)
  }

  function RecordsOf(events: seq<Event>, stamps: nat -> Stamp): (r: seq<Record>)
    ensures |r| == |events|
  {
    seq(|events|, i requires 0 <= i < |events| => RecordOf(events[i], stamps(i)))
  }

  /** INSERT fails when the primary key exists, so Save succeeds exactly on new and distinct ids. */
  predicate CanInsert(table: Outbox, recs: seq<Record>) {
    OutboxTable.Distinct(recs) && OutboxTable.Ids(recs) !! table.Keys
  }

  /** The ids generated for `n` events are new to the table and distinct. */
  predicate NewStamps(table: Outbox, n: nat, stamps: nat -> Stamp) {
    && (forall i | 0 <= i < n :: stamps(i).id !in table)
    && (forall i, j | 0 <= i < j < n :: stamps(i).id != stamps(j).id)
  }

  /** `after` is `before` with one record for each event: under the event's own name as topic, with its payload. */
  ghost predicate Stored(before: Outbox, after: Outbox, events: seq<Event>, stamps: nat -> Stamp) {
    && (forall i | 0 <= i < |events| :: stamps(i).id in after && Describes(after[stamps(i).id], events[i], stamps(i)))
    && (forall id | id in before :: id in after && after[id] == before[id])
    && (forall id | id in after && id !in before :: exists i :: 0 <= i < |events| && stamps(i).id == id)
  }

  predicate Describes(r: Record, e: Event, stamp: Stamp) {
    && r.id == stamp.id && r.topic == e.name && r.payload == e.payload
    && r.metadata == map["name" := e.name] && r.occurredAt == stamp.at
  }

  lemma SaveSucceeds(table: Outbox, events: seq<Event>, stamps: nat -> Stamp)
    ensures CanInsert(table, RecordsOf(events, stamps)) <==> NewStamps(table, |events|, stamps)
  {
    var recs := RecordsOf(events, stamps);
    forall i | 0 <= i < |recs| ensures recs[i].id in OutboxTable.Ids(recs) && recs[i].id == stamps(i).id {
      OutboxTable.IdsHas(recs, i);
    }
    if NewStamps(table, |events|, stamps) {
      forall id | id in OutboxTable.Ids(recs) ensures id !in table {
        var k := OutboxTable.IdsIndex(recs, id);
      }
    }
    if CanInsert(table, recs) {
      forall i, j | 0 <= i < j < |events| ensures stamps(i).id != stamps(j).id {
        assert recs[i].id != recs[j].id;
      }
    }
  }

  /** What the INSERTs of one Publish call leave in the table. */
  lemma SaveStores(table: Outbox, events: seq<Event>, stamps: nat -> Stamp)
    requires CanInsert(table, RecordsOf(events, stamps))
    ensures Stored(table, OutboxTable.Insert(table, RecordsOf(events, stamps)), events, stamps)
  {
    var recs := RecordsOf(events, stamps);
    var after := OutboxTable.Insert(table, recs);
    OutboxTable.InsertKeys(table, recs);
    forall i | 0 <= i < |events| ensures stamps(i).id in after && Describes(after[stamps(i).id], events[i], stamps(i)) {
      OutboxTable.InsertHas(table, recs, i);
    }
    forall id | id in table ensures id in after && after[id] == table[id] {
      OutboxTable.InsertKeeps(table, recs, id);
    }
    forall id | id in after && id !in table ensures exists i :: 0 <= i < |events| && stamps(i).id == id {
      var k := OutboxTable.IdsIndex(recs, id);
      assert stamps(k).id == id;
    }
  }

  class SQLOutbox {
    constructor () {}

    /** Inserts the records one by one and stops at the first error; the transaction is then to be rolled back. */
    method Save(tx: Conn, recs: seq<Record>) returns (ok: bool)
      modifies tx
      ensures ok <==> CanInsert(old(tx.state.outbox), recs)
      ensures ok ==> tx.state == old(tx.state).(outbox := OutboxTable.Insert(old(tx.state.outbox), recs))
    {
      for i := 0 to |recs|
        invariant CanInsert(old(tx.state.outbox), recs[..i])
        invariant tx.state == old(tx.state).(outbox := OutboxTable.Insert(old(tx.state.outbox), recs[..i]))
      {
        OutboxTable.InsertKeys(old(tx.state.outbox), recs[..i]);
        assert recs[..i + 1][..i] == recs[..i];
        var r := recs[i];
        if r.id in tx.state.outbox {
          RejectedInsert(old(tx.state.outbox), recs, i);
          return false;
        }
        AcceptedInsert(old(tx.state.outbox), recs, i);
        tx.state := tx.state.(outbox := tx.state.outbox[r.id := r]);
      }
      assert recs[..|recs|] == recs;
      return true;
    }
  }

  lemma RejectedInsert(table: Outbox, recs: seq<Record>, i: nat)
    requires i < |recs| && recs[i].id in table.Keys + OutboxTable.Ids(recs[..i])
    ensures !CanInsert(table, recs)
  {
    OutboxTable.IdsHas(recs, i);
    if recs[i].id in OutboxTable.Ids(recs[..i]) {
      var j := OutboxTable.IdsIndex(recs[..i], recs[i].id);
    }
  }

  lemma AcceptedInsert(table: Outbox, recs: seq<Record>, i: nat)
    requires i < |recs| && CanInsert(table, recs[..i])
    requires recs[i].id !in table.Keys + OutboxTable.Ids(recs[..i])
    ensures CanInsert(table, recs[..i + 1])
  {
    var more := recs[..i + 1];
    forall j | 0 <= j < i ensures more[j].id != more[i].id {
      OutboxTable.IdsHas(recs[..i], j);
    }
    assert more == recs[..i] + [recs[i]];
    OutboxTable.IdsAppend(recs[..i], recs[i]);
  }

  class EventBusImpl {
    const outbox: SQLOutbox?
    const outboxNotifier: ChannelNotifier?
    /** Events handed to the message bus directly. */
    var sent: seq<Event>

    constructor (outbox: SQLOutbox?, outboxNotifier: ChannelNotifier?)
      ensures this.outbox == outbox && this.outboxNotifier == outboxNotifier && sent == []
    {
      this.outbox := outbox;
      this.outboxNotifier := outboxNotifier;
      sent := [];
    }

    ghost predicate NotifierOk()
      reads outboxNotifier
    {
      outboxNotifier != null ==> outboxNotifier.Valid()
    }

    /** In a transaction the events become outbox rows of that transaction, and the outbox is woken after its
        commit when it runs inside WithinTransaction, at once when it does not. Outside a transaction the events
        go to the bus one by one; `busLimit` says how many of them it accepts. */
    method Publish(hooks: TxHooks?, tx: Conn?, events: seq<Event>, stamps: nat -> Stamp, busLimit: nat)
      returns (ok: bool)
      requires NotifierOk()
      modifies this, tx, hooks, outboxNotifier
      ensures NotifierOk()
      ensures tx != null && outbox != null ==>
        && sent == old(sent)
        && (ok <==> NewStamps(old(tx.state.outbox), |events|, stamps))
        && (ok ==> Stored(old(tx.state.outbox), tx.state.outbox, events, stamps))
        && (ok ==>
              tx.state == old(tx.state).(outbox := OutboxTable.Insert(old(tx.state.outbox), RecordsOf(events, stamps))))
        && (hooks != null ==>
              hooks.afterCommit == old(hooks.afterCommit) + if ok && outboxNotifier != null then [WakeOutbox] else [])
        && (outboxNotifier != null ==>
              outboxNotifier.buffered == if ok && hooks == null then 1 else old(outboxNotifier.buffered))
      ensures tx == null || outbox == null ==>
        && (ok <==> |events| <= busLimit)
        && sent == old(sent) + events[..if ok then |events| else busLimit]
        && (tx != null ==> tx.state == old(tx.state))
        && (hooks != null ==> hooks.afterCommit == old(hooks.afterCommit))
        && (outboxNotifier != null ==> outboxNotifier.buffered == old(outboxNotifier.buffered))
    {
      if tx != null && outbox != null {
        var records: seq<Record> := [];
        for i := 0 to |events|
          invariant records == RecordsOf(events, stamps)[..i]
        {
          records := records + [RecordOf(events[i], stamps(i))];
        }
        assert records == RecordsOf(events, stamps);
        SaveSucceeds(tx.state.outbox, events, stamps);
        ok := outbox.Save(tx, records);
        if !ok {
          return;
        }
        SaveStores(old(tx.state.outbox), events, stamps);
        if outboxNotifier != null {
          var registered := RegisterAfterCommit(hooks, Some(WakeOutbox));
          if !registered {
            outboxNotifier.Notify();
          }
        }
        return;
      }
      for i := 0 to |events|
        invariant i <= busLimit && sent == old(sent) + events[..i]
        invariant tx != null ==> tx.state == old(tx.state)
        invariant hooks != null ==> hooks.afterCommit == old(hooks.afterCommit)
        invariant outboxNotifier != null ==>
          outboxNotifier.Valid() && outboxNotifier.buffered == old(outboxNotifier.buffered)
      {
        if i == busLimit {
          return false;
        }
        sent := sent + [events[i]];
        assert events[..i + 1] == events[..i] + [events[i]];
      }
      assert events[..|events|] == events;
      return true;
    }
  }
}
