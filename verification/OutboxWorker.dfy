/** The outbox worker: publish a batch record by record, deleting each one afterwards, until a batch is not full. */
module OutboxWorker {
  import opened Counting
  import opened Types
  import opened Database
  import opened OutboxTable

  const DEFAULT_BATCH_SIZE := 50

  datatype Message = Message(topic: string, id: Id, payload: string, metadata: map<string, string>)

  function MessageOf(r: Record): Message {
    Message(r.topic, r.id, r.payload, r.metadata)
  }

  /** The message goes out under the record's topic and id, with its payload and metadata. */
  predicate Carries(m: Message, r: Record) {
    m.topic == r.topic && m.id == r.id && m.payload == r.payload && m.metadata == r.metadata
  }

  function Messages(recs: seq<Record>): (r: seq<Message>)
    ensures |r| == |recs|
  {
    seq(|recs|, i requires 0 <= i < |recs| => MessageOf(recs[i]))
  }

  /** After the messages sent before come those of `recs`, one for each and in order. */
  predicate SentOn(before: seq<Message>, after: seq<Message>, recs: seq<Record>) {
    && |after| == |before| + |recs| && after[..|before|] == before
    && forall i | 0 <= i < |recs| :: Carries(after[|before| + i], recs[i])
  }

  lemma MessagesCarry(before: seq<Message>, recs: seq<Record>)
    ensures SentOn(before, before + Messages(recs), recs)
  {
  }

  /** What goes wrong in one batch: the query, or the publication or deletion of its record number `at`, which may
      also have taken effect with only the acknowledgement lost. */
  datatype Fault =
    | NoFault
    | SelectFails
    | PublishFails(at: nat)
    | PublishAckLost(at: nat)
    | DeleteFails(at: nat)
    | DeleteAckLost(at: nat)

  /** The fault hits a batch of `n` records. */
  predicate Strikes(fault: Fault, n: nat) {
    fault.SelectFails? || (!fault.NoFault? && fault.at < n)
  }

  function PublishedCount(fault: Fault, n: nat): (p: nat)
    ensures p <= n && (Strikes(fault, n) || p == n)
  {
    if !Strikes(fault, n) then n
    else
      match fault
      case SelectFails => 0
      case PublishFails(at) => at
      case PublishAckLost(at) => at + 1
      case DeleteFails(at) => at + 1
      case DeleteAckLost(at) => at + 1
  }

  function DeletedCount(fault: Fault, n: nat): (d: nat)
    ensures d <= PublishedCount(fault, n) && (Strikes(fault, n) || d == n)
  {
    if !Strikes(fault, n) then n
    else
      match fault
      case SelectFails => 0
      case PublishFails(at) => at
      case PublishAckLost(at) => at
      case DeleteFails(at) => at
      case DeleteAckLost(at) => at + 1
  }

  predicate Chronological(recs: seq<Record>) {
    forall i, j | 0 <= i < j < |recs| :: recs[i].occurredAt <= recs[j].occurredAt
  }

  class SQLOutboxWorker {
    const db: Conn
    const batchSize: nat
    /** What was handed to the publisher, in order. */
    var published: seq<Message>

    ghost predicate Valid()
      reads this, db
    {
      && batchSize > 0
      && forall id | id in db.state.outbox :: db.state.outbox[id].id == id
    }

    /** A batch size that is not positive is replaced by the default. */
    constructor (db: Conn, batchSize: int)
      ensures this.db == db && published == []
      ensures this.batchSize == (if batchSize > 0 then batchSize else 50) && this.batchSize > 0
    {
      this.db := db;
      this.batchSize := if batchSize <= 0 then DEFAULT_BATCH_SIZE else batchSize;
      published := [];
    }

    /** SELECT ... ORDER BY occurred_at LIMIT batchSize, as the database answers it. */
    method Select() returns (records: seq<Record>)
      requires Valid()
      ensures IsBatch(db.state.outbox, batchSize, records)
    {
      var table := db.state.outbox;
      var todo := table.Keys;
      records := [];
      while |records| < batchSize && todo != {}
        invariant Selecting(table, todo, records, batchSize)
        decreases todo
      {
        var id := Earliest(table, todo);
        SelectingMore(table, todo, records, batchSize, id);
        records, todo := records + [table[id]], todo - {id};
      }
      SelectingDone(table, todo, records, batchSize);
    }

    /** One batch: up to the first error every record is published and then deleted; the one a deletion fails on
        has been published and stays in the table. An error whose acknowledgement alone was lost ends the batch too. */
    method ProcessBatch(fault: Fault) returns (count: nat, err: bool, ghost batch: seq<Record>)
      requires Valid()
      modifies this, db
      ensures Valid()
      ensures fault.SelectFails? ==> err && batch == []
      ensures !fault.SelectFails? ==> IsBatch(old(db.state.outbox), batchSize, batch)
      ensures err <==> Strikes(fault, |batch|)
      ensures count == if err then 0 else |batch|
      ensures published == old(published) + Messages(batch[..PublishedCount(fault, |batch|)])
      ensures SentOn(old(published), published, batch[..PublishedCount(fault, |batch|)])
      ensures db.state == old(db.state).(outbox := old(db.state.outbox) - Ids(batch[..DeletedCount(fault, |batch|)]))
    {
      batch := [];
      if fault.SelectFails? {
        assert Messages(batch) == [];
        return 0, true, batch;
      }
      var records := Select();
      batch := records;
      err := PublishAll(records, fault);
      count := if err then 0 else |records|;
    }

    /** The publish-then-delete loop over the records of a batch. */
    method PublishAll(records: seq<Record>, fault: Fault) returns (err: bool)
      requires !fault.SelectFails?
      modifies this, db
      ensures err <==> Strikes(fault, |records|)
      ensures published == old(published) + Messages(records[..PublishedCount(fault, |records|)])
      ensures SentOn(old(published), published, records[..PublishedCount(fault, |records|)])
      ensures db.state ==
        old(db.state).(outbox := old(db.state.outbox) - Ids(records[..DeletedCount(fault, |records|)]))
    {
      ghost var before, sent := published, records[..PublishedCount(fault, |records|)];
      for i := 0 to |records|
        invariant !Strikes(fault, i)
        invariant published == old(published) + Messages(records[..i])
        invariant db.state == old(db.state).(outbox := old(db.state.outbox) - Ids(records[..i]))
      {
        OneMore(old(db.state.outbox), records, i);
        if fault == PublishFails(i) {
          MessagesCarry(before, sent);
          return true;
        }
        published := published + [MessageOf(records[i])];
        if fault == PublishAckLost(i) || fault == DeleteFails(i) {
          MessagesCarry(before, sent);
          return true;
        }
        db.state := db.state.(outbox := db.state.outbox - {records[i].id});
        if fault == DeleteAckLost(i) {
          MessagesCarry(before, sent);
          return true;
        }
      }
      assert records[..|records|] == records;
      MessagesCarry(before, sent);
      return false;
    }

    /** The drain loop; batch i meets `faults(i)` unless `stops(i)`. `trace` lists the batches. */
    method Drain(faults: nat -> Fault, stops: nat -> bool) returns (ghost trace: seq<Round>)
      requires Valid()
      modifies this, db
      ensures Valid()
      ensures Plausible(old(db.state.outbox), trace, batchSize) && Complete(trace, faults, stops, batchSize)
      ensures db.state == old(db.state).(outbox := After(old(db.state.outbox), trace))
      ensures published == old(published) + Messages(Sent(trace))
      ensures SentOn(old(published), published, Sent(trace))
    {
      var i := 0;
      trace := [];
      while true
        invariant Valid() && |trace| == i
        invariant Plausible(old(db.state.outbox), trace, batchSize) && Going(trace, faults, stops, batchSize)
        invariant db.state == old(db.state).(outbox := After(old(db.state.outbox), trace))
        invariant published == old(published) + Messages(Sent(trace))
        decreases |db.state.outbox|
      {
        if stops(i) {
          MessagesCarry(old(published), Sent(trace));
          return;
        }
        ghost var now, before := db.state.outbox, trace;
        var count, err, batch := ProcessBatch(faults(i));
        ghost var round := Round(batch, faults(i));
        trace := before + [round];
        RoundMore(old(db.state.outbox), before, round, batchSize, old(published));
        if err || count < batchSize {
          EndsHere(before, round, faults, stops, batchSize);
          MessagesCarry(old(published), Sent(trace));
          return;
        }
        GoesOnAfter(before, round, faults, stops, batchSize);
        FullRoundShrinks(now, round, batchSize);
        i := i + 1;
      }
    }
  }

  /** One batch of a drain, and what went wrong in it. */
  datatype Round = Round(batch: seq<Record>, fault: Fault)

  /** What was published, and what of it was deleted as well. */
  function Taken(r: Round): seq<Record> {
    r.batch[..PublishedCount(r.fault, |r.batch|)]
  }

  function Gone(r: Round): seq<Record> {
    r.batch[..DeletedCount(r.fault, |r.batch|)]
  }

  predicate Errs(r: Round) {
    Strikes(r.fault, |r.batch|)
  }

  function Sent(trace: seq<Round>): seq<Record> {
    if trace == [] then [] else Sent(trace[..|trace| - 1]) + Taken(trace[|trace| - 1])
  }

  /** The table after the rounds of `trace`. */
  function After(table: Outbox, trace: seq<Round>): Outbox {
    if trace == [] then table else After(table, trace[..|trace| - 1]) - Ids(Gone(trace[|trace| - 1]))
  }

  /** Every batch is an answer to the SELECT on the table as the rounds before it left it. */
  ghost predicate Plausible(table: Outbox, trace: seq<Round>, limit: nat) {
    trace == [] ||
    var last := trace[|trace| - 1];
    && Plausible(table, trace[..|trace| - 1], limit)
    && if last.fault.SelectFails? then last.batch == []
       else IsBatch(After(table, trace[..|trace| - 1]), limit, last.batch)
  }

  /** Rounds after which the loop goes on: not stopped, full and without an error. */
  ghost predicate Going(trace: seq<Round>, faults: nat -> Fault, stops: nat -> bool, limit: nat) {
    trace == [] ||
    var n := |trace| - 1;
    && Going(trace[..n], faults, stops, limit)
    && trace[n].fault == faults(n) && !stops(n) && !Errs(trace[n]) && |trace[n].batch| >= limit
  }

  /** The loop ends at a stop request, at an error or at a batch that is not full, and nowhere else. */
  ghost predicate Complete(trace: seq<Round>, faults: nat -> Fault, stops: nat -> bool, limit: nat) {
    || (Going(trace, faults, stops, limit) && stops(|trace|))
    || (trace != [] &&
        var n := |trace| - 1;
        && Going(trace[..n], faults, stops, limit)
        && trace[n].fault == faults(n) && !stops(n) && (Errs(trace[n]) || |trace[n].batch| < limit))
  }

  lemma EndsHere(before: seq<Round>, r: Round, faults: nat -> Fault, stops: nat -> bool, limit: nat)
    requires Going(before, faults, stops, limit) && r.fault == faults(|before|) && !stops(|before|)
    requires Errs(r) || |r.batch| < limit
    ensures Complete(before + [r], faults, stops, limit)
  {
    assert (before + [r])[..|before|] == before;
  }

  lemma GoesOnAfter(before: seq<Round>, r: Round, faults: nat -> Fault, stops: nat -> bool, limit: nat)
    requires Going(before, faults, stops, limit) && r.fault == faults(|before|) && !stops(|before|)
    requires !Errs(r) && |r.batch| >= limit
    ensures Going(before + [r], faults, stops, limit)
  {
    assert (before + [r])[..|before|] == before;
  }

  /** One more round: what it took was sent, what it deleted is gone, and it answered the SELECT. */
  lemma RoundMore(table: Outbox, before: seq<Round>, r: Round, limit: nat, log: seq<Message>)
    requires Plausible(table, before, limit)
    requires if r.fault.SelectFails? then r.batch == [] else IsBatch(After(table, before), limit, r.batch)
    ensures var trace := before + [r];
      && trace[..|before|] == before
      && Plausible(table, trace, limit) && After(table, trace) == After(table, before) - Ids(Gone(r))
      && log + Messages(Sent(trace)) == log + Messages(Sent(before)) + Messages(Taken(r))
  {
    assert (before + [r])[..|before|] == before;
    MessagesMore(log, Sent(before), Taken(r));
  }

  lemma FullRoundShrinks(now: Outbox, r: Round, limit: nat)
    requires limit > 0 && !r.fault.SelectFails? && IsBatch(now, limit, r.batch) && !Errs(r) && |r.batch| >= limit
    ensures |now - Ids(Gone(r))| < |now|
  {
    assert Gone(r) == r.batch;
    BatchShrinks(now, limit, r.batch);
  }

  /** At least once, whatever goes wrong, lost acknowledgements included: a record is gone from the table only if it
      was published, everything else is still there, and only records of the table are published. */
  lemma {:induction false} DrainLosesNothing(table: Outbox, trace: seq<Round>, limit: nat)
    requires Plausible(table, trace, limit)
    ensures Kept(table, Sent(trace), After(table, trace))
  {
    if trace != [] {
      var n := |trace| - 1;
      var r := trace[n];
      DrainLosesNothing(table, trace[..n], limit);
      KeptMore(table, Sent(trace[..n]), After(table, trace[..n]), r.batch,
               PublishedCount(r.fault, |r.batch|), DeletedCount(r.fault, |r.batch|));
    }
  }

  lemma {:induction false} FullRounds(table: Outbox, trace: seq<Round>, faults: nat -> Fault, stops: nat -> bool,
                                      limit: nat)
    requires Plausible(table, trace, limit) && Going(trace, faults, stops, limit)
    ensures SentSoFar(table, Sent(trace), After(table, trace)) && |Sent(trace)| == FullBatches(|trace|, limit)
  {
    if trace != [] {
      var n := |trace| - 1;
      FullRounds(table, trace[..n], faults, stops, limit);
      FullRound(table, Sent(trace[..n]), After(table, trace[..n]), limit, trace[n], n);
    }
  }

  lemma FullRound(before: Outbox, sent: seq<Record>, now: Outbox, limit: nat, r: Round, rounds: nat)
    requires SentSoFar(before, sent, now) && |sent| == FullBatches(rounds, limit)
    requires IsBatch(now, limit, r.batch) && !Errs(r) && |r.batch| >= limit
    ensures SentSoFar(before, sent + Taken(r), now - Ids(Gone(r)))
    ensures |sent + Taken(r)| == FullBatches(rounds + 1, limit)
  {
    WholeRound(r);
    SentMore(before, sent, now, limit, r.batch);
  }

  lemma WholeRound(r: Round)
    requires !Errs(r)
    ensures Gone(r) == r.batch && Taken(r) == r.batch
  {
  }

  /** Without faults, stops or inserts a drain of n records ends with an empty table after exactly n / limit + 1
      batches, having published every record once and in chronological order. */
  lemma CleanDrain(table: Outbox, trace: seq<Round>, faults: nat -> Fault, stops: nat -> bool, limit: nat)
    requires Plausible(table, trace, limit) && Complete(trace, faults, stops, limit)
    requires forall i :: faults(i) == NoFault && !stops(i)
    ensures After(table, trace) == map[]
    ensures |trace| == |table| / limit + 1
    ensures Distinct(Sent(trace)) && Chronological(Sent(trace)) && Ids(Sent(trace)) == table.Keys
  {
    var n := |trace| - 1;
    var r := trace[n];
    assert r.fault == NoFault;
    FullRounds(table, trace[..n], faults, stops, limit);
    WholeRound(r);
    SentMore(table, Sent(trace[..n]), After(table, trace[..n]), limit, r.batch);
    LastBatch(table, Sent(trace), After(table, trace[..n]), limit, r.batch, n);
  }

  /** The number of records in `rounds` full batches. */
  function FullBatches(rounds: nat, limit: nat): nat {
    if rounds == 0 then 0 else FullBatches(rounds - 1, limit) + limit
  }

  lemma {:induction false} FullBatchesProduct(rounds: nat, limit: nat)
    ensures FullBatches(rounds, limit) == rounds * limit
  {
    if rounds > 0 {
      FullBatchesProduct(rounds - 1, limit);
    }
  }

  lemma FullBatchesDivide(n: nat, rounds: nat, limit: nat, r: nat)
    requires r < limit && n == FullBatches(rounds, limit) + r
    ensures rounds == n / limit
  {
    FullBatchesProduct(rounds, limit);
    QuotientIs(n, rounds, limit, r);
  }

  lemma MessagesMore(log: seq<Message>, a: seq<Record>, b: seq<Record>)
    ensures log + Messages(a) + Messages(b) == log + Messages(a + b)
  {
    assert Messages(a + b) == Messages(a) + Messages(b);
  }

  /** Nothing was lost or invented: what is gone from the table was sent, and what was sent had been in it. */
  ghost predicate Kept(before: Outbox, sent: seq<Record>, now: Outbox) {
    && (forall id | id in now :: id in before && now[id] == before[id])
    && before.Keys - now.Keys <= Ids(sent)
    && (forall r | r in sent :: r.id in before && before[r.id] == r)
  }

  lemma KeptMore(before: Outbox, sent: seq<Record>, now: Outbox, batch: seq<Record>, p: nat, d: nat)
    requires Kept(before, sent, now) && d <= p <= |batch|
    requires forall r | r in batch :: r.id in now && now[r.id] == r
    ensures Kept(before, sent + batch[..p], now - Ids(batch[..d]))
  {
    IdsConcat(sent, batch[..p]);
    IdsConcat(batch[..d], batch[d..p]);
    assert batch[..p] == batch[..d] + batch[d..p];
    forall r | r in sent + batch[..p] ensures r.id in before && before[r.id] == r {
      assert r in sent || r in batch;
    }
  }

  /** After rounds without faults: the table has lost exactly what was sent, oldest first. */
  ghost predicate SentSoFar(before: Outbox, sent: seq<Record>, now: Outbox) {
    && now.Keys == before.Keys - Ids(sent) && Ids(sent) <= before.Keys
    && Distinct(sent) && Chronological(sent)
    && (forall id, r | id in now && r in sent :: r.occurredAt <= now[id].occurredAt)
  }

  lemma BatchShrinks(now: Outbox, limit: nat, batch: seq<Record>)
    requires IsBatch(now, limit, batch)
    ensures |now - Ids(batch)| + |batch| == |now|
  {
    DistinctSize(batch);
    IdsOfMembers(batch, now.Keys);
    assert (now - Ids(batch)).Keys == now.Keys - Ids(batch);
    DifferenceSize(now.Keys, Ids(batch));
  }

  lemma DifferenceSize(a: set<Id>, b: set<Id>)
    requires b <= a
    ensures |a - b| + |b| == |a|
  {
    assert a == (a - b) + b;
  }

  lemma SentOrder(sent: seq<Record>, now: Outbox, limit: nat, batch: seq<Record>)
    requires IsBatch(now, limit, batch) && Ids(sent) !! now.Keys
    requires Distinct(sent) && Chronological(sent)
    requires forall id, r | id in now && r in sent :: r.occurredAt <= now[id].occurredAt
    ensures Distinct(sent + batch) && Chronological(sent + batch)
  {
    forall i, j | 0 <= i < |sent| && 0 <= j < |batch|
      ensures sent[i].id != batch[j].id && sent[i].occurredAt <= batch[j].occurredAt
    {
      assert sent[i] in sent && batch[j] in batch;
      IdsHas(sent, i);
    }
  }

  lemma SentKeys(before: set<Id>, sent: seq<Record>, now: Outbox, batch: seq<Record>)
    requires now.Keys == before - Ids(sent) && Ids(sent) <= before && Ids(batch) <= now.Keys
    ensures (now - Ids(batch)).Keys == before - Ids(sent + batch) && Ids(sent + batch) <= before
  {
    IdsConcat(sent, batch);
  }

  lemma SentOlder(sent: seq<Record>, now: Outbox, limit: nat, batch: seq<Record>)
    requires IsBatch(now, limit, batch)
    requires forall id, r | id in now && r in sent :: r.occurredAt <= now[id].occurredAt
    ensures forall id, r | id in now - Ids(batch) && r in sent + batch ::
      r.occurredAt <= (now - Ids(batch))[id].occurredAt
  {
    forall id, r | id in now - Ids(batch) && r in sent + batch ensures r.occurredAt <= now[id].occurredAt {
      assert r in sent || r in batch;
    }
  }

  lemma SentMore(before: Outbox, sent: seq<Record>, now: Outbox, limit: nat, batch: seq<Record>)
    requires SentSoFar(before, sent, now) && IsBatch(now, limit, batch)
    ensures SentSoFar(before, sent + batch, now - Ids(batch))
  {
    IdsOfMembers(batch, now.Keys);
    SentKeys(before.Keys, sent, now, batch);
    SentOrder(sent, now, limit, batch);
    SentOlder(sent, now, limit, batch);
  }

  /** After a batch that is not full everything has been sent, and the batches add up. */
  lemma LastBatch(before: Outbox, sent: seq<Record>, previous: Outbox, limit: nat, batch: seq<Record>, rounds: nat)
    requires SentSoFar(before, sent, previous - Ids(batch)) && IsBatch(previous, limit, batch)
    requires |batch| < limit && |sent| == FullBatches(rounds, limit) + |batch|
    ensures previous - Ids(batch) == map[] && Ids(sent) == before.Keys && rounds == |before| / limit
  {
    ShortBatchIsAll(previous, limit, batch);
    assert (previous - Ids(batch)).Keys == {};
    DistinctSize(sent);
    assert Ids(sent) == before.Keys;
    FullBatchesDivide(|before|, rounds, limit, |batch|);
  }

  lemma OneMore(table: Outbox, records: seq<Record>, i: nat)
    requires i < |records|
    ensures Messages(records[..i + 1]) == Messages(records[..i]) + [MessageOf(records[i])]
    ensures table - Ids(records[..i + 1]) == table - Ids(records[..i]) - {records[i].id}
  {
    assert records[..i + 1] == records[..i] + [records[i]];
    IdsAppend(records[..i], records[i]);
  }

  predicate IsEarliest(table: Outbox, todo: set<Id>, id: Id)
    requires todo <= table.Keys
  {
    id in todo && forall other | other in todo :: table[id].occurredAt <= table[other].occurredAt
  }

  lemma EarliestExists(table: Outbox, todo: set<Id>) returns (id: Id)
    requires todo != {} && todo <= table.Keys
    ensures IsEarliest(table, todo, id)
  {
    id := MinimumExists(todo, id => if id in table then table[id].occurredAt else 0);
  }

  method Earliest(table: Outbox, todo: set<Id>) returns (id: Id)
    requires todo != {} && todo <= table.Keys
    ensures IsEarliest(table, todo, id)
  {
    ghost var least := EarliestExists(table, todo);
    id :| id in todo && IsEarliest(table, todo, id);
  }

  /** `records` is the start of an answer to the SELECT and `todo` the ids not taken yet. */
  ghost predicate Selecting(table: Outbox, todo: set<Id>, records: seq<Record>, limit: nat) {
    && todo == table.Keys - Ids(records) && |todo| + |records| == |table| && |records| <= limit
    && (forall r | r in records :: r.id in table && table[r.id] == r)
    && Distinct(records) && Chronological(records)
    && (forall id, r | id in todo && r in records :: r.occurredAt <= table[id].occurredAt)
  }

  lemma SelectingOrder(records: seq<Record>, r: Record)
    requires Distinct(records) && Chronological(records) && r.id !in Ids(records)
    requires forall x | x in records :: x.occurredAt <= r.occurredAt
    ensures Distinct(records + [r]) && Chronological(records + [r])
  {
    forall i | 0 <= i < |records| ensures records[i].id != r.id && records[i].occurredAt <= r.occurredAt {
      assert records[i] in records;
      IdsHas(records, i);
    }
  }

  lemma SelectingMore(table: Outbox, todo: set<Id>, records: seq<Record>, limit: nat, id: Id)
    requires Selecting(table, todo, records, limit) && |records| < limit
    requires IsEarliest(table, todo, id) && table[id].id == id
    ensures Selecting(table, todo - {id}, records + [table[id]], limit)
  {
    var r := table[id];
    var more := records + [r];
    IdsAppend(records, r);
    SelectingOrder(records, r);
    assert todo - {id} == table.Keys - Ids(more);
    forall x | x in more ensures x.id in table && table[x.id] == x {
      assert x in records || x == r;
    }
    forall other, x | other in todo - {id} && x in more ensures x.occurredAt <= table[other].occurredAt {
      assert x in records || x == r;
    }
  }

  lemma SelectingDone(table: Outbox, todo: set<Id>, records: seq<Record>, limit: nat)
    requires Selecting(table, todo, records, limit) && (|records| == limit || todo == {})
    ensures IsBatch(table, limit, records)
  {
    forall id, r | id in table && id !in Ids(records) && r in records ensures r.occurredAt <= table[id].occurredAt {
      assert id in todo;
    }
  }
}
