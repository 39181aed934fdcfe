/** What every run of the outbox worker keeps: conservation, an exact account of duplicates, and order. */
module OutboxSafety {
  import opened Types
  import opened OutboxTable
  import opened OutboxProtocol

  /** The records of committed transactions are exactly those still in the table and those deleted. */
  ghost predicate Conserved(s: State) {
    && s.committed.Keys == s.table.Keys + s.deleted
    && s.table.Keys !! s.deleted
    && (forall id | id in s.table :: s.table[id] == s.committed[id])
    && (forall id | id in s.committed :: s.committed[id].id == id)
  }

  function DeletedBit(s: State, id: Id): nat {
    if id in s.deleted then 1 else 0
  }

  function InFlightBit(s: State, id: Id): nat {
    if s.worker.Deleting? && s.worker.next < |s.worker.batch| && Current(s).id == id then 1 else 0
  }

  /** Every publication is accounted for: by the deletion that followed it, by the failure or crash that kept
      the deletion from following, or by the deletion that is about to follow. */
  ghost predicate Accounted(s: State) {
    forall id :: Publishes(s.log, id) == DeletedBit(s, id) + s.mishaps[id] + InFlightBit(s, id)
  }

  /** Only committed records are published, unchanged. */
  ghost predicate Genuine(s: State) {
    forall k | 0 <= k < |s.log| ::
      s.log[k].record.id in s.committed && s.committed[s.log[k].record.id] == s.log[k].record
  }

  /** The batch in hand: what is left of it is still in the table, and every known record that is still in
      the table and older than an entry comes before that entry in what is left. */
  ghost predicate BatchOk(s: State) {
    Busy(s.worker) ==>
      var batch, next := s.worker.batch, s.worker.next;
      && next <= |batch| && (s.worker.Deleting? ==> next < |batch|)
      && s.worker.known <= s.committed.Keys
      && Distinct(batch)
      && (forall j | next <= j < |batch| :: batch[j].id in s.table && s.table[batch[j].id] == batch[j])
      && (forall a, j | a in s.worker.known && a in s.table && next <= j < |batch| ::
            s.table[a].occurredAt < batch[j].occurredAt ==> ComesBefore(batch, next, j, a))
  }

  ghost predicate ComesBefore(batch: seq<Record>, from: nat, to: nat, id: Id)
    requires to <= |batch|
  {
    exists k :: from <= k < to && batch[k].id == id
  }

  /** Every publication comes after one of each older record that was committed before its SELECT. */
  ghost predicate Ordered(s: State) {
    forall k, a | 0 <= k < |s.log| && a in s.log[k].known && a in s.committed ::
      s.committed[a].occurredAt < s.log[k].record.occurredAt ==> PublishedBefore(s.log, k, a)
  }

  ghost predicate PublishedBefore(log: seq<Publication>, k: nat, id: Id)
    requires k <= |log|
  {
    exists m :: 0 <= m < k && log[m].record.id == id
  }

  ghost predicate KnownCommitted(s: State) {
    forall k | 0 <= k < |s.log| :: s.log[k].known <= s.committed.Keys
  }

  ghost predicate Consistent(s: State) {
    Conserved(s) && Accounted(s) && Genuine(s) && BatchOk(s) && Ordered(s) && KnownCommitted(s)
  }

  lemma AddFacts(s: State, recs: seq<Record>)
    requires Conserved(s) && Fresh(s, recs)
    ensures var t := AddRecords(s, recs);
      && Conserved(t)
      && (forall id | id in s.committed :: id in t.committed && t.committed[id] == s.committed[id])
      && (forall id | id in s.table :: id in t.table && t.table[id] == s.table[id])
      && t.table.Keys == s.table.Keys + Ids(recs) && t.committed.Keys == s.committed.Keys + Ids(recs)
  {
    var t := AddRecords(s, recs);
    InsertKeys(s.table, recs);
    InsertKeys(s.committed, recs);
    forall id | id in s.committed ensures id in t.committed && t.committed[id] == s.committed[id] {
      InsertKeeps(s.committed, recs, id);
    }
    forall id | id in s.table ensures id in t.table && t.table[id] == s.table[id] {
      InsertKeeps(s.table, recs, id);
    }
    forall id | id in Ids(recs)
      ensures id in t.committed && id in t.table && t.committed[id] == t.table[id] && t.committed[id].id == id
    {
      var k := IdsIndex(recs, id);
      InsertHas(s.table, recs, k);
      InsertHas(s.committed, recs, k);
    }
  }

  lemma AddConsistent(s: State, recs: seq<Record>)
    requires Consistent(s) && Fresh(s, recs)
    ensures Consistent(AddRecords(s, recs))
  {
    AddFacts(s, recs);
    AddBatchOk(s, recs);
    AddHistory(s, recs);
  }

  lemma AddBatchOk(s: State, recs: seq<Record>)
    requires Consistent(s) && Fresh(s, recs)
    ensures BatchOk(AddRecords(s, recs))
  {
    AddFacts(s, recs);
  }

  lemma AddHistory(s: State, recs: seq<Record>)
    requires Consistent(s) && Fresh(s, recs)
    ensures Accounted(AddRecords(s, recs)) && Genuine(AddRecords(s, recs))
    ensures Ordered(AddRecords(s, recs)) && KnownCommitted(AddRecords(s, recs))
  {
    var t := AddRecords(s, recs);
    AddFacts(s, recs);
    forall id ensures Publishes(t.log, id) == DeletedBit(t, id) + t.mishaps[id] + InFlightBit(t, id) {
      assert DeletedBit(t, id) == DeletedBit(s, id) && InFlightBit(t, id) == InFlightBit(s, id);
    }
  }

  lemma SelectBatchOk(s: State, batch: seq<Record>)
    requires Conserved(s) && Enabled(s, Select(batch))
    ensures BatchOk(Apply(s, Select(batch)))
  {
    var t := Apply(s, Select(batch));
    forall a, j | a in t.worker.known && a in t.table && 0 <= j < |batch| &&
                  t.table[a].occurredAt < batch[j].occurredAt
      ensures ComesBefore(batch, 0, j, a)
    {
      assert batch[j] in batch;
      var k := IdsIndex(batch, a);
      assert batch[k] in batch;
    }
  }

  lemma SelectConsistent(s: State, batch: seq<Record>)
    requires Consistent(s) && Enabled(s, Select(batch))
    ensures Consistent(Apply(s, Select(batch)))
  {
    var t := Apply(s, Select(batch));
    SelectBatchOk(s, batch);
    HistoryFrame(s, t);
    SelectAccounted(s, batch);
  }

  lemma SelectAccounted(s: State, batch: seq<Record>)
    requires Accounted(s) && Enabled(s, Select(batch))
    ensures Accounted(Apply(s, Select(batch)))
  {
    var t := Apply(s, Select(batch));
    forall id ensures Publishes(t.log, id) == DeletedBit(t, id) + t.mishaps[id] + InFlightBit(t, id) {
      assert DeletedBit(t, id) == DeletedBit(s, id) && InFlightBit(t, id) == InFlightBit(s, id) == 0;
    }
  }

  /** At the moment of a publication every known older record has been deleted, hence published. */
  lemma OlderAlreadyPublished(s: State, a: Id)
    requires Consistent(s) && Busy(s.worker) && s.worker.Publishing? && s.worker.next < |s.worker.batch|
    requires a in s.worker.known && a in s.committed && s.committed[a].occurredAt < Current(s).occurredAt
    ensures PublishedBefore(s.log, |s.log|, a)
  {
    assert a in s.table ==> ComesBefore(s.worker.batch, s.worker.next, s.worker.next, a);
    assert Publishes(s.log, a) == DeletedBit(s, a) + s.mishaps[a] + InFlightBit(s, a);
    var m := PublishedAt(s.log, a);
  }

  lemma PublishedOrdered(s: State)
    requires Consistent(s) && s.worker.Publishing? && s.worker.next < |s.worker.batch|
    ensures Ordered(Published(s)) && Genuine(Published(s)) && KnownCommitted(Published(s))
  {
    var t := Published(s);
    forall k, a | 0 <= k < |t.log| && a in t.log[k].known && a in t.committed &&
                  t.committed[a].occurredAt < t.log[k].record.occurredAt
      ensures PublishedBefore(t.log, k, a)
    {
      if k < |s.log| {
        assert PublishedBefore(s.log, k, a);
        var m :| 0 <= m < k && s.log[m].record.id == a;
        assert t.log[m] == s.log[m];
      } else {
        OlderAlreadyPublished(s, a);
        var m :| 0 <= m < |s.log| && s.log[m].record.id == a;
        assert t.log[m] == s.log[m];
      }
    }
  }

  lemma PublishConsistent(s: State, a: Action)
    requires Consistent(s) && Enabled(s, a) && (a.Publish? || a.PublishAckLost?)
    ensures Consistent(Apply(s, a))
  {
    var t := Apply(s, a);
    PublishedOrdered(s);
    assert Ordered(t) && Genuine(t) && KnownCommitted(t) && Conserved(t) by { HistoryFrame(Published(s), t); }
    PublishesAppend(s.log, Publication(Current(s), s.worker.known));
    forall id ensures Publishes(t.log, id) == DeletedBit(t, id) + t.mishaps[id] + InFlightBit(t, id) {
      assert Publishes(s.log, id) == DeletedBit(s, id) + s.mishaps[id] + InFlightBit(s, id);
    }
  }

  /** These parts do not look at the worker, the signals or the mishaps. */
  lemma HistoryFrame(s: State, t: State)
    requires t.committed == s.committed && t.log == s.log && t.table == s.table && t.deleted == s.deleted
    ensures Genuine(s) ==> Genuine(t)
    ensures Ordered(s) ==> Ordered(t)
    ensures KnownCommitted(s) ==> KnownCommitted(t)
    ensures Conserved(s) ==> Conserved(t)
  {
  }

  lemma DeleteConsistent(s: State, a: Action)
    requires Consistent(s) && Enabled(s, a) && (a.Delete? || a.DeleteAckLost?)
    ensures Consistent(Apply(s, a))
  {
    DeleteAccounted(s, a);
    if a.Delete? {
      DeleteBatchOk(s);
    }
  }

  lemma DeleteAccounted(s: State, a: Action)
    requires Conserved(s) && Accounted(s) && BatchOk(s) && Enabled(s, a) && (a.Delete? || a.DeleteAckLost?)
    ensures Accounted(Apply(s, a))
  {
    var t := Apply(s, a);
    assert Current(s).id in s.table;
    forall id ensures Publishes(t.log, id) == DeletedBit(t, id) + t.mishaps[id] + InFlightBit(t, id) {
      assert Publishes(s.log, id) == DeletedBit(s, id) + s.mishaps[id] + InFlightBit(s, id);
    }
  }

  lemma DeleteBatchOk(s: State)
    requires Consistent(s) && Enabled(s, Delete)
    ensures BatchOk(Apply(s, Delete))
  {
    var t := Apply(s, Delete);
    var batch, next := s.worker.batch, s.worker.next;
    forall a, j | a in t.worker.known && a in t.table && next + 1 <= j < |batch| &&
                  t.table[a].occurredAt < batch[j].occurredAt
      ensures ComesBefore(batch, next + 1, j, a)
    {
      assert ComesBefore(batch, next, j, a);
    }
  }

  lemma GiveUpConsistent(s: State, t: State)
    requires Consistent(s) && !Busy(t.worker)
    requires t.committed == s.committed && t.log == s.log && t.table == s.table && t.deleted == s.deleted
    requires t.mishaps == if s.worker.Deleting? && s.worker.next < |s.worker.batch|
                          then s.mishaps + multiset{Current(s).id} else s.mishaps
    ensures Consistent(t)
  {
    HistoryFrame(s, t);
    forall id ensures Publishes(t.log, id) == DeletedBit(t, id) + t.mishaps[id] + InFlightBit(t, id) {
      assert Publishes(s.log, id) == DeletedBit(s, id) + s.mishaps[id] + InFlightBit(s, id);
    }
  }

  lemma SameConsistent(s: State, t: State)
    requires Consistent(s) && t.worker == s.worker && t.mishaps == s.mishaps
    requires t.committed == s.committed && t.log == s.log && t.table == s.table && t.deleted == s.deleted
    ensures Consistent(t)
  {
    HistoryFrame(s, t);
    forall id ensures Publishes(t.log, id) == DeletedBit(t, id) + t.mishaps[id] + InFlightBit(t, id) {
      assert Publishes(s.log, id) == DeletedBit(s, id) + s.mishaps[id] + InFlightBit(s, id);
    }
  }

  lemma StepConsistent(s: State, a: Action)
    requires Consistent(s) && Enabled(s, a)
    ensures Consistent(Apply(s, a))
  {
    var t := Apply(s, a);
    if a.Commit? || a.ExternalCommit? {
      AddConsistent(s, a.recs);
      SameConsistent(AddRecords(s, a.recs), t);
    } else if a.Select? {
      SelectConsistent(s, a.batch);
    } else if a.Publish? || a.PublishAckLost? {
      PublishConsistent(s, a);
    } else if a.Delete? || a.DeleteAckLost? {
      DeleteConsistent(s, a);
    } else if a.RunHook? || a.ExternalNotify? || a.Stop? {
      SameConsistent(s, t);
    } else {
      GiveUpConsistent(s, t);
    }
  }

  lemma {:induction false} RunConsistent(s: State, acts: seq<Action>, t: State)
    requires Consistent(s) && Exec(s, acts, t)
    ensures Consistent(t)
    decreases |acts|
  {
    if acts != [] {
      StepConsistent(s, acts[0]);
      RunConsistent(Apply(s, acts[0]), acts[1..], t);
    }
  }

  /** Over all runs: the committed records are the disjoint union of the table and the deleted ones. */
  lemma Conservation(limit: nat, acts: seq<Action>, s: State)
    requires Exec(Init(limit), acts, s)
    ensures s.committed.Keys == s.table.Keys + s.deleted && s.table.Keys !! s.deleted
    ensures forall id | id in s.table :: s.table[id] == s.committed[id]
  {
    RunConsistent(Init(limit), acts, s);
  }

  /** Every deleted record was published, exactly as it was committed. */
  lemma AtLeastOnce(limit: nat, acts: seq<Action>, s: State, id: Id) returns (k: nat)
    requires Exec(Init(limit), acts, s) && id in s.deleted
    ensures k < |s.log| && id in s.committed && s.log[k].record == s.committed[id]
  {
    RunConsistent(Init(limit), acts, s);
    k := PublishedAt(s.log, id);
  }

  /** Nothing but committed records is ever published. */
  lemma OnlyCommittedPublished(limit: nat, acts: seq<Action>, s: State, k: nat)
    requires Exec(Init(limit), acts, s) && k < |s.log|
    ensures s.log[k].record.id in s.committed && s.log[k].record == s.committed[s.log[k].record.id]
  {
    RunConsistent(Init(limit), acts, s);
  }

  /** The exact number of publications of a record, and hence the bound on duplicates. */
  lemma DuplicateAccount(limit: nat, acts: seq<Action>, s: State, id: Id)
    requires Exec(Init(limit), acts, s)
    ensures Publishes(s.log, id) == DeletedBit(s, id) + s.mishaps[id] + InFlightBit(s, id)
    ensures Publishes(s.log, id) <= 1 + s.mishaps[id]
  {
    RunConsistent(Init(limit), acts, s);
    assert InFlightBit(s, id) == 1 ==> Current(s).id in s.table;
  }

  /** If `a` was committed before the SELECT that led to publication `k` and is older, it was published before. */
  lemma PublicationOrder(limit: nat, acts: seq<Action>, s: State, k: nat, a: Id) returns (m: nat)
    requires Exec(Init(limit), acts, s) && k < |s.log|
    requires a in s.log[k].known && a in s.committed && s.committed[a].occurredAt < s.log[k].record.occurredAt
    ensures m < k && s.log[m].record.id == a
  {
    RunConsistent(Init(limit), acts, s);
    assert PublishedBefore(s.log, k, a);
    m :| 0 <= m < k && s.log[m].record.id == a;
  }
}
