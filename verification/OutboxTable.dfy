/** The outbox table as a value: inserting records and the batch SELECT. */
module OutboxTable {
  import opened Counting
  import opened Types

  function Ids(recs: seq<Record>): set<Id> {
    if recs == [] then {} else Ids(recs[..|recs| - 1]) + {recs[|recs| - 1].id}
  }

  lemma {:induction false} IdsHas(recs: seq<Record>, k: nat)
    requires k < |recs|
    ensures recs[k].id in Ids(recs)
  {
    if k < |recs| - 1 {
      IdsHas(recs[..|recs| - 1], k);
    }
  }

  lemma {:induction false} IdsIndex(recs: seq<Record>, id: Id) returns (k: nat)
    requires id in Ids(recs)
    ensures k < |recs| && recs[k].id == id
  {
    k := |recs| - 1;
    if recs[k].id != id {
      k := IdsIndex(recs[..k], id);
    }
  }

  lemma {:induction false} IdsConcat(a: seq<Record>, b: seq<Record>)
    ensures Ids(a + b) == Ids(a) + Ids(b)
  {
    if b == [] {
      assert a + b == a;
    } else {
      assert (a + b)[..|a + b| - 1] == a + b[..|b| - 1];
      IdsConcat(a, b[..|b| - 1]);
    }
  }

  lemma IdsAppend(recs: seq<Record>, r: Record)
    ensures Ids(recs + [r]) == Ids(recs) + {r.id}
  {
    assert (recs + [r])[..|recs|] == recs;
  }

  predicate Distinct(recs: seq<Record>) {
    forall i, j | 0 <= i < j < |recs| :: recs[i].id != recs[j].id
  }

  /** The INSERTs of Save, in order. */
  function Insert(table: Outbox, recs: seq<Record>): Outbox {
    if recs == [] then table
    else Insert(table, recs[..|recs| - 1])[recs[|recs| - 1].id := recs[|recs| - 1]]
  }

  lemma {:induction false} InsertKeys(table: Outbox, recs: seq<Record>)
    ensures Insert(table, recs).Keys == table.Keys + Ids(recs)
  {
    if recs != [] {
      InsertKeys(table, recs[..|recs| - 1]);
    }
  }

  lemma {:induction false} InsertKeeps(table: Outbox, recs: seq<Record>, id: Id)
    requires id in table && id !in Ids(recs)
    ensures id in Insert(table, recs) && Insert(table, recs)[id] == table[id]
  {
    if recs != [] {
      InsertKeeps(table, recs[..|recs| - 1], id);
    }
  }

  lemma {:induction false} InsertHas(table: Outbox, recs: seq<Record>, k: nat)
    requires Distinct(recs) && k < |recs|
    ensures recs[k].id in Insert(table, recs) && Insert(table, recs)[recs[k].id] == recs[k]
  {
    var n := |recs| - 1;
    if k < n {
      assert recs[..n][k] == recs[k];
      InsertHas(table, recs[..n], k);
    }
  }

  /** A possible answer to SELECT ... ORDER BY occurred_at LIMIT `limit`; ties may come in any order. */
  ghost predicate IsBatch(table: Outbox, limit: nat, batch: seq<Record>) {
    && |batch| == (if |table| < limit then |table| else limit)
    && (forall r | r in batch :: r.id in table && table[r.id] == r)
    && Distinct(batch)
    && (forall i, j | 0 <= i < j < |batch| :: batch[i].occurredAt <= batch[j].occurredAt)
    && (forall id, r | id in table && id !in Ids(batch) && r in batch :: r.occurredAt <= table[id].occurredAt)
  }

  lemma {:induction false} DistinctSize(recs: seq<Record>)
    requires Distinct(recs)
    ensures |Ids(recs)| == |recs|
  {
    if recs != [] {
      var n := |recs| - 1;
      DistinctSize(recs[..n]);
      if recs[n].id in Ids(recs[..n]) {
        var k := IdsIndex(recs[..n], recs[n].id);
      }
    }
  }

  lemma IdsOfMembers(recs: seq<Record>, ids: set<Id>)
    requires forall r | r in recs :: r.id in ids
    ensures Ids(recs) <= ids
  {
    forall id | id in Ids(recs) ensures id in ids {
      var k := IdsIndex(recs, id);
      assert recs[k] in recs;
    }
  }

  /** A batch that is not full is the whole table. */
  lemma ShortBatchIsAll(table: Outbox, limit: nat, batch: seq<Record>)
    requires IsBatch(table, limit, batch) && |batch| < limit
    ensures Ids(batch) == table.Keys
  {
    DistinctSize(batch);
    IdsOfMembers(batch, table.Keys);
    assert |table.Keys| == |table|;
    SubsetOfSameSize(Ids(batch), table.Keys);
  }
}
