/** No lost wake-up for the outbox: a committed record is never left behind with the worker asleep unsignalled. */
module OutboxWakeup {
  import opened Types
  import opened OutboxTable
  import opened OutboxProtocol
  import opened OutboxSafety

  /** The records of the batch in hand that have not been deleted yet. */
  function Remaining(w: Worker): set<Id> {
    if Busy(w) && w.next <= |w.batch| then Ids(w.batch[w.next..]) else {}
  }

  /** A signal is set, a committer has yet to run its hook, the worker is about to SELECT, its batch is full so
      that it will SELECT again, or all there is in the table is in the batch in hand. */
  ghost predicate Tended(s: State) {
    || s.token
    || s.hooks > 0
    || s.worker.Ready?
    || (Busy(s.worker) && |s.worker.batch| >= s.limit)
    || s.table.Keys <= Remaining(s.worker)
  }

  ghost predicate NoLostWakeup(s: State) {
    !s.lapsed && !s.stopping ==> Tended(s)
  }

  lemma SelectTended(s: State, batch: seq<Record>)
    requires Enabled(s, Select(batch))
    ensures Tended(Apply(s, Select(batch)))
  {
    if |batch| < s.limit {
      ShortBatchIsAll(s.table, s.limit, batch);
      assert batch[0..] == batch;
    }
  }

  lemma DeleteTended(s: State)
    requires Consistent(s) && Tended(s) && Enabled(s, Delete)
    ensures Tended(Apply(s, Delete))
  {
    var batch, next := s.worker.batch, s.worker.next;
    assert batch[next..] == [batch[next]] + batch[next + 1..];
    IdsConcat([batch[next]], batch[next + 1..]);
    assert [batch[next]][..0] == [];
  }

  lemma StepTended(s: State, a: Action)
    requires Consistent(s) && NoLostWakeup(s) && Enabled(s, a)
    ensures NoLostWakeup(Apply(s, a))
  {
    if a.Select? {
      SelectTended(s, a.batch);
    } else if a.Delete? {
      if Tended(s) {
        DeleteTended(s);
      }
    }
  }

  lemma {:induction false} RunTended(s: State, acts: seq<Action>, t: State)
    requires Consistent(s) && NoLostWakeup(s) && Exec(s, acts, t)
    ensures NoLostWakeup(t)
    decreases |acts|
  {
    if acts != [] {
      StepConsistent(s, acts[0]);
      StepTended(s, acts[0]);
      RunTended(Apply(s, acts[0]), acts[1..], t);
    }
  }

  /** In every reachable state with no error or hook-bypassing commit since the last SELECT, and no stop, a
      committed record is tended to; in particular a sleeping worker without a signal means an empty table. */
  lemma NoRecordIsForgotten(limit: nat, acts: seq<Action>, s: State)
    requires Exec(Init(limit), acts, s) && !s.lapsed && !s.stopping
    ensures Tended(s)
    ensures s.worker.Sleeping? && !s.token && s.hooks == 0 ==> s.table == map[]
  {
    RunTended(Init(limit), acts, s);
  }

  lemma EmptyRound(limit: nat, acts: seq<Action>, s: State) returns (acts': seq<Action>, t: State)
    requires limit > 0 && s.limit == limit && Exec(Init(limit), acts, s) && s.worker.Ready? && s.table == map[]
    ensures Exec(Init(limit), acts', t) && t == s.(worker := Sleeping, lapsed := false)
  {
    acts', t := Then(Init(limit), acts, s, Select([]));
    acts', t := Then(Init(limit), acts', t, EndBatch);
  }

  /** A transaction opened outside WithinTransaction signals before it commits, so the worker can use the signal
      up on an empty table and then sleep on the record. */
  lemma ExternalTransactionCanStrand(limit: nat, r: Record) returns (acts: seq<Action>, t: State)
    requires limit > 0
    ensures Exec(Init(limit), acts, t) && !t.stopping
    ensures t.table == map[r.id := r] && !Tended(t)
  {
    acts, t := EmptyRound(limit, [], Init(limit));
    acts, t := Then(Init(limit), acts, t, ExternalNotify);
    acts, t := Then(Init(limit), acts, t, Wake);
    acts, t := EmptyRound(limit, acts, t);
    assert [r][..0] == [];
    assert Insert(map[], [r]) == map[r.id := r];
    acts, t := Then(Init(limit), acts, t, ExternalCommit([r]));
  }
}
