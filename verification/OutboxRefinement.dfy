/** The outbox worker's code refines the protocol: every batch, and every drain, is a run of the transition system. */
module OutboxRefinement {
  import opened Types
  import opened OutboxTable
  import W = OutboxWorker
  import O = OutboxProtocol
  import OS = OutboxSafety

  /** What a drain adds to the log of publications: the records it handed over, with what was committed then. */
  function Handed(recs: seq<Record>, known: set<Id>): seq<O.Publication> {
    if recs == [] then [] else Handed(recs[..|recs| - 1], known) + [O.Publication(recs[|recs| - 1], known)]
  }

  lemma {:induction false} HandedConcat(a: seq<Record>, b: seq<Record>, known: set<Id>)
    ensures Handed(a + b, known) == Handed(a, known) + Handed(b, known)
  {
    if b == [] {
      assert a + b == a;
    } else {
      assert (a + b)[..|a + b| - 1] == a + b[..|b| - 1];
      HandedConcat(a, b[..|b| - 1], known);
    }
  }

  /** The state in which the batch was selected, after its first `p` records were published and `d` deleted. */
  function Progress(s: O.State, batch: seq<Record>, p: nat, d: nat, w: O.Worker): O.State
    requires d <= p <= |batch|
  {
    s.(worker := w,
       table := s.table - Ids(batch[..d]),
       deleted := s.deleted + Ids(batch[..d]),
       log := s.log + Handed(batch[..p], s.committed.Keys),
       lapsed := false)
  }

  lemma NothingYet(s: O.State, batch: seq<Record>)
    ensures s.table - Ids(batch[..0]) == s.table && s.deleted + Ids(batch[..0]) == s.deleted
    ensures s.log + Handed(batch[..0], s.committed.Keys) == s.log
  {
    assert batch[..0] == [];
  }

  lemma OneMore(s: O.State, batch: seq<Record>, k: nat)
    requires k < |batch|
    ensures Ids(batch[..k + 1]) == Ids(batch[..k]) + {batch[k].id}
    ensures s.table - Ids(batch[..k + 1]) == s.table - Ids(batch[..k]) - {batch[k].id}
    ensures Handed(batch[..k + 1], s.committed.Keys)
      == Handed(batch[..k], s.committed.Keys) + [O.Publication(batch[k], s.committed.Keys)]
  {
    assert batch[..k + 1][..k] == batch[..k];
  }

  /** The first `k` records of a batch, published and deleted one by one. */
  lemma {:induction false} RecordsRun(s: O.State, batch: seq<Record>, k: nat) returns (acts: seq<O.Action>, t: O.State)
    requires s.worker.Ready? && IsBatch(s.table, s.limit, batch) && k <= |batch|
    ensures O.Exec(s, acts, t) && t == Progress(s, batch, k, k, O.Publishing(batch, k, s.committed.Keys))
    decreases k
  {
    if k == 0 {
      acts, t := O.Then(s, [], s, O.Select(batch));
      NothingYet(s, batch);
    } else {
      acts, t := RecordsRun(s, batch, k - 1);
      acts, t := PublishOne(s, batch, k - 1, acts, t);
      acts, t := O.Then(s, acts, t, O.Delete);
      OneMore(s, batch, k - 1);
    }
  }

  lemma LogMore(s: O.State, batch: seq<Record>, k: nat)
    requires k < |batch|
    ensures s.log + Handed(batch[..k + 1], s.committed.Keys)
      == s.log + Handed(batch[..k], s.committed.Keys) + [O.Publication(batch[k], s.committed.Keys)]
  {
    OneMore(s, batch, k);
  }

  lemma PublishOne(s: O.State, batch: seq<Record>, k: nat, acts: seq<O.Action>, t: O.State)
    returns (acts': seq<O.Action>, t': O.State)
    requires k < |batch| && O.Exec(s, acts, t) &&
      t == Progress(s, batch, k, k, O.Publishing(batch, k, s.committed.Keys))
    ensures O.Exec(s, acts', t') && t' == Progress(s, batch, k + 1, k, O.Deleting(batch, k, s.committed.Keys))
  {
    LogMore(s, batch, k);
    acts', t' := O.Then(s, acts, t, O.Publish);
  }

  function AfterRound(r: W.Round, limit: nat): O.Worker {
    if W.Errs(r) then O.Backoff else if |r.batch| < limit then O.Sleeping else O.Ready
  }

  /** The state after a round has the code's table and has published what the code published. */
  ghost predicate Follows(s: O.State, t: O.State, sent: seq<Record>, gone: set<Id>, w: O.Worker) {
    && t.worker == w && t.table == s.table - gone && t.deleted == s.deleted + gone
    && t.log == s.log + Handed(sent, s.committed.Keys)
    && t.committed == s.committed && t.limit == s.limit
  }

  lemma WholeBatchIsRun(s: O.State, r: W.Round) returns (acts: seq<O.Action>, t: O.State)
    requires s.worker.Ready? && IsBatch(s.table, s.limit, r.batch) && !W.Errs(r)
    ensures O.Exec(s, acts, t) && Follows(s, t, W.Taken(r), Ids(W.Gone(r)), AfterRound(r, s.limit))
  {
    acts, t := RecordsRun(s, r.batch, |r.batch|);
    acts, t := O.Then(s, acts, t, O.EndBatch);
  }

  /** The publication of record `k` fails, or only its acknowledgement is lost. */
  lemma PublishFaultIsRun(s: O.State, batch: seq<Record>, k: nat, ackLost: bool)
    returns (acts: seq<O.Action>, t: O.State)
    requires s.worker.Ready? && IsBatch(s.table, s.limit, batch) && k < |batch|
    ensures O.Exec(s, acts, t)
    ensures Follows(s, t, batch[..if ackLost then k + 1 else k], Ids(batch[..k]), O.Backoff)
  {
    acts, t := RecordsRun(s, batch, k);
    OneMore(s, batch, k);
    if ackLost {
      acts, t := O.Then(s, acts, t, O.PublishAckLost);
    } else {
      acts, t := O.Then(s, acts, t, O.PublishFails);
    }
  }

  /** Record `k` is published, and its deletion fails or only the acknowledgement of that is lost. */
  lemma DeleteFaultIsRun(s: O.State, batch: seq<Record>, k: nat, ackLost: bool)
    returns (acts: seq<O.Action>, t: O.State)
    requires s.worker.Ready? && IsBatch(s.table, s.limit, batch) && k < |batch|
    ensures O.Exec(s, acts, t)
    ensures Follows(s, t, batch[..k + 1], Ids(batch[..if ackLost then k + 1 else k]), O.Backoff)
  {
    acts, t := RecordsRun(s, batch, k);
    acts, t := PublishOne(s, batch, k, acts, t);
    OneMore(s, batch, k);
    if ackLost {
      acts, t := O.Then(s, acts, t, O.DeleteAckLost);
    } else {
      acts, t := O.Then(s, acts, t, O.DeleteFails);
    }
  }

  /** What each fault leaves published and deleted. */
  lemma FaultCounts(r: W.Round) returns (k: nat)
    requires W.Errs(r) && !r.fault.SelectFails?
    ensures !r.fault.NoFault? && k == r.fault.at < |r.batch|
    ensures W.Taken(r) == r.batch[..if r.fault.PublishFails? then k else k + 1]
    ensures W.Gone(r) == r.batch[..if r.fault.DeleteAckLost? then k + 1 else k]
  {
    k := r.fault.at;
  }

  lemma FaultIsRun(s: O.State, r: W.Round) returns (acts: seq<O.Action>, t: O.State)
    requires s.worker.Ready? && IsBatch(s.table, s.limit, r.batch) && W.Errs(r) && !r.fault.SelectFails?
    ensures O.Exec(s, acts, t) && Follows(s, t, W.Taken(r), Ids(W.Gone(r)), O.Backoff)
  {
    var k := FaultCounts(r);
    if r.fault.PublishFails? || r.fault.PublishAckLost? {
      acts, t := PublishFaultIsRun(s, r.batch, k, r.fault.PublishAckLost?);
    } else {
      acts, t := DeleteFaultIsRun(s, r.batch, k, r.fault.DeleteAckLost?);
    }
  }

  /** One batch of the code, whatever fails in it, is a run of the protocol. */
  lemma BatchIsRun(s: O.State, r: W.Round) returns (acts: seq<O.Action>, t: O.State)
    requires s.worker.Ready? && if r.fault.SelectFails? then r.batch == [] else IsBatch(s.table, s.limit, r.batch)
    ensures O.Exec(s, acts, t) && Follows(s, t, W.Taken(r), Ids(W.Gone(r)), AfterRound(r, s.limit))
  {
    if r.fault.SelectFails? {
      acts, t := O.Then(s, [], s, O.SelectFails);
    } else if W.Errs(r) {
      acts, t := FaultIsRun(s, r);
    } else {
      acts, t := WholeBatchIsRun(s, r);
    }
  }

  /** The ids a drain deletes. */
  function GoneIds(trace: seq<W.Round>): set<Id> {
    if trace == [] then {} else GoneIds(trace[..|trace| - 1]) + Ids(W.Gone(trace[|trace| - 1]))
  }

  lemma {:induction false} AfterIsGone(table: Outbox, trace: seq<W.Round>)
    ensures W.After(table, trace) == table - GoneIds(trace)
  {
    if trace != [] {
      AfterIsGone(table, trace[..|trace| - 1]);
    }
  }

  lemma FollowsOn(s: O.State, m: O.State, t: O.State, sent: seq<Record>, more: seq<Record>, gone: set<Id>, off: set<Id>,
                  v: O.Worker, w: O.Worker)
    requires Follows(s, m, sent, gone, v) && Follows(m, t, more, off, w)
    ensures Follows(s, t, sent + more, gone + off, w)
  {
    HandedConcat(sent, more, s.committed.Keys);
    assert s.table - gone - off == s.table - (gone + off);
  }

  lemma OneMoreBatch(s: O.State, m: O.State, before: seq<W.Round>, r: W.Round, acts: seq<O.Action>)
    returns (acts': seq<O.Action>, t: O.State)
    requires O.Exec(s, acts, m) && Follows(s, m, W.Sent(before), GoneIds(before), O.Ready)
    requires if r.fault.SelectFails? then r.batch == [] else IsBatch(m.table, s.limit, r.batch)
    ensures O.Exec(s, acts', t)
    ensures Follows(s, t, W.Sent(before) + W.Taken(r), GoneIds(before) + Ids(W.Gone(r)), AfterRound(r, s.limit))
  {
    var more;
    more, t := BatchIsRun(m, r);
    FollowsOn(s, m, t, W.Sent(before), W.Taken(r), GoneIds(before), Ids(W.Gone(r)), O.Ready, AfterRound(r, s.limit));
    O.ExecConcat(s, acts, m, more, t);
    acts' := acts + more;
  }

  lemma {:induction false} GoingIsRun(s: O.State, trace: seq<W.Round>, faults: nat -> W.Fault, stops: nat -> bool)
    returns (acts: seq<O.Action>, t: O.State)
    requires s.worker.Ready? && W.Plausible(s.table, trace, s.limit) && W.Going(trace, faults, stops, s.limit)
    ensures O.Exec(s, acts, t) && Follows(s, t, W.Sent(trace), GoneIds(trace), O.Ready)
  {
    if trace == [] {
      acts, t := [], s;
    } else {
      var n := |trace| - 1;
      acts, t := GoingIsRun(s, trace[..n], faults, stops);
      AfterIsGone(s.table, trace[..n]);
      acts, t := OneMoreBatch(s, t, trace[..n], trace[n], acts);
    }
  }

  /** Where the end of a drain leaves the worker: stopped at the top of its loop, or as its last batch leaves it. */
  ghost function EndPosition(trace: seq<W.Round>, faults: nat -> W.Fault, stops: nat -> bool, limit: nat): O.Worker
    requires W.Complete(trace, faults, stops, limit)
  {
    if W.Going(trace, faults, stops, limit) && stops(|trace|) then O.Ready else AfterRound(trace[|trace| - 1], limit)
  }

  /** A whole drain of the code is a run of the protocol: with the table it leaves, its publications and deletions,
      and the worker ready to be stopped, backing off from an error, or asleep. So the results about runs hold of
      it. */
  lemma DrainIsRun(s: O.State, trace: seq<W.Round>, faults: nat -> W.Fault, stops: nat -> bool)
    returns (acts: seq<O.Action>, t: O.State)
    requires s.worker.Ready? && W.Plausible(s.table, trace, s.limit) && W.Complete(trace, faults, stops, s.limit)
    ensures O.Exec(s, acts, t) && t.table == W.After(s.table, trace)
    ensures Follows(s, t, W.Sent(trace), GoneIds(trace), EndPosition(trace, faults, stops, s.limit))
  {
    AfterIsGone(s.table, trace);
    if W.Going(trace, faults, stops, s.limit) && stops(|trace|) {
      acts, t := GoingIsRun(s, trace, faults, stops);
    } else {
      var n := |trace| - 1;
      acts, t := GoingIsRun(s, trace[..n], faults, stops);
      AfterIsGone(s.table, trace[..n]);
      acts, t := OneMoreBatch(s, t, trace[..n], trace[n], acts);
    }
  }

  lemma {:induction false} HandedAt(recs: seq<Record>, known: set<Id>, k: nat)
    requires k < |recs|
    ensures |Handed(recs, known)| == |recs| && Handed(recs, known)[k] == O.Publication(recs[k], known)
  {
    if |recs| > 1 {
      HandedAt(recs[..|recs| - 1], known, if k < |recs| - 1 then k else 0);
    }
  }

  lemma LogIndex(log: seq<O.Publication>, recs: seq<Record>, known: set<Id>, k: nat)
    requires k < |recs|
    ensures var all := log + Handed(recs, known); |log| + k < |all| && all[|log| + k] == O.Publication(recs[k], known)
  {
    HandedAt(recs, known, k);
  }

  lemma DrainContinues(limit: nat, past: seq<O.Action>, s: O.State, trace: seq<W.Round>, faults: nat -> W.Fault,
                       stops: nat -> bool)
    returns (whole: seq<O.Action>, t: O.State)
    requires O.Exec(O.Init(limit), past, s) && s.worker.Ready?
    requires W.Plausible(s.table, trace, s.limit) && W.Complete(trace, faults, stops, s.limit)
    ensures O.Exec(O.Init(limit), whole, t)
    ensures t.log == s.log + Handed(W.Sent(trace), s.committed.Keys) && t.committed == s.committed
  {
    var acts;
    acts, t := DrainIsRun(s, trace, faults, stops);
    O.ExecConcat(O.Init(limit), past, s, acts, t);
    whole := past + acts;
  }

  /** For one: from any reachable state, with any faults, the code's drain sends a record only after every older
      one that is committed has been published, by an earlier drain (`m` counts into the log) or by this one. */
  lemma DrainKeepsOrder(limit: nat, past: seq<O.Action>, s: O.State, trace: seq<W.Round>, faults: nat -> W.Fault,
                        stops: nat -> bool, k: nat, older: Id)
    returns (m: nat)
    requires O.Exec(O.Init(limit), past, s) && s.worker.Ready?
    requires W.Plausible(s.table, trace, s.limit) && W.Complete(trace, faults, stops, s.limit)
    requires k < |W.Sent(trace)| && older in s.committed
    requires s.committed[older].occurredAt < W.Sent(trace)[k].occurredAt
    ensures m < |s.log| + k
    ensures if m < |s.log| then s.log[m].record.id == older else W.Sent(trace)[m - |s.log|].id == older
  {
    var whole, t := DrainContinues(limit, past, s, trace, faults, stops);
    m := SentInOrder(limit, whole, t, s.log, W.Sent(trace), s.committed.Keys, k, older);
  }

  /** Publication order, for the part of a log that one drain has added. */
  lemma SentInOrder(limit: nat, acts: seq<O.Action>, t: O.State, log: seq<O.Publication>, sent: seq<Record>,
                    known: set<Id>, k: nat, older: Id)
    returns (m: nat)
    requires O.Exec(O.Init(limit), acts, t) && t.log == log + Handed(sent, known)
    requires k < |sent| && older in known && older in t.committed && t.committed[older].occurredAt < sent[k].occurredAt
    ensures m < |log| + k
    ensures if m < |log| then log[m].record.id == older else sent[m - |log|].id == older
  {
    LogIndex(log, sent, known, k);
    m := OS.PublicationOrder(limit, acts, t, |log| + k, older);
    if m >= |log| {
      LogIndex(log, sent, known, m - |log|);
    }
  }
}
