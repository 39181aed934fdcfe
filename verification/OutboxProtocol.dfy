/**
 The outbox worker as a labelled transition system: transactions commit records while one worker selects a
 batch, publishes each record and deletes it afterwards, and any step may fail or be cut off by a crash.
 */
module OutboxProtocol {
  import opened Types
  import opened OutboxTable

  /** `known` is history: the ids that were committed when the batch was selected. */
  datatype Worker =
    | Ready
    | Publishing(batch: seq<Record>, next: nat, known: set<Id>)
    | Deleting(batch: seq<Record>, next: nat, known: set<Id>)
    | Backoff
    | Sleeping
    | Exited

  datatype Publication = Publication(record: Record, known: set<Id>)

  /** `committed`, `deleted`, `log`, `mishaps` and `lapsed` are history: every record ever committed, the ids
      deleted, the publications in order, the failures that hit a record between its publication and its
      deletion, and whether the worker gave up, or a transaction bypassed the hooks, since the last SELECT. */
  datatype State = State(
    limit: nat,
    table: Outbox,
    worker: Worker,
    token: bool,
    hooks: nat,
    stopping: bool,
    committed: Outbox,
    deleted: set<Id>,
    log: seq<Publication>,
    mishaps: multiset<Id>,
    lapsed: bool
  )

  /** A transaction that published something registered a hook. */
  datatype Action =
    | Commit(recs: seq<Record>)
    | RunHook
    | ExternalNotify
    | ExternalCommit(recs: seq<Record>)
    | Select(batch: seq<Record>)
    | SelectFails
    | Publish
    | PublishFails
    | PublishAckLost
    | Delete
    | DeleteFails
    | DeleteAckLost
    | EndBatch
    | EndBackoff
    | Wake
    | Poll
    | Stop
    | Exit
    | Crash

  function Init(limit: nat): State {
    State(limit, map[], Ready, false, 0, false, map[], {}, [], multiset{}, false)
  }

  /** Record ids are fresh: they are generated for each publication. */
  ghost predicate Fresh(s: State, recs: seq<Record>) {
    Distinct(recs) && Ids(recs) !! s.committed.Keys
  }

  predicate Busy(w: Worker) {
    w.Publishing? || w.Deleting?
  }

  ghost predicate Enabled(s: State, a: Action) {
    match a
    case Commit(recs) => Fresh(s, recs)
    case RunHook => s.hooks > 0
    case ExternalNotify => true
    case ExternalCommit(recs) => Fresh(s, recs)
    case Select(batch) => s.worker.Ready? && IsBatch(s.table, s.limit, batch)
    case SelectFails => s.worker.Ready?
    case Publish => s.worker.Publishing? && s.worker.next < |s.worker.batch|
    case PublishFails => s.worker.Publishing? && s.worker.next < |s.worker.batch|
    case PublishAckLost => s.worker.Publishing? && s.worker.next < |s.worker.batch|
    case Delete => s.worker.Deleting? && s.worker.next < |s.worker.batch|
    case DeleteFails => s.worker.Deleting? && s.worker.next < |s.worker.batch|
    case DeleteAckLost => s.worker.Deleting? && s.worker.next < |s.worker.batch|
    case EndBatch => s.worker.Publishing? && s.worker.next == |s.worker.batch|
    case EndBackoff => s.worker.Backoff?
    case Wake => s.worker.Sleeping? && s.token
    case Poll => s.worker.Sleeping?
    case Stop => true
    case Exit => (s.worker.Ready? || s.worker.Sleeping?) && s.stopping
    case Crash => true
  }

  function Current(s: State): Record
    requires Busy(s.worker) && s.worker.next < |s.worker.batch|
  {
    s.worker.batch[s.worker.next]
  }

  function AddRecords(s: State, recs: seq<Record>): State {
    s.(table := Insert(s.table, recs), committed := Insert(s.committed, recs))
  }

  function Published(s: State): State
    requires Busy(s.worker) && s.worker.next < |s.worker.batch|
  {
    s.(log := s.log + [Publication(Current(s), s.worker.known)])
  }

  function Removed(s: State): State
    requires Busy(s.worker) && s.worker.next < |s.worker.batch|
  {
    s.(table := s.table - {Current(s).id}, deleted := s.deleted + {Current(s).id})
  }

  function Apply(s: State, a: Action): State
    requires Enabled(s, a)
  {
    match a
    case Commit(recs) => AddRecords(s, recs).(hooks := if recs == [] then s.hooks else s.hooks + 1)
    case RunHook => s.(hooks := s.hooks - 1, token := true)
    case ExternalNotify => s.(token := true)
    case ExternalCommit(recs) => AddRecords(s, recs).(lapsed := true)
    case Select(batch) => s.(worker := Publishing(batch, 0, s.committed.Keys), lapsed := false)
    case SelectFails => s.(worker := Backoff, lapsed := true)
    case Publish => Published(s).(worker := Deleting(s.worker.batch, s.worker.next, s.worker.known))
    case PublishFails => s.(worker := Backoff, lapsed := true)
    case PublishAckLost =>
      Published(s).(worker := Backoff, mishaps := s.mishaps + multiset{Current(s).id}, lapsed := true)
    case Delete => Removed(s).(worker := Publishing(s.worker.batch, s.worker.next + 1, s.worker.known))
    case DeleteFails => s.(worker := Backoff, mishaps := s.mishaps + multiset{Current(s).id}, lapsed := true)
    case DeleteAckLost => Removed(s).(worker := Backoff, lapsed := true)
    case EndBatch => s.(worker := if |s.worker.batch| < s.limit then Sleeping else Ready)
    case EndBackoff => s.(worker := Sleeping)
    case Wake => s.(worker := Ready, token := false)
    case Poll => s.(worker := Ready)
    case Stop => s.(stopping := true)
    case Exit => s.(worker := Exited)
    case Crash =>
      s.(worker := Ready, token := false, hooks := 0, stopping := false, lapsed := false,
         mishaps := if s.worker.Deleting? && s.worker.next < |s.worker.batch|
                    then s.mishaps + multiset{Current(s).id} else s.mishaps)
  }

  ghost predicate Exec(s: State, acts: seq<Action>, t: State)
    decreases |acts|
  {
    if acts == [] then s == t else Enabled(s, acts[0]) && Exec(Apply(s, acts[0]), acts[1..], t)
  }

  lemma {:induction false} ExecSnoc(s: State, acts: seq<Action>, t: State, a: Action)
    requires Exec(s, acts, t) && Enabled(t, a)
    ensures Exec(s, acts + [a], Apply(t, a))
    decreases |acts|
  {
    if acts == [] {
      assert [a][1..] == [];
    } else {
      ExecSnoc(Apply(s, acts[0]), acts[1..], t, a);
      assert (acts + [a])[1..] == acts[1..] + [a];
    }
  }

  /** One more step of a run under construction. */
  lemma Then(s: State, acts: seq<Action>, t: State, a: Action) returns (acts': seq<Action>, t': State)
    requires Exec(s, acts, t) && Enabled(t, a)
    ensures Exec(s, acts', t') && t' == Apply(t, a)
  {
    ExecSnoc(s, acts, t, a);
    acts', t' := acts + [a], Apply(t, a);
  }

  lemma {:induction false} ExecConcat(s: State, a: seq<Action>, m: State, b: seq<Action>, t: State)
    requires Exec(s, a, m) && Exec(m, b, t)
    ensures Exec(s, a + b, t)
    decreases |a|
  {
    if a == [] {
      assert a + b == b;
    } else {
      ExecConcat(Apply(s, a[0]), a[1..], m, b, t);
      assert (a + b)[1..] == a[1..] + b;
    }
  }

  /** How often record `id` was handed to the publisher. */
  function Publishes(log: seq<Publication>, id: Id): nat {
    if log == [] then 0
    else Publishes(log[..|log| - 1], id) + if log[|log| - 1].record.id == id then 1 else 0
  }

  lemma PublishesAppend(log: seq<Publication>, p: Publication)
    ensures forall id :: Publishes(log + [p], id) == Publishes(log, id) + if p.record.id == id then 1 else 0
  {
    assert (log + [p])[..|log|] == log;
  }

  lemma {:induction false} PublishedAt(log: seq<Publication>, id: Id) returns (k: nat)
    requires Publishes(log, id) > 0
    ensures k < |log| && log[k].record.id == id
  {
    k := |log| - 1;
    if log[k].record.id != id {
      k := PublishedAt(log[..k], id);
    }
  }
}
