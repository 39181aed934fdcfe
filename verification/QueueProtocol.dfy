/**
 The command queue as a labelled transition system: any number of worker goroutines, any number of
 concurrent senders and one row-locked table. Each step is one statement that the database or the
 notifier makes atomic; everything a step chooses (which row, whether it fails, the clock) is in its label.
 */
module QueueProtocol {
  import opened Types
  import opened ExecutionTable

  datatype Config = Config(workers: nat, wakeup: bool)

  /** Where one worker goroutine is. In the first four transaction states it holds the lock on row `id`;
      `work` is the row as its transaction sees it and `events` what its handler put in the outbox. */
  datatype Worker =
    | Ready
    | Claimed(id: Id, work: Row)
    | Running(id: Id, work: Row)
    | Handled(id: Id, work: Row, events: seq<Record>)
    | Finished(id: Id, work: Row, events: seq<Record>)
    | Failing(id: Id)
    | Committed
    | Processed
    | Backoff
    | Sleeping
    | Exited

  /** One committed command transaction: its domain effects and outbox rows became visible together. */
  datatype Entry = Entry(id: Id, events: seq<Record>)

  /** `ledger`, `sends`, `overwritten` and `lapsed` are history: committed transactions, recorded sends,
      commands whose success was overwritten by a late failure, and whether a worker gave up on a database
      error, or a Send on one that hid its effect, since some worker last found nothing left to claim. */
  datatype State = State(
    cfg: Config,
    rows: Table,
    workers: seq<Worker>,
    token: bool,
    notifying: nat,
    stopping: bool,
    ledger: seq<Entry>,
    sends: multiset<Id>,
    overwritten: set<Id>,
    lapsed: bool
  )

  /** A Send whose INSERT took effect without its acknowledgement returns an error and signals nobody. */
  datatype Action =
    | Send(id: Id, name: string, payload: string, now: nat, acked: bool)
    | SenderNotify
    | Fetch(w: nat, id: Id)
    | FetchEmpty(w: nat)
    | RecordStarted(w: nat, handler: string, now: nat)
    | HandlerSucceeds(w: nat, events: seq<Record>)
    | HandlerFails(w: nat)
    | RecordSuccess(w: nat, now: nat)
    | Commit(w: nat)
    | CommitAckLost(w: nat)
    | InfraError(w: nat)
    | RecordFailure(w: nat, error: string, now: nat)
    | FailureWriteError(w: nat)
    | NotifyOutbox(w: nat)
    | NotifyPeers(w: nat)
    | EndBackoff(w: nat)
    | Wake(w: nat)
    | Poll(w: nat)
    | Stop
    | Exit(w: nat)
    | Crash

  predicate InTx(p: Worker) {
    p.Claimed? || p.Running? || p.Handled? || p.Finished?
  }

  predicate Holds(p: Worker, id: Id) {
    InTx(p) && p.id == id
  }

  function LockedIds(s: State): set<Id> {
    set w | 0 <= w < |s.workers| && InTx(s.workers[w]) :: s.workers[w].id
  }

  predicate Is(s: State, w: nat) {
    w < |s.workers|
  }

  function Init(cfg: Config): State {
    State(cfg, map[], seq(cfg.workers, _ => Ready), false, 0, false, [], multiset{}, {}, false)
  }

  predicate Enabled(s: State, a: Action) {
    match a
    case Send(id, _, _, _, _) => id !in LockedIds(s)
    case SenderNotify => s.notifying > 0
    case Fetch(w, id) => Is(s, w) && s.workers[w].Ready? && IsNext(s.rows, LockedIds(s), id)
    case FetchEmpty(w) => Is(s, w) && s.workers[w].Ready? && PendingIds(s.rows) <= LockedIds(s)
    case RecordStarted(w, _, _) => Is(s, w) && s.workers[w].Claimed?
    case HandlerSucceeds(w, _) => Is(s, w) && s.workers[w].Running?
    case HandlerFails(w) => Is(s, w) && s.workers[w].Running?
    case RecordSuccess(w, _) => Is(s, w) && s.workers[w].Handled?
    case Commit(w) => Is(s, w) && s.workers[w].Finished?
    case CommitAckLost(w) => Is(s, w) && s.workers[w].Finished?
    case InfraError(w) => Is(s, w) && (s.workers[w].Ready? || InTx(s.workers[w]))
    case RecordFailure(w, _, _) => Is(s, w) && s.workers[w].Failing? && s.workers[w].id !in LockedIds(s)
    case FailureWriteError(w) => Is(s, w) && s.workers[w].Failing?
    case NotifyOutbox(w) => Is(s, w) && s.workers[w].Committed?
    case NotifyPeers(w) => Is(s, w) && s.workers[w].Processed?
    case EndBackoff(w) => Is(s, w) && s.workers[w].Backoff?
    case Wake(w) => Is(s, w) && s.workers[w].Sleeping? && s.cfg.wakeup && s.token
    case Poll(w) => Is(s, w) && s.workers[w].Sleeping?
    case Stop => true
    case Exit(w) => Is(s, w) && (s.workers[w].Ready? || s.workers[w].Sleeping?) && s.stopping
    case Crash => true
  }

  function Goto(s: State, w: nat, p: Worker): State
    requires Is(s, w)
  {
    s.(workers := s.workers[w := p])
  }

  /** The transaction of worker `w` becomes visible: row, domain effects and outbox rows at once. */
  function Install(s: State, w: nat): State
    requires Is(s, w) && s.workers[w].Finished?
  {
    var p := s.workers[w];
    s.(rows := s.rows[p.id := p.work], ledger := s.ledger + [Entry(p.id, p.events)])
  }

  function Apply(s: State, a: Action): State
    requires Enabled(s, a)
  {
    match a
    case Send(id, name, payload, now, acked) =>
      s.(rows := RecordPending(s.rows, id, name, payload, now),
         notifying := if s.cfg.wakeup && acked then s.notifying + 1 else s.notifying,
         sends := s.sends + multiset{id},
         lapsed := s.lapsed || !acked)
    case SenderNotify => s.(notifying := s.notifying - 1, token := true)
    case Fetch(w, id) => Goto(s, w, Claimed(id, s.rows[id]))
    case FetchEmpty(w) => Goto(s, w, Sleeping).(lapsed := false)
    case RecordStarted(w, handler, now) =>
      var p := s.workers[w];
      Goto(s, w, Running(p.id, Started(p.work, handler, now)))
    case HandlerSucceeds(w, events) =>
      var p := s.workers[w];
      Goto(s, w, Handled(p.id, p.work, events))
    case HandlerFails(w) => Goto(s, w, Failing(s.workers[w].id))
    case RecordSuccess(w, now) =>
      var p := s.workers[w];
      Goto(s, w, Finished(p.id, Succeeded(p.work, now), p.events))
    case Commit(w) => Goto(Install(s, w), w, Committed)
    case CommitAckLost(w) => Goto(Install(s, w), w, Backoff).(lapsed := true)
    case InfraError(w) => Goto(s, w, Backoff).(lapsed := true)
    case RecordFailure(w, error, now) =>
      var id := s.workers[w].id;
      Goto(s, w, Processed).(
        rows := ExecutionTable.RecordFailure(s.rows, id, error, now),
        overwritten := if id in s.rows && s.rows[id].status == Success then s.overwritten + {id} else s.overwritten)
    case FailureWriteError(w) => Goto(s, w, Processed)
    case NotifyOutbox(w) => Goto(s, w, Processed)
    case NotifyPeers(w) => Goto(s, w, Ready).(token := s.token || (s.cfg.workers > 1 && s.cfg.wakeup))
    case EndBackoff(w) => Goto(s, w, Sleeping)
    case Wake(w) => Goto(s, w, Ready).(token := false)
    case Poll(w) => Goto(s, w, Ready)
    case Stop => s.(stopping := true)
    case Exit(w) => Goto(s, w, Exited)
    case Crash =>
      s.(workers := seq(|s.workers|, _ => Ready), token := false, notifying := 0, stopping := false, lapsed := false)
  }

  /** A run: the actions `acts`, each enabled in turn, lead from `s` to `t`. */
  ghost predicate Exec(s: State, acts: seq<Action>, t: State)
    decreases |acts|
  {
    if acts == [] then s == t else Enabled(s, acts[0]) && Exec(Apply(s, acts[0]), acts[1..], t)
  }

  lemma {:induction false} ExecSnoc(s: State, acts: seq<Action>, t: State, a: Action)
    requires Exec(s, acts, t) && Enabled(t, a)
    ensures Exec(s, acts + [a], Apply(t, a))
    decreases |acts|
  {
    if acts == [] {
      assert [a][1..] == [];
    } else {
      ExecSnoc(Apply(s, acts[0]), acts[1..], t, a);
      assert (acts + [a])[1..] == acts[1..] + [a];
    }
  }

  /** One more step of a run under construction. */
  lemma Then(s: State, acts: seq<Action>, t: State, a: Action) returns (acts': seq<Action>, t': State)
    requires Exec(s, acts, t) && Enabled(t, a)
    ensures Exec(s, acts', t') && t' == Apply(t, a) && acts' == acts + [a]
  {
    ExecSnoc(s, acts, t, a);
    acts', t' := acts + [a], Apply(t, a);
  }

  lemma {:induction false} ExecConcat(s: State, a: seq<Action>, m: State, b: seq<Action>, t: State)
    requires Exec(s, a, m) && Exec(m, b, t)
    ensures Exec(s, a + b, t)
    decreases |a|
  {
    if a == [] {
      assert a + b == b;
    } else {
      ExecConcat(Apply(s, a[0]), a[1..], m, b, t);
      assert (a + b)[1..] == a[1..] + b;
    }
  }

  /** How many committed transactions ran command `id`. */
  function Commits(ledger: seq<Entry>, id: Id): nat {
    if ledger == [] then 0
    else Commits(ledger[..|ledger| - 1], id) + if ledger[|ledger| - 1].id == id then 1 else 0
  }

  lemma CommitsAppend(ledger: seq<Entry>, e: Entry)
    ensures forall id :: Commits(ledger + [e], id) == Commits(ledger, id) + if e.id == id then 1 else 0
  {
    assert (ledger + [e])[..|ledger|] == ledger;
  }
}
