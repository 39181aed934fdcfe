/**
 Deliveries of one command to the transactional handler as a labelled transition system: any number of them may
 overlap. The status check reads the committed row and locks nothing; RecordStarted takes the row's lock and the
 end of the transaction releases it.
 */
module DeliveryProtocol {
  import opened Types
  import T = ExecutionTable

  /** Where one delivery is. `work` is the row as its transaction sees it; with it goes the lock. A delivery that
      has ended is Idle and may come again. */
  datatype Position =
    | Idle
    | Seen
    | Started(work: Row)
    | Handled(work: Row)
    | Succeeded(work: Row)
    | Failing

  datatype State = State(id: Id, rows: Table, positions: seq<Position>)

  datatype Action =
    | Check(d: nat)
    | Start(d: nat, handler: string, now: nat)
    | HandlerSucceeds(d: nat)
    | HandlerFails(d: nat)
    | RecordSuccess(d: nat, now: nat)
    | Commit(d: nat)
    | CommitAckLost(d: nat)
    | StoreError(d: nat)
    | RecordFailure(d: nat, error: string, now: nat)
    | FailureWriteError(d: nat)
    | Crash

  function Init(id: Id, rows: Table, deliveries: nat): State {
    State(id, rows, seq(deliveries, _ => Idle))
  }

  function StatusIn(rows: Table, id: Id): Option<Status> {
    if id in rows then Some(rows[id].status) else None
  }

  predicate Terminal(status: Option<Status>) {
    status == Some(Success) || status == Some(Failed)
  }

  predicate Done(s: State) {
    Terminal(StatusIn(s.rows, s.id))
  }

  predicate Holds(p: Position) {
    p.Started? || p.Handled? || p.Succeeded?
  }

  /** In its transaction, past a status check that found nothing terminal. */
  predicate InFlight(p: Position) {
    p.Seen? || Holds(p)
  }

  predicate Locked(s: State) {
    exists d :: 0 <= d < |s.positions| && Holds(s.positions[d])
  }

  predicate Enabled(s: State, a: Action) {
    a.Crash? || (a.d < |s.positions| && var p := s.positions[a.d];
      match a
      case Check(_) => p.Idle?
      case Start(_, _, _) => p.Seen? && !Locked(s)
      case HandlerSucceeds(_) => p.Started?
      case HandlerFails(_) => p.Started?
      case RecordSuccess(_, _) => p.Handled?
      case Commit(_) => p.Succeeded?
      case CommitAckLost(_) => p.Succeeded?
      case StoreError(_) => InFlight(p)
      case RecordFailure(_, _, _) => p.Failing? && !Locked(s)
      case FailureWriteError(_) => p.Failing?)
  }

  function Goto(s: State, d: nat, p: Position): State
    requires d < |s.positions|
  {
    s.(positions := s.positions[d := p])
  }

  /** The row as RecordStarted leaves it in the delivery's own transaction. */
  function StartedRow(s: State, handler: string, now: nat): Row {
    T.RecordStarted(s.rows, s.id, handler, now)[s.id]
  }

  function Apply(s: State, a: Action): State
    requires Enabled(s, a)
  {
    match a
    case Check(d) => if Done(s) then s else Goto(s, d, Seen)
    case Start(d, handler, now) => Goto(s, d, Started(StartedRow(s, handler, now)))
    case HandlerSucceeds(d) => Goto(s, d, Handled(s.positions[d].work))
    case HandlerFails(d) => Goto(s, d, Failing)
    case RecordSuccess(d, now) => Goto(s, d, Succeeded(T.Succeeded(s.positions[d].work, now)))
    case Commit(d) => Goto(s, d, Idle).(rows := s.rows[s.id := s.positions[d].work])
    case CommitAckLost(d) => Goto(s, d, Idle).(rows := s.rows[s.id := s.positions[d].work])
    case StoreError(d) => Goto(s, d, Idle)
    case RecordFailure(d, error, now) => Goto(s, d, Idle).(rows := T.RecordFailure(s.rows, s.id, error, now))
    case FailureWriteError(d) => Goto(s, d, Idle)
    case Crash => s.(positions := seq(|s.positions|, _ => Idle))
  }

  ghost predicate Exec(s: State, acts: seq<Action>, t: State)
    decreases |acts|
  {
    if acts == [] then s == t else Enabled(s, acts[0]) && Exec(Apply(s, acts[0]), acts[1..], t)
  }

  lemma {:induction false} ExecSnoc(s: State, acts: seq<Action>, t: State, a: Action)
    requires Exec(s, acts, t) && Enabled(t, a)
    ensures Exec(s, acts + [a], Apply(t, a))
    decreases |acts|
  {
    if acts == [] {
      assert [a][1..] == [];
    } else {
      ExecSnoc(Apply(s, acts[0]), acts[1..], t, a);
      assert (acts + [a])[1..] == acts[1..] + [a];
    }
  }

  lemma Then(s: State, acts: seq<Action>, t: State, a: Action) returns (acts': seq<Action>, t': State)
    requires Exec(s, acts, t) && Enabled(t, a)
    ensures Exec(s, acts', t') && t' == Apply(t, a) && acts' == acts + [a]
  {
    ExecSnoc(s, acts, t, a);
    acts', t' := acts + [a], Apply(t, a);
  }

  /** The state a run is in after its first `k` steps. */
  lemma {:induction false} ExecSplit(s: State, acts: seq<Action>, t: State, k: nat) returns (m: State)
    requires Exec(s, acts, t) && k <= |acts|
    ensures Exec(s, acts[..k], m) && Exec(m, acts[k..], t)
    decreases |acts|
  {
    if k == 0 {
      m := s;
      assert acts[0..] == acts;
    } else {
      m := ExecSplit(Apply(s, acts[0]), acts[1..], t, k - 1);
      assert acts[..k][1..] == acts[1..][..k - 1];
    }
  }
}
