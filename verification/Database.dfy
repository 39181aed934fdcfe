/** Connections, the one-slot notifier, after-commit hooks and the SQL transaction manager. */
module Database {
  import opened Types

  /** A database handle, or a transaction on it: `state` is what statements run on it see. */
  class Conn {
    var state: Db

    constructor (state: Db)
      ensures this.state == state
    {
      this.state := state;
    }
  }

  /** A channel of capacity one: signals coalesce. */
  class ChannelNotifier {
    var buffered: nat

    ghost predicate Valid()
      reads this
    {
      buffered <= 1
    }

    constructor ()
      ensures Valid() && buffered == 0
    {
      buffered := 0;
    }

    /** A send that does not block when the slot is taken. */
    method Notify()
      requires Valid()
      modifies this
      ensures Valid() && buffered == 1
    {
      if buffered < 1 {
        buffered := buffered + 1;
      }
    }

    /** The receive a worker selects on; it yields one signal however often Notify was called before. */
    method Receive() returns (signalled: bool)
      requires Valid()
      modifies this
      ensures Valid() && buffered == 0
      ensures signalled <==> old(buffered) == 1
    {
      signalled := buffered > 0;
      if signalled {
        buffered := buffered - 1;
      }
    }
  }

  /** A callback: the outbox wake-up, or any other. */
  datatype Hook = WakeOutbox | Callback(tag: nat)

  class TxHooks {
    var afterCommit: seq<Hook>

    constructor ()
      ensures afterCommit == []
    {
      afterCommit := [];
    }
  }

  /** `hooks` is null in a context without an active WithinTransaction. */
  method RegisterAfterCommit(hooks: TxHooks?, fn: Option<Hook>) returns (registered: bool)
    modifies hooks
    ensures registered <==> hooks != null && fn.Some?
    ensures hooks != null ==>
      hooks.afterCommit == if registered then old(hooks.afterCommit) + [fn.value] else old(hooks.afterCommit)
  {
    if fn.None? {
      return false;
    }
    if hooks != null {
      hooks.afterCommit := hooks.afterCommit + [fn.value];
      return true;
    }
    return false;
  }

  /** What COMMIT does: an error can also mean that only the acknowledgement was lost. */
  datatype CommitOutcome = Applied | Refused | AckLost

  /** What the function passed to WithinTransaction does, one call at a time. */
  datatype Op = Exec(statement: Db -> Db) | AfterCommit(fn: Option<Hook>)

  datatype Ending = Returns | Fails | Panics

  datatype TxResult = Ok | Err | Panicked

  /** What the statements of a transaction make of the state it started from. */
  function Play(ops: seq<Op>, state: Db): Db {
    if ops == [] then state
    else
      var before := Play(ops[..|ops| - 1], state);
      match ops[|ops| - 1]
      case Exec(statement) => statement(before)
      case AfterCommit(_) => before
  }

  /** The callbacks registered, in order. */
  function Registered(ops: seq<Op>): seq<Hook> {
    if ops == [] then []
    else
      Registered(ops[..|ops| - 1]) +
      match ops[|ops| - 1]
      case Exec(_) => []
      case AfterCommit(fn) => if fn.Some? then [fn.value] else []
  }

  /** Each callback once, in order, each finding the database in `state`. */
  function RunsIn(hooks: seq<Hook>, state: Db): (r: seq<(Hook, Db)>)
    ensures |r| == |hooks| && forall i | 0 <= i < |hooks| :: r[i].0 == hooks[i] && r[i].1 == state
  {
    seq(|hooks|, i requires 0 <= i < |hooks| => (hooks[i], state))
  }

  class SQLTransactionManager {
    const db: Conn
    const outboxNotifier: ChannelNotifier
    /** The callbacks run so far, each with the committed state it could see. */
    var ran: seq<(Hook, Db)>

    constructor (db: Conn, outboxNotifier: ChannelNotifier)
      ensures this.db == db && this.outboxNotifier == outboxNotifier && ran == []
    {
      this.db := db;
      this.outboxNotifier := outboxNotifier;
      ran := [];
    }

    /** BEGIN: a transaction sees the committed state until it writes; dropping it is a ROLLBACK. */
    method Begin() returns (tx: Conn, hooks: TxHooks)
      ensures fresh(tx) && fresh(hooks)
      ensures tx.state == db.state && hooks.afterCommit == []
    {
      tx := new Conn(db.state);
      hooks := new TxHooks();
    }

    /** COMMIT, and after a successful one the registered callbacks. */
    method Commit(tx: Conn, hooks: TxHooks, outcome: CommitOutcome) returns (ok: bool)
      requires tx != db && outboxNotifier.Valid()
      modifies db, this, outboxNotifier
      ensures outboxNotifier.Valid() && tx.state == old(tx.state) && hooks.afterCommit == old(hooks.afterCommit)
      ensures ok <==> outcome.Applied?
      ensures db.state == if outcome.Refused? then old(db.state) else tx.state
      ensures ran == old(ran) + if ok then RunsIn(hooks.afterCommit, db.state) else []
      ensures outboxNotifier.buffered ==
        if ok && WakeOutbox in hooks.afterCommit then 1 else old(outboxNotifier.buffered)
    {
      if outcome.Refused? {
        return false;
      }
      db.state := tx.state;
      if outcome.AckLost? {
        return false;
      }
      var callbacks := hooks.afterCommit;
      for i := 0 to |callbacks|
        invariant outboxNotifier.Valid() && db.state == tx.state && hooks.afterCommit == callbacks
        invariant ran == old(ran) + RunsIn(callbacks[..i], db.state)
        invariant outboxNotifier.buffered == if WakeOutbox in callbacks[..i] then 1 else old(outboxNotifier.buffered)
      {
        if callbacks[i].WakeOutbox? {
          outboxNotifier.Notify();
        }
        ran := ran + [(callbacks[i], db.state)];
        assert callbacks[..i + 1] == callbacks[..i] + [callbacks[i]];
        assert RunsIn(callbacks[..i + 1], db.state) == RunsIn(callbacks[..i], db.state) + [(callbacks[i], db.state)];
      }
      assert callbacks[..|callbacks|] == callbacks;
      return true;
    }

    /** The callbacks registered while the function ran are called exactly once each, in registration order and
        with the transaction's own writes committed, if it returned and the commit succeeded; none is called
        and nothing is written when it returned an error or panicked. */
    method WithinTransaction(body: seq<Op>, ending: Ending, beginFails: bool, outcome: CommitOutcome)
      returns (result: TxResult)
      requires outboxNotifier.Valid()
      modifies db, this, outboxNotifier
      ensures outboxNotifier.Valid()
      ensures result.Ok? <==> !beginFails && ending.Returns? && outcome.Applied?
      ensures result.Panicked? <==> !beginFails && ending.Panics?
      ensures db.state ==
        if !beginFails && ending.Returns? && !outcome.Refused? then Play(body, old(db.state)) else old(db.state)
      ensures ran == old(ran) + if result.Ok? then RunsIn(Registered(body), db.state) else []
      ensures outboxNotifier.buffered ==
        if result.Ok? && WakeOutbox in Registered(body) then 1 else old(outboxNotifier.buffered)
    {
      if beginFails {
        return Err;
      }
      var tx, hooks := Begin();
      for i := 0 to |body|
        invariant tx != db && tx.state == Play(body[..i], old(db.state))
        invariant hooks.afterCommit == Registered(body[..i])
        invariant db.state == old(db.state) && ran == old(ran) && outboxNotifier.Valid()
        invariant outboxNotifier.buffered == old(outboxNotifier.buffered)
      {
        assert body[..i + 1][..i] == body[..i];
        match body[i] {
          case Exec(statement) =>
            tx.state := statement(tx.state);
          case AfterCommit(fn) =>
            var _ := RegisterAfterCommit(hooks, fn);
        }
      }
      assert body[..|body|] == body;
      match ending {
        case Panics => return Panicked;
        case Fails => return Err;
        case Returns =>
          var ok := Commit(tx, hooks, outcome);
          return if ok then Ok else Err;
      }
    }
  }

  /** Registrations of two consecutive stretches run in that order, and writes do not disturb them. */
  lemma {:induction false} RegisteredConcat(a: seq<Op>, b: seq<Op>)
    ensures Registered(a + b) == Registered(a) + Registered(b)
  {
    if b == [] {
      assert a + b == a;
    } else {
      var n := |b| - 1;
      assert (a + b)[..|a| + n] == a + b[..n];
      RegisteredConcat(a, b[..n]);
    }
  }

  /** A single call does what its name says, and nothing else. */
  lemma OneOp(statement: Db -> Db, fn: Option<Hook>, state: Db)
    ensures Play([], state) == state && Registered([]) == []
    ensures Play([Exec(statement)], state) == statement(state) && Registered([Exec(statement)]) == []
    ensures Play([AfterCommit(fn)], state) == state
    ensures Registered([AfterCommit(fn)]) == if fn.Some? then [fn.value] else []
  {
    assert [Exec(statement)][..0] == [] && [AfterCommit(fn)][..0] == [];
  }

  /** A transaction's second stretch finds what the first one has written. */
  lemma {:induction false} PlayConcat(a: seq<Op>, b: seq<Op>, state: Db)
    ensures Play(a + b, state) == Play(b, Play(a, state))
  {
    if b == [] {
      assert a + b == a;
    } else {
      var n := |b| - 1;
      assert (a + b)[..|a| + n] == a + b[..n];
      PlayConcat(a, b[..n], state);
    }
  }
}
