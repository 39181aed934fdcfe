/** The SQL command execution store: each method runs one statement on a transaction or on the database. */
module ExecutionStore {
  import opened Types
  import opened Database
  import T = ExecutionTable

  class SQLCommandExecutionStore {
    const db: Conn

    constructor (db: Conn)
      ensures this.db == db
    {
      this.db := db;
    }

    /** A nil transaction means the statement runs on the database and is committed at once. */
    function Target(tx: Conn?): Conn {
      if tx != null then tx else db
    }

    /** `fails` stands for a database error; the statement then has no effect. */
    method RecordPending(tx: Conn?, id: Id, name: string, payload: string, now: nat, fails: bool) returns (ok: bool)
      modifies Target(tx)
      ensures ok == !fails
      ensures Target(tx).state == old(Target(tx).state).(
        rows := if fails then old(Target(tx).state.rows)
                else T.RecordPending(old(Target(tx).state.rows), id, name, payload, now))
      ensures ok ==> T.Recorded(old(Target(tx).state.rows), Target(tx).state.rows, id, name, payload, now)
    {
      if fails {
        return false;
      }
      var conn := Target(tx);
      conn.state := conn.state.(rows := T.RecordPending(conn.state.rows, id, name, payload, now));
      return true;
    }

    method RecordStarted(tx: Conn?, id: Id, handler: string, now: nat, fails: bool) returns (ok: bool)
      modifies Target(tx)
      ensures ok == !fails
      ensures Target(tx).state == old(Target(tx).state).(
        rows := if fails then old(Target(tx).state.rows)
                else T.RecordStarted(old(Target(tx).state.rows), id, handler, now))
      ensures ok ==> var before, after := old(Target(tx).state.rows), Target(tx).state.rows;
        && T.OthersKept(before, after, id) && id in after
        && after[id].handler == handler && after[id].status == Pending
        && after[id].startedAt == now && after[id].finishedAt.None? && after[id].error.None?
        && after[id].name == (if id in before then before[id].name else "")
        && after[id].payload == if id in before then before[id].payload else ""
    {
      if fails {
        return false;
      }
      var conn := Target(tx);
      conn.state := conn.state.(rows := T.RecordStarted(conn.state.rows, id, handler, now));
      return true;
    }

    method RecordSuccess(tx: Conn?, id: Id, now: nat, fails: bool) returns (ok: bool)
      modifies Target(tx)
      ensures ok == !fails
      ensures Target(tx).state == old(Target(tx).state).(
        rows := if fails then old(Target(tx).state.rows) else T.RecordSuccess(old(Target(tx).state.rows), id, now))
      ensures ok ==> var before, after := old(Target(tx).state.rows), Target(tx).state.rows;
        && T.OthersKept(before, after, id) && after.Keys == before.Keys
        && (id in before ==> after[id] == before[id].(status := Success, finishedAt := Some(now)))
    {
      if fails {
        return false;
      }
      var conn := Target(tx);
      conn.state := conn.state.(rows := T.RecordSuccess(conn.state.rows, id, now));
      return true;
    }

    method RecordFailure(tx: Conn?, id: Id, error: string, now: nat, fails: bool) returns (ok: bool)
      modifies Target(tx)
      ensures ok == !fails
      ensures Target(tx).state == old(Target(tx).state).(
        rows := if fails then old(Target(tx).state.rows)
                else T.RecordFailure(old(Target(tx).state.rows), id, error, now))
      ensures ok ==> var before, after := old(Target(tx).state.rows), Target(tx).state.rows;
        && T.OthersKept(before, after, id) && after.Keys == before.Keys
        && (id in before ==> after[id] == before[id].(status := Failed, error := Some(error), finishedAt := Some(now)))
    {
      if fails {
        return false;
      }
      var conn := Target(tx);
      conn.state := conn.state.(rows := T.RecordFailure(conn.state.rows, id, error, now));
      return true;
    }

    /** None stands for "no such row"; the SELECT takes no lock. */
    method GetStatus(tx: Conn?, id: Id) returns (status: Option<Status>)
      ensures status.Some? <==> id in Target(tx).state.rows
      ensures status.Some? ==> status.value == Target(tx).state.rows[id].status
    {
      var rows := Target(tx).state.rows;
      status := if id in rows then Some(rows[id].status) else None;
    }

    /** The earliest pending row; with ties any of them. */
    method GetNextPending(tx: Conn?) returns (next: Option<Id>)
      ensures next.None? <==> T.PendingIds(Target(tx).state.rows) == {}
      ensures next.Some? ==> T.IsNext(Target(tx).state.rows, {}, next.value)
    {
      var rows := Target(tx).state.rows;
      if T.PendingIds(rows) == {} {
        return None;
      }
      ghost var witnessId := T.NextExists(rows, {});
      var id :| id in rows && T.IsNext(rows, {}, id);
      return Some(id);
    }

    method CountPending(tx: Conn?) returns (count: nat)
      ensures count == |T.PendingIds(Target(tx).state.rows)|
    {
      count := |T.PendingIds(Target(tx).state.rows)|;
    }
  }
}
