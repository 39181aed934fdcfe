/** The command execution table as a value: what each SQL statement of the store does to it. */
module ExecutionTable {
  import opened Counting
  import opened Types

  /** The row an INSERT creates before its own columns are filled in. */
  const BLANK := Row("", "", "", Pending, None, 0, None)

  /** INSERT ... ON CONFLICT DO UPDATE: a re-sent command is pending again but keeps its old handler name. */
  function RecordPending(rows: Table, id: Id, name: string, payload: string, now: nat): Table {
    var row := if id in rows then rows[id] else BLANK;
    rows[id := row.(name := name, payload := payload, status := Pending, startedAt := now,
                    finishedAt := None, error := None)]
  }

  function Started(row: Row, handler: string, now: nat): Row {
    row.(handler := handler, status := Pending, startedAt := now, finishedAt := None, error := None)
  }

  /** INSERT ... ON CONFLICT DO UPDATE: an existing row keeps its name and payload. */
  function RecordStarted(rows: Table, id: Id, handler: string, now: nat): Table {
    rows[id := Started(if id in rows then rows[id] else BLANK, handler, now)]
  }

  function Succeeded(row: Row, now: nat): Row {
    row.(status := Success, finishedAt := Some(now))
  }

  /** UPDATE ... WHERE command_id: nothing happens to an absent row. */
  function RecordSuccess(rows: Table, id: Id, now: nat): Table {
    if id in rows then rows[id := Succeeded(rows[id], now)] else rows
  }

  /** UPDATE ... WHERE command_id: whatever the status was, and nothing happens to an absent row. */
  function RecordFailure(rows: Table, id: Id, error: string, now: nat): Table {
    if id in rows then rows[id := rows[id].(status := Failed, error := Some(error), finishedAt := Some(now))] else rows
  }

  /** A statement about command `id` neither changes, adds nor removes any other row. */
  ghost predicate OthersKept(before: Table, after: Table, id: Id) {
    && (forall other | other in before && other != id :: other in after && after[other] == before[other])
    && (forall other | other in after && other != id :: other in before)
  }

  /** Command `id` is pending under its own name, with its own payload, as sent at `now`; all others are as before. */
  ghost predicate Recorded(before: Table, after: Table, id: Id, name: string, payload: string, now: nat) {
    && OthersKept(before, after, id) && id in after
    && after[id].name == name && after[id].payload == payload && after[id].status == Pending
    && after[id].startedAt == now && after[id].finishedAt.None? && after[id].error.None?
    && after[id].handler == if id in before then before[id].handler else ""
  }

  function PendingIds(rows: Table): set<Id> {
    set id | id in rows && rows[id].status == Pending
  }

  /** `id` may come first in SELECT ... WHERE status = 'pending' ORDER BY started_at, skipping `locked` rows. */
  predicate IsNext(rows: Table, locked: set<Id>, id: Id) {
    && id in PendingIds(rows) - locked
    && forall other | other in PendingIds(rows) - locked :: rows[id].startedAt <= rows[other].startedAt
  }

  /** The SELECT finds a row whenever there is one to find. */
  lemma NextExists(rows: Table, locked: set<Id>) returns (id: Id)
    requires PendingIds(rows) - locked != {}
    ensures IsNext(rows, locked, id)
  {
    id := MinimumExists(PendingIds(rows) - locked, id => if id in rows then rows[id].startedAt else 0);
  }
}
