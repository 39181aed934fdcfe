/** Values shared by every part of the model: table rows, outbox records and the database they live in. */
module Types {

  datatype Option<+T> = None | Some(value: T)

  type Id = string

  /** The three persisted execution states. */
  datatype Status = Pending | Success | Failed

  /** One row of the command execution table; a NULL column is None or the column's default. */
  datatype Row = Row(
    name: string,
    payload: string,
    handler: string,
    status: Status,
    error: Option<string>,
    startedAt: nat,
    finishedAt: Option<nat>
  )

  /** One row of the outbox table. */
  datatype Record = Record(id: Id, topic: string, payload: string, metadata: map<string, string>, occurredAt: nat)

  type Table = map<Id, Row>
  type Outbox = map<Id, Record>
  type Domain = map<string, string>

  /** Everything a database transaction covers: the queue, the handlers' own tables and the outbox. */
  datatype Db = Db(rows: Table, domain: Domain, outbox: Outbox)
}
