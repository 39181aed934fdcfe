/** Without errors, a drain is a left fold of the handlers over the pending commands in started_at order. */
module DrainFold {
  import opened Types
  import opened Database
  import opened CommandProcessing
  import opened DrainRounds
  import T = ExecutionTable

  /** What the commands act on: the handlers' own tables and the outbox. */
  datatype World = World(domain: Domain, outbox: Outbox)

  function WorldOf(db: Db): World {
    World(db.domain, db.outbox)
  }

  /** One command, as its row names it: a handler that fails acts as the identity. */
  function Effect(w: World, row: Row, handlers: Handlers, env: Env): World {
    if row.name !in handlers then w
    else
      match Try(w.domain, w.outbox, handlers[row.name], row.payload, env.stamps)
      case Done(domain, outbox, _) => World(domain, outbox)
      case Aborted(_) => w
  }

  function Verdict(w: World, row: Row, handlers: Handlers, env: Env): Status {
    if row.name in handlers && Try(w.domain, w.outbox, handlers[row.name], row.payload, env.stamps).Done?
    then Success else Failed
  }

  /** The left fold over the rows of a fixed table; round i + k meets envs(i + k). */
  function Fold(w: World, rows: Table, order: seq<Id>, handlers: Handlers, envs: nat -> Env, i: nat): World
    requires forall id | id in order :: id in rows
    decreases |order|
  {
    if order == [] then w
    else Fold(Effect(w, rows[order[0]], handlers, envs(i)), rows, order[1..], handlers, envs, i + 1)
  }

  function Verdicts(w: World, rows: Table, order: seq<Id>, handlers: Handlers, envs: nat -> Env, i: nat)
    : (r: seq<Status>)
    requires forall id | id in order :: id in rows
    ensures |r| == |order|
    decreases |order|
  {
    if order == [] then []
    else
      [Verdict(w, rows[order[0]], handlers, envs(i))] +
      Verdicts(Effect(w, rows[order[0]], handlers, envs(i)), rows, order[1..], handlers, envs, i + 1)
  }

  ghost predicate SameOn(a: Table, b: Table, order: seq<Id>) {
    forall id | id in order :: id in a && id in b && a[id] == b[id]
  }

  /** The fold depends on the rows it runs only. */
  lemma {:induction false} FoldAgrees(w: World, a: Table, b: Table, order: seq<Id>, handlers: Handlers,
                                      envs: nat -> Env, i: nat)
    requires SameOn(a, b, order)
    ensures Fold(w, a, order, handlers, envs, i) == Fold(w, b, order, handlers, envs, i)
    ensures Verdicts(w, a, order, handlers, envs, i) == Verdicts(w, b, order, handlers, envs, i)
    decreases |order|
  {
    if order != [] {
      assert order[0] in order;
      FoldAgrees(Effect(w, a[order[0]], handlers, envs(i)), a, b, order[1..], handlers, envs, i + 1);
    }
  }

  /** Every pending command has a handler and a payload that handler can decode. */
  ghost predicate Runnable(rows: Table, handlers: Handlers) {
    forall id | id in T.PendingIds(rows) ::
      rows[id].name in handlers && handlers[rows[id].name].decodes(rows[id].payload)
  }

  ghost predicate AllClean(envs: nat -> Env) {
    forall i :: Clean(envs(i))
  }

  /** One clean round in terms of the fold. */
  lemma CleanRound(db: Db, id: Id, handlers: Handlers, env: Env)
    requires Clean(env) && Runnable(db.rows, handlers) && id in T.PendingIds(db.rows)
    ensures var out := Process(db, Some(id), handlers, env);
      && out.processed && !out.err
      && WorldOf(out.db) == Effect(WorldOf(db), db.rows[id], handlers, env)
      && out.db.rows.Keys == db.rows.Keys
      && out.db.rows[id].status == Verdict(WorldOf(db), db.rows[id], handlers, env)
      && (forall other | other in db.rows && other != id :: out.db.rows[other] == db.rows[other])
      && T.PendingIds(out.db.rows) == T.PendingIds(db.rows) - {id}
  {
    SettledExactly(db, id, handlers, env);
    AllOrNothing(db, id, handlers, env);
  }

  lemma RunnableStays(db: Db, id: Id, handlers: Handlers, env: Env)
    requires Clean(env) && Runnable(db.rows, handlers) && id in T.PendingIds(db.rows)
    ensures Runnable(Process(db, Some(id), handlers, env).db.rows, handlers)
  {
    CleanRound(db, id, handlers, env);
  }

  /** The first of several clean rounds, and the rest of them. */
  lemma FirstRound(db: Db, order: seq<Id>, handlers: Handlers, envs: nat -> Env, i: nat, mid: Db) returns (next: Db)
    requires Claims(db, order, handlers, envs, i, mid) && AllClean(envs) && Runnable(db.rows, handlers) && order != []
    ensures Claims(next, order[1..], handlers, envs, i + 1, mid) && Runnable(next.rows, handlers)
    ensures T.IsNext(db.rows, {}, order[0]) && OnlySettles(db.rows, order[0], next.rows)
    ensures WorldOf(next) == Effect(WorldOf(db), db.rows[order[0]], handlers, envs(i))
    ensures next.rows[order[0]].status == Verdict(WorldOf(db), db.rows[order[0]], handlers, envs(i))
  {
    next := Process(db, Some(order[0]), handlers, envs(i)).db;
    CleanRound(db, order[0], handlers, envs(i));
    RunnableStays(db, order[0], handlers, envs(i));
  }

  /** What a clean round on `id` leaves alone. */
  ghost predicate OnlySettles(before: Table, id: Id, after: Table) {
    && id in T.PendingIds(before)
    && after.Keys == before.Keys
    && (forall other | other in before && other != id :: after[other] == before[other])
    && T.PendingIds(after) == T.PendingIds(before) - {id}
  }

  /** No command twice, and each one no later by started_at than all that follow it. */
  ghost predicate InStartedOrder(rows: Table, order: seq<Id>)
    requires forall id | id in order :: id in rows
  {
    order != [] ==>
      && order[0] !in order[1..]
      && (forall id | id in order[1..] :: rows[order[0]].startedAt <= rows[id].startedAt)
      && InStartedOrder(rows, order[1..])
  }

  lemma {:induction false} InOrderAgrees(a: Table, b: Table, order: seq<Id>)
    requires SameOn(a, b, order) && InStartedOrder(a, order)
    ensures InStartedOrder(b, order)
  {
    if order != [] {
      assert order[0] in order;
      InOrderAgrees(a, b, order[1..]);
    }
  }

  function Elements(order: seq<Id>): set<Id> {
    set id | id in order
  }

  /** A stretch of clean rounds claims distinct pending commands, earliest first, and leaves all others alone. */
  ghost predicate SettlesInOrder(before: Table, order: seq<Id>, after: Table) {
    && (forall id | id in order :: id in T.PendingIds(before))
    && InStartedOrder(before, order)
    && after.Keys == before.Keys
    && (forall other | other in before && other !in order :: after[other] == before[other])
    && T.PendingIds(after) == T.PendingIds(before) - Elements(order)
  }

  lemma ElementsSplit(order: seq<Id>)
    requires order != []
    ensures Elements(order) == {order[0]} + Elements(order[1..])
    ensures forall id :: id in order <==> id == order[0] || id in order[1..]
  {
    assert order == [order[0]] + order[1..];
  }

  /** The rest of the drain sees the other commands just as they were, and leaves the first one as it is. */
  lemma RestUntouched(before: Table, first: Id, rest: seq<Id>, mid: Table, after: Table)
    requires OnlySettles(before, first, mid) && SettlesInOrder(mid, rest, after)
    ensures first !in rest && SameOn(mid, before, rest)
    ensures first in after && after[first] == mid[first]
  {
    assert first !in T.PendingIds(mid);
  }

  /** The set facts of SettlesInOrder, from the first round and the rest of the drain. */
  lemma OneThenAllSets(before: Table, first: Id, rest: seq<Id>, mid: Table, after: Table)
    requires OnlySettles(before, first, mid) && first !in rest && SettlesInOrder(mid, rest, after)
    ensures T.PendingIds(after) == T.PendingIds(before) - ({first} + Elements(rest))
    ensures forall other | other in before && other != first && other !in rest :: after[other] == before[other]
    ensures forall id | id in rest :: id in T.PendingIds(before)
  {
  }

  /** The order facts: the first claim was the earliest of all pending commands. */
  lemma OneThenAllOrder(before: Table, order: seq<Id>, mid: Table)
    requires order != [] && T.IsNext(before, {}, order[0])
    requires order[0] !in order[1..] && forall id | id in order[1..] :: id in T.PendingIds(before)
    requires SameOn(mid, before, order[1..]) && InStartedOrder(mid, order[1..])
    ensures forall id | id in order :: id in T.PendingIds(before)
    ensures InStartedOrder(before, order)
  {
    ElementsSplit(order);
    InOrderAgrees(mid, before, order[1..]);
  }

  lemma OneThenAll(before: Table, order: seq<Id>, mid: Table, after: Table)
    requires order != [] && OnlySettles(before, order[0], mid) && T.IsNext(before, {}, order[0])
    requires SettlesInOrder(mid, order[1..], after)
    ensures SettlesInOrder(before, order, after)
  {
    RestUntouched(before, order[0], order[1..], mid, after);
    OneThenAllSets(before, order[0], order[1..], mid, after);
    OneThenAllOrder(before, order, mid);
    ElementsSplit(order);
  }

  lemma {:induction false} ClaimedOnce(db: Db, order: seq<Id>, handlers: Handlers, envs: nat -> Env, i: nat, mid: Db)
    requires Claims(db, order, handlers, envs, i, mid) && AllClean(envs) && Runnable(db.rows, handlers)
    ensures SettlesInOrder(db.rows, order, mid.rows)
    decreases |order|
  {
    if order == [] {
      NothingSettled(db.rows);
    } else {
      var next := FirstRound(db, order, handlers, envs, i, mid);
      ClaimedOnce(next, order[1..], handlers, envs, i + 1, mid);
      OneThenAll(db.rows, order, next.rows, mid.rows);
    }
  }

  lemma NothingSettled(rows: Table)
    ensures SettlesInOrder(rows, [], rows)
  {
  }

  function Statuses(rows: Table, order: seq<Id>): (r: seq<Status>)
    requires forall id | id in order :: id in rows
    ensures |r| == |order|
  {
    seq(|order|, j requires 0 <= j < |order| => rows[order[j]].status)
  }

  lemma StatusesSplit(rows: Table, first: Id, rest: seq<Id>)
    requires first in rows && forall id | id in rest :: id in rows
    ensures forall id | id in [first] + rest :: id in rows
    ensures Statuses(rows, [first] + rest) == [rows[first].status] + Statuses(rows, rest)
  {
  }

  /** The fold over the first command and the rest, from what the first round and the rest of the drain did. */
  lemma FoldSplit(w: World, rows: Table, first: Id, rest: seq<Id>, handlers: Handlers, envs: nat -> Env, i: nat,
                  next: Db, after: Db)
    requires first in rows && first in after.rows && SameOn(next.rows, rows, rest)
    requires forall id | id in rest :: id in after.rows
    requires WorldOf(next) == Effect(w, rows[first], handlers, envs(i))
    requires after.rows[first].status == Verdict(w, rows[first], handlers, envs(i))
    requires WorldOf(after) == Fold(WorldOf(next), next.rows, rest, handlers, envs, i + 1)
    requires Statuses(after.rows, rest) == Verdicts(WorldOf(next), next.rows, rest, handlers, envs, i + 1)
    ensures var order := [first] + rest;
      && (forall id | id in order :: id in rows && id in after.rows)
      && WorldOf(after) == Fold(w, rows, order, handlers, envs, i)
      && Statuses(after.rows, order) == Verdicts(w, rows, order, handlers, envs, i)
  {
    FoldAgrees(WorldOf(next), next.rows, rows, rest, handlers, envs, i + 1);
    StatusesSplit(after.rows, first, rest);
    assert ([first] + rest)[1..] == rest;
  }

  lemma {:induction false} ClaimsFold(db: Db, order: seq<Id>, handlers: Handlers, envs: nat -> Env, i: nat, mid: Db)
    requires Claims(db, order, handlers, envs, i, mid) && AllClean(envs) && Runnable(db.rows, handlers)
    requires forall id | id in order :: id in db.rows
    requires forall id | id in order :: id in mid.rows
    ensures WorldOf(mid) == Fold(WorldOf(db), db.rows, order, handlers, envs, i)
    ensures Statuses(mid.rows, order) == Verdicts(WorldOf(db), db.rows, order, handlers, envs, i)
    decreases |order|
  {
    if order != [] {
      var first, rest := order[0], order[1..];
      assert order == [first] + rest;
      var next := FirstRound(db, order, handlers, envs, i, mid);
      ClaimedOnce(next, rest, handlers, envs, i + 1, mid);
      RestUntouched(db.rows, first, rest, next.rows, mid.rows);
      ClaimsFold(next, rest, handlers, envs, i + 1, mid);
      FoldSplit(WorldOf(db), db.rows, first, rest, handlers, envs, i, next, mid);
    }
  }

  /** The drain as its caller sees it: with every handler registered, every payload decodable and no errors,
      whatever `Drain` returns means that nothing is pending any more, that every pending command was run once
      in started_at order, that the handlers' tables and the outbox are the left fold over the commands as they
      were sent, and that each command carries the verdict the fold gave it. */
  lemma CleanDrainIsFold(db: Db, order: seq<Id>, mid: Db, last: Option<Id>, end: Db, handlers: Handlers,
                         envs: nat -> Env)
    requires Claims(db, order, handlers, envs, 0, mid) && Ends(mid, last, handlers, envs(|order|), end)
    requires AllClean(envs) && Runnable(db.rows, handlers)
    ensures T.PendingIds(end.rows) == {} && T.PendingIds(db.rows) == Elements(order)
    ensures SettlesInOrder(db.rows, order, end.rows)
    ensures WorldOf(end) == Fold(WorldOf(db), db.rows, order, handlers, envs, 0)
    ensures Statuses(end.rows, order) == Verdicts(WorldOf(db), db.rows, order, handlers, envs, 0)
  {
    ClaimedOnce(db, order, handlers, envs, 0, mid);
    AllInTables(db.rows, order, mid.rows);
    ClaimsFold(db, order, handlers, envs, 0, mid);
    CleanEnd(db, order, mid, last, end, handlers, envs);
    NothingElsePending(db.rows, order, mid.rows);
  }

  lemma AllInTables(before: Table, order: seq<Id>, after: Table)
    requires SettlesInOrder(before, order, after)
    ensures forall id | id in order :: id in before && id in after
  {
    assert forall id | id in order :: id in T.PendingIds(before);
  }

  lemma NothingElsePending(before: Table, order: seq<Id>, after: Table)
    requires SettlesInOrder(before, order, after) && T.PendingIds(after) == {}
    ensures T.PendingIds(before) == Elements(order)
  {
    assert Elements(order) <= T.PendingIds(before);
    forall id | id in T.PendingIds(before) ensures id in Elements(order) {
      assert id in T.PendingIds(after) + Elements(order);
    }
  }

  lemma CleanEnd(db: Db, order: seq<Id>, mid: Db, last: Option<Id>, end: Db, handlers: Handlers, envs: nat -> Env)
    requires SettlesInOrder(db.rows, order, mid.rows) && Ends(mid, last, handlers, envs(|order|), end)
    requires AllClean(envs) && Runnable(db.rows, handlers)
    ensures end == mid && T.PendingIds(mid.rows) == {}
  {
    assert Clean(envs(|order|));
    if last.Some? {
      assert last.value !in order;
      CleanRound(mid, last.value, handlers, envs(|order|));
    }
  }
}
