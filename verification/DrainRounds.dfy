/** The rounds of a drain: how they follow one another, how they end, and when they end at all. */
module DrainRounds {
  import opened Counting
  import opened Types
  import opened CommandProcessing
  import T = ExecutionTable

  /** The rounds so far: each claimed a command and ended without an error. */
  ghost predicate Claims(db: Db, order: seq<Id>, handlers: Handlers, envs: nat -> Env, i: nat, mid: Db)
    decreases |order|
  {
    if order == [] then mid == db
    else
      && GoesOn(db, order[0], handlers, envs(i))
      && Claims(Process(db, Some(order[0]), handlers, envs(i)).db, order[1..], handlers, envs, i + 1, mid)
  }

  /** A round that claims `id` and ends without an error, so that the loop goes on. */
  ghost predicate GoesOn(db: Db, id: Id, handlers: Handlers, env: Env) {
    && !env.stop && !env.beginFails && !env.fetchFails
    && T.IsNext(db.rows, {}, id)
    && !Process(db, Some(id), handlers, env).err
  }

  /** How a drain ends after those rounds: it is stopped, cannot fetch, finds nothing pending, or claims one more
      command and meets an infrastructure error on it. */
  ghost predicate Ends(mid: Db, last: Option<Id>, handlers: Handlers, env: Env, end: Db) {
    if last.None? then
      end == mid && (env.stop || env.beginFails || env.fetchFails || T.PendingIds(mid.rows) == {})
    else
      && !env.stop && !env.beginFails && !env.fetchFails && T.IsNext(mid.rows, {}, last.value)
      && Process(mid, last, handlers, env).err && end == Process(mid, last, handlers, env).db
  }

  lemma {:induction false} ClaimsSnoc(db: Db, order: seq<Id>, handlers: Handlers, envs: nat -> Env, i: nat, mid: Db,
                                      id: Id)
    requires Claims(db, order, handlers, envs, i, mid)
    requires GoesOn(mid, id, handlers, envs(i + |order|))
    ensures Claims(db, order + [id], handlers, envs, i, Process(mid, Some(id), handlers, envs(i + |order|)).db)
    decreases |order|
  {
    if order == [] {
      assert [id][1..] == [];
    } else {
      var out := Process(db, Some(order[0]), handlers, envs(i));
      ClaimsSnoc(out.db, order[1..], handlers, envs, i + 1, mid, id);
      assert (order + [id])[1..] == order[1..] + [id];
    }
  }

  /** A round never adds a pending command, and one that settles its command takes just that one off. */
  lemma ClaimSettles(db: Db, id: Id, handlers: Handlers, env: Env)
    requires T.IsNext(db.rows, {}, id)
    ensures var after := T.PendingIds(Process(db, Some(id), handlers, env).db.rows);
      && after <= T.PendingIds(db.rows)
      && (id !in after ==> after == T.PendingIds(db.rows) - {id} && |after| < |T.PendingIds(db.rows)|)
  {
    SettledExactly(db, id, handlers, env);
  }

  /** Whatever rows the SELECTs return, the loop ends after at most `bound` rounds that go on. */
  ghost predicate EndsWithin(db: Db, handlers: Handlers, envs: nat -> Env, bound: nat) {
    forall order, mid | Claims(db, order, handlers, envs, 0, mid) :: |order| <= bound
  }

  /** A round that starts a failing handler and cannot record its failure. */
  ghost predicate Unrecorded(db: Db, id: Id, handlers: Handlers, env: Env)
    requires id in db.rows
  {
    && !env.stop && !env.beginFails && !env.fetchFails && !env.startFails && env.failureFails
    && db.rows[id].name in handlers && handlers[db.rows[id].name].decodes(db.rows[id].payload)
    && Try(db.domain, db.outbox, handlers[db.rows[id].name], db.rows[id].payload, env.stamps).Aborted?
  }

  /** The SELECT may return a command whose failure this round cannot record, so that nothing changes. */
  ghost predicate Sticks(db: Db, handlers: Handlers, env: Env) {
    exists id :: T.IsNext(db.rows, {}, id) && Unrecorded(db, id, handlers, env)
  }

  /** From round `n` on every round may be of that kind. */
  ghost predicate SticksFrom(db: Db, handlers: Handlers, envs: nat -> Env, n: nat) {
    forall k: nat | k >= n :: Sticks(db, handlers, envs(k))
  }

  /** No state the loop can get to holds it up for ever. */
  ghost predicate NeverSticks(db: Db, handlers: Handlers, envs: nat -> Env) {
    forall order, mid | Claims(db, order, handlers, envs, 0, mid) :: !SticksFrom(mid, handlers, envs, |order|)
  }

  /** A round of this kind cannot leave its command pending and go on: a failure can be recorded in it, no handler
      fails in it, or it ends the drain. */
  ghost predicate CannotRepeat(handlers: Handlers, env: Env) {
    || !env.failureFails || env.startFails || env.stop || env.beginFails || env.fetchFails
    || forall name, domain, outbox, payload | name in handlers ::
         Try(domain, outbox, handlers[name], payload, env.stamps).Done?
  }

  ghost function After(mid: Db, id: Id, handlers: Handlers, env: Env): Db
    requires id in mid.rows
  {
    Process(mid, Some(id), handlers, env).db
  }

  /** A round that goes on either settles its command or changes nothing, as its failure went unrecorded. */
  lemma SettledOrStuck(db: Db, id: Id, handlers: Handlers, env: Env)
    requires GoesOn(db, id, handlers, env)
    ensures var next := After(db, id, handlers, env);
      |T.PendingIds(next.rows)| < |T.PendingIds(db.rows)| || (next == db && Sticks(db, handlers, env))
  {
    ClaimSettles(db, id, handlers, env);
    SettledExactly(db, id, handlers, env);
    if id in T.PendingIds(Process(db, Some(id), handlers, env).db.rows) {
      assert Unrecorded(db, id, handlers, env);
    }
  }

  /** A round on a stuck command goes on and changes nothing. */
  lemma StuckGoesOn(db: Db, id: Id, handlers: Handlers, env: Env)
    requires T.IsNext(db.rows, {}, id) && Unrecorded(db, id, handlers, env)
    ensures GoesOn(db, id, handlers, env) && Process(db, Some(id), handlers, env).db == db
  {
    UnrecordedFailureRepeats(db, id, handlers, env);
  }

  lemma StuckRound(db: Db, before: seq<Id>, mid: Db, handlers: Handlers, envs: nat -> Env) returns (more: seq<Id>)
    requires Claims(db, before, handlers, envs, 0, mid) && Sticks(mid, handlers, envs(|before|))
    ensures Claims(db, more, handlers, envs, 0, mid) && |more| == |before| + 1
  {
    var id :| T.IsNext(mid.rows, {}, id) && Unrecorded(mid, id, handlers, envs(|before|));
    StuckGoesOn(mid, id, handlers, envs(|before|));
    ClaimsSnoc(db, before, handlers, envs, 0, mid, id);
    more := before + [id];
  }

  /** While every round may stick, the loop can stay where it is for any number of rounds. */
  lemma {:induction false} StuckRounds(db: Db, order: seq<Id>, mid: Db, handlers: Handlers, envs: nat -> Env, m: nat)
    returns (more: seq<Id>)
    requires Claims(db, order, handlers, envs, 0, mid) && SticksFrom(mid, handlers, envs, |order|)
    ensures Claims(db, more, handlers, envs, 0, mid) && |more| == |order| + m
  {
    if m == 0 {
      more := order;
    } else {
      var before := StuckRounds(db, order, mid, handlers, envs, m - 1);
      more := StuckRound(db, before, mid, handlers, envs);
    }
  }

  /** All stretches of rounds that start from `db` in round `n` have at most `b` rounds. */
  ghost predicate Within(db: Db, handlers: Handlers, envs: nat -> Env, n: nat, b: nat) {
    forall order, end | Claims(db, order, handlers, envs, n, end) :: |order| <= b
  }

  /** If round `n` claims `id` and goes on, at most `b` rounds follow. */
  ghost predicate OneWithin(mid: Db, id: Id, handlers: Handlers, envs: nat -> Env, n: nat, b: nat) {
    GoesOn(mid, id, handlers, envs(n)) ==> Within(After(mid, id, handlers, envs(n)), handlers, envs, n + 1, b)
  }

  ghost predicate AllWithin(mid: Db, ids: set<Id>, handlers: Handlers, envs: nat -> Env, n: nat, b: nat) {
    forall id | id in ids :: OneWithin(mid, id, handlers, envs, n, b)
  }

  /** One bound for whatever the next round claims. */
  lemma FirstRound(mid: Db, handlers: Handlers, envs: nat -> Env, n: nat, b: nat)
    requires AllWithin(mid, T.PendingIds(mid.rows), handlers, envs, n, b)
    ensures Within(mid, handlers, envs, n, b + 1)
  {
    forall order, end | Claims(mid, order, handlers, envs, n, end) ensures |order| <= b + 1 {
      if order != [] {
        assert OneWithin(mid, order[0], handlers, envs, n, b);
        assert Claims(After(mid, order[0], handlers, envs(n)), order[1..], handlers, envs, n + 1, end);
      }
    }
  }

  lemma OneWithinMore(mid: Db, id: Id, handlers: Handlers, envs: nat -> Env, n: nat, b: nat, c: nat)
    requires OneWithin(mid, id, handlers, envs, n, b) && b <= c
    ensures OneWithin(mid, id, handlers, envs, n, c)
  {
  }

  lemma BothBounds(mid: Db, handlers: Handlers, envs: nat -> Env, n: nat, ids: set<Id>, id: Id, own: nat, rest: nat)
    returns (b: nat)
    requires OneWithin(mid, id, handlers, envs, n, own) && AllWithin(mid, ids - {id}, handlers, envs, n, rest)
    ensures AllWithin(mid, ids, handlers, envs, n, b)
  {
    b := if own < rest then rest else own;
    forall other | other in ids ensures OneWithin(mid, other, handlers, envs, n, b) {
      OneWithinMore(mid, other, handlers, envs, n, if other == id then own else rest, b);
    }
  }

  /** The rounds from `mid` on are bounded; in round `k`, which is to come, none of its commands can stick. */
  lemma {:induction false} BoundUntil(db: Db, before: seq<Id>, mid: Db, handlers: Handlers, envs: nat -> Env, k: nat)
    returns (b: nat)
    requires NeverSticks(db, handlers, envs) && Claims(db, before, handlers, envs, 0, mid)
    requires |before| <= k && !Sticks(mid, handlers, envs(k))
    ensures Within(mid, handlers, envs, |before|, b)
    decreases |T.PendingIds(mid.rows)|, k - |before|, 2
  {
    b := CommonBound(db, before, mid, handlers, envs, k, T.PendingIds(mid.rows));
    FirstRound(mid, handlers, envs, |before|, b);
    b := b + 1;
  }

  lemma {:induction false} CommonBound(db: Db, before: seq<Id>, mid: Db, handlers: Handlers, envs: nat -> Env, k: nat,
                                       ids: set<Id>)
    returns (b: nat)
    requires NeverSticks(db, handlers, envs) && Claims(db, before, handlers, envs, 0, mid)
    requires |before| <= k && !Sticks(mid, handlers, envs(k))
    ensures AllWithin(mid, ids, handlers, envs, |before|, b)
    decreases |T.PendingIds(mid.rows)|, k - |before|, 1, |ids|
  {
    b := 0;
    if ids != {} {
      var id :| id in ids;
      var rest := CommonBound(db, before, mid, handlers, envs, k, ids - {id});
      var own := OneBound(db, before, mid, handlers, envs, k, id);
      b := BothBounds(mid, handlers, envs, |before|, ids, id, own, rest);
    }
  }

  /** After one more round fewer commands are pending, or nothing has changed and round `k` is closer. */
  lemma OneRound(db: Db, before: seq<Id>, mid: Db, handlers: Handlers, envs: nat -> Env, k: nat, id: Id)
    returns (next: Db, free: nat)
    requires NeverSticks(db, handlers, envs) && Claims(db, before, handlers, envs, 0, mid)
    requires |before| <= k && !Sticks(mid, handlers, envs(k)) && GoesOn(mid, id, handlers, envs(|before|))
    ensures next == After(mid, id, handlers, envs(|before|)) && Claims(db, before + [id], handlers, envs, 0, next)
    ensures |before| < free && !Sticks(next, handlers, envs(free))
    ensures |T.PendingIds(next.rows)| < |T.PendingIds(mid.rows)| || (next == mid && free == k)
  {
    next := After(mid, id, handlers, envs(|before|));
    Claimed(db, before, mid, handlers, envs, id);
    free := Closer(db, before + [id], mid, handlers, envs, k, id, next);
  }

  lemma Claimed(db: Db, before: seq<Id>, mid: Db, handlers: Handlers, envs: nat -> Env, id: Id)
    requires Claims(db, before, handlers, envs, 0, mid) && GoesOn(mid, id, handlers, envs(|before|))
    ensures Claims(db, before + [id], handlers, envs, 0, After(mid, id, handlers, envs(|before|)))
  {
    ClaimsSnoc(db, before, handlers, envs, 0, mid, id);
  }

  lemma Closer(db: Db, order: seq<Id>, mid: Db, handlers: Handlers, envs: nat -> Env, k: nat, id: Id, next: Db)
    returns (free: nat)
    requires NeverSticks(db, handlers, envs) && Claims(db, order, handlers, envs, 0, next)
    requires 0 < |order| <= k + 1 && !Sticks(mid, handlers, envs(k))
    requires GoesOn(mid, id, handlers, envs(|order| - 1)) && next == After(mid, id, handlers, envs(|order| - 1))
    ensures |order| <= free && !Sticks(next, handlers, envs(free))
    ensures |T.PendingIds(next.rows)| < |T.PendingIds(mid.rows)| || (next == mid && free == k)
  {
    SettledOrStuck(mid, id, handlers, envs(|order| - 1));
    if |T.PendingIds(next.rows)| < |T.PendingIds(mid.rows)| {
      free := FreeRound(db, order, next, handlers, envs);
    } else {
      free := k;
    }
  }

  lemma {:induction false} OneBound(db: Db, before: seq<Id>, mid: Db, handlers: Handlers, envs: nat -> Env, k: nat,
                                    id: Id)
    returns (b: nat)
    requires NeverSticks(db, handlers, envs) && Claims(db, before, handlers, envs, 0, mid)
    requires |before| <= k && !Sticks(mid, handlers, envs(k))
    ensures OneWithin(mid, id, handlers, envs, |before|, b)
    decreases |T.PendingIds(mid.rows)|, k - |before|, 0
  {
    b := 0;
    if GoesOn(mid, id, handlers, envs(|before|)) {
      var next, free := OneRound(db, before, mid, handlers, envs, k, id);
      b := BoundUntil(db, before + [id], next, handlers, envs, free);
    }
  }

  lemma FreeRound(db: Db, order: seq<Id>, mid: Db, handlers: Handlers, envs: nat -> Env) returns (k: nat)
    requires NeverSticks(db, handlers, envs) && Claims(db, order, handlers, envs, 0, mid)
    ensures k >= |order| && !Sticks(mid, handlers, envs(k))
  {
    k :| k >= |order| && !Sticks(mid, handlers, envs(k));
  }

  /** The number of rounds is bounded if the loop never sticks. */
  lemma RoundsBounded(db: Db, handlers: Handlers, envs: nat -> Env) returns (bound: nat)
    requires NeverSticks(db, handlers, envs)
    ensures EndsWithin(db, handlers, envs, bound)
  {
    var k := FreeRound(db, [], db, handlers, envs);
    bound := BoundUntil(db, [], db, handlers, envs, k);
  }

  /** One more round of a drain, which its bound leaves room for. */
  lemma Advance(db: Db, order: seq<Id>, handlers: Handlers, envs: nat -> Env, bound: nat, mid: Db, id: Id, next: Db)
    requires EndsWithin(db, handlers, envs, bound) && Claims(db, order, handlers, envs, 0, mid)
    requires GoesOn(mid, id, handlers, envs(|order|)) && next == After(mid, id, handlers, envs(|order|))
    ensures Claims(db, order + [id], handlers, envs, 0, next) && |order| < bound
  {
    Claimed(db, order, mid, handlers, envs, id);
    assert |order + [id]| <= bound;
  }

  /** For every database, all handlers and every course of events: the rounds of a drain are bounded, whatever rows
      its SELECTs return, if and only if the loop cannot get to a state in which, from then on, every round may claim
      a command that fails without its failure being recorded. */
  lemma DrainEndsExactly(db: Db, handlers: Handlers, envs: nat -> Env)
    ensures (exists bound: nat :: EndsWithin(db, handlers, envs, bound)) <==> NeverSticks(db, handlers, envs)
  {
    if bound: nat :| EndsWithin(db, handlers, envs, bound) {
      forall order, mid | Claims(db, order, handlers, envs, 0, mid) ensures !SticksFrom(mid, handlers, envs, |order|) {
        if SticksFrom(mid, handlers, envs, |order|) {
          var more := StuckRounds(db, order, mid, handlers, envs, bound + 1);
          assert false;
        }
      }
    }
    if NeverSticks(db, handlers, envs) {
      var bound := RoundsBounded(db, handlers, envs);
    }
  }

  ghost predicate ComesAfter(handlers: Handlers, envs: nat -> Env, n: nat) {
    exists k: nat :: k >= n && CannotRepeat(handlers, envs(k))
  }

  /** It is enough that again and again a round comes that cannot leave a failing command where it is. */
  lemma OftenIsEnough(db: Db, handlers: Handlers, envs: nat -> Env)
    requires forall n: nat :: ComesAfter(handlers, envs, n)
    ensures NeverSticks(db, handlers, envs)
  {
    forall order, mid | Claims(db, order, handlers, envs, 0, mid) ensures !SticksFrom(mid, handlers, envs, |order|) {
      assert ComesAfter(handlers, envs, |order|);
      var k: nat :| k >= |order| && CannotRepeat(handlers, envs(k));
      assert !Sticks(mid, handlers, envs(k));
    }
  }

  /** A failing command that is first in line while none of its failures is recorded is claimed for ever. */
  lemma FailingHeadNeverEnds(db: Db, id: Id, handlers: Handlers, envs: nat -> Env)
    requires T.IsNext(db.rows, {}, id) && forall k :: Unrecorded(db, id, handlers, envs(k))
    ensures forall bound: nat :: !EndsWithin(db, handlers, envs, bound)
  {
    assert Claims(db, [], handlers, envs, 0, db);
    forall k: nat ensures Sticks(db, handlers, envs(k)) {
      assert Unrecorded(db, id, handlers, envs(k));
    }
    DrainEndsExactly(db, handlers, envs);
  }
}
