/** The bus's code refines the protocol: a Send that nothing interferes with is a run of a system with one slot. */
module BackpressureRefinement {
  import opened Types
  import B = CommandBus
  import C = CommandProcessing
  import T = ExecutionTable
  import P = BackpressureProtocol
  import PB = BackpressureBound

  /** No Send is under way, and the limit is in force. */
  predicate AtRest(s: P.State) {
    s.slots == [P.Idle] && s.flight.NoFlight? && s.max >= 1
  }

  function CacheOf(s: P.State): B.Cache {
    B.Cache(s.count, s.cachedAt)
  }

  /** A Send begins at `now` and finds the cache dead: it leads a flight that recounts, or fails to. */
  lemma LeadIsRun(s: P.State, now: nat) returns (acts: seq<P.Action>, t: P.State)
    requires AtRest(s) && s.clock <= now && !B.LiveAt(s.ttl, CacheOf(s), now)
    ensures P.Exec(s, acts, t) && t == s.(clock := now, slots := [P.Leader], flight := P.Counting)
  {
    acts, t := P.Then(s, [], s, P.Tick(now - s.clock));
    acts, t := P.Then(s, acts, t, P.Begin(0));
    acts, t := P.Then(s, acts, t, P.CacheMiss(0));
    acts, t := P.Then(s, acts, t, P.Join(0));
    acts, t := P.Then(s, acts, t, P.Recheck);
  }

  lemma CountIsRun(s: P.State, now: nat, stored: nat) returns (acts: seq<P.Action>, t: P.State)
    requires AtRest(s) && s.clock <= now <= stored && !B.LiveAt(s.ttl, CacheOf(s), now)
    ensures P.Exec(s, acts, t) && t.slots == [P.Got(s.pending)] && t.flight.NoFlight? && t.pending == s.pending
    ensures t.max == s.max && t.ttl == s.ttl && t.clock == stored && CacheOf(t) == B.Cache(s.pending, Some(stored))
  {
    acts, t := LeadIsRun(s, now);
    acts, t := P.Then(s, acts, t, P.Count);
    acts, t := P.Then(s, acts, t, P.Tick(stored - now));
    acts, t := P.Then(s, acts, t, P.Store);
    acts, t := P.Then(s, acts, t, P.Release);
  }

  lemma CountFailsIsRun(s: P.State, now: nat) returns (acts: seq<P.Action>, t: P.State)
    requires AtRest(s) && s.clock <= now && !B.LiveAt(s.ttl, CacheOf(s), now)
    ensures P.Exec(s, acts, t) && t == s.(clock := now)
  {
    acts, t := LeadIsRun(s, now);
    acts, t := P.Then(s, acts, t, P.CountFails);
    acts, t := P.Then(s, acts, t, P.Release);
  }

  /** The rest of a Send whose check has seen the cached or the counted number. */
  lemma InsertIsRun(s: P.State, acts: seq<P.Action>, m: P.State, added: bool, insertFails: bool)
    returns (acts': seq<P.Action>, t: P.State)
    requires P.Exec(s, acts, m) && m.slots == [P.Admitted] && m.flight.NoFlight?
    ensures P.Exec(s, acts', t) && t.slots == [P.Idle] && t.flight.NoFlight? && t.max == m.max && t.ttl == m.ttl
    ensures CacheOf(t) == if insertFails then CacheOf(m) else CacheOf(m).(count := m.count + 1)
    ensures t.pending == m.pending + if !insertFails && added then 1 else 0
    ensures t.clock == m.clock
  {
    if insertFails {
      acts', t := P.Then(s, acts, m, P.SendFails(0));
    } else {
      acts', t := P.Then(s, acts, m, P.Insert(0, added));
      acts', t := P.Then(s, acts', t, P.Increment(0));
    }
  }

  lemma HitIsRun(s: P.State, now: nat) returns (acts: seq<P.Action>, t: P.State)
    requires AtRest(s) && s.clock <= now && B.LiveAt(s.ttl, CacheOf(s), now)
    ensures P.Exec(s, acts, t)
    ensures t == s.(clock := now, slots := [if s.count >= s.max then P.Idle else P.Admitted])
  {
    acts, t := P.Then(s, [], s, P.Tick(now - s.clock));
    acts, t := P.Then(s, acts, t, P.Begin(0));
    acts, t := P.Then(s, acts, t, P.CacheHit(0));
  }

  lemma MissIsRun(s: P.State, now: nat, stored: nat) returns (acts: seq<P.Action>, t: P.State)
    requires AtRest(s) && s.clock <= now <= stored && !B.LiveAt(s.ttl, CacheOf(s), now)
    ensures P.Exec(s, acts, t) && t.slots == [if s.pending >= s.max then P.Idle else P.Admitted]
    ensures t.flight.NoFlight? && t.pending == s.pending
    ensures t.max == s.max && t.ttl == s.ttl && t.clock == stored && CacheOf(t) == B.Cache(s.pending, Some(stored))
  {
    acts, t := CountIsRun(s, now, stored);
    acts, t := P.Then(s, acts, t, P.Compare(0));
  }

  /** A Send of the code is a run of the protocol that leaves the same cache and as many pending commands; `added`
      tells whether the command was not pending before. */
  lemma SendIsRun(s: P.State, now: nat, stored: nat, countFails: bool, insertFails: bool, added: bool)
    returns (acts: seq<P.Action>, t: P.State)
    requires AtRest(s) && s.clock <= now <= stored
    ensures P.Exec(s, acts, t) && AtRest(t) && t.max == s.max && t.ttl == s.ttl && t.clock <= stored
    ensures var out := B.SendOutcome(true, s.max, s.ttl, CacheOf(s), s.pending, now, stored, countFails, insertFails);
      && CacheOf(t) == out.1
      && t.pending == s.pending + if out.0.Sent? && added then 1 else 0
  {
    if !B.LiveAt(s.ttl, CacheOf(s), now) && countFails {
      acts, t := CountFailsIsRun(s, now);
      return;
    }
    var m;
    if B.LiveAt(s.ttl, CacheOf(s), now) {
      acts, m := HitIsRun(s, now);
    } else {
      acts, m := MissIsRun(s, now, stored);
    }
    if m.slots == [P.Admitted] {
      acts, t := InsertIsRun(s, acts, m, added, insertFails);
    } else {
      t := m;
    }
  }

  /** So the bound on runs holds of the code: a Send on a bus that has only ever served one at a time leaves at most
      MaxPending commands pending, and a cached count that covers them. */
  lemma SendStaysBelow(max: nat, ttl: int, pending: nat, past: seq<P.Action>, s: P.State, now: nat, stored: nat,
                       countFails: bool, insertFails: bool, added: bool)
    requires max >= 1 && pending <= max && ttl > 0 && P.Exec(P.Init(max, ttl, 1, pending), past, s)
    requires AtRest(s) && s.clock <= now <= stored
    ensures var out := B.SendOutcome(true, s.max, s.ttl, CacheOf(s), s.pending, now, stored, countFails, insertFails);
      var after := s.pending + if out.0.Sent? && added then 1 else 0;
      && after <= max
      && (out.1.at.Some? ==> after <= out.1.count)
  {
    var acts, t := SendIsRun(s, now, stored, countFails, insertFails, added);
    P.ExecConcat(P.Init(max, ttl, 1, pending), past, s, acts, t);
    PB.SingleSenderHardLimit(max, ttl, pending, past + acts, t);
  }

  /** A worker's round that settles its command, successfully or not, is the protocol's Complete step: it makes room
      for exactly one more. */
  lemma RoundIsComplete(s: P.State, db: Db, id: Id, handlers: C.Handlers, env: C.Env)
    requires id in T.PendingIds(db.rows) && s.pending == |T.PendingIds(db.rows)|
    requires id !in T.PendingIds(C.Process(db, Some(id), handlers, env).db.rows)
    ensures P.Enabled(s, P.Complete)
    ensures P.Apply(s, P.Complete) == s.(pending := |T.PendingIds(C.Process(db, Some(id), handlers, env).db.rows)|)
  {
    C.SettledExactly(db, id, handlers, env);
    assert T.PendingIds(C.Process(db, Some(id), handlers, env).db.rows) == T.PendingIds(db.rows) - {id};
  }
}
