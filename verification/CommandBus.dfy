/** The command bus as one sender sees it: capacity check with a cached count, insert, count, wake-up. */
module CommandBus {
  import opened Types
  import opened Database
  import opened ExecutionStore
  import T = ExecutionTable

  /** Times are in nanoseconds. */
  const DEFAULT_MAX_PENDING := 1000
  const DEFAULT_CACHE_TTL := 1_000_000_000

  datatype Capacity = Free | Full | CountError

  datatype SendResult = Sent | QueueFull | SendError

  /** The cached pending count and when it was refreshed. */
  datatype Cache = Cache(count: nat, at: Option<nat>)

  predicate LiveAt(ttl: int, cache: Cache, now: nat) {
    ttl > 0 && cache.at.Some? && now - cache.at.value < ttl
  }

  /** What the capacity check says and leaves in the cache. */
  function CheckOutcome(limited: bool, max: int, ttl: int, cache: Cache, pending: nat, now: nat, stored: nat,
                        countFails: bool): (Capacity, Cache)
  {
    if !limited then (Free, cache)
    else if LiveAt(ttl, cache, now) then (if cache.count >= max then Full else Free, cache)
    else if countFails then (CountError, cache)
    else (if pending >= max then Full else Free, Cache(pending, Some(stored)))
  }

  /** What a Send does that nothing interferes with: its result, and the cache it leaves. */
  function SendOutcome(limited: bool, max: int, ttl: int, cache: Cache, pending: nat, now: nat, stored: nat,
                       countFails: bool, insertFails: bool): (SendResult, Cache)
  {
    var (capacity, seen) := CheckOutcome(limited, max, ttl, cache, pending, now, stored, countFails);
    match capacity
    case CountError => (SendError, seen)
    case Full => (QueueFull, seen)
    case Free => if insertFails then (SendError, seen) else (Sent, seen.(count := seen.count + 1))
  }

  /** With a cache that covers the pending commands: nobody is admitted at the limit, a refusal is for a count that
      has reached it, and the cache goes on covering them, a command just sent included. */
  lemma OutcomeFacts(limited: bool, max: int, ttl: int, cache: Cache, pending: nat, now: nat, stored: nat,
                     countFails: bool, insertFails: bool)
    requires cache.at.Some? ==> pending <= cache.count
    ensures var (r, after) := SendOutcome(limited, max, ttl, cache, pending, now, stored, countFails, insertFails);
      && (r.Sent? && limited ==> pending < max)
      && (r.QueueFull? ==> limited && after.count >= max && (LiveAt(ttl, cache, now) || after.count == pending))
      && (limited && LiveAt(ttl, cache, now) ==> (r.QueueFull? <==> cache.count >= max))
      && (limited && !LiveAt(ttl, cache, now) && !countFails ==> (r.QueueFull? <==> pending >= max))
      && (!limited ==> (r.Sent? <==> !insertFails))
      && (r.SendError? ==> countFails || insertFails)
      && (insertFails ==> !r.Sent?)
      && (after.at.Some? ==> pending + (if r.Sent? then 1 else 0) <= after.count)
  {
  }

  class CommandBusImpl {
    const execStore: SQLCommandExecutionStore
    /** Whether the store can count pending commands. */
    const counts: bool
    const maxPending: int
    const cacheTTL: int
    const notifier: ChannelNotifier?
    var count: nat
    var cachedAt: Option<nat>

    /** Zero values are replaced by the defaults, negative ones disable the feature. */
    constructor (execStore: SQLCommandExecutionStore, counts: bool, maxPending: int, cacheTTL: int,
                 notifier: ChannelNotifier?)
      requires notifier != null ==> notifier.Valid()
      ensures Valid()
      ensures this.execStore == execStore && this.counts == counts && this.notifier == notifier
      ensures this.maxPending == if maxPending == 0 then 1000 else maxPending
      ensures this.cacheTTL == if cacheTTL == 0 then 1_000_000_000 else cacheTTL
      ensures cachedAt.None?
    {
      this.execStore := execStore;
      this.counts := counts;
      this.maxPending := if maxPending == 0 then DEFAULT_MAX_PENDING else maxPending;
      this.cacheTTL := if cacheTTL == 0 then DEFAULT_CACHE_TTL else cacheTTL;
      this.notifier := notifier;
      count := 0;
      cachedAt := None;
    }

    function Pending(): nat
      reads execStore.db
    {
      |T.PendingIds(execStore.db.state.rows)|
    }

    predicate Limited() {
      maxPending > 0 && counts
    }

    predicate Live(now: nat)
      reads this
    {
      LiveAt(cacheTTL, Cache(count, cachedAt), now)
    }

    /** Once refreshed, the cached count is never below the number of pending commands. Workers only lower that
        number, so they keep this true. */
    ghost predicate Valid()
      reads this, execStore.db, notifier
    {
      && (cachedAt.Some? ==> Pending() <= count)
      && (notifier != null ==> notifier.Valid())
    }

    /** The check at time `now`; a COUNT it needs is stored at time `stored`. */
    method CheckQueueCapacity(now: nat, stored: nat, countFails: bool) returns (r: Capacity)
      requires Valid() && now <= stored
      modifies this
      ensures Valid()
      ensures (r, Cache(count, cachedAt)) ==
        CheckOutcome(Limited(), maxPending, cacheTTL, old(Cache(count, cachedAt)), Pending(), now, stored, countFails)
      ensures r.Free? && Limited() ==> Pending() < maxPending
      ensures !r.CountError? ==> (r.Full? <==> Limited() && count >= maxPending)
      ensures r.CountError? <==> Limited() && !old(Live(now)) && countFails
      ensures !Limited() || old(Live(now)) || countFails ==> count == old(count) && cachedAt == old(cachedAt)
      ensures Limited() && !old(Live(now)) && !countFails ==> count == Pending() && cachedAt == Some(stored)
    {
      if maxPending <= 0 {
        return Free;
      }
      if !counts {
        return Free;
      }
      if Live(now) {
        return if count >= maxPending then Full else Free;
      }
      if countFails {
        return CountError;
      }
      var counted := execStore.CountPending(null);
      count := counted;
      cachedAt := Some(stored);
      return if counted >= maxPending then Full else Free;
    }

    /** An admitted command is recorded as pending and its workers are woken; a refused one changes nothing in
        the table. A sender alone never takes the queue above its limit. */
    method Send(id: Id, name: string, payload: string, now: nat, stored: nat, countFails: bool, insertFails: bool)
      returns (r: SendResult)
      requires Valid() && now <= stored
      modifies this, execStore.db, notifier
      ensures Valid()
      ensures var before := old(execStore.db.state);
        execStore.db.state ==
          if r.Sent? then before.(rows := T.RecordPending(before.rows, id, name, payload, now)) else before
      ensures (r, Cache(count, cachedAt)) ==
        SendOutcome(Limited(), maxPending, cacheTTL, old(Cache(count, cachedAt)), old(Pending()), now, stored,
          countFails, insertFails)
      ensures r.Sent? ==> T.Recorded(old(execStore.db.state.rows), execStore.db.state.rows, id, name, payload, now)
      ensures r.Sent? && Limited() ==> Pending() <= maxPending
      ensures r.QueueFull? ==> Limited() && count >= maxPending && (old(Live(now)) || count == Pending())
      ensures Limited() && old(Live(now)) ==> (r.QueueFull? <==> old(count) >= maxPending)
      ensures Limited() && !old(Live(now)) && !countFails ==> (r.QueueFull? <==> old(Pending()) >= maxPending)
      ensures !Limited() ==> (r.Sent? <==> !insertFails)
      ensures notifier != null ==> notifier.buffered == if r.Sent? then 1 else old(notifier.buffered)
    {
      OutcomeFacts(Limited(), maxPending, cacheTTL, Cache(count, cachedAt), Pending(), now, stored, countFails,
        insertFails);
      var capacity := CheckQueueCapacity(now, stored, countFails);
      if capacity.Full? {
        return QueueFull;
      }
      if capacity.CountError? {
        return SendError;
      }
      var ok := execStore.RecordPending(null, id, name, payload, now, insertFails);
      if !ok {
        return SendError;
      }
      OneMorePending(old(execStore.db.state.rows), id, name, payload, now);
      count := count + 1;
      if notifier != null {
        notifier.Notify();
      }
      return Sent;
    }
  }

  /** Recording a command adds at most one pending row; sending a pending command again adds none. */
  lemma OneMorePending(rows: Table, id: Id, name: string, payload: string, now: nat)
    ensures var after := T.RecordPending(rows, id, name, payload, now);
      && T.PendingIds(after) == T.PendingIds(rows) + {id}
      && |T.PendingIds(after)| == |T.PendingIds(rows)| + if id in T.PendingIds(rows) then 0 else 1
  {
    var after := T.PendingIds(T.RecordPending(rows, id, name, payload, now));
    assert after == T.PendingIds(rows) + {id};
    if id in T.PendingIds(rows) {
      assert after == T.PendingIds(rows);
    }
  }
}
