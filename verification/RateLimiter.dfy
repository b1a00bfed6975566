/**
 The fixed-window rate limiter (internal/middleware/rate_limit.go).  Times are whole
 seconds; a counter that has expired is gone for `INCR`, and the store may drop any
 expired counters at any time.
 */
module RateLimiter {

  const TTL: int := 120

  type Key = (string, int)

  datatype Counter = Counter(count: nat, expiresAt: int)

  type Store = map<Key, Counter>

  /** One request: who, when, whether the store answers, and what the store drops just before. */
  datatype Hit = Hit(ip: string, at: nat, storeUp: bool, dropped: set<Key>)

  function KeyOf(hit: Hit): Key {
    (hit.ip, hit.at / 60)
  }

  function Dropped(store: Store, keys: set<Key>, now: int): Store {
    map k | k in store && !(k in keys && store[k].expiresAt <= now) :: store[k]
  }

  /** `INCR`, and `EXPIRE` when the counter is new. */
  function Incremented(store: Store, key: Key, now: int): Store {
    if key in store && now < store[key].expiresAt
    then store[key := store[key].(count := store[key].count + 1)]
    else store[key := Counter(1, now + TTL)]
  }

  function Served(store: Store, hit: Hit): Store {
    var kept := Dropped(store, hit.dropped, hit.at);
    if hit.storeUp then Incremented(kept, KeyOf(hit), hit.at) else kept
  }

  function StoreAfter(hits: seq<Hit>): Store {
    if hits == [] then map[] else Served(StoreAfter(hits[..|hits| - 1]), hits[|hits| - 1])
  }

  /** Whether a request passes, given those before it: the limiter lets all through when the store is down. */
  function Passes(before: seq<Hit>, hit: Hit, limit: int): bool {
    !hit.storeUp ||
    var store := Served(StoreAfter(before), hit);
    KeyOf(hit) in store && store[KeyOf(hit)].count <= limit
  }

  predicate Ordered(hits: seq<Hit>) {
    forall i, j :: 0 <= i < j < |hits| ==> hits[i].at <= hits[j].at
  }

  // ---------------------------------------------------------------- counts

  /** Requests of one address in one clock minute that reached a working store. */
  function Counted(hits: seq<Hit>, key: Key): nat {
    if hits == [] then 0
    else
      var hit := hits[|hits| - 1];
      Counted(hits[..|hits| - 1], key) + (if hit.storeUp && hit.ip == key.0 && hit.at / 60 == key.1 then 1 else 0)
  }

  function Uncounted(hits: seq<Hit>, key: Key): nat {
    if hits == [] then 0
    else
      var hit := hits[|hits| - 1];
      Uncounted(hits[..|hits| - 1], key) + (if !hit.storeUp && hit.ip == key.0 && hit.at / 60 == key.1 then 1 else 0)
  }

  function Passed(hits: seq<Hit>, key: Key, limit: int): nat {
    if hits == [] then 0
    else
      var before, hit := hits[..|hits| - 1], hits[|hits| - 1];
      Passed(before, key, limit)
        + (if hit.ip == key.0 && hit.at / 60 == key.1 && Passes(before, hit, limit) then 1 else 0)
  }

  function Min(a: int, b: int): int {
    if a <= b then a else b
  }

  function Max(a: int, b: int): int {
    if a <= b then b else a
  }

  /** No counter is reset inside its own minute: it holds the minute's full count, or the minute is over. */
  ghost predicate StoreOk(store: Store, hits: seq<Hit>, key: Key) {
    if key in store
    then store[key].count == Counted(hits, key) && store[key].expiresAt >= 60 * key.1 + TTL
    else Counted(hits, key) == 0 || (hits != [] && hits[|hits| - 1].at >= 60 * key.1 + TTL)
  }

  lemma {:induction false} CountersAreExact(hits: seq<Hit>, key: Key)
    requires Ordered(hits)
    ensures StoreOk(StoreAfter(hits), hits, key)
    decreases |hits|
  {
    if hits != [] {
      var before, hit := hits[..|hits| - 1], hits[|hits| - 1];
      CountersAreExact(before, key);
      assert before != [] ==> before[|before| - 1].at <= hit.at;
      assert 60 * (hit.at / 60) <= hit.at < 60 * (hit.at / 60) + 60;
    }
  }

  /**
   Over any ordered trace, each address passes in each clock minute exactly the smaller of
   the limit and its requests, plus those the store was down for.
   */
  lemma {:induction false} EachMinutePassesExactly(hits: seq<Hit>, key: Key, limit: int)
    requires Ordered(hits)
    ensures Passed(hits, key, limit) == Min(Counted(hits, key), Max(limit, 0)) + Uncounted(hits, key)
    decreases |hits|
  {
    if hits != [] {
      var before, hit := hits[..|hits| - 1], hits[|hits| - 1];
      EachMinutePassesExactly(before, key, limit);
      if hit.storeUp && KeyOf(hit) == key {
        CountersAreExact(hits, key);
        assert StoreAfter(hits) == Served(StoreAfter(before), hit);
        assert key in StoreAfter(hits);
      }
    }
  }

  /** Passing requests of one address from second `from` to second `from + 60`, both included. */
  function PassedInSpan(hits: seq<Hit>, ip: string, from: nat, limit: int): nat {
    if hits == [] then 0
    else
      var before, hit := hits[..|hits| - 1], hits[|hits| - 1];
      PassedInSpan(before, ip, from, limit)
        + (if hit.ip == ip && from <= hit.at <= from + 60 && Passes(before, hit, limit) then 1 else 0)
  }

  lemma {:induction false} SpanMeetsTwoMinutes(hits: seq<Hit>, ip: string, from: nat, limit: int)
    ensures PassedInSpan(hits, ip, from, limit)
         <= Passed(hits, (ip, from / 60), limit) + Passed(hits, (ip, from / 60 + 1), limit)
    decreases |hits|
  {
    if hits != [] {
      var hit := hits[|hits| - 1];
      SpanMeetsTwoMinutes(hits[..|hits| - 1], ip, from, limit);
      assert from <= hit.at <= from + 60 ==> hit.at / 60 == from / 60 || hit.at / 60 == from / 60 + 1;
    }
  }

  lemma {:induction false} NothingUncounted(hits: seq<Hit>, key: Key)
    requires forall i :: 0 <= i < |hits| ==> hits[i].storeUp
    ensures Uncounted(hits, key) == 0
    decreases |hits|
  {
    if hits != [] {
      NothingUncounted(hits[..|hits| - 1], key);
    }
  }

  /** With a working store, any 60-second span passes at most twice the limit per address. */
  lemma AnySpanPassesAtMostTwice(hits: seq<Hit>, ip: string, from: nat, limit: int)
    requires Ordered(hits) && forall i :: 0 <= i < |hits| ==> hits[i].storeUp
    ensures PassedInSpan(hits, ip, from, limit) <= 2 * Max(limit, 0)
  {
    SpanMeetsTwoMinutes(hits, ip, from, limit);
    EachMinutePassesExactly(hits, (ip, from / 60), limit);
    EachMinutePassesExactly(hits, (ip, from / 60 + 1), limit);
    NothingUncounted(hits, (ip, from / 60));
    NothingUncounted(hits, (ip, from / 60 + 1));
  }

  /** n requests in the last second of a minute, then m in the first of the next. */
  function Burst(n: nat, m: nat): seq<Hit> {
    seq(n, _ => Hit("ip", 59, true, {})) + seq(m, _ => Hit("ip", 60, true, {}))
  }

  lemma {:induction false} BurstCounts(n: nat, m: nat)
    ensures Counted(Burst(n, m), ("ip", 0)) == n && Counted(Burst(n, m), ("ip", 1)) == m
    decreases n + m
  {
    var hits := Burst(n, m);
    if m > 0 {
      assert hits[..|hits| - 1] == Burst(n, m - 1);
      BurstCounts(n, m - 1);
    } else if n > 0 {
      assert hits[..|hits| - 1] == Burst(n - 1, 0);
      BurstCounts(n - 1, 0);
    }
  }

  lemma {:induction false} SpanIsTwoMinutes(hits: seq<Hit>, limit: int)
    requires forall i :: 0 <= i < |hits| ==> hits[i].ip == "ip" && 59 <= hits[i].at <= 60
    ensures PassedInSpan(hits, "ip", 59, limit) == Passed(hits, ("ip", 0), limit) + Passed(hits, ("ip", 1), limit)
    decreases |hits|
  {
    if hits != [] {
      SpanIsTwoMinutes(hits[..|hits| - 1], limit);
    }
  }

  /** The bound is tight: a burst across a minute's end passes twice the limit in two seconds. */
  lemma TwiceTheLimitCanPass(limit: nat)
    ensures PassedInSpan(Burst(limit, limit), "ip", 59, limit) == 2 * limit
  {
    var hits := Burst(limit, limit);
    BurstCounts(limit, limit);
    SpanIsTwoMinutes(hits, limit);
    EachMinutePassesExactly(hits, ("ip", 0), limit);
    EachMinutePassesExactly(hits, ("ip", 1), limit);
    NothingUncounted(hits, ("ip", 0));
    NothingUncounted(hits, ("ip", 1));
  }

  class RateLimiter {
    const limit: int
    var store: Store
    var served: seq<Hit>

    ghost predicate Valid()
      reads this
    {
      store == StoreAfter(served)
    }

    constructor (limit: int)
      ensures Valid() && served == [] && this.limit == limit
    {
      this.limit := limit;
      store, served := map[], [];
    }

    /** One pass through the middleware: `true` calls the next handler. */
    method Handle(hit: Hit) returns (passed: bool)
      requires Valid()
      modifies this
      ensures Valid() && served == old(served) + [hit]
      ensures passed <==> Passes(old(served), hit, limit)
      ensures !hit.storeUp ==> passed
      ensures hit.storeUp ==>
                var key := (hit.ip, hit.at / 60);
                var running := key in old(store) && hit.at < old(store)[key].expiresAt;
                && key in store
                && store[key].count == (if running then old(store)[key].count + 1 else 1)
                && store[key].expiresAt == (if running then old(store)[key].expiresAt else hit.at + 120)
                && (passed <==> store[key].count <= limit)
    {
      var kept := map k | k in store && !(k in hit.dropped && store[k].expiresAt <= hit.at) :: store[k];
      store, served := kept, served + [hit];
      assert served[..|served| - 1] == old(served);
      if !hit.storeUp {
        return true;
      }
      var key := (hit.ip, hit.at / 60);
      var count := 1;
      if key in store && hit.at < store[key].expiresAt {
        count := store[key].count + 1;
        store := store[key := store[key].(count := count)];
      } else {
        store := store[key := Counter(count, hit.at + TTL)];
      }
      return count <= limit;
    }
  }
}
