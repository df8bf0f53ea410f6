/**
 * The shared request throttler: a hit counter that expires with its window, and a block key that outlives it.
 * One call is one step; the server clock is a parameter.
 */
module RateWindows {
  import opened Prelude

  datatype Limits = Limits(ttl: int, limit: int, blockDuration: int)

  /** A counter key; the server drops it once its clock has passed `until`. */
  datatype HitKey = HitKey(count: nat, until: int)

  /** Both keys of one throttled caller; an expired key may still be present. */
  datatype Counter = Counter(hits: Option<HitKey>, blockedUntil: Option<int>)

  datatype Record = Record(totalHits: int, timeToExpire: int, isBlocked: bool, timeToBlockExpire: int)

  const FRESH := Counter(None, None)

  function CeilSeconds(ms: int): int { -((-ms) / 1000) }

  function BlockLeft(c: Counter, now: int): int { if c.blockedUntil.Some? then c.blockedUntil.value - now else -2 }

  /** The counter key after `incr`, and `pexpire` when it was created; a non-positive expiry deletes it. */
  function CountHit(hits: Option<HitKey>, now: int, ttl: int): (nat, Option<HitKey>)
  {
    if hits.Some? && now <= hits.value.until && hits.value.count > 0 then
      (hits.value.count + 1, Some(HitKey(hits.value.count + 1, hits.value.until)))
    else (1, if ttl > 0 then Some(HitKey(1, now + ttl)) else None)
  }

  function Increment(c: Counter, now: int, l: Limits): (Counter, Record)
  {
    if BlockLeft(c, now) > 0 then (c, Record(l.limit + 1, 0, true, CeilSeconds(BlockLeft(c, now))))
    else
      var (total, hits) := CountHit(c.hits, now, l.ttl);
      var timeToExpire := Max(0, CeilSeconds(if hits.Some? then hits.value.until - now else -2));
      if total > l.limit && l.blockDuration > 0 then
        (Counter(hits, Some(now + l.blockDuration)), Record(total, timeToExpire, true, CeilSeconds(l.blockDuration)))
      else (Counter(hits, c.blockedUntil), Record(total, timeToExpire, false, 0))
  }

  // ---------- The storage ----------

  function Lookup<V>(m: map<string, V>, k: string): Option<V> { if k in m then Some(m[k]) else None }

  class RedisThrottlerStorage {
    var hits: map<string, HitKey>
    var blocks: map<string, int>

    constructor ()
      ensures hits == map[] && blocks == map[]
    {
      hits, blocks := map[], map[];
    }

    ghost function CounterOf(throttler: string, key: string): Counter
      reads this
    {
      Counter(Lookup(hits, "rl:" + throttler + ":" + key), Lookup(blocks, "rlb:" + throttler + ":" + key))
    }

    method IncrementHits(key: string, l: Limits, throttler: string, now: int) returns (r: Record)
      modifies this
      ensures (CounterOf(throttler, key), r) == Increment(old(CounterOf(throttler, key)), now, l)
      ensures forall k :: k != "rl:" + throttler + ":" + key ==> Lookup(hits, k) == Lookup(old(hits), k)
      ensures forall k :: k != "rlb:" + throttler + ":" + key ==> Lookup(blocks, k) == Lookup(old(blocks), k)
    {
      var hitKey, blockKey := "rl:" + throttler + ":" + key, "rlb:" + throttler + ":" + key;
      var blockTtl := if blockKey in blocks then blocks[blockKey] - now else -2;
      if blockTtl > 0 {
        return Record(l.limit + 1, 0, true, CeilSeconds(blockTtl));
      }
      var alive := hitKey in hits && now <= hits[hitKey].until && hits[hitKey].count > 0;
      var total := if alive then hits[hitKey].count + 1 else 1;
      if alive {
        hits := hits[hitKey := HitKey(total, hits[hitKey].until)];
      } else if l.ttl > 0 {
        hits := hits[hitKey := HitKey(1, now + l.ttl)];
      } else {
        hits := hits - {hitKey};
      }
      var ttlMs := if hitKey in hits then hits[hitKey].until - now else -2;
      var timeToExpire := Max(0, CeilSeconds(ttlMs));
      if total > l.limit && l.blockDuration > 0 {
        blocks := blocks[blockKey := now + l.blockDuration];
        return Record(total, timeToExpire, true, CeilSeconds(l.blockDuration));
      }
      r := Record(total, timeToExpire, false, 0);
    }
  }

  // ---------- Runs of one caller ----------

  function After(l: Limits, times: seq<int>): Counter
  {
    if times == [] then FRESH else Increment(After(l, times[..|times| - 1]), times[|times| - 1], l).0
  }

  /** Was the last hit let through? */
  predicate LetThrough(l: Limits, times: seq<int>)
    requires times != []
  {
    !Increment(After(l, times[..|times| - 1]), times[|times| - 1], l).1.isBlocked
  }

  /** Hits let through at times from `lo` to `hi`, both included. */
  function Between(l: Limits, times: seq<int>, lo: int, hi: int): nat
  {
    if times == [] then 0
    else
      var n := |times| - 1;
      Between(l, times[..n], lo, hi) + if LetThrough(l, times) && lo <= times[n] <= hi then 1 else 0
  }

  /** Hits let through from `lo` on. */
  function Since(l: Limits, times: seq<int>, lo: int): nat
  {
    if times == [] then 0
    else
      var n := |times| - 1;
      Since(l, times[..n], lo) + if LetThrough(l, times) && lo <= times[n] then 1 else 0
  }

  ghost predicate InOrder(times: seq<int>) { forall i, j :: 0 <= i < j < |times| ==> times[i] <= times[j] }

  lemma {:induction false} LaterIsFewer(l: Limits, times: seq<int>, lo: int, lo': int)
    requires lo <= lo'
    ensures Since(l, times, lo') <= Since(l, times, lo)
  {
    if times != [] {
      LaterIsFewer(l, times[..|times| - 1], lo, lo');
    }
  }

  lemma {:induction false} BetweenIsPartOfSince(l: Limits, times: seq<int>, lo: int, hi: int)
    ensures Between(l, times, lo, hi) <= Since(l, times, lo)
  {
    if times != [] {
      BetweenIsPartOfSince(l, times[..|times| - 1], lo, hi);
    }
  }

  function Allowed(l: Limits): nat { Max(0, l.limit) }

  function Passed(l: Limits, count: nat): nat { Min(count, Allowed(l)) }

  /**
   * The window that is open: nothing was let through after it, exactly the first `limit` of its hits were let
   * through, and together with the reach of one window back it holds at most twice the limit less one.
   */
  ghost predicate WindowOk(l: Limits, times: seq<int>)
  {
    var h := After(l, times).hits;
    if times == [] then h.None?
    else
      && h.Some?
      && var start := h.value.until - l.ttl;
      && h.value.count >= 1
      && start <= times[|times| - 1]
      && Since(l, times, h.value.until + 1) == 0
      && Since(l, times, start) == Passed(l, h.value.count)
      && Since(l, times, start + 1) <= Max(0, Passed(l, h.value.count) - 1)
      && Since(l, times, start - l.ttl) <= Max(0, Allowed(l) - 1) + Passed(l, h.value.count)
  }

  lemma {:induction false} WindowsAreCounted(l: Limits, times: seq<int>)
    requires l.ttl > 0 && l.blockDuration > 0 && InOrder(times)
    ensures WindowOk(l, times)
  {
    if times != [] {
      var n := |times| - 1;
      WindowsAreCounted(l, times[..n]);
      var was := After(l, times[..n]).hits;
      if n > 0 && was.value.until < times[n] {
        var until := was.value.until;
        LaterIsFewer(l, times[..n], until + 1, times[n]);
        LaterIsFewer(l, times[..n], until + 1, times[n] + 1);
        LaterIsFewer(l, times[..n], until + 1, times[n] + l.ttl + 1);
        LaterIsFewer(l, times[..n], until - l.ttl + 1, times[n] - l.ttl);
      }
    }
  }

  /**
   * With a block duration, at most 2 * limit - 1 hits get through in any stretch of one window length,
   * wherever it lies relative to the counter's own windows.
   */
  lemma {:induction false} AnyWindowLetsThroughFewerThanTwiceTheLimit(l: Limits, times: seq<int>, lo: int)
    requires l.ttl > 0 && l.blockDuration > 0 && InOrder(times)
    ensures Between(l, times, lo, lo + l.ttl) <= Max(0, 2 * l.limit - 1)
  {
    if times != [] {
      var n := |times| - 1;
      WindowsAreCounted(l, times);
      var start := After(l, times).hits.value.until - l.ttl;
      if lo >= start - l.ttl {
        BetweenIsPartOfSince(l, times, lo, lo + l.ttl);
        LaterIsFewer(l, times, start - l.ttl, lo);
      } else {
        AnyWindowLetsThroughFewerThanTwiceTheLimit(l, times[..n], lo);
      }
    }
  }

  /** The hit at `n` started a window: it found no block, and no counter key that was still alive. */
  predicate Opens(l: Limits, times: seq<int>, n: nat)
    requires n < |times|
  {
    var c := After(l, times[..n]);
    BlockLeft(c, times[n]) <= 0 && (c.hits.None? || c.hits.value.until < times[n])
  }

  /** From the opening of a window on, either it is still the current one or the clock has passed its end. */
  lemma {:induction false} WindowIsCurrentOrOver(l: Limits, times: seq<int>, n: nat)
    requires l.ttl > 0 && l.blockDuration > 0 && InOrder(times) && n < |times| && Opens(l, times, n)
    ensures || Some(times[n] + l.ttl) == Until(l, times)
            || times[|times| - 1] > times[n] + l.ttl
  {
    var last := |times| - 1;
    if n < last {
      assert times[..last][..n] == times[..n];
      WindowIsCurrentOrOver(l, times[..last], n);
      WindowsAreCounted(l, times[..last]);
    }
  }

  function Until(l: Limits, times: seq<int>): Option<int>
  {
    var h := After(l, times).hits;
    if h.None? then None else Some(h.value.until)
  }

  lemma CurrentWindowLetsThroughTheLimit(l: Limits, times: seq<int>)
    requires l.ttl > 0 && l.blockDuration > 0 && InOrder(times) && Until(l, times).Some?
    ensures Since(l, times, Until(l, times).value - l.ttl) <= Allowed(l)
  {
    WindowsAreCounted(l, times);
  }

  /** No window lets through more than the limit. */
  lemma {:induction false} WindowLetsThroughTheLimit(l: Limits, times: seq<int>, n: nat)
    requires l.ttl > 0 && l.blockDuration > 0 && InOrder(times) && n < |times| && Opens(l, times, n)
    ensures Between(l, times, times[n], times[n] + l.ttl) <= Allowed(l)
  {
    var last := |times| - 1;
    WindowIsCurrentOrOver(l, times, n);
    if times[last] > times[n] + l.ttl {
      assert times[..last][..n] == times[..n];
      WindowLetsThroughTheLimit(l, times[..last], n);
    } else {
      CurrentWindowLetsThroughTheLimit(l, times);
      BetweenIsPartOfSince(l, times, times[n], times[n] + l.ttl);
    }
  }

  /** A hit refused while no block stands finds its window full: exactly the limit got through since it opened. */
  lemma {:induction false} RefusedOnlyWhenFull(l: Limits, times: seq<int>)
    requires l.ttl > 0 && l.blockDuration > 0 && InOrder(times) && times != []
    requires BlockLeft(After(l, times[..|times| - 1]), times[|times| - 1]) <= 0
    ensures !LetThrough(l, times) <==> After(l, times).hits.value.count > l.limit
    ensures var start := After(l, times).hits.value.until - l.ttl;
            !LetThrough(l, times) ==> Since(l, times, start) == Allowed(l)
  {
    WindowsAreCounted(l, times);
  }

  // ---------- The bound is tight, and needs the block duration ----------

  /** The hits of `times`, then `n` more at time `t`. */
  function Add(times: seq<int>, t: int, n: nat): seq<int>
  {
    if n == 0 then times else Add(times, t, n - 1) + [t]
  }

  ghost predicate InOrderUpTo(times: seq<int>, t: int) { InOrder(times) && forall i :: 0 <= i < |times| ==> times[i] <= t }

  lemma {:induction false} AddKeepsOrder(times: seq<int>, t: int, n: nat)
    requires InOrderUpTo(times, t)
    ensures InOrderUpTo(Add(times, t, n), t)
  {
    if n > 0 {
      AddKeepsOrder(times, t, n - 1);
    }
  }

  lemma OneMore(l: Limits, times: seq<int>, t: int, lo: int, hi: int)
    ensures After(l, times + [t]) == Increment(After(l, times), t, l).0
    ensures LetThrough(l, times + [t]) == !Increment(After(l, times), t, l).1.isBlocked
    ensures Between(l, times + [t], lo, hi)
         == Between(l, times, lo, hi) + if LetThrough(l, times + [t]) && lo <= t <= hi then 1 else 0
  {
    assert (times + [t])[..|times|] == times;
  }

  /** The open window has room for `n` more hits at time `t`. */
  predicate HasRoom(l: Limits, c: Counter, t: int, n: nat)
  {
    && c.hits.Some? && c.blockedUntil.None? && c.hits.value.count >= 1 && t <= c.hits.value.until
    && c.hits.value.count + n <= l.limit
  }

  function Grown(c: Counter, n: nat): Counter
    requires c.hits.Some?
  {
    c.(hits := Some(HitKey(c.hits.value.count + n, c.hits.value.until)))
  }

  lemma HitFits(l: Limits, c: Counter, t: int)
    requires HasRoom(l, c, t, 1)
    ensures Increment(c, t, l).0 == Grown(c, 1) && !Increment(c, t, l).1.isBlocked
  {
  }

  /** `more` is `times` and `n` further hits at `t`, all let through. */
  ghost predicate AllFit(l: Limits, times: seq<int>, more: seq<int>, t: int, n: nat, lo: int, hi: int)
  {
    && After(l, times).hits.Some? && After(l, more) == Grown(After(l, times), n)
    && Between(l, more, lo, hi) == Between(l, times, lo, hi) + if lo <= t <= hi then n else 0
  }

  lemma OneMoreFits(l: Limits, times: seq<int>, more: seq<int>, t: int, n: nat, lo: int, hi: int)
    requires HasRoom(l, After(l, times), t, n + 1) && AllFit(l, times, more, t, n, lo, hi)
    ensures AllFit(l, times, more + [t], t, n + 1, lo, hi)
  {
    HitFits(l, After(l, more), t);
    OneMore(l, more, t, lo, hi);
  }

  /** Hits that fit into an open window are all let through. */
  lemma {:induction false} RepeatedHitsFit(l: Limits, times: seq<int>, t: int, n: nat, lo: int, hi: int)
    requires HasRoom(l, After(l, times), t, n)
    ensures AllFit(l, times, Add(times, t, n), t, n, lo, hi)
  {
    if n > 0 {
      RepeatedHitsFit(l, times, t, n - 1, lo, hi);
      OneMoreFits(l, times, Add(times, t, n - 1), t, n - 1, lo, hi);
    }
  }

  /** A hit that opens a window leaves room for the rest of the limit. */
  lemma OpeningHit(l: Limits, c: Counter, t: int)
    requires l.ttl > 0 && l.limit >= 1 && c.blockedUntil.None? && (c.hits.None? || c.hits.value.until < t)
    ensures Increment(c, t, l).0 == Counter(Some(HitKey(1, t + l.ttl)), None) && !Increment(c, t, l).1.isBlocked
  {
  }

  function Filled(l: Limits, times: seq<int>, t: int, t': int): seq<int>
    requires l.limit >= 1
  {
    Add(times + [t], t', l.limit - 1)
  }

  lemma FilledKeepsOrder(l: Limits, times: seq<int>, t: int, t': int)
    requires l.limit >= 1 && t <= t' && InOrderUpTo(times, t)
    ensures InOrderUpTo(Filled(l, times, t, t'), t')
  {
    AddKeepsOrder(times + [t], t', l.limit - 1);
  }

  lemma FillRest(l: Limits, started: seq<int>, t: int, t': int, lo: int, hi: int)
    requires l.limit >= 1 && t' <= t + l.ttl && After(l, started) == Counter(Some(HitKey(1, t + l.ttl)), None)
    ensures After(l, Add(started, t', l.limit - 1)) == Counter(Some(HitKey(l.limit, t + l.ttl)), None)
    ensures Between(l, Add(started, t', l.limit - 1), lo, hi)
         == Between(l, started, lo, hi) + if lo <= t' <= hi then l.limit - 1 else 0
  {
    RepeatedHitsFit(l, started, t', l.limit - 1, lo, hi);
  }

  lemma OpenWindow(l: Limits, times: seq<int>, t: int, lo: int, hi: int)
    requires l.ttl > 0 && l.limit >= 1
    requires var c := After(l, times); c.blockedUntil.None? && (c.hits.None? || c.hits.value.until < t)
    ensures After(l, times + [t]) == Counter(Some(HitKey(1, t + l.ttl)), None)
    ensures Between(l, times + [t], lo, hi) == Between(l, times, lo, hi) + if lo <= t <= hi then 1 else 0
  {
    OneMore(l, times, t, lo, hi);
    OpeningHit(l, After(l, times), t);
  }

  /** A window opened by a hit at `t` and filled by hits at `t'`, all let through. */
  lemma FullWindow(l: Limits, times: seq<int>, t: int, t': int, lo: int, hi: int)
    requires l.ttl > 0 && l.limit >= 1 && t <= t' <= t + l.ttl
    requires var c := After(l, times); c.blockedUntil.None? && (c.hits.None? || c.hits.value.until < t)
    ensures After(l, Filled(l, times, t, t')) == Counter(Some(HitKey(l.limit, t + l.ttl)), None)
    ensures Between(l, Filled(l, times, t, t'), lo, hi)
         == Between(l, times, lo, hi) + (if lo <= t <= hi then 1 else 0) + if lo <= t' <= hi then l.limit - 1 else 0
  {
    OpenWindow(l, times, t, lo, hi);
    FillRest(l, times + [t], t, t', lo, hi);
  }

  /** One hit, the rest of its window in a burst at the end, and a full window right after. */
  function Burst(l: Limits): seq<int>
    requires l.limit >= 1
  {
    Filled(l, Filled(l, [], 0, l.ttl), l.ttl + 1, l.ttl + 1)
  }

  /** The bound is reached: 2 * limit - 1 hits get through in one window length. */
  lemma BurstReachesTheBound(l: Limits)
    requires l.ttl > 0 && l.limit >= 1
    ensures InOrder(Burst(l)) && Between(l, Burst(l), 1, l.ttl + 1) == 2 * l.limit - 1
  {
    var first := Filled(l, [], 0, l.ttl);
    FullWindow(l, [], 0, l.ttl, 1, l.ttl + 1);
    FullWindow(l, first, l.ttl + 1, l.ttl + 1, 1, l.ttl + 1);
    FilledKeepsOrder(l, [], 0, l.ttl);
    FilledKeepsOrder(l, first, l.ttl + 1, l.ttl + 1);
  }

  /** Without a block duration no hit is ever refused. */
  lemma {:induction false} UnblockedHitsAllPass(l: Limits, times: seq<int>)
    requires l.blockDuration <= 0
    ensures After(l, times).blockedUntil.None?
    ensures times != [] ==> LetThrough(l, times)
  {
    if times != [] {
      UnblockedHitsAllPass(l, times[..|times| - 1]);
    }
  }

  lemma {:induction false} UnblockedCount(l: Limits, t: int, n: nat)
    requires l.blockDuration <= 0
    ensures Between(l, Add([], t, n), t, t + l.ttl) == if l.ttl >= 0 then n else 0
  {
    if n > 0 {
      UnblockedCount(l, t, n - 1);
      UnblockedHitsAllPass(l, Add([], t, n));
      assert Add([], t, n)[..|Add([], t, n)| - 1] == Add([], t, n - 1);
    }
  }

  ghost predicate Bounded(l: Limits, times: seq<int>, lo: int)
  {
    Between(l, times, lo, lo + l.ttl) <= Max(0, 2 * l.limit - 1)
  }

  /** `increment` limits its callers exactly when the block duration it is given is positive. */
  lemma LimitsExactlyWhenBlocking(l: Limits)
    requires l.ttl > 0
    ensures (forall times, lo :: InOrder(times) ==> Bounded(l, times, lo)) <==> l.blockDuration > 0
  {
    if l.blockDuration > 0 {
      forall times, lo | InOrder(times)
        ensures Bounded(l, times, lo)
      {
        AnyWindowLetsThroughFewerThanTwiceTheLimit(l, times, lo);
      }
    } else {
      var n := 2 * Allowed(l) + 1;
      AddKeepsOrder([], 0, n);
      UnblockedCount(l, 0, n);
      assert InOrder(Add([], 0, n)) && !Bounded(l, Add([], 0, n), 0);
    }
  }
}
