/** Merging stored candles into broker history: the broker wins wherever both have a bar. */
module CandleMerge {
  import opened Prelude
  import opened Candles
  import opened CandleBuckets
  import Sorting

  predicate HasTime(xs: seq<Candle>, t: int) { IndexOfTime(xs, t) < |xs| }

  /** Whether a stored bar survives beside the broker's: live continuation, or price-compatible. */
  predicate Compatible(remote: seq<Candle>, c: Candle)
    requires remote != []
  {
    var median := Sorting.Median(Mids(remote));
    && !HasTime(remote, c.t)
    && (c.t > remote[|remote| - 1].t || median * 0.75 <= Mid(c) <= median * 1.25)
  }

  function CompatibleWith(remote: seq<Candle>): Candle -> bool
    requires remote != []
  {
    (c: Candle) => Compatible(remote, c)
  }

  /** The merged set before its closing outlier pass. */
  function Merged(remote: seq<RawCandle>, local: seq<RawCandle>): seq<Candle>
  {
    var r, l := Sanitize(remote, None, None), Sanitize(local, None, None);
    if r == [] then l else if l == [] then r
    else Sanitize(Raws(r + Filter(l, CompatibleWith(r))), None, None)
  }

  function MergedPreferring(remote: seq<RawCandle>, local: seq<RawCandle>): seq<Candle>
  {
    if Sanitize(remote, None, None) != [] && Sanitize(local, None, None) == [] then Sanitize(remote, None, None)
    else FilterPriceOutliers(Merged(remote, local))
  }

  /** `map.set` on an insertion-ordered map keyed by time. */
  function SetByTime(xs: seq<Candle>, c: Candle): seq<Candle>
  {
    var j := IndexOfTime(xs, c.t);
    if j < |xs| then xs[j := c] else xs + [c]
  }

  method MergeRemotePreferring(remote: seq<RawCandle>, local: seq<RawCandle>) returns (out: seq<Candle>)
    ensures out == MergedPreferring(remote, local)
  {
    var remoteClean := SanitizeHistoryCandles(remote, None, None);
    var localClean := SanitizeHistoryCandles(local, None, None);
    if remoteClean == [] {
      return FilterPriceOutliers(localClean);
    }
    if localClean == [] {
      return remoteClean;
    }
    SanitizedIsClean(local, None, None);
    var merged := MergeLoop(remoteClean, localClean);
    var sane := SanitizeHistoryCandles(Raws(merged), None, None);
    out := FilterPriceOutliers(sane);
  }

  /** The loop over stored bars; new keys go to the end of the map, so it only ever appends. */
  method MergeLoop(remoteClean: seq<Candle>, localClean: seq<Candle>) returns (merged: seq<Candle>)
    requires remoteClean != [] && Ascending(localClean)
    ensures merged == remoteClean + Filter(localClean, CompatibleWith(remoteClean))
  {
    var lastRemoteTs := remoteClean[|remoteClean| - 1].t;
    var median := Sorting.Median(Mids(remoteClean));
    var lo, hi := median * 0.75, median * 1.25;
    ghost var keep := CompatibleWith(remoteClean);
    merged := remoteClean;
    for i := 0 to |localClean|
      invariant merged == remoteClean + Filter(localClean[..i], keep)
    {
      assert localClean[..i + 1][..i] == localClean[..i];
      var c := localClean[i];
      if HasTime(remoteClean, c.t) { continue; }
      NewKey(remoteClean, localClean, i, keep);
      if c.t > lastRemoteTs {
        merged := SetByTime(merged, c);
        continue;
      }
      var mid := (c.h + c.l) / 2.0;
      if lo <= mid <= hi {
        merged := SetByTime(merged, c);
      }
    }
    assert localClean[..|localClean|] == localClean;
  }

  lemma NewKey(remote: seq<Candle>, local: seq<Candle>, i: nat, keep: Candle -> bool)
    requires Ascending(local) && i < |local| && !HasTime(remote, local[i].t)
    ensures !HasTime(remote + Filter(local[..i], keep), local[i].t)
  {
    FilterSound(local[..i], keep);
    var all := remote + Filter(local[..i], keep);
    forall j | 0 <= j < |all|
      ensures all[j].t != local[i].t
    {
      if j >= |remote| {
        assert all[j] in Filter(local[..i], keep);
      }
    }
  }

  // ---------- What the merge promises ----------

  lemma KeptPart(r: seq<Candle>, l: seq<Candle>)
    requires Ascending(r) && Ascending(l) && AllClean(r) && AllClean(l) && r != []
    ensures var m := Sanitize(Raws(r + Filter(l, CompatibleWith(r))), None, None);
            && Ascending(m)
            && LastByTime(m) == LastByTime(r) + LastByTime(Filter(l, CompatibleWith(r)))
  {
    var kept := Filter(l, CompatibleWith(r));
    FilterSound(l, CompatibleWith(r));
    KeptOfClean(r + kept, None, None);
    ListingSound(r + kept);
    LastByTimeConcat(r, kept);
  }

  /** A merged bar is the broker's, or a stored bar at a time the broker has none. */
  ghost predicate BrokerWins(out: seq<Candle>, r: seq<Candle>, l: seq<Candle>)
  {
    forall x :: x in out ==> x in r || (x in l && !HasTime(r, x.t) && (r != [] ==> Compatible(r, x)))
  }

  lemma IndexOfPresent(xs: seq<Candle>, x: Candle)
    requires x in xs
    ensures HasTime(xs, x.t)
  {
    var i :| 0 <= i < |xs| && xs[i] == x;
    assert xs[i].t == x.t;
  }

  lemma {:induction false} MergedBars(remote: seq<RawCandle>, local: seq<RawCandle>)
    ensures var r, l, m := Sanitize(remote, None, None), Sanitize(local, None, None), Merged(remote, local);
            && Ascending(m) && BrokerWins(m, r, l) && (forall x :: x in r ==> x in m)
  {
    var r, l := Sanitize(remote, None, None), Sanitize(local, None, None);
    SanitizedIsClean(remote, None, None);
    SanitizedIsClean(local, None, None);
    if r != [] && l != [] {
      MergedOfBoth(r, l);
    }
  }

  lemma {:induction false} MergedOfBoth(r: seq<Candle>, l: seq<Candle>)
    requires Ascending(r) && Ascending(l) && AllClean(r) && AllClean(l) && r != []
    ensures var m := Sanitize(Raws(r + Filter(l, CompatibleWith(r))), None, None);
            Ascending(m) && BrokerWins(m, r, l) && (forall x :: x in r ==> x in m)
  {
    var kept := Filter(l, CompatibleWith(r));
    var m := Sanitize(Raws(r + kept), None, None);
    KeptPart(r, l);
    FilterSound(l, CompatibleWith(r));
    forall x | x in m
      ensures x in r || (x in l && !HasTime(r, x.t) && Compatible(r, x))
    {
      MergedBarComesFrom(r, kept, m, x);
    }
    forall x | x in r
      ensures x in m
    {
      BrokerBarStays(r, kept, m, x);
    }
  }

  lemma MergedBarComesFrom(r: seq<Candle>, kept: seq<Candle>, m: seq<Candle>, x: Candle)
    requires Ascending(m) && x in m && LastByTime(m) == LastByTime(r) + LastByTime(kept)
    ensures x in r || x in kept
  {
    LastByTimeKeys(r);
    LastByTimeKeys(kept);
    var i :| 0 <= i < |m| && m[i] == x;
    AscendingIndex(m, i);
  }

  lemma BrokerBarStays(r: seq<Candle>, kept: seq<Candle>, m: seq<Candle>, x: Candle)
    requires Ascending(r) && x in r && LastByTime(m) == LastByTime(r) + LastByTime(kept)
    requires forall y :: y in kept ==> !HasTime(r, y.t)
    ensures x in m
  {
    var i :| 0 <= i < |r| && r[i] == x;
    AscendingIndex(r, i);
    IndexOfPresent(r, x);
    LastByTimeKeys(kept);
    LastByTimeKeys(m);
    assert x.t !in LastByTime(kept);
    assert LastByTime(m)[x.t] == x;
  }

  /**
   * The merge returns strictly ascending bars of the two sanitised inputs; at a broker timestamp only ever the
   * broker's bar; given broker data, a stored bar up to its last timestamp only with a mid-price within 25% of
   * the broker's median. The closing pass keeps at least five bars and half of the merged set, or all of it,
   * and the merged set holds every broker bar.
   */
  lemma {:induction false} MergePrefersBroker(remote: seq<RawCandle>, local: seq<RawCandle>)
    ensures var r, l := Sanitize(remote, None, None), Sanitize(local, None, None);
            var m, out := Merged(remote, local), MergedPreferring(remote, local);
            && Ascending(out) && BrokerWins(out, r, l)
            && (forall x :: x in out ==> x in m) && (forall x :: x in r ==> x in m)
            && (out == m || |out| >= Max(5, |m| / 2))
  {
    var r, l := Sanitize(remote, None, None), Sanitize(local, None, None);
    MergedBars(remote, local);
    FilterPriceOutliersSound(Merged(remote, local));
  }

  /** Two bars at one time can never both come out, so a broker timestamp shows the broker's bar or nothing. */
  lemma BrokerTimestampIsBrokers(remote: seq<RawCandle>, local: seq<RawCandle>, x: Candle, b: Candle)
    requires x in MergedPreferring(remote, local) && b in Sanitize(remote, None, None) && x.t == b.t
    ensures x == b
  {
    var r := Sanitize(remote, None, None);
    MergePrefersBroker(remote, local);
    SanitizedIsClean(remote, None, None);
    IndexOfPresent(r, b);
    assert x in r;
    var i :| 0 <= i < |r| && r[i] == x;
    var j :| 0 <= j < |r| && r[j] == b;
    assert i == j;
  }
}
