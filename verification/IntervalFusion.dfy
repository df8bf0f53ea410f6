/** When aggregating finer bars gives the coarser bars, and bars for which it does not. */
module IntervalFusion {
  import opened Prelude
  import opened Candles
  import opened CandleBuckets
  import Sorting

  // ---------- Exactly when two stages are one ----------

  ghost predicate AllTraded(xs: seq<Candle>) { forall x :: x in xs ==> x.v > 0.0 }

  lemma {:induction false} RunFoldIsTraded(xs: seq<Candle>, f: int -> int)
    requires AllTraded(xs)
    ensures AllTraded(RunFold(xs, f))
  {
    if xs != [] {
      var r, b := RunFold(xs[..|xs| - 1], f), xs[|xs| - 1];
      assert b in xs;
      RunFoldIsTraded(xs[..|xs| - 1], f);
      if r != [] {
        assert r[|r| - 1] in r;
      }
    }
  }

  lemma {:induction false} DroppingLosesVolume(xs: seq<Candle>, keep: Candle -> bool)
    requires forall x :: x in xs ==> x.v >= 0.0
    ensures SumV(Filter(xs, keep)) <= SumV(xs)
    ensures AllTraded(xs) && Filter(xs, keep) != xs ==> SumV(Filter(xs, keep)) < SumV(xs)
  {
    if xs != [] {
      var n := |xs| - 1;
      assert xs[n] in xs && xs == xs[..n] + [xs[n]];
      DroppingLosesVolume(xs[..n], keep);
      var rest := Filter(xs[..n], keep);
      if keep(xs[n]) {
        assert (rest + [xs[n]])[..|rest|] == rest;
      }
    }
  }

  lemma AggregationLosesVolume(bars: seq<RawCandle>, i: Interval)
    ensures SumV(Aggregated(bars, i)) <= SumV(Cleaned(bars))
  {
    var r := RunFold(Cleaned(bars), BucketFn(i));
    AggregationDropsOnlyTheEpoch(bars, i);
    CleanedSound(bars);
    RunFoldIsClean(Cleaned(bars), BucketFn(i));
    assert forall x :: x in r ==> CleanButTime(x);
    DroppingLosesVolume(r, AfterEpoch());
    RunFoldConservesVolume(Cleaned(bars), BucketFn(i));
  }

  lemma OutliersLoseVolume(xs: seq<Candle>)
    requires AllTraded(xs) && FilterPriceOutliers(xs) != xs
    ensures SumV(FilterPriceOutliers(xs)) < SumV(xs)
  {
    var (lo, hi) := BandOf(xs);
    DroppingLosesVolume(xs, BandTest(lo, hi));
  }

  /**
   * For bars that were all traded, aggregating the finer bars gives the coarser ones if and only if the outlier
   * pass over the finer bars drops none of them: a dropped bar takes its volume with it.
   */
  lemma IntervalsFuseIff(bars: seq<RawCandle>, fine: Interval, coarse: Interval)
    requires fine.MIN5? || fine.MIN15? || fine.MIN30? || fine.MIN60?
    requires coarse.MIN15? || coarse.MIN30? || coarse.MIN60?
    requires IntervalBucketMs(coarse) % IntervalBucketMs(fine) == 0
    requires FromSecondDay(Cleaned(bars)) && AllTraded(Cleaned(bars))
    ensures Aggregated(Raws(Aggregated(bars, fine)), coarse) == Aggregated(bars, coarse)
            <==> FilterPriceOutliers(Aggregated(bars, fine)) == Aggregated(bars, fine)
  {
    var mid := Aggregated(bars, fine);
    if FilterPriceOutliers(mid) == mid {
      IntervalsFuse(bars, fine, coarse);
    } else {
      AggregatedCleanIsItself(bars, fine);
      AggregationLosesVolume(Raws(mid), coarse);
      AggregationIsRunFold(bars, fine);
      RunFoldIsTraded(Cleaned(bars), BucketFn(fine));
      OutliersLoseVolume(mid);
      AggregationIsExact(bars, fine, 0);
      AggregationIsExact(bars, coarse, 0);
    }
  }

  // ---------- Bars on which they differ ----------

  const START := 2 * DAY_MS

  const QUARTER := 900000

  function Flat(t: int, price: real): Candle { Candle(t, price, price, price, price, 1.0) }

  /** One minute at 100 in each of seven quarters, then, in the eighth, minutes at 130. */
  function JumpBar(i: nat): Candle
  {
    if i < 7 then Flat(START + i * QUARTER, 100.0) else Flat(START + 7 * QUARTER + (i - 7) * 60000, 130.0)
  }

  function Jump(n: nat): (xs: seq<Candle>)
    ensures |xs| == n && forall i :: 0 <= i < n ==> xs[i] == JumpBar(i)
  {
    seq(n, i requires 0 <= i < n => JumpBar(i))
  }

  lemma MedianOfSorted(s: seq<real>)
    requires s != [] && Sorting.Sorted(s)
    ensures Sorting.Median(s) == s[|s| / 2]
  {
    Sorting.SortIsUnique(Sorting.Sort(s), s);
  }

  lemma JumpMids(n: nat)
    requires n >= 14
    ensures Sorting.Median(Mids(Jump(n))) == 130.0
  {
    MedianOfSorted(Mids(Jump(n)));
  }

  /** The minutes survive: their median is 130, and 100 is inside its band. */
  lemma JumpIsClean(n: nat)
    requires n >= 14
    ensures Cleaned(Raws(Jump(n))) == Jump(n)
  {
    SanitizeOfClean(Jump(n));
    JumpMids(n);
    var (lo, hi) := BandOf(Jump(n));
    FilterAll(Jump(n), BandTest(lo, hi));
  }

  /** What the quarters are after `n` minutes of the eighth. */
  function Quarters(n: nat): seq<Candle>
  {
    if n == 0 then Jump(7) else Jump(7) + [Flat(START + 7 * QUARTER, 130.0).(v := n as real)]
  }

  lemma QuarterOf(i: nat)
    requires i < 22
    ensures BucketFn(MIN15)(JumpBar(i).t) == START + (if i < 7 then i else 7) * QUARTER
  {
  }

  lemma {:induction false} FirstQuarters(n: nat)
    requires n <= 7
    ensures RunFold(Jump(n), BucketFn(MIN15)) == Jump(n)
  {
    if n > 0 {
      FirstQuarters(n - 1);
      QuarterOf(n - 1);
      assert Jump(n)[..n - 1] == Jump(n - 1);
      assert Jump(n) == Jump(n - 1) + [JumpBar(n - 1)];
    }
  }

  lemma {:induction false} LastQuarter(n: nat)
    requires n <= 15
    ensures RunFold(Jump(7 + n), BucketFn(MIN15)) == Quarters(n)
  {
    if n == 0 {
      FirstQuarters(7);
    } else {
      LastQuarter(n - 1);
      QuarterOf(6 + n);
      assert Jump(7 + n)[..6 + n] == Jump(6 + n);
      assert Jump(7)[6].t != START + 7 * QUARTER;
    }
  }

  lemma {:induction false} FilterPrefix(xs: seq<Candle>, keep: Candle -> bool, last: Candle)
    requires (forall x :: x in xs ==> keep(x)) && !keep(last)
    ensures Filter(xs + [last], keep) == xs
  {
    assert (xs + [last])[..|xs|] == xs;
    FilterAll(xs, keep);
  }

  /** The quarters lose the last one: their median is 100, and 130 is outside its band. */
  lemma JumpQuarterIsDropped(n: nat)
    requires n > 0
    ensures FilterPriceOutliers(Quarters(n)) == Jump(7)
  {
    var xs := Quarters(n);
    MedianOfSorted(Mids(xs));
    assert Sorting.Median(Mids(xs)) == 100.0;
    var (lo, hi) := BandOf(xs);
    FilterPrefix(Jump(7), BandTest(lo, hi), xs[7]);
  }

  lemma JumpIsLate(n: nat)
    ensures FromSecondDay(Jump(n)) && AllTraded(Jump(n))
  {
  }

  lemma JumpQuarters(n: nat)
    requires 7 <= n <= 15
    ensures var bars := Raws(Jump(7 + n));
            FromSecondDay(Cleaned(bars)) && AllTraded(Cleaned(bars)) && Aggregated(bars, MIN15) == Quarters(n)
  {
    JumpIsClean(7 + n);
    JumpIsLate(7 + n);
    LastQuarter(n);
    AggregationIsRunFold(Raws(Jump(7 + n)), MIN15);
  }

  /** Half-hours made from these quarters are not those made from the minutes. */
  lemma HalfHoursFromQuartersDiffer(n: nat)
    requires 7 <= n <= 15
    ensures var bars := Raws(Jump(7 + n));
            Aggregated(Raws(Aggregated(bars, MIN15)), MIN30) != Aggregated(bars, MIN30)
  {
    JumpQuarters(n);
    JumpQuarterIsDropped(n);
    assert |Quarters(n)| != |Jump(7)|;
    IntervalsFuseIff(Raws(Jump(7 + n)), MIN15, MIN30);
  }
}
