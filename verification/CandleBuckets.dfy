/** Outlier filtering, and aggregation of one-minute candles into coarser ones in two forms that agree. */
module CandleBuckets {
  import opened Prelude
  import opened Candles
  import Sorting

  // ---------- Outliers ----------

  function Mid(x: Candle): real { (x.h + x.l) / 2.0 }

  function Mids(xs: seq<Candle>): seq<real> { seq(|xs|, i requires 0 <= i < |xs| => Mid(xs[i])) }

  /** Mid-price within the band, wicks within 5% beyond it. */
  predicate InBand(x: Candle, lo: real, hi: real)
  {
    lo <= Mid(x) <= hi && x.h <= hi * 1.05 && x.l >= lo * 0.95
  }

  function Filter(xs: seq<Candle>, keep: Candle -> bool): seq<Candle>
  {
    if xs == [] then []
    else
      var rest, last := Filter(xs[..|xs| - 1], keep), xs[|xs| - 1];
      if keep(last) then rest + [last] else rest
  }

  function BandTest(lo: real, hi: real): Candle -> bool { (x: Candle) => InBand(x, lo, hi) }

  const BAND := 0.25

  function BandOf(xs: seq<Candle>): (real, real)
    requires xs != []
  {
    var median := Sorting.Median(Mids(xs));
    (median * (1.0 - BAND), median * (1.0 + BAND))
  }

  function Inliers(xs: seq<Candle>): seq<Candle>
    requires xs != []
  {
    var (lo, hi) := BandOf(xs);
    Filter(xs, BandTest(lo, hi))
  }

  function FilterPriceOutliers(xs: seq<Candle>): seq<Candle>
  {
    if |xs| < 8 then xs
    else if !(Sorting.Median(Mids(xs)) > 0.0) then xs
    else if |Inliers(xs)| >= Max(5, |xs| / 2) then Inliers(xs) else xs
  }

  lemma {:induction false} FilterSound(xs: seq<Candle>, keep: Candle -> bool)
    ensures forall x :: x in Filter(xs, keep) <==> x in xs && keep(x)
    ensures Ascending(xs) ==> Ascending(Filter(xs, keep))
  {
    if xs != [] {
      var n := |xs| - 1;
      FilterSound(xs[..n], keep);
      assert xs == xs[..n] + [xs[n]];
      if Ascending(xs) {
        var rest := Filter(xs[..n], keep);
        forall i | 0 <= i < |rest|
          ensures rest[i].t < xs[n].t
        {
          assert rest[i] in xs[..n];
        }
      }
    }
  }

  /**
   * The filter returns candles of its input in the same order; either it dropped nothing, or everything it
   * returned lies in the band around the median and at least half of the input, and at least five, remain.
   */
  lemma FilterPriceOutliersSound(xs: seq<Candle>)
    ensures var out := FilterPriceOutliers(xs);
            && (Ascending(xs) ==> Ascending(out))
            && (forall x :: x in out ==> x in xs)
            && (out == xs || (xs != [] && |out| >= Max(5, |xs| / 2)
                              && forall x :: x in out <==> x in xs && InBand(x, BandOf(xs).0, BandOf(xs).1)))
  {
    if |xs| >= 8 {
      var (lo, hi) := BandOf(xs);
      FilterSound(xs, BandTest(lo, hi));
    }
  }

  /** The guard against a median that is not positive never trips on sanitised candles. */
  lemma MedianOfCleanIsPositive(xs: seq<Candle>)
    requires xs != [] && AllClean(xs)
    ensures Sorting.Median(Mids(xs)) > 0.0
  {
    Sorting.MedianIsElement(Mids(xs));
    var i :| 0 <= i < |xs| && Mids(xs)[i] == Sorting.Median(Mids(xs));
    assert xs[i] in xs;
  }

  // ---------- Buckets ----------

  datatype Interval = MIN1 | MIN5 | MIN15 | MIN30 | MIN60 | DAY

  const IST_OFFSET_MS := 19800000

  function IntervalBucketMs(i: Interval): int
  {
    match i
    case MIN1 => 60000
    case MIN5 => 300000
    case MIN15 => 900000
    case MIN30 => 1800000
    case MIN60 => 3600000
    case DAY => DAY_MS
  }

  function IstDayStartMs(ts: int): int { (ts + IST_OFFSET_MS) / DAY_MS * DAY_MS - IST_OFFSET_MS }

  function BucketStartMs(ts: int, i: Interval): int
  {
    if i.DAY? then IstDayStartMs(ts) else ts - ts % IntervalBucketMs(i)
  }

  /** Buckets grow with time, and contain the time they are the bucket of. */
  ghost predicate Bucketing(f: int -> int)
  {
    (forall s, t :: s <= t ==> f(s) <= f(t)) && (forall t :: f(t) <= t)
  }

  function BucketFn(i: Interval): int -> int { t => BucketStartMs(t, i) }

  lemma Floors(t: int, n: int)
    requires n > 0
    ensures t - t % n == t / n * n <= t < t / n * n + n
  {
    assert t == t / n * n + t % n;
  }

  lemma {:induction false} FloorsMonotone(s: int, t: int, n: int)
    requires n > 0 && s <= t
    ensures s / n * n <= t / n * n
  {
    Floors(s, n);
    Floors(t, n);
    if s / n > t / n {
      ScaleInt(t / n + 1, s / n, n);
    }
    if s / n <= t / n {
      ScaleInt(s / n, t / n, n);
    }
  }

  lemma {:induction false} IntervalIsBucketing(i: Interval)
    ensures Bucketing(BucketFn(i))
    ensures forall t :: t >= DAY_MS ==> BucketFn(i)(t) > 0
  {
    var n := IntervalBucketMs(i);
    forall t
      ensures BucketFn(i)(t) <= t && BucketFn(i)(t) > t - n
    {
      Floors(t, n);
      Floors(t + IST_OFFSET_MS, DAY_MS);
    }
    forall s, t | s <= t
      ensures BucketFn(i)(s) <= BucketFn(i)(t)
    {
      Floors(s, n);
      Floors(t, n);
      FloorsMonotone(s, t, n);
      FloorsMonotone(s + IST_OFFSET_MS, t + IST_OFFSET_MS, DAY_MS);
    }
  }

  // ---------- Aggregation ----------

  function Open(bucket: int, b: Candle): Candle { Candle(bucket, b.o, b.h, b.l, b.c, b.v) }

  function Merge(cur: Candle, b: Candle): Candle
  {
    Candle(cur.t, cur.o, MaxR(cur.h, b.h), MinR(cur.l, b.l), b.c, cur.v + b.v)
  }

  function IndexOfTime(xs: seq<Candle>, t: int): (j: nat)
    ensures j <= |xs|
    ensures j < |xs| ==> xs[j].t == t
    ensures forall k :: 0 <= k < j ==> xs[k].t != t
  {
    if xs == [] then 0 else if xs[0].t == t then 0 else 1 + IndexOfTime(xs[1..], t)
  }

  /** One step of the fold over an insertion-ordered map from bucket to candle. */
  function MapStep(buckets: seq<Candle>, bucket: int, b: Candle): seq<Candle>
  {
    var j := IndexOfTime(buckets, bucket);
    if j < |buckets| then buckets[j := Merge(buckets[j], b)] else buckets + [Open(bucket, b)]
  }

  function MapFold(xs: seq<Candle>, f: int -> int): seq<Candle>
  {
    if xs == [] then [] else MapStep(MapFold(xs[..|xs| - 1], f), f(xs[|xs| - 1].t), xs[|xs| - 1])
  }

  lemma MapFoldNext(xs: seq<Candle>, f: int -> int, k: nat)
    requires k < |xs|
    ensures MapFold(xs[..k + 1], f) == MapStep(MapFold(xs[..k], f), f(xs[k].t), xs[k])
  {
    assert xs[..k + 1][..k] == xs[..k];
  }

  /** The aggregate of one-minute bars: sanitise, drop outliers, bucket, sanitise again. */
  function Aggregated(bars: seq<RawCandle>, i: Interval): seq<Candle>
  {
    Sanitize(Raws(MapFold(FilterPriceOutliers(Sanitize(bars, None, None)), BucketFn(i))), None, None)
  }

  method AggregateFrom1m(bars: seq<RawCandle>, i: Interval) returns (out: seq<RawCandle>)
    ensures i.MIN1? || bars == [] ==> out == bars
    ensures !i.MIN1? && bars != [] ==> out == Raws(Aggregated(bars, i))
  {
    if i.MIN1? || bars == [] {
      return bars;
    }
    var sane := SanitizeHistoryCandles(bars, None, None);
    var clean := FilterPriceOutliers(sane);
    var buckets: seq<Candle> := [];
    for k := 0 to |clean|
      invariant buckets == MapFold(clean[..k], BucketFn(i))
    {
      MapFoldNext(clean, BucketFn(i), k);
      var b := clean[k];
      var bucket := BucketStartMs(b.t, i);
      buckets := AddToBucket(buckets, bucket, b);
    }
    assert clean[..|clean|] == clean;
    var final := SanitizeHistoryCandles(Raws(buckets), None, None);
    out := Raws(final);
  }

  method AddToBucket(buckets: seq<Candle>, bucket: int, b: Candle) returns (out: seq<Candle>)
    ensures out == MapStep(buckets, bucket, b)
  {
    var j := IndexOfTime(buckets, bucket);
    if j == |buckets| {
      return buckets + [Candle(bucket, b.o, b.h, b.l, b.c, b.v)];
    }
    var cur := buckets[j];
    cur := cur.(h := MaxR(cur.h, b.h));
    cur := cur.(l := MinR(cur.l, b.l));
    cur := cur.(c := b.c);
    cur := cur.(v := cur.v + b.v);
    out := buckets[j := cur];
  }

  // ---------- The run fold ----------

  /** One step of the fold that keeps only the bar being built. */
  function RunStep(out: seq<Candle>, bucket: int, b: Candle): seq<Candle>
  {
    if out != [] && out[|out| - 1].t == bucket then out[|out| - 1 := Merge(out[|out| - 1], b)]
    else out + [Open(bucket, b)]
  }

  function RunFold(xs: seq<Candle>, f: int -> int): seq<Candle>
  {
    if xs == [] then [] else RunStep(RunFold(xs[..|xs| - 1], f), f(xs[|xs| - 1].t), xs[|xs| - 1])
  }

  lemma {:induction false} RunFoldAscends(xs: seq<Candle>, f: int -> int)
    requires Ascending(xs) && Bucketing(f)
    ensures Ascending(RunFold(xs, f))
    ensures xs != [] ==> RunFold(xs, f) != [] && RunFold(xs, f)[|RunFold(xs, f)| - 1].t == f(xs[|xs| - 1].t)
  {
    if xs != [] {
      var front, last := xs[..|xs| - 1], xs[|xs| - 1];
      RunFoldAscends(front, f);
      if front != [] {
        assert f(front[|front| - 1].t) <= f(last.t);
      }
      RunStepAscends(RunFold(front, f), f(last.t), last);
    }
  }

  lemma RunStepAscends(out: seq<Candle>, bucket: int, b: Candle)
    requires Ascending(out) && (out == [] || out[|out| - 1].t <= bucket)
    ensures var next := RunStep(out, bucket, b); Ascending(next) && next != [] && next[|next| - 1].t == bucket
  {
  }

  lemma StepsAgree(out: seq<Candle>, bucket: int, b: Candle)
    requires Ascending(out) && (out == [] || out[|out| - 1].t <= bucket)
    ensures MapStep(out, bucket, b) == RunStep(out, bucket, b)
  {
    var j := IndexOfTime(out, bucket);
    if j < |out| - 1 {
      assert out[j].t < out[|out| - 1].t;
    }
  }

  /** On ascending input the map fold only ever touches its last bucket: it is the run fold. */
  lemma {:induction false} MapFoldIsRunFold(xs: seq<Candle>, f: int -> int)
    requires Ascending(xs) && Bucketing(f)
    ensures MapFold(xs, f) == RunFold(xs, f)
  {
    if xs != [] {
      MapFoldIsRunFold(xs[..|xs| - 1], f);
      RunFoldAscends(xs[..|xs| - 1], f);
      StepsAgree(RunFold(xs[..|xs| - 1], f), f(xs[|xs| - 1].t), xs[|xs| - 1]);
    }
  }

  // ---------- What aggregation means ----------

  /** The candles of one bucket, in order. */
  function Members(xs: seq<Candle>, f: int -> int, k: int): seq<Candle>
  {
    if xs == [] then []
    else
      var rest, last := Members(xs[..|xs| - 1], f, k), xs[|xs| - 1];
      if f(last.t) == k then rest + [last] else rest
  }

  function SumV(xs: seq<Candle>): real
  {
    if xs == [] then 0.0 else SumV(xs[..|xs| - 1]) + xs[|xs| - 1].v
  }

  /** First open, highest high, lowest low, last close and total volume, over a non-empty group. */
  ghost predicate Summarises(bar: Candle, k: int, group: seq<Candle>)
  {
    && group != [] && bar.t == k
    && bar.o == group[0].o && bar.c == group[|group| - 1].c && bar.v == SumV(group)
    && (forall i :: 0 <= i < |group| ==> group[i].h <= bar.h && bar.l <= group[i].l)
    && (exists i :: 0 <= i < |group| && group[i].h == bar.h)
    && (exists i :: 0 <= i < |group| && group[i].l == bar.l)
  }

  lemma OpenSummarises(k: int, b: Candle)
    ensures Summarises(Open(k, b), k, [b])
  {
    assert [b][..0] == [];
    assert [b][0].h == Open(k, b).h && [b][0].l == Open(k, b).l;
  }

  lemma MergeSummarises(cur: Candle, k: int, group: seq<Candle>, b: Candle)
    requires Summarises(cur, k, group)
    ensures Summarises(Merge(cur, b), k, group + [b])
  {
    var g, m := group + [b], Merge(cur, b);
    assert g[..|group|] == group;
    var i :| 0 <= i < |group| && group[i].h == cur.h;
    assert g[if b.h > cur.h then |group| else i].h == m.h;
    var j :| 0 <= j < |group| && group[j].l == cur.l;
    assert g[if b.l < cur.l then |group| else j].l == m.l;
  }

  /** The bar the fold has for bucket `k` summarises exactly the members of `k`; without members it has none. */
  ghost predicate BucketOk(out: seq<Candle>, xs: seq<Candle>, f: int -> int, k: int)
  {
    if Members(xs, f, k) == [] then At(out, k) == None
    else At(out, k).Some? && Summarises(At(out, k).value, k, Members(xs, f, k))
  }

  lemma RunStepAt(out: seq<Candle>, bucket: int, b: Candle, k: int)
    requires Ascending(out) && (out == [] || out[|out| - 1].t <= bucket)
    ensures At(RunStep(out, bucket, b), k) ==
            if k != bucket then At(out, k)
            else if At(out, k).Some? then Some(Merge(At(out, k).value, b)) else Some(Open(bucket, b))
  {
    LastByTimeKeys(out);
    if out != [] && out[|out| - 1].t == bucket {
      var n := |out| - 1;
      assert RunStep(out, bucket, b)[..n] == out[..n];
      AscendingIndex(out, n);
    } else {
      assert RunStep(out, bucket, b)[..|out|] == out;
      if out != [] {
        LatestBounds(out);
      }
    }
  }

  lemma {:induction false} RunFoldBuckets(xs: seq<Candle>, f: int -> int, k: int)
    requires Ascending(xs) && Bucketing(f)
    ensures BucketOk(RunFold(xs, f), xs, f, k)
  {
    if xs != [] {
      var front, b := xs[..|xs| - 1], xs[|xs| - 1];
      RunFoldBuckets(front, f, k);
      RunFoldAscends(front, f);
      RunStepAt(RunFold(front, f), f(b.t), b, k);
      if f(b.t) == k {
        OpenSummarises(k, b);
        if Members(front, f, k) != [] {
          MergeSummarises(At(RunFold(front, f), k).value, k, Members(front, f, k), b);
        }
      }
    }
  }

  lemma {:induction false} RunFoldConservesVolume(xs: seq<Candle>, f: int -> int)
    ensures SumV(RunFold(xs, f)) == SumV(xs)
  {
    if xs != [] {
      var r, b := RunFold(xs[..|xs| - 1], f), xs[|xs| - 1];
      RunFoldConservesVolume(xs[..|xs| - 1], f);
      var next := RunStep(r, f(b.t), b);
      assert next[..|next| - 1] == if |next| == |r| then r[..|r| - 1] else r;
    }
  }

  function AfterEpoch(): Candle -> bool { (x: Candle) => x.t > 0 }

  /** Clean except that its time may lie at or before the epoch. */
  ghost predicate CleanButTime(x: Candle) { Clean(x.(t := 1)) }

  lemma {:induction false} RunFoldIsClean(xs: seq<Candle>, f: int -> int)
    requires AllClean(xs)
    ensures forall x :: x in RunFold(xs, f) ==> CleanButTime(x)
  {
    if xs != [] {
      var front, b := xs[..|xs| - 1], xs[|xs| - 1];
      assert b in xs;
      RunFoldIsClean(front, f);
      var r := RunFold(front, f);
      if r != [] {
        assert r[|r| - 1] in r;
      }
    }
  }

  lemma {:induction false} KeptOfCleanButTime(xs: seq<Candle>)
    requires forall x :: x in xs ==> CleanButTime(x)
    ensures Kept(Raws(xs), None, None) == Filter(xs, AfterEpoch())
  {
    if xs != [] {
      var n := |xs| - 1;
      KeptOfCleanButTime(xs[..n]);
      assert Raws(xs)[..n] == Raws(xs[..n]);
      assert CleanButTime(xs[n]);
      if xs[n].t > 0 {
        CleanIsStable(xs[n]);
      }
    }
  }

  lemma {:induction false} FilterAll(xs: seq<Candle>, keep: Candle -> bool)
    requires forall x :: x in xs ==> keep(x)
    ensures Filter(xs, keep) == xs
  {
    if xs != [] {
      FilterAll(xs[..|xs| - 1], keep);
      assert xs == xs[..|xs| - 1] + [xs[|xs| - 1]];
    }
  }

  /** The cleaned input of an aggregation. */
  function Cleaned(bars: seq<RawCandle>): seq<Candle> { FilterPriceOutliers(Sanitize(bars, None, None)) }

  lemma CleanedSound(bars: seq<RawCandle>)
    ensures Ascending(Cleaned(bars)) && AllClean(Cleaned(bars))
  {
    SanitizedIsClean(bars, None, None);
    FilterPriceOutliersSound(Sanitize(bars, None, None));
  }

  /** Whatever the input, the closing sanitise drops exactly the buckets that start at or before the epoch. */
  lemma AggregationDropsOnlyTheEpoch(bars: seq<RawCandle>, i: Interval)
    ensures Aggregated(bars, i) == Filter(RunFold(Cleaned(bars), BucketFn(i)), AfterEpoch())
    ensures MapFold(Cleaned(bars), BucketFn(i)) == RunFold(Cleaned(bars), BucketFn(i))
  {
    var xs, f := Cleaned(bars), BucketFn(i);
    CleanedSound(bars);
    IntervalIsBucketing(i);
    MapFoldIsRunFold(xs, f);
    RunFoldAscends(xs, f);
    RunFoldIsClean(xs, f);
    KeptOfCleanButTime(RunFold(xs, f));
    FilterSound(RunFold(xs, f), AfterEpoch());
    ListingOfAscending(Filter(RunFold(xs, f), AfterEpoch()));
  }

  lemma {:induction false} RunFoldTimes(xs: seq<Candle>, f: int -> int)
    requires forall x :: x in xs ==> f(x.t) > 0
    ensures forall x :: x in RunFold(xs, f) ==> x.t > 0
  {
    if xs != [] {
      var front, b := xs[..|xs| - 1], xs[|xs| - 1];
      assert b in xs;
      RunFoldTimes(front, f);
      var r := RunFold(front, f);
      if r != [] {
        assert r[|r| - 1] in r;
      }
    }
  }

  /** Every extreme of the fold is an extreme of some input candle, so any band that holds the inputs holds the outputs. */
  lemma {:induction false} RunFoldStaysInside(xs: seq<Candle>, f: int -> int, lo: real, hi: real)
    requires forall x :: x in xs ==> x.h <= hi && lo <= x.l
    ensures forall x :: x in RunFold(xs, f) ==> x.h <= hi && lo <= x.l
  {
    if xs != [] {
      var r, b := RunFold(xs[..|xs| - 1], f), xs[|xs| - 1];
      assert b in xs;
      RunFoldStaysInside(xs[..|xs| - 1], f, lo, hi);
      if r != [] {
        assert r[|r| - 1] in r;
      }
    }
  }

  ghost predicate FromSecondDay(xs: seq<Candle>) { forall x :: x in xs ==> x.t >= DAY_MS }

  lemma AggregationIsRunFold(bars: seq<RawCandle>, i: Interval)
    requires FromSecondDay(Cleaned(bars))
    ensures Aggregated(bars, i) == RunFold(Cleaned(bars), BucketFn(i))
  {
    var xs, f := Cleaned(bars), BucketFn(i);
    AggregationDropsOnlyTheEpoch(bars, i);
    IntervalIsBucketing(i);
    RunFoldTimes(xs, f);
    FilterAll(RunFold(xs, f), AfterEpoch());
  }

  /**
   * Aggregating bars from at least a day after the epoch gives, in ascending order, exactly one bar for each
   * bucket that has members, summarising them; the closing sanitise drops nothing and no volume is lost.
   */
  lemma AggregationIsExact(bars: seq<RawCandle>, i: Interval, k: int)
    requires FromSecondDay(Cleaned(bars))
    ensures Ascending(Aggregated(bars, i)) && BucketOk(Aggregated(bars, i), Cleaned(bars), BucketFn(i), k)
    ensures Aggregated(bars, i) == MapFold(Cleaned(bars), BucketFn(i))
    ensures SumV(Aggregated(bars, i)) == SumV(Cleaned(bars))
  {
    var xs, f := Cleaned(bars), BucketFn(i);
    AggregationIsRunFold(bars, i);
    CleanedSound(bars);
    IntervalIsBucketing(i);
    MapFoldIsRunFold(xs, f);
    RunFoldAscends(xs, f);
    RunFoldConservesVolume(xs, f);
    RunFoldBuckets(xs, f, k);
  }

  /** Unless the filter fell back to the whole input, no aggregated wick leaves its 5%-widened band. */
  lemma AggregationStaysInBand(bars: seq<RawCandle>, i: Interval)
    requires Cleaned(bars) != Sanitize(bars, None, None)
    ensures var (lo, hi) := BandOf(Sanitize(bars, None, None));
            forall x :: x in Aggregated(bars, i) ==> x.h <= hi * 1.05 && lo * 0.95 <= x.l
  {
    FilterPriceOutliersSound(Sanitize(bars, None, None));
    AggregationDropsOnlyTheEpoch(bars, i);
    var (lo, hi) := BandOf(Sanitize(bars, None, None));
    RunFoldStaysInside(Cleaned(bars), BucketFn(i), lo * 0.95, hi * 1.05);
    FilterSound(RunFold(Cleaned(bars), BucketFn(i)), AfterEpoch());
  }

  // ---------- Fusion ----------

  /** Buckets of `g` are unions of buckets of `f`. */
  ghost predicate Coarser(f: int -> int, g: int -> int) { forall t :: g(f(t)) == g(t) }

  lemma MergeAssociates(m: Candle, l: Candle, x: Candle)
    ensures Merge(m, Merge(l, x)) == Merge(Merge(m, l), x)
  {
  }

  /** Feeding a bar that was itself merged is feeding its parts one after the other. */
  lemma StepOfMerge(out: seq<Candle>, bucket: int, l: Candle, x: Candle)
    ensures RunStep(out, bucket, Merge(l, x)) == RunStep(RunStep(out, bucket, l), bucket, x)
  {
    if out != [] && out[|out| - 1].t == bucket {
      MergeAssociates(out[|out| - 1], l, x);
    } else {
      assert RunStep(out, bucket, l) == out + [Open(bucket, l)];
    }
  }

  /**
   * Aggregating in two stages is aggregating once, for every input, sorted or not, whenever the second
   * bucketing is coarser than the first.
   */
  lemma {:induction false} RunFoldFuses(xs: seq<Candle>, f: int -> int, g: int -> int)
    requires Coarser(f, g)
    ensures RunFold(RunFold(xs, f), g) == RunFold(xs, g)
    ensures xs != [] ==> RunFold(xs, f) != [] && g(RunFold(xs, f)[|RunFold(xs, f)| - 1].t) == g(xs[|xs| - 1].t)
  {
    if xs != [] {
      var front, x := xs[..|xs| - 1], xs[|xs| - 1];
      RunFoldFuses(front, f, g);
      FuseStep(RunFold(front, f), f, g, x);
    }
  }

  lemma FuseStep(r: seq<Candle>, f: int -> int, g: int -> int, x: Candle)
    requires Coarser(f, g)
    ensures RunFold(RunStep(r, f(x.t), x), g) == RunStep(RunFold(r, g), g(x.t), x)
    ensures var next := RunStep(r, f(x.t), x); next != [] && g(next[|next| - 1].t) == g(x.t)
  {
    var next := RunStep(r, f(x.t), x);
    if r != [] && r[|r| - 1].t == f(x.t) {
      var h, l := r[..|r| - 1], r[|r| - 1];
      assert next[..|next| - 1] == h && next[|next| - 1] == Merge(l, x);
      assert g(f(x.t)) == g(x.t);
      StepOfMerge(RunFold(h, g), g(l.t), l, x);
    } else {
      assert next[..|next| - 1] == r && next[|next| - 1] == Open(f(x.t), x);
      assert g(f(x.t)) == g(x.t);
    }
  }

  /** Flooring to a multiple refines flooring to a divisor. */
  lemma {:induction false} DivisorsAreCoarser(t: int, a: int, k: int)
    requires a > 0 && k > 0
    ensures var n := a * k; n > 0 && (t / a * a) / n * n == t / n * n
  {
    var n := a * k;
    assert n > 0 by { ScaleInt(1, k, a); assert 1 * a == a; assert k * a == n; }
    Floors(t, n);
    Floors(t, a);
    var q := t / n;
    assert q * n == (q * k) * a by { assert q * (a * k) == (q * k) * a; }
    FloorsMonotone(q * n, t, a);
    assert (q * n) / a * a == q * n by { MultipleFloors(q * k, a); }
    FloorsMonotone(t / a * a, t, n);
    FloorsMonotone(q * n, t / a * a, n);
    assert (q * n) / n * n == q * n by { MultipleFloors(q, n); }
  }

  lemma {:induction false} MultipleFloors(q: int, n: int)
    requires n > 0
    ensures (q * n) / n * n == q * n
  {
    Floors(q * n, n);
    var d := q - (q * n) / n;
    assert d * n == q * n - (q * n) / n * n;
    if d >= 1 { ScaleInt(1, d, n); }
    if d <= -1 { ScaleInt(d, -1, n); }
  }

  /**
   * The 30-minute history built from 15-minute bars is the one built from the minutes themselves: any two
   * intraday intervals, the finer dividing the coarser, fuse when no bar is dropped as an outlier.
   */
  lemma {:induction false} IntervalsFuse(bars: seq<RawCandle>, fine: Interval, coarse: Interval)
    requires fine.MIN5? || fine.MIN15? || fine.MIN30? || fine.MIN60?
    requires coarse.MIN15? || coarse.MIN30? || coarse.MIN60?
    requires IntervalBucketMs(coarse) % IntervalBucketMs(fine) == 0
    requires FromSecondDay(Cleaned(bars))
    requires FilterPriceOutliers(Aggregated(bars, fine)) == Aggregated(bars, fine)
    ensures Aggregated(Raws(Aggregated(bars, fine)), coarse) == Aggregated(bars, coarse)
  {
    var xs, f, g := Cleaned(bars), BucketFn(fine), BucketFn(coarse);
    IntervalIsCoarser(fine, coarse);
    AggregationIsRunFold(bars, fine);
    AggregationIsRunFold(bars, coarse);
    AggregatedCleanIsItself(bars, fine);
    var mid := Aggregated(bars, fine);
    AggregationDropsOnlyTheEpoch(Raws(mid), coarse);
    RunFoldFuses(xs, f, g);
    IntervalIsBucketing(coarse);
    RunFoldTimes(xs, g);
    FilterAll(RunFold(xs, g), AfterEpoch());
  }

  lemma AggregatedCleanIsItself(bars: seq<RawCandle>, i: Interval)
    ensures Sanitize(Raws(Aggregated(bars, i)), None, None) == Aggregated(bars, i)
  {
    SanitizeIsIdempotent(Raws(MapFold(Cleaned(bars), BucketFn(i))), None, None);
  }

  lemma {:induction false} IntervalIsCoarser(fine: Interval, coarse: Interval)
    requires !fine.DAY? && !coarse.DAY? && IntervalBucketMs(coarse) % IntervalBucketMs(fine) == 0
    ensures Coarser(BucketFn(fine), BucketFn(coarse))
  {
    var a, n := IntervalBucketMs(fine), IntervalBucketMs(coarse);
    forall t
      ensures BucketFn(coarse)(BucketFn(fine)(t)) == BucketFn(coarse)(t)
    {
      Floors(t, a);
      Floors(t, n);
      Floors(t / a * a, n);
      WholeMultiple(a, n);
      DivisorsAreCoarser(t, a, n / a);
    }
  }

  lemma WholeMultiple(a: int, n: int)
    requires a > 0 && n > 0 && n % a == 0
    ensures a * (n / a) == n && n / a > 0
  {
  }
}
