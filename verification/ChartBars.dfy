/** The trader app's own aggregation of chart bars (times in seconds), and its agreement with the server's. */
module ChartBars {
  import opened Prelude
  import Indicators
  import opened Candles
  import opened CandleBuckets

  type Bar = Indicators.Bar

  function AsCandle(b: Bar): Candle { Candle(b.time, b.open, b.high, b.low, b.close, Indicators.VolumeOf(b)) }

  function AsBar(c: Candle): Bar { Indicators.Bar(c.t, c.o, c.h, c.l, c.c, Some(c.v)) }

  function AsCandles(bars: seq<Bar>): seq<Candle> { seq(|bars|, i requires 0 <= i < |bars| => AsCandle(bars[i])) }

  function AsBars(cs: seq<Candle>): seq<Bar> { seq(|cs|, i requires 0 <= i < |cs| => AsBar(cs[i])) }

  function FloorTo(n: int): int -> int
    requires n > 0
  {
    t => t / n * n
  }

  function AggregateBars(bars: seq<Bar>, minutes: int): seq<Bar>
  {
    if minutes <= 1 || bars == [] then bars else AsBars(RunFold(AsCandles(bars), FloorTo(minutes * 60)))
  }

  /** The loop: one bar under construction, pushed when the bucket changes. */
  method AggregateBarsLoop(bars: seq<Bar>, minutes: int) returns (out: seq<Bar>)
    ensures out == AggregateBars(bars, minutes)
  {
    if minutes <= 1 || bars == [] {
      return bars;
    }
    var bucketSec := minutes * 60;
    ghost var f := FloorTo(bucketSec);
    out := [];
    var cur: Option<Bar> := None;
    for i := 0 to |bars|
      invariant Building(out, cur, RunFold(AsCandles(bars[..i]), f)) && (cur.None? <==> i == 0)
    {
      assert AsCandles(bars[..i + 1])[..i] == AsCandles(bars[..i]);
      var b := bars[i];
      var bucket := b.time / bucketSec * bucketSec;
      BuildStep(out, cur, RunFold(AsCandles(bars[..i]), f), b, bucket);
      if cur.None? || cur.value.time != bucket {
        if cur.Some? {
          out := out + [cur.value];
        }
        cur := Some(Indicators.Bar(bucket, b.open, b.high, b.low, b.close, Some(Indicators.VolumeOf(b))));
      } else {
        var c := cur.value;
        cur := Some(Indicators.Bar(c.time, c.open, MaxR(c.high, b.high), MinR(c.low, b.low), b.close,
                                   Some(Indicators.VolumeOf(c) + Indicators.VolumeOf(b))));
      }
    }
    assert bars[..|bars|] == bars;
    out := out + [cur.value];
    ghost var folded := RunFold(AsCandles(bars), f);
    AsBarsOfAppend(folded[..|folded| - 1], folded[|folded| - 1]);
    assert folded == folded[..|folded| - 1] + [folded[|folded| - 1]];
  }

  /** The bars pushed and the one under construction are the run fold so far. */
  ghost predicate Building(out: seq<Bar>, cur: Option<Bar>, folded: seq<Candle>)
  {
    if cur.None? then out == [] && folded == []
    else folded != [] && out == AsBars(folded[..|folded| - 1]) && cur.value == AsBar(folded[|folded| - 1])
  }

  lemma BuildStep(out: seq<Bar>, cur: Option<Bar>, folded: seq<Candle>, b: Bar, bucket: int)
    requires Building(out, cur, folded)
    ensures var next, c := RunStep(folded, bucket, AsCandle(b)), AsCandle(b);
            if cur.Some? && cur.value.time == bucket
            then Building(out, Some(AsBar(Merge(folded[|folded| - 1], c))), next)
            else Building(if cur.Some? then out + [cur.value] else out, Some(AsBar(Open(bucket, c))), next)
  {
    var next, n := RunStep(folded, bucket, AsCandle(b)), |folded| - 1;
    if cur.Some? && cur.value.time == bucket {
      assert next[..n] == folded[..n];
    } else {
      assert next[..|folded|] == folded;
      if cur.Some? {
        AsBarsOfAppend(folded[..n], folded[n]);
        assert folded == folded[..n] + [folded[n]];
      }
    }
  }

  lemma AsBarsOfAppend(cs: seq<Candle>, c: Candle)
    ensures AsBars(cs + [c]) == AsBars(cs) + [AsBar(c)]
  {
  }

  lemma AsCandlesOfAsBars(cs: seq<Candle>)
    ensures AsCandles(AsBars(cs)) == cs
  {
  }

  lemma DivisorNotLarger(a: int, b: int)
    requires a > 0 && b > 0 && b % a == 0
    ensures a <= b
  {
  }

  /** Aggregating to `a` minutes and then to `b` is aggregating to `b` at once, for any bars, when `a` divides `b`. */
  lemma {:induction false} AggregateBarsFuses(bars: seq<Bar>, a: int, b: int)
    requires a > 0 && b > 0 && b % a == 0
    ensures AggregateBars(AggregateBars(bars, a), b) == AggregateBars(bars, b)
  {
    if a > 1 && bars != [] {
      var k := b / a;
      DivisorNotLarger(a, b);
      assert a * k == b;
      var f, g := FloorTo(a * 60), FloorTo(b * 60);
      forall t
        ensures g(f(t)) == g(t)
      {
        assert k > 0 by { if k <= 0 { ScaleInt(k, 0, a); } }
        assert (a * 60) * k == b * 60;
        DivisorsAreCoarser(t, a * 60, k);
      }
      RunFoldFuses(AsCandles(bars), f, g);
      AsCandlesOfAsBars(RunFold(AsCandles(bars), f));
    }
  }

  // ---------- Agreement with the server ----------

  /** The server's milliseconds as the chart's seconds. */
  function ToSeconds(c: Candle): Candle { c.(t := c.t / 1000) }

  function AllToSeconds(cs: seq<Candle>): seq<Candle> { seq(|cs|, i requires 0 <= i < |cs| => ToSeconds(cs[i])) }

  /** Bucketing in milliseconds on whole seconds is bucketing in seconds. */
  ghost predicate SameGrid(f: int -> int, g: int -> int)
  {
    forall t :: f(t) / 1000 == g(t / 1000) && f(t) % 1000 == 0
  }

  lemma {:induction false} RunFoldScales(xs: seq<Candle>, f: int -> int, g: int -> int)
    requires SameGrid(f, g)
    ensures RunFold(AllToSeconds(xs), g) == AllToSeconds(RunFold(xs, f))
    ensures forall i :: 0 <= i < |RunFold(xs, f)| ==> RunFold(xs, f)[i].t % 1000 == 0
  {
    if xs != [] {
      var front, x := xs[..|xs| - 1], xs[|xs| - 1];
      RunFoldScales(front, f, g);
      assert AllToSeconds(xs)[..|front|] == AllToSeconds(front);
      StepScales(RunFold(front, f), f(x.t), x, g);
    }
  }

  lemma StepScales(r: seq<Candle>, bucket: int, x: Candle, g: int -> int)
    requires forall i :: 0 <= i < |r| ==> r[i].t % 1000 == 0
    requires bucket % 1000 == 0 && bucket / 1000 == g(x.t / 1000)
    ensures RunStep(AllToSeconds(r), g(x.t / 1000), ToSeconds(x)) == AllToSeconds(RunStep(r, bucket, x))
    ensures forall i :: 0 <= i < |RunStep(r, bucket, x)| ==> RunStep(r, bucket, x)[i].t % 1000 == 0
  {
    if r != [] {
      assert r[|r| - 1].t / 1000 == bucket / 1000 <==> r[|r| - 1].t == bucket;
    }
  }

  lemma {:induction false} IntradayGrid(i: Interval, minutes: int)
    requires !i.DAY? && IntervalBucketMs(i) == minutes * 60000
    ensures SameGrid(BucketFn(i), FloorTo(minutes * 60))
  {
    var n := minutes * 60000;
    forall t
      ensures BucketFn(i)(t) / 1000 == t / 1000 / (minutes * 60) * (minutes * 60) && BucketFn(i)(t) % 1000 == 0
    {
      Floors(t, n);
      NestedFloor(t, 1000, minutes * 60);
      var q := t / n;
      assert t / n * n == (q * (minutes * 60)) * 1000;
    }
  }

  lemma {:induction false} NestedFloor(t: int, a: int, b: int)
    requires a > 0 && b > 0
    ensures a * b > 0 && t / a / b == t / (a * b)
  {
    ScaleInt(1, b, a);
    assert 1 * a == a && b * a == a * b;
    Floors(t, a);
    Floors(t / a, b);
    Floors(t, a * b);
    var q, p := t / a / b, t / (a * b);
    assert (q * b) * a == q * (a * b);
    ScaleInt(q * b, t / a, a);
    ScaleInt(t / a, q * b + b - 1, a);
    assert (q * b + b - 1) * a == q * (a * b) + a * b - a;
    assert q * (a * b) <= t < q * (a * b) + a * b;
    UniqueQuotient(t, a * b, q, p);
  }

  lemma {:induction false} UniqueQuotient(t: int, n: int, q: int, p: int)
    requires n > 0 && q * n <= t < q * n + n && p * n <= t < p * n + n
    ensures q == p
  {
    if q < p { ScaleInt(q + 1, p, n); }
    if p < q { ScaleInt(p + 1, q, n); }
  }

  /**
   * The server's map-based aggregate of cleaned minute bars and the chart's run-based aggregate of the same
   * bars are the same bars.
   */
  lemma ChartAgreesWithServer(bars: seq<RawCandle>, i: Interval, minutes: int)
    requires !i.DAY? && !i.MIN1? && IntervalBucketMs(i) == minutes * 60000
    requires FromSecondDay(Cleaned(bars))
    ensures AggregateBars(AsBars(AllToSeconds(Cleaned(bars))), minutes) == AsBars(AllToSeconds(Aggregated(bars, i)))
  {
    var xs := Cleaned(bars);
    IntradayGrid(i, minutes);
    RunFoldScales(xs, BucketFn(i), FloorTo(minutes * 60));
    AsCandlesOfAsBars(AllToSeconds(xs));
    AggregationIsRunFold(bars, i);
  }
}
