/** The chart's live bar stream: every tick either rewrites the newest bar, opens the next one, or is ignored. */
module LiveBars {
  import opened Prelude
  import Indicators

  type Bar = Indicators.Bar

  predicate IsValidBar(b: Bar)
  {
    && b.time > 0 && b.open > 0.0 && b.high > 0.0 && b.low > 0.0 && b.close > 0.0
    && b.high >= b.low
    && b.high + EPS >= MaxR(b.open, b.close) && b.low - EPS <= MinR(b.open, b.close)
    && (b.volume.Some? ==> b.volume.value >= 0.0)
  }

  function NormalizeBar(b: Bar): Bar
  {
    Indicators.Bar(b.time, b.open, MaxR(b.high, MaxR(b.open, b.close)), MinR(b.low, MinR(b.open, b.close)), b.close,
                   Some(if b.volume.Some? then b.volume.value else 0.0))
  }

  function ResolutionBucketSec(resolution: string): int
  {
    if resolution == "5" then 300 else if resolution == "15" then 900 else if resolution == "60" then 3600 else 60
  }

  /** JavaScript's `%`: the remainder takes the sign of the dividend. */
  function JsRem(a: int, n: int): int
    requires n > 0
  {
    if a >= 0 then a % n else -((-a) % n)
  }

  function BarBucketSec(resolution: string, tsMs: int): int
  {
    var s := tsMs / 1000;
    s - JsRem(s, ResolutionBucketSec(resolution))
  }

  /** A quote; `ltp` is `None` when it is not a finite number. */
  datatype Quote = Quote(instrument: string, ltp: Option<real>, ts: int)

  /** A chart's subscription and everything its callback has received. */
  datatype Sub = Sub(instrument: string, resolution: string, lastBar: Option<Bar>, received: seq<Bar>)

  function Updated(last: Bar, ltp: real): Bar
  {
    Indicators.Bar(last.time, last.open, MaxR(last.high, ltp), MinR(last.low, ltp), ltp,
                   Some(if last.volume.Some? then last.volume.value else 0.0))
  }

  /** A price more than a quarter away from the reference looks like another symbol's. */
  predicate Jump(ltp: real, reference: real) { ltp > reference * 1.25 || ltp < reference * 0.75 }

  function OnTick(sub: Sub, ltp: real, t: int): Sub
  {
    if sub.lastBar.Some? && t < sub.lastBar.value.time then sub
    else if sub.lastBar.Some? && sub.lastBar.value.time == t then
      var last := sub.lastBar.value;
      var next, mid := Updated(last, ltp), (last.high + last.low) / 2.0;
      if !IsValidBar(next) || (mid > 0.0 && Jump(ltp, mid)) then sub
      else sub.(lastBar := Some(next), received := sub.received + [next])
    else
      var next := Indicators.Bar(t, ltp, ltp, ltp, ltp, Some(0.0));
      if !IsValidBar(next)
         || (sub.lastBar.Some? && sub.lastBar.value.close > 0.0 && Jump(ltp, sub.lastBar.value.close)) then sub
      else sub.(lastBar := Some(next), received := sub.received + [next])
  }

  function OnQuote(sub: Sub, q: Quote): Sub
  {
    if q.ltp.None? || q.ltp.value <= 0.0 || sub.instrument != q.instrument then sub
    else OnTick(sub, q.ltp.value, BarBucketSec(sub.resolution, q.ts))
  }

  function OnQuotes(sub: Sub, qs: seq<Quote>): Sub
  {
    if qs == [] then sub else OnQuote(OnQuotes(sub, qs[..|qs| - 1]), qs[|qs| - 1])
  }

  /** A new subscription, seeded with the last history bar if that is valid. */
  function Subscribe(instrument: string, resolution: string, seed: Option<Bar>): Sub
  {
    Sub(instrument, resolution, if seed.Some? && IsValidBar(seed.value) then Some(NormalizeBar(seed.value)) else None, [])
  }

  class UpstoxDataFeed {
    var barSubs: seq<Sub>

    constructor ()
      ensures barSubs == []
    {
      barSubs := [];
    }

    method SubscribeBars(instrument: string, resolution: string, seed: Option<Bar>)
      modifies this
      ensures barSubs == old(barSubs) + [Subscribe(instrument, resolution, seed)]
    {
      var last := if seed.Some? && IsValidBar(seed.value) then Some(NormalizeBar(seed.value)) else None;
      barSubs := barSubs + [Sub(instrument, resolution, last, [])];
    }

    method HandleQuote(q: Quote)
      modifies this
      ensures |barSubs| == |old(barSubs)|
      ensures forall i :: 0 <= i < |barSubs| ==> barSubs[i] == OnQuote(old(barSubs)[i], q)
    {
      if q.ltp.None? || q.ltp.value <= 0.0 {
        return;
      }
      var ltp := q.ltp.value;
      for i := 0 to |barSubs|
        invariant |barSubs| == |old(barSubs)|
        invariant forall j :: 0 <= j < i ==> barSubs[j] == OnQuote(old(barSubs)[j], q)
        invariant forall j :: i <= j < |barSubs| ==> barSubs[j] == old(barSubs)[j]
      {
        var sub := barSubs[i];
        if sub.instrument != q.instrument { continue; }
        var t, last := BarBucketSec(sub.resolution, q.ts), sub.lastBar;
        if last.Some? && t < last.value.time { continue; }
        if last.Some? && last.value.time == t {
          var next := Updated(last.value, ltp);
          if !IsValidBar(next) { continue; }
          var mid := (last.value.high + last.value.low) / 2.0;
          if mid > 0.0 && Jump(ltp, mid) { continue; }
          barSubs := barSubs[i := sub.(lastBar := Some(next), received := sub.received + [next])];
        } else {
          var next := Indicators.Bar(t, ltp, ltp, ltp, ltp, Some(0.0));
          if !IsValidBar(next) { continue; }
          if last.Some? && last.value.close > 0.0 && Jump(ltp, last.value.close) { continue; }
          barSubs := barSubs[i := sub.(lastBar := Some(next), received := sub.received + [next])];
        }
      }
    }
  }

  // ---------- What a chart may rely on ----------

  /** `b` may be drawn after `a`: a later bucket, or the same one with its open fixed and its range only wider. */
  ghost predicate Follows(a: Bar, b: Bar)
  {
    a.time < b.time || (a.time == b.time && a.open == b.open && a.high <= b.high && b.low <= a.low)
  }

  /** A bar whose wicks cover its open and close. */
  ghost predicate Proper(b: Bar) { IsValidBar(b) && b.low <= b.open <= b.high && b.low <= b.close <= b.high }

  ghost predicate StreamOk(sub: Sub)
  {
    && (forall i :: 0 <= i < |sub.received| ==> Proper(sub.received[i]))
    && (forall i, j :: 0 <= i < j < |sub.received| ==> Follows(sub.received[i], sub.received[j]))
    && (sub.lastBar.Some? ==> Proper(sub.lastBar.value))
    && (sub.received != [] ==> sub.lastBar == Some(sub.received[|sub.received| - 1]))
  }

  lemma TickKeepsStream(sub: Sub, ltp: real, t: int)
    requires StreamOk(sub) && ltp > 0.0
    ensures StreamOk(OnTick(sub, ltp, t))
    ensures sub.received <= OnTick(sub, ltp, t).received
    ensures sub.lastBar.Some? ==>
              (OnTick(sub, ltp, t).lastBar.Some? && Follows(sub.lastBar.value, OnTick(sub, ltp, t).lastBar.value))
  {
    var after := OnTick(sub, ltp, t);
    if after != sub && sub.received != [] {
      var n := |sub.received|;
      forall i | 0 <= i < n
        ensures Follows(after.received[i], after.received[n])
      {
        if i < n - 1 {
          assert Follows(sub.received[i], sub.received[n - 1]);
        }
      }
    }
  }

  /**
   * Whatever quotes arrive in whatever order, a chart only ever receives valid bars that never go back in
   * time, and within a bucket the open is fixed, the high never falls and the low never rises, also against
   * the seed bar.
   */
  lemma {:induction false} ChartsNeverRewriteHistory(instrument: string, resolution: string, seed: Option<Bar>, qs: seq<Quote>)
    ensures var sub := OnQuotes(Subscribe(instrument, resolution, seed), qs);
            && StreamOk(sub)
            && (seed.Some? && IsValidBar(seed.value) ==>
                  (sub.lastBar.Some? && Follows(NormalizeBar(seed.value), sub.lastBar.value)
                   && forall i :: 0 <= i < |sub.received| ==> Follows(NormalizeBar(seed.value), sub.received[i])))
  {
    if qs != [] {
      var n := |qs| - 1;
      ChartsNeverRewriteHistory(instrument, resolution, seed, qs[..n]);
      var before := OnQuotes(Subscribe(instrument, resolution, seed), qs[..n]);
      if qs[n].ltp.Some? && qs[n].ltp.value > 0.0 {
        TickKeepsStream(before, qs[n].ltp.value, BarBucketSec(before.resolution, qs[n].ts));
      }
    }
  }

  /** Buckets of non-negative times start at a multiple of the resolution and contain the time. */
  lemma {:induction false} BucketContains(resolution: string, tsMs: int)
    requires tsMs >= 0
    ensures var t, n := BarBucketSec(resolution, tsMs), ResolutionBucketSec(resolution);
            t % n == 0 && t * 1000 <= tsMs < (t + n) * 1000
  {
    var s, n := tsMs / 1000, ResolutionBucketSec(resolution);
    assert s == s / n * n + s % n;
    MultipleRem(s / n, n);
  }

  lemma {:induction false} MultipleRem(q: int, n: int)
    requires n > 0
    ensures (q * n) % n == 0
  {
    var r := (q * n) % n;
    var d := q - (q * n) / n;
    assert d * n == r by { assert q * n == (q * n) / n * n + r; }
    if d >= 1 { ScaleInt(1, d, n); }
    if d <= -1 { ScaleInt(d, -1, n); }
  }
}
