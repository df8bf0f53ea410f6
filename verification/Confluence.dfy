/**
 * The multi-strategy confluence overlay: trendlines and swing range, and a direct definition of what each
 * strategy sees, votes and draws at every bar.
 */
module Confluence {
  import opened Prelude
  import opened Indicators
  import Sorting

  datatype Settings = Settings(enabled: bool, showEMA: bool, showSweep: bool, showTrend: bool, showGolden: bool,
                               showFib: bool, showSignals: bool, emaFast: int, emaSlow: int, pivotLookback: nat,
                               swingLookback: int, volMaLength: int, rsiLength: int, goldenEmaLength: int,
                               threshold: int)

  /** Positive periods, and at least one bar before the first one a trendline is compared with. */
  predicate Usable(st: Settings)
  {
    && st.emaFast > 0 && st.emaSlow > 0 && st.volMaLength > 0 && st.rsiLength > 0 && st.goldenEmaLength > 0
    && (st.showTrend ==> st.pivotLookback > 0)
  }

  /** Position, colour, shape and text of a chart marker are fixed by what it reports. */
  datatype MarkerKind =
    | EmaUp | EmaDown | SweepUp | SweepDown | TrendUp | TrendDown | GoldenUp | GoldenDown
    | Buy(score: nat) | Sell(score: nat)

  datatype Marker = Marker(time: int, kind: MarkerKind)

  /** The scores of one bar and the markers it draws, in drawing order. */
  datatype Vote = Vote(bull: nat, bear: nat, markers: seq<Marker>)

  const NO_VOTE := Vote(0, 0, [])

  function Closes(bars: seq<Bar>): seq<real> { seq(|bars|, i requires 0 <= i < |bars| => bars[i].close) }

  function Volumes(bars: seq<Bar>): seq<real> { seq(|bars|, i requires 0 <= i < |bars| => VolumeOf(bars[i])) }

  // ---------- Trendlines ----------

  datatype Point = Point(time: int, price: real)

  datatype Segment = Segment(time1: int, price1: real, time2: int, price2: real)

  /** The pivots among the bars before `i` that a width-`w` window on both sides confirms, oldest first. */
  function LowPoints(bars: seq<Bar>, w: nat, i: int): seq<Point>
    decreases i
  {
    if i <= w then []
    else LowPoints(bars, w, i - 1) + if IsPivotLow(bars, i - 1, w, w) then [Point(bars[i - 1].time, bars[i - 1].low)] else []
  }

  function HighPoints(bars: seq<Bar>, w: nat, i: int): seq<Point>
    decreases i
  {
    if i <= w then []
    else HighPoints(bars, w, i - 1) + if IsPivotHigh(bars, i - 1, w, w) then [Point(bars[i - 1].time, bars[i - 1].high)] else []
  }

  function LastTwo(ps: seq<Point>): Option<Segment>
  {
    if |ps| < 2 then None
    else Some(Segment(ps[|ps| - 2].time, ps[|ps| - 2].price, ps[|ps| - 1].time, ps[|ps| - 1].price))
  }

  function UpLine(bars: seq<Bar>, w: nat): Option<Segment> { LastTwo(LowPoints(bars, w, |bars| - w)) }

  function DownLine(bars: seq<Bar>, w: nat): Option<Segment> { LastTwo(HighPoints(bars, w, |bars| - w)) }

  method BuildTrendlines(bars: seq<Bar>, w: nat) returns (up: Option<Segment>, down: Option<Segment>)
    ensures up == UpLine(bars, w) && down == DownLine(bars, w)
  {
    var lows, highs := [], [];
    for i := w to Max(w, |bars| - w)
      invariant lows == LowPoints(bars, w, i) && highs == HighPoints(bars, w, i)
    {
      assert lows + [] == lows && highs + [] == highs;
      var pl := PivotLow(bars, i, w, w);
      var ph := PivotHigh(bars, i, w, w);
      if pl.Some? {
        lows := lows + [Point(bars[i].time, pl.value)];
      }
      if ph.Some? {
        highs := highs + [Point(bars[i].time, ph.value)];
      }
    }
    up := Connect(lows);
    down := Connect(highs);
  }

  method Connect(pivots: seq<Point>) returns (seg: Option<Segment>)
    ensures seg == LastTwo(pivots)
  {
    seg := None;
    if |pivots| >= 2 {
      var a, b := pivots[|pivots| - 2], pivots[|pivots| - 1];
      seg := Some(Segment(a.time, a.price, b.time, b.price));
    }
  }

  function LinePrice(seg: Segment, time: int): real
  {
    var dt := seg.time2 - seg.time1;
    if dt == 0 then seg.price2
    else seg.price1 + (seg.price2 - seg.price1) / dt as real * (time - seg.time1) as real
  }

  // ---------- Swing range and Fibonacci levels ----------

  datatype Swing = Swing(high: real, low: real, highIdx: int, lowIdx: int)

  /** Indices of the bars from `start` on whose whole range lies within `band` of `median`. */
  function NearMedian(bars: seq<Bar>, start: nat, end: nat, median: real, band: real): seq<nat>
    requires start <= end <= |bars|
    decreases end - start
  {
    if start == end then []
    else
      NearMedian(bars, start, end - 1, median, band)
      + if bars[end - 1].low >= median - band && bars[end - 1].high <= median + band then [end - 1] else []
  }

  function Indices(start: nat, end: nat): seq<nat>
    requires start <= end
    decreases end - start
  {
    if start == end then [] else Indices(start, end - 1) + [end - 1]
  }

  function SwingStart(bars: seq<Bar>, lookback: int): nat { Min(|bars|, Max(0, |bars| - lookback)) }

  /** The bars the swing is measured on: those near the median close, unless too few are. */
  function SwingBars(bars: seq<Bar>, lookback: int): seq<nat>
    requires SwingStart(bars, lookback) < |bars|
  {
    var start := SwingStart(bars, lookback);
    var median := Sorting.Median(Closes(bars[start..]));
    var near := NearMedian(bars, start, |bars|, median, MaxR(median * 0.12, 1.0));
    if |near| >= Min(3, |bars| - start) then near else Indices(start, |bars|)
  }

  ghost predicate InRange(use: seq<nat>, start: nat, end: nat)
  {
    forall j :: 0 <= j < |use| ==> start <= use[j] < end
  }

  lemma {:induction false} SwingBarsInRange(bars: seq<Bar>, start: nat, end: nat, median: real, band: real)
    requires start <= end <= |bars|
    ensures InRange(NearMedian(bars, start, end, median, band), start, end) && InRange(Indices(start, end), start, end)
    ensures |Indices(start, end)| == end - start
    decreases end - start
  {
    if start < end {
      SwingBarsInRange(bars, start, end - 1, median, band);
    }
  }

  /** Scanning `use` in order, a bar replaces the swing high or low only when strictly beyond it. */
  function SwingOver(bars: seq<Bar>, use: seq<nat>): Swing
    requires use != [] && InRange(use, 0, |bars|)
  {
    var k := use[|use| - 1];
    if |use| == 1 then Swing(bars[k].high, bars[k].low, k, k)
    else
      var s := SwingOver(bars, use[..|use| - 1]);
      Swing(if bars[k].high > s.high then bars[k].high else s.high, if bars[k].low < s.low then bars[k].low else s.low,
            if bars[k].high > s.high then k else s.highIdx, if bars[k].low < s.low then k else s.lowIdx)
  }

  /** The swing is the highest high and the lowest low among the chosen bars, and both are reached. */
  lemma {:induction false} SwingIsExtreme(bars: seq<Bar>, use: seq<nat>)
    requires use != [] && InRange(use, 0, |bars|)
    ensures var s := SwingOver(bars, use);
            && s.highIdx in use && s.lowIdx in use && 0 <= s.highIdx < |bars| && 0 <= s.lowIdx < |bars|
            && s.high == bars[s.highIdx].high && s.low == bars[s.lowIdx].low
            && (forall j :: 0 <= j < |use| ==> bars[use[j]].high <= s.high && s.low <= bars[use[j]].low)
  {
    if |use| > 1 {
      SwingIsExtreme(bars, use[..|use| - 1]);
      assert use == use[..|use| - 1] + [use[|use| - 1]];
    }
  }

  function SwingRange(bars: seq<Bar>, lookback: int): Swing
  {
    if SwingStart(bars, lookback) == |bars| then Swing(0.0, 0.0, 0, 0)
    else
      SwingBarsKnown(bars, lookback);
      SwingOver(bars, SwingBars(bars, lookback))
  }

  lemma SwingBarsKnown(bars: seq<Bar>, lookback: int)
    requires SwingStart(bars, lookback) < |bars|
    ensures SwingBars(bars, lookback) != [] && InRange(SwingBars(bars, lookback), 0, |bars|)
  {
    var start := SwingStart(bars, lookback);
    var median := Sorting.Median(Closes(bars[start..]));
    SwingBarsInRange(bars, start, |bars|, median, MaxR(median * 0.12, 1.0));
  }

  method FindSwingRange(bars: seq<Bar>, lookback: int) returns (s: Swing)
    ensures s == SwingRange(bars, lookback)
  {
    var start := SwingStart(bars, lookback);
    if start == |bars| {
      return Swing(0.0, 0.0, 0, 0);
    }
    SwingBarsKnown(bars, lookback);
    var use := SwingBars(bars, lookback);
    var high, low := bars[use[0]].high, bars[use[0]].low;
    var highIdx, lowIdx: int := use[0], use[0];
    for i := 1 to |use|
      invariant Swing(high, low, highIdx, lowIdx) == SwingOver(bars, use[..i])
    {
      assert use[..i + 1][..i] == use[..i];
      var bar := bars[use[i]];
      if bar.high > high {
        high, highIdx := bar.high, use[i];
      }
      if bar.low < low {
        low, lowIdx := bar.low, use[i];
      }
    }
    assert use[..|use|] == use;
    s := Swing(high, low, highIdx, lowIdx);
  }

  // ---------- The strategies' votes ----------

  /** What the strategies look at when bar `i` is scored. */
  datatype Inputs = Inputs(bar: Bar, prev: Option<Bar>, fast: Option<real>, fastPrev: Option<real>, slow: Option<real>,
                           slowPrev: Option<real>, golden: Option<real>, rsi: Option<real>, volMa: Option<real>,
                           swingHigh: real, swingLow: real, up: Option<Segment>, down: Option<Segment>,
                           swing: Option<Swing>)

  // 1. EMA crossover: the crossing itself, and which side the fast average is on.

  predicate EmaUpFires(st: Settings, x: Inputs) { st.showEMA && CrossUp(x.fastPrev, x.slowPrev, x.fast, x.slow) }

  predicate EmaDownFires(st: Settings, x: Inputs) { st.showEMA && CrossUp(x.slowPrev, x.fastPrev, x.slow, x.fast) }

  predicate EmaAbove(st: Settings, x: Inputs) { st.showEMA && x.fast.Some? && x.slow.Some? && x.fast.value > x.slow.value }

  predicate EmaBelow(st: Settings, x: Inputs) { st.showEMA && x.fast.Some? && x.slow.Some? && x.fast.value < x.slow.value }

  // 2. Liquidity sweep: beyond the swing level and closed back inside it.

  predicate SweepUpFires(st: Settings, x: Inputs) { st.showSweep && x.bar.high > x.swingHigh && x.bar.close < x.swingHigh }

  predicate SweepDownFires(st: Settings, x: Inputs) { st.showSweep && x.bar.low < x.swingLow && x.bar.close > x.swingLow }

  // 3. Trendline break: on one side now, not yet one bar ago.

  predicate TrendUpFires(st: Settings, x: Inputs)
  {
    && st.showTrend && x.down.Some? && x.prev.Some?
    && x.bar.close > LinePrice(x.down.value, x.bar.time) && x.prev.value.close <= LinePrice(x.down.value, x.prev.value.time)
  }

  predicate TrendDownFires(st: Settings, x: Inputs)
  {
    && st.showTrend && x.up.Some? && x.prev.Some?
    && x.bar.close < LinePrice(x.up.value, x.bar.time) && x.prev.value.close >= LinePrice(x.up.value, x.prev.value.time)
  }

  // 4. Golden trio: above or below the long average, RSI on the same side of 50, and volume above its mean.

  predicate GoldenReady(st: Settings, x: Inputs)
  {
    st.showGolden && x.golden.Some? && x.rsi.Some? && x.volMa.Some? && VolumeOf(x.bar) > x.volMa.value
  }

  predicate GoldenUpFires(st: Settings, x: Inputs)
  {
    GoldenReady(st, x) && x.bar.close > x.golden.value && x.rsi.value > 50.0
  }

  predicate GoldenDownFires(st: Settings, x: Inputs)
  {
    GoldenReady(st, x) && x.bar.close < x.golden.value && x.rsi.value < 50.0
  }

  // 5. Fibonacci golden zone proximity, without a marker of its own.

  predicate InGoldenZone(swing: Swing, close: real)
  {
    var range := swing.high - swing.low;
    range > 0.0 && swing.low + range * 0.5 <= close <= swing.low + range * 0.618
  }

  predicate BelowGoldenZone(swing: Swing, close: real)
  {
    var range := swing.high - swing.low;
    range > 0.0 && !InGoldenZone(swing, close) && close <= swing.low + range * 0.382
  }

  predicate FibUp(st: Settings, x: Inputs) { st.showFib && x.swing.Some? && InGoldenZone(x.swing.value, x.bar.close) }

  predicate FibDown(st: Settings, x: Inputs) { st.showFib && x.swing.Some? && BelowGoldenZone(x.swing.value, x.bar.close) }

  /** Which of these happen at a bar. */
  datatype Events = Events(emaUp: bool, emaDown: bool, emaAbove: bool, emaBelow: bool, sweepUp: bool, sweepDown: bool,
                           trendUp: bool, trendDown: bool, goldenUp: bool, goldenDown: bool, fibUp: bool, fibDown: bool)

  function EventsOf(st: Settings, x: Inputs): Events
  {
    Events(EmaUpFires(st, x), EmaDownFires(st, x), EmaAbove(st, x), EmaBelow(st, x), SweepUpFires(st, x),
           SweepDownFires(st, x), TrendUpFires(st, x), TrendDownFires(st, x), GoldenUpFires(st, x),
           GoldenDownFires(st, x), FibUp(st, x), FibDown(st, x))
  }

  // 6. The scores, and the strong signals they give.

  function One(c: bool): nat { if c then 1 else 0 }

  function Bull(e: Events): nat
  {
    One(e.emaUp) + One(e.emaAbove) + One(e.sweepUp) + One(e.trendUp) + One(e.goldenUp) + One(e.fibUp)
  }

  function Bear(e: Events): nat
  {
    One(e.emaDown) + One(e.emaBelow) + One(e.sweepDown) + One(e.trendDown) + One(e.goldenDown) + One(e.fibDown)
  }

  /** A marker that is drawn if its condition holds. */
  datatype Candidate = Candidate(fires: bool, kind: MarkerKind)

  function EmaCandidates(e: Events): seq<Candidate> { [Candidate(e.emaUp, EmaUp), Candidate(e.emaDown, EmaDown)] }

  function SweepCandidates(e: Events): seq<Candidate> { [Candidate(e.sweepUp, SweepUp), Candidate(e.sweepDown, SweepDown)] }

  function TrendCandidates(e: Events): seq<Candidate> { [Candidate(e.trendUp, TrendUp), Candidate(e.trendDown, TrendDown)] }

  function GoldenCandidates(e: Events): seq<Candidate>
  {
    [Candidate(e.goldenUp, GoldenUp), Candidate(e.goldenDown, GoldenDown)]
  }

  function SignalCandidates(bull: nat, bear: nat, showSignals: bool, threshold: int): seq<Candidate>
  {
    [Candidate(showSignals && bull >= threshold, Buy(bull)), Candidate(showSignals && bear >= threshold, Sell(bear))]
  }

  /** The drawing order at a bar. */
  function Candidates(e: Events, showSignals: bool, threshold: int): seq<Candidate>
  {
    EmaCandidates(e) + SweepCandidates(e) + TrendCandidates(e) + GoldenCandidates(e)
    + SignalCandidates(Bull(e), Bear(e), showSignals, threshold)
  }

  function Chosen(cs: seq<Candidate>, t: int): seq<Marker>
  {
    if cs == [] then []
    else
      var last := cs[|cs| - 1];
      if last.fires then Chosen(cs[..|cs| - 1], t) + [Marker(t, last.kind)] else Chosen(cs[..|cs| - 1], t)
  }

  /** All strategies in order, then the combined signal. */
  function TotalVote(st: Settings, x: Inputs): Vote
  {
    var e := EventsOf(st, x);
    Vote(Bull(e), Bear(e), Chosen(Candidates(e, st.showSignals, st.threshold), x.bar.time))
  }

  function Scorer(st: Settings): Inputs -> Vote { x => TotalVote(st, x) }

  /** The markers `score` draws for the given inputs, in order. */
  function Drawn(score: Inputs -> Vote, xs: seq<Inputs>): seq<Marker>
  {
    if xs == [] then [] else Drawn(score, xs[..|xs| - 1]) + score(xs[|xs| - 1]).markers
  }

  // ---------- The direct definition ----------

  /** The most recent confirmed swing high known at bar `i`: the first bar's high until there is one. */
  function SwingHighAt(bars: seq<Bar>, w: nat, i: int): real
    requires 0 < |bars| && i < |bars|
    decreases i
  {
    if i < 2 * w || i < 0 then bars[0].high
    else if IsPivotHigh(bars, i - w, w, w) then bars[i - w].high
    else SwingHighAt(bars, w, i - 1)
  }

  function SwingLowAt(bars: seq<Bar>, w: nat, i: int): real
    requires 0 < |bars| && i < |bars|
    decreases i
  {
    if i < 2 * w || i < 0 then bars[0].low
    else if IsPivotLow(bars, i - w, w, w) then bars[i - w].low
    else SwingLowAt(bars, w, i - 1)
  }

  /** The series the strategies read, one value per bar. */
  datatype Context = Context(fast: Series, slow: Series, golden: Series, rsi: Series, volMa: Series)

  ghost predicate Covers(c: Context, n: nat)
  {
    |c.fast| == |c.slow| == |c.golden| == |c.rsi| == |c.volMa| == n
  }

  function ContextOf(bars: seq<Bar>, st: Settings): (c: Context)
    requires Usable(st)
    ensures Covers(c, |bars|)
  {
    Context(Ema(Closes(bars), st.emaFast), Ema(Closes(bars), st.emaSlow), Ema(Closes(bars), st.goldenEmaLength),
            Rsi(Closes(bars), st.rsiLength), Sma(Volumes(bars), st.volMaLength))
  }

  function InputsFrom(bars: seq<Bar>, c: Context, swingHigh: real, swingLow: real, up: Option<Segment>, down: Option<Segment>,
                      swing: Option<Swing>, i: int): Inputs
    requires 0 <= i < |bars| && Covers(c, |bars|)
  {
    Inputs(bars[i], if i > 0 then Some(bars[i - 1]) else None, c.fast[i], ValueAt(c.fast, i - 1), c.slow[i],
           ValueAt(c.slow, i - 1), c.golden[i], c.rsi[i], c.volMa[i], swingHigh, swingLow, up, down, swing)
  }

  function UpShown(bars: seq<Bar>, st: Settings): Option<Segment>
  {
    if st.showTrend then UpLine(bars, st.pivotLookback) else None
  }

  function DownShown(bars: seq<Bar>, st: Settings): Option<Segment>
  {
    if st.showTrend then DownLine(bars, st.pivotLookback) else None
  }

  /** The Fibonacci vote is cast at the newest bar only. */
  function SwingShown(bars: seq<Bar>, st: Settings, i: int): Option<Swing>
  {
    if st.showFib && i == |bars| - 1 then Some(SwingRange(bars, st.swingLookback)) else None
  }

  /** Everything the strategies see at bar `i`. */
  function InputsAt(bars: seq<Bar>, st: Settings, i: int): Inputs
    requires Usable(st) && 0 <= i < |bars|
  {
    InputsFrom(bars, ContextOf(bars, st), SwingHighAt(bars, st.pivotLookback, i), SwingLowAt(bars, st.pivotLookback, i),
               UpShown(bars, st), DownShown(bars, st), SwingShown(bars, st, i), i)
  }

  /** The inputs of the bars that are scored: those from twice the pivot width up to, not including, `end`. */
  function InputsBefore(bars: seq<Bar>, st: Settings, end: int): seq<Inputs>
    requires Usable(st) && end <= |bars|
    decreases end
  {
    if end <= 2 * st.pivotLookback then [] else InputsBefore(bars, st, end - 1) + [InputsAt(bars, st, end - 1)]
  }

  const MIN_BARS := 30

  /** The markers drawn at the bars before `end`. */
  function DrawnBefore(bars: seq<Bar>, st: Settings, end: int): seq<Marker>
    requires Usable(st) && end <= |bars|
  {
    Drawn(Scorer(st), InputsBefore(bars, st, end))
  }

  /** The vote at bar `i`. */
  function VoteAt(bars: seq<Bar>, st: Settings, i: int): Vote
    requires Usable(st) && 0 <= i < |bars|
  {
    Scorer(st)(InputsAt(bars, st, i))
  }

  /** The markers the overlay shows. */
  function Markers(bars: seq<Bar>, st: Settings): seq<Marker>
    requires Usable(st)
  {
    if |bars| < MIN_BARS || !st.enabled then [] else DrawnBefore(bars, st, |bars|)
  }

  datatype Strong = BuySignal | SellSignal | NoSignal

  function LastVote(bars: seq<Bar>, st: Settings): Vote
    requires Usable(st)
  {
    if |bars| < MIN_BARS || |bars| <= 2 * st.pivotLookback then NO_VOTE else VoteAt(bars, st, |bars| - 1)
  }

  function StrongOf(v: Vote, enough: bool, threshold: int): Strong
  {
    if !enough then NoSignal else if v.bull >= threshold then BuySignal else if v.bear >= threshold then SellSignal else NoSignal
  }

  lemma OneMore(score: Inputs -> Vote, xs: seq<Inputs>, x: Inputs)
    ensures Drawn(score, xs + [x]) == Drawn(score, xs) + score(x).markers
  {
    assert (xs + [x])[..|xs|] == xs;
  }
}
