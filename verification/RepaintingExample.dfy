/**
 * Bars on which markers that were shown disappear: a new pivot moves the line a break was drawn for, and the
 * Fibonacci vote is only ever cast at the newest bar.
 */
module RepaintingExample {
  import opened Prelude
  import opened Indicators
  import opened Confluence
  import opened ConfluenceLoop
  import opened Repainting

  /** Trendline breaks are shown, with pivots confirmed by one bar on each side. */
  predicate ShowsTrend(st: Settings) { Usable(st) && st.enabled && st.showTrend && st.pivotLookback == 1 }

  function Spike(i: int): real { if i == 2 then 20.0 else if i == 4 then 18.0 else if i == 30 then 30.0 else 10.0 }

  function SpikyBar(i: int): Bar { Bar(i, 10.0, Spike(i), 10.0, 10.0, None) }

  /** Flat bars with three spikes; only the highs move. */
  ghost predicate Spiky(bars: seq<Bar>) { |bars| == 32 && forall i :: 0 <= i < 32 ==> bars[i] == SpikyBar(i) }

  lemma SpikyPivots(bars: seq<Bar>, i: int)
    requires Spiky(bars)
    ensures !IsPivotLow(bars, i, 1, 1)
    ensures 1 <= i < 31 ==> (IsPivotHigh(bars, i, 1, 1) <==> i == 2 || i == 4 || i == 30)
  {
    if 1 <= i < 31 {
      assert bars[i - 1].low == bars[i].low == 10.0;
      assert bars[i - 1].high == Spike(i - 1) && bars[i].high == Spike(i) && bars[i + 1].high == Spike(i + 1);
    }
  }

  /** The pivots known before the last spike is confirmed, and after. */
  lemma SpikyPoints(bars: seq<Bar>)
    requires Spiky(bars)
    ensures HighPoints(bars, 1, 29) == [Point(2, 20.0), Point(4, 18.0)]
    ensures HighPoints(bars, 1, 31) == [Point(2, 20.0), Point(4, 18.0), Point(30, 30.0)]
  {
    forall k
      ensures !IsPivotLow(bars, k, 1, 1)
      ensures 1 <= k < 31 ==> (IsPivotHigh(bars, k, 1, 1) <==> k == 2 || k == 4 || k == 30)
    {
      SpikyPivots(bars, k);
    }
    assert HighPoints(bars, 1, 3) == [Point(2, 20.0)];
    assert HighPoints(bars, 1, 5) == [Point(2, 20.0), Point(4, 18.0)];
    PointsOfQuietBars(bars, 1, 5, 29);
    PointsOfQuietBars(bars, 1, 5, 30);
  }

  const OLD_LINE := Segment(2, 20.0, 4, 18.0)

  const NEW_LINE := Segment(4, 18.0, 30, 30.0)

  /** The line through the first two spikes, and the one through the last two. */
  lemma SpikyLines(bars: seq<Bar>, st: Settings)
    requires Spiky(bars) && ShowsTrend(st)
    ensures DownShown(bars[..30], st) == Some(OLD_LINE) && DownShown(bars, st) == Some(NEW_LINE)
  {
    SpikyPoints(bars);
    PointsAreCausal(bars, 1, 30, 29);
  }

  lemma {:induction false} DrawnSomewhere(score: Inputs -> Vote, xs: seq<Inputs>, m: Marker)
    ensures m in Drawn(score, xs) <==> exists k :: 0 <= k < |xs| && Draws(score, xs[k], m)
  {
    if xs != [] {
      var n := |xs| - 1;
      DrawnSomewhere(score, xs[..n], m);
      assert forall k :: 0 <= k < n ==> xs[..n][k] == xs[k];
    }
  }

  ghost predicate Draws(score: Inputs -> Vote, x: Inputs, m: Marker) { m in score(x).markers }

  lemma {:induction false} InputsOfScoredBar(bars: seq<Bar>, st: Settings, end: int, k: nat)
    requires Usable(st) && 2 * st.pivotLookback + k < end <= |bars|
    ensures k < |InputsBefore(bars, st, end)| == end - 2 * st.pivotLookback
    ensures InputsBefore(bars, st, end)[k] == InputsAt(bars, st, 2 * st.pivotLookback + k)
    decreases end
  {
    if 2 * st.pivotLookback + k < end - 1 {
      InputsOfScoredBar(bars, st, end - 1, k);
    } else {
      ScoredBars(bars, st, end - 1);
    }
  }

  lemma {:induction false} ScoredBars(bars: seq<Bar>, st: Settings, end: int)
    requires Usable(st) && end <= |bars|
    ensures |InputsBefore(bars, st, end)| == Max(0, end - 2 * st.pivotLookback)
    decreases end
  {
    if end > 2 * st.pivotLookback {
      ScoredBars(bars, st, end - 1);
    }
  }

  /** A break of the falling line is drawn exactly when it happens. */
  lemma TrendUpMarkers(st: Settings, x: Inputs, t: int)
    ensures Marker(t, TrendUp) in Scorer(st)(x).markers <==> t == x.bar.time && TrendUpFires(st, x)
  {
    var cs := Candidates(EventsOf(st, x), st.showSignals, st.threshold);
    if t == x.bar.time {
      DrawnIffFires(cs, t, 4);
    } else {
      DrawnExactly(cs, x.bar.time, Marker(t, TrendUp));
    }
  }

  lemma InputsFields(bars: seq<Bar>, st: Settings, i: int)
    requires Usable(st) && 0 < i < |bars|
    ensures var x := InputsAt(bars, st, i); x.bar == bars[i] && x.prev == Some(bars[i - 1]) && x.down == DownShown(bars, st)
  {
  }

  /** The break at bar `i` of the falling line `seg`. */
  predicate Breaks(bars: seq<Bar>, seg: Segment, i: int)
    requires 0 < i < |bars|
  {
    bars[i].close > LinePrice(seg, bars[i].time) && bars[i - 1].close <= LinePrice(seg, bars[i - 1].time)
  }

  lemma BreakIsDrawn(bars: seq<Bar>, st: Settings, seg: Segment, k: nat, t: int)
    requires Usable(st) && st.showTrend && DownShown(bars, st) == Some(seg)
    requires 0 < 2 * st.pivotLookback + k < |bars|
    ensures k < |InputsBefore(bars, st, |bars|)|
    ensures Draws(Scorer(st), InputsBefore(bars, st, |bars|)[k], Marker(t, TrendUp)) <==>
              BreaksAt(bars, seg, 2 * st.pivotLookback + k, t)
  {
    InputsOfScoredBar(bars, st, |bars|, k);
    InputsFields(bars, st, 2 * st.pivotLookback + k);
    TrendUpMarkers(st, InputsAt(bars, st, 2 * st.pivotLookback + k), t);
  }

  predicate BreaksAt(bars: seq<Bar>, seg: Segment, i: int, t: int)
    requires 0 < i < |bars|
  {
    bars[i].time == t && Breaks(bars, seg, i)
  }

  /** A break of the falling line is shown exactly at the scored bars that break it. */
  lemma ShownExactlyWhereBroken(bars: seq<Bar>, st: Settings, seg: Segment, t: int)
    requires Usable(st) && st.showTrend && st.enabled && |bars| >= MIN_BARS && DownShown(bars, st) == Some(seg)
    ensures Marker(t, TrendUp) in Markers(bars, st) <==>
              exists i :: 2 * st.pivotLookback <= i < |bars| && BreaksAt(bars, seg, i, t)
  {
    var xs, first, m := InputsBefore(bars, st, |bars|), 2 * st.pivotLookback, Marker(t, TrendUp);
    ScoredBars(bars, st, |bars|);
    DrawnSomewhere(Scorer(st), xs, m);
    if m in Markers(bars, st) {
      var k: nat :| k < |xs| && Draws(Scorer(st), xs[k], m);
      BreakIsDrawn(bars, st, seg, k, t);
    }
    if i :| first <= i < |bars| && BreaksAt(bars, seg, i, t) {
      BreakIsDrawn(bars, st, seg, i - first, t);
    }
  }

  lemma LineValues()
    ensures LinePrice(OLD_LINE, 12) == 10.0 && LinePrice(OLD_LINE, 13) == 9.0 && LinePrice(NEW_LINE, 13) > 10.0
  {
  }

  lemma ShownBefore(bars: seq<Bar>, st: Settings)
    requires Spiky(bars) && ShowsTrend(st)
    ensures Marker(13, TrendUp) in Markers(bars[..30], st)
  {
    SpikyLines(bars, st);
    LineValues();
    ShownExactlyWhereBroken(bars[..30], st, OLD_LINE, 13);
    assert bars[..30][13] == SpikyBar(13) && bars[..30][12] == SpikyBar(12) && BreaksAt(bars[..30], OLD_LINE, 13, 13);
  }

  lemma GoneAfter(bars: seq<Bar>, st: Settings)
    requires Spiky(bars) && ShowsTrend(st)
    ensures Marker(13, TrendUp) !in Markers(bars, st)
  {
    SpikyLines(bars, st);
    LineValues();
    ShownExactlyWhereBroken(bars, st, NEW_LINE, 13);
    forall i | 2 <= i < 32
      ensures !BreaksAt(bars, NEW_LINE, i, 13)
    {
      assert bars[i] == SpikyBar(i);
    }
  }

  /**
   * With trendlines on, whatever else is shown: the first thirty of these bars show a break at bar 13; once bar
   * 30 is confirmed as a pivot, nothing is shown there.
   */
  lemma TrendlinesRepaint(st: Settings) returns (bars: seq<Bar>)
    requires ShowsTrend(st)
    ensures |bars| == 32 && Marker(13, TrendUp) in Markers(bars[..30], st) && Marker(13, TrendUp) !in Markers(bars, st)
    ensures !Kept(Markers(bars[..30], st), Markers(bars, st))
  {
    bars := seq(32, i requires 0 <= i < 32 => SpikyBar(i));
    ShownBefore(bars, st);
    GoneAfter(bars, st);
  }

  // ---------- The Fibonacci vote ----------

  /** Only the Fibonacci vote and the signals are on, and one vote is a signal. */
  predicate ShowsFib(st: Settings)
  {
    && Usable(st) && st.enabled && st.showFib && st.showSignals && st.threshold <= 1
    && !st.showEMA && !st.showSweep && !st.showTrend && !st.showGolden && st.pivotLookback <= 14 && st.swingLookback > 0
  }

  /** Bars from 10 to 20 that all close just above their middle. */
  function EvenBar(i: int): Bar { Bar(i, 15.5, 20.0, 10.0, 15.5, None) }

  ghost predicate Even(bars: seq<Bar>) { forall i :: 0 <= i < |bars| ==> bars[i] == EvenBar(i) }

  lemma EvenSwing(bars: seq<Bar>, lookback: int)
    requires Even(bars) && bars != [] && lookback > 0
    ensures var s := SwingRange(bars, lookback); s.high == 20.0 && s.low == 10.0
  {
    SwingBarsKnown(bars, lookback);
    SwingIsExtreme(bars, SwingBars(bars, lookback));
  }

  /** The newest bar gets the one vote, the others none. */
  lemma EvenVotes(bars: seq<Bar>, st: Settings, i: nat)
    requires Even(bars) && ShowsFib(st) && i < |bars|
    ensures VoteAt(bars, st, i).bull == if i == |bars| - 1 then 1 else 0
  {
    EvenSwing(bars, st.swingLookback);
  }

  lemma EvenMarkers(bars: seq<Bar>, st: Settings, i: nat)
    requires Even(bars) && ShowsFib(st) && |bars| >= MIN_BARS && 2 * st.pivotLookback <= i < |bars|
    ensures Marker(i, Buy(1)) in Markers(bars, st) <==> i == |bars| - 1
  {
    var xs, first, m := InputsBefore(bars, st, |bars|), 2 * st.pivotLookback, Marker(i, Buy(1));
    ScoredBars(bars, st, |bars|);
    DrawnSomewhere(Scorer(st), xs, m);
    forall k: nat | k < |xs|
      ensures Draws(Scorer(st), xs[k], m) <==> first + k == i == |bars| - 1
    {
      InputsOfScoredBar(bars, st, |bars|, k);
      EvenVotes(bars, st, first + k);
      SignalAt(st, xs[k], i);
    }
    if i == |bars| - 1 {
      assert Draws(Scorer(st), xs[i - first], m);
    }
  }

  lemma SignalAt(st: Settings, x: Inputs, t: int)
    ensures Marker(t, Buy(1)) in Scorer(st)(x).markers <==>
              t == x.bar.time && st.showSignals && Scorer(st)(x).bull == 1 >= st.threshold
  {
    SignalsAreExact(st, x, 1);
    DrawnExactly(Candidates(EventsOf(st, x), st.showSignals, st.threshold), x.bar.time, Marker(t, Buy(1)));
  }

  /** A signal that is only a Fibonacci vote is shown at the newest of thirty bars and gone one bar later. */
  lemma FibonacciRepaints(st: Settings) returns (bars: seq<Bar>)
    requires ShowsFib(st)
    ensures |bars| == 31 && Marker(29, Buy(1)) in Markers(bars[..30], st) && Marker(29, Buy(1)) !in Markers(bars, st)
    ensures !Kept(Markers(bars[..30], st), Markers(bars, st))
  {
    bars := seq(31, i requires 0 <= i < 31 => EvenBar(i));
    EvenMarkers(bars[..30], st, 29);
    EvenMarkers(bars, st, 29);
  }
}
