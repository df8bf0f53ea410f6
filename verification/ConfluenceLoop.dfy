/** The overlay as it is computed: one pass over the bars with running swing levels, proved against the direct definition. */
module ConfluenceLoop {
  import opened Prelude
  import opened Indicators
  import opened Confluence

  // ---------- One bar ----------

  lemma DrawOne(cs: seq<Candidate>, c: Candidate, t: int)
    ensures Chosen(cs + [c], t) == Chosen(cs, t) + if c.fires then [Marker(t, c.kind)] else []
  {
    assert (cs + [c])[..|cs|] == cs;
  }

  /** Draws the up and the down marker of a strategy that fired; `cs` are the candidates dealt with before. */
  method PushBoth(markers: seq<Marker>, t: int, up: Candidate, down: Candidate, ghost cs: seq<Candidate>)
    returns (next: seq<Marker>)
    requires markers == Chosen(cs, t)
    ensures next == Chosen(cs + [up, down], t)
  {
    DrawOne(cs, up, t);
    DrawOne(cs + [up], down, t);
    assert cs + [up, down] == cs + [up] + [down];
    next := markers;
    if up.fires {
      next := next + [Marker(t, up.kind)];
    }
    if down.fires {
      next := next + [Marker(t, down.kind)];
    }
  }

  /** 1. EMA crossover: a marker and a vote for the crossing, a vote for the side. */
  method ScoreEma(st: Settings, x: Inputs, ghost e: Events) returns (bull: nat, bear: nat, markers: seq<Marker>)
    requires e == EventsOf(st, x)
    ensures bull == One(e.emaUp) + One(e.emaAbove) && bear == One(e.emaDown) + One(e.emaBelow)
    ensures markers == Chosen(EmaCandidates(e), x.bar.time)
  {
    bull, bear := 0, 0;
    var up, down := false, false;
    if st.showEMA {
      up := CrossUp(x.fastPrev, x.slowPrev, x.fast, x.slow);
      down := CrossUp(x.slowPrev, x.fastPrev, x.slow, x.fast);
      if up {
        bull := bull + 1;
      }
      if down {
        bear := bear + 1;
      }
      if x.fast.Some? && x.slow.Some? {
        if x.fast.value > x.slow.value {
          bull := bull + 1;
        } else if x.fast.value < x.slow.value {
          bear := bear + 1;
        }
      }
    }
    markers := PushBoth([], x.bar.time, Candidate(up, EmaUp), Candidate(down, EmaDown), []);
    assert [] + EmaCandidates(e) == EmaCandidates(e);
  }

  /** 2. Liquidity sweep. */
  method ScoreSweep(st: Settings, x: Inputs, ghost e: Events, bull0: nat, bear0: nat, markers0: seq<Marker>,
                    ghost cs: seq<Candidate>)
    returns (bull: nat, bear: nat, markers: seq<Marker>)
    requires e == EventsOf(st, x) && markers0 == Chosen(cs, x.bar.time)
    ensures bull == bull0 + One(e.sweepUp) && bear == bear0 + One(e.sweepDown)
    ensures markers == Chosen(cs + SweepCandidates(e), x.bar.time)
  {
    bull, bear := bull0, bear0;
    var up, down := false, false;
    if st.showSweep {
      up := x.bar.high > x.swingHigh && x.bar.close < x.swingHigh;
      down := x.bar.low < x.swingLow && x.bar.close > x.swingLow;
      if up {
        bull := bull + 1;
      }
      if down {
        bear := bear + 1;
      }
    }
    markers := PushBoth(markers0, x.bar.time, Candidate(up, SweepUp), Candidate(down, SweepDown), cs);
  }

  /** 3. Trendline break. */
  method ScoreTrend(st: Settings, x: Inputs, ghost e: Events, bull0: nat, bear0: nat, markers0: seq<Marker>,
                    ghost cs: seq<Candidate>)
    returns (bull: nat, bear: nat, markers: seq<Marker>)
    requires e == EventsOf(st, x) && markers0 == Chosen(cs, x.bar.time)
    ensures bull == bull0 + One(e.trendUp) && bear == bear0 + One(e.trendDown)
    ensures markers == Chosen(cs + TrendCandidates(e), x.bar.time)
  {
    bull, bear := bull0, bear0;
    var up, down := false, false;
    if st.showTrend && x.prev.Some? {
      var prev := x.prev.value;
      if x.down.Some? {
        var tl := LinePrice(x.down.value, x.bar.time);
        if x.bar.close > tl && prev.close <= LinePrice(x.down.value, prev.time) {
          bull, up := bull + 1, true;
        }
      }
      if x.up.Some? {
        var tl := LinePrice(x.up.value, x.bar.time);
        if x.bar.close < tl && prev.close >= LinePrice(x.up.value, prev.time) {
          bear, down := bear + 1, true;
        }
      }
    }
    markers := PushBoth(markers0, x.bar.time, Candidate(up, TrendUp), Candidate(down, TrendDown), cs);
  }

  /** 4. Golden trio. */
  method ScoreGolden(st: Settings, x: Inputs, ghost e: Events, bull0: nat, bear0: nat, markers0: seq<Marker>,
                    ghost cs: seq<Candidate>)
    returns (bull: nat, bear: nat, markers: seq<Marker>)
    requires e == EventsOf(st, x) && markers0 == Chosen(cs, x.bar.time)
    ensures bull == bull0 + One(e.goldenUp) && bear == bear0 + One(e.goldenDown)
    ensures markers == Chosen(cs + GoldenCandidates(e), x.bar.time)
  {
    bull, bear := bull0, bear0;
    var up, down := false, false;
    if st.showGolden && x.golden.Some? && x.rsi.Some? && x.volMa.Some? {
      var volOk := VolumeOf(x.bar) > x.volMa.value;
      up := x.bar.close > x.golden.value && x.rsi.value > 50.0 && volOk;
      down := x.bar.close < x.golden.value && x.rsi.value < 50.0 && volOk;
      if up {
        bull := bull + 1;
      }
      if down {
        bear := bear + 1;
      }
    }
    markers := PushBoth(markers0, x.bar.time, Candidate(up, GoldenUp), Candidate(down, GoldenDown), cs);
  }

  /** 5. Fibonacci golden zone: a vote, no marker. */
  method ScoreFib(st: Settings, x: Inputs, ghost e: Events, bull0: nat, bear0: nat) returns (bull: nat, bear: nat)
    requires e == EventsOf(st, x)
    ensures bull == bull0 + One(e.fibUp) && bear == bear0 + One(e.fibDown)
  {
    bull, bear := bull0, bear0;
    if st.showFib && x.swing.Some? {
      var swing := x.swing.value;
      var range := swing.high - swing.low;
      if range > 0.0 {
        var mid, golden618 := swing.low + range * 0.5, swing.low + range * 0.618;
        if mid <= x.bar.close <= golden618 {
          bull := bull + 1;
        } else if x.bar.close <= swing.low + range * 0.382 {
          bear := bear + 1;
        }
      }
    }
  }

  /** One bar scored: the strategies in order, counting votes and pushing markers, then 6. the strong signals. */
  method ScoreBar(st: Settings, x: Inputs) returns (v: Vote)
    ensures v == Scorer(st)(x)
  {
    ghost var e := EventsOf(st, x);
    ghost var c1 := EmaCandidates(e);
    ghost var c2 := c1 + SweepCandidates(e);
    ghost var c3 := c2 + TrendCandidates(e);
    ghost var c4 := c3 + GoldenCandidates(e);
    var bull, bear, markers := ScoreEma(st, x, e);
    bull, bear, markers := ScoreSweep(st, x, e, bull, bear, markers, c1);
    bull, bear, markers := ScoreTrend(st, x, e, bull, bear, markers, c2);
    bull, bear, markers := ScoreGolden(st, x, e, bull, bear, markers, c3);
    bull, bear := ScoreFib(st, x, e, bull, bear);
    markers := PushBoth(markers, x.bar.time, Candidate(st.showSignals && bull >= st.threshold, Buy(bull)),
                        Candidate(st.showSignals && bear >= st.threshold, Sell(bear)), c4);
    v := Vote(bull, bear, markers);
  }

  // ---------- What a vote means ----------

  lemma {:induction false} DrawnExactly(cs: seq<Candidate>, t: int, m: Marker)
    ensures m in Chosen(cs, t) <==> exists c :: c in cs && c.fires && m == Marker(t, c.kind)
  {
    if cs != [] {
      var n := |cs| - 1;
      DrawnExactly(cs[..n], t, m);
      assert cs == cs[..n] + [cs[n]];
    }
  }

  /** A kind of marker is drawn exactly when its only candidate fires, and not at all without one. */
  lemma DrawnIffFires(cs: seq<Candidate>, t: int, i: nat)
    requires i < |cs| && forall j :: 0 <= j < |cs| && cs[j].kind == cs[i].kind ==> j == i
    ensures Marker(t, cs[i].kind) in Chosen(cs, t) <==> cs[i].fires
  {
    DrawnExactly(cs, t, Marker(t, cs[i].kind));
    assert cs[i] in cs;
  }

  lemma EmaMarkers(e: Events, showSignals: bool, threshold: int, t: int)
    ensures Marker(t, EmaUp) in Chosen(Candidates(e, showSignals, threshold), t) <==> e.emaUp
    ensures Marker(t, EmaDown) in Chosen(Candidates(e, showSignals, threshold), t) <==> e.emaDown
  {
    DrawnIffFires(Candidates(e, showSignals, threshold), t, 0);
    DrawnIffFires(Candidates(e, showSignals, threshold), t, 1);
  }

  lemma NoOtherKind(cs: seq<Candidate>, t: int, kind: MarkerKind)
    requires forall j :: 0 <= j < |cs| ==> cs[j].kind != kind
    ensures Marker(t, kind) !in Chosen(cs, t)
  {
    DrawnExactly(cs, t, Marker(t, kind));
  }

  lemma BuyMarkers(e: Events, showSignals: bool, threshold: int, t: int, n: nat)
    ensures Marker(t, Buy(n)) in Chosen(Candidates(e, showSignals, threshold), t) <==> showSignals && n == Bull(e) >= threshold
  {
    if n == Bull(e) {
      DrawnIffFires(Candidates(e, showSignals, threshold), t, 8);
    } else {
      NoOtherKind(Candidates(e, showSignals, threshold), t, Buy(n));
    }
  }

  lemma SellMarkers(e: Events, showSignals: bool, threshold: int, t: int, n: nat)
    ensures Marker(t, Sell(n)) in Chosen(Candidates(e, showSignals, threshold), t) <==> showSignals && n == Bear(e) >= threshold
  {
    if n == Bear(e) {
      DrawnIffFires(Candidates(e, showSignals, threshold), t, 9);
    } else {
      NoOtherKind(Candidates(e, showSignals, threshold), t, Sell(n));
    }
  }

  /** A strong signal is drawn exactly when signals are on and its score reaches the threshold, and shows that score. */
  lemma SignalsAreExact(st: Settings, x: Inputs, n: nat)
    ensures var v := Scorer(st)(x);
            && (Marker(x.bar.time, Buy(n)) in v.markers <==> st.showSignals && n == v.bull >= st.threshold)
            && (Marker(x.bar.time, Sell(n)) in v.markers <==> st.showSignals && n == v.bear >= st.threshold)
  {
    BuyMarkers(EventsOf(st, x), st.showSignals, st.threshold, x.bar.time, n);
    SellMarkers(EventsOf(st, x), st.showSignals, st.threshold, x.bar.time, n);
  }

  /** The averages: whoever crosses is also on that side, and never on both. */
  lemma CrossingTakesASide(st: Settings, x: Inputs)
    ensures var e := EventsOf(st, x);
            && (e.emaUp <==> st.showEMA && CrossUp(x.fastPrev, x.slowPrev, x.fast, x.slow))
            && (e.emaDown <==> st.showEMA && CrossUp(x.slowPrev, x.fastPrev, x.slow, x.fast))
            && (e.emaUp ==> e.emaAbove) && (e.emaDown ==> e.emaBelow) && !(e.emaAbove && e.emaBelow)
            && !(e.goldenUp && e.goldenDown) && !(e.fibUp && e.fibDown)
  {
  }

  /** A crossing is drawn exactly when the averages cross; then its side votes with it, and the other is not drawn. */
  lemma CrossingsAreExact(st: Settings, x: Inputs)
    ensures var v := Scorer(st)(x);
            && (Marker(x.bar.time, EmaUp) in v.markers <==> st.showEMA && CrossUp(x.fastPrev, x.slowPrev, x.fast, x.slow))
            && (Marker(x.bar.time, EmaDown) in v.markers <==> st.showEMA && CrossUp(x.slowPrev, x.fastPrev, x.slow, x.fast))
            && (Marker(x.bar.time, EmaUp) in v.markers ==> v.bull >= 2 && Marker(x.bar.time, EmaDown) !in v.markers)
            && (Marker(x.bar.time, EmaDown) in v.markers ==> v.bear >= 2)
  {
    EmaMarkers(EventsOf(st, x), st.showSignals, st.threshold, x.bar.time);
    CrossingTakesASide(st, x);
  }

  /** Each side gets at most six votes and both together at most eight: only sweeps and trendlines can vote both ways. */
  lemma VotesAreBounded(st: Settings, x: Inputs)
    ensures var v := Scorer(st)(x); v.bull <= 6 && v.bear <= 6 && v.bull + v.bear <= 8
  {
    CrossingTakesASide(st, x);
  }

  // ---------- All bars ----------

  /** What is computed before the loop: the series and the trendlines, from enough bars. */
  predicate Prepared(bars: seq<Bar>, st: Settings, c: Context, up: Option<Segment>, down: Option<Segment>)
  {
    && Usable(st) && |bars| >= MIN_BARS && c == ContextOf(bars, st)
    && up == UpShown(bars, st) && down == DownShown(bars, st)
  }

  /** The loop over the bars, carrying the latest swing levels and the markers drawn so far. */
  method SignalLoop(bars: seq<Bar>, st: Settings, c: Context, up: Option<Segment>, down: Option<Segment>)
    returns (markers: seq<Marker>, last: Vote)
    requires Prepared(bars, st, c, up, down)
    ensures markers == DrawnBefore(bars, st, |bars|)
    ensures last == LastVote(bars, st)
  {
    markers, last := [], NO_VOTE;
    var w := st.pivotLookback;
    if |bars| <= 2 * w {
      return;
    }
    var lastHigh, lastLow := bars[0].high, bars[0].low;
    for i := 2 * w to |bars|
      invariant SwingKnown(bars, w, i - 1, lastHigh, lastLow)
      invariant markers == DrawnBefore(bars, st, i)
      invariant i > 2 * w ==> last == VoteAt(bars, st, i - 1)
    {
      lastHigh, lastLow := NextSwing(bars, w, i, lastHigh, lastLow);
      last, markers := Turn(bars, st, c, up, down, lastHigh, lastLow, i, markers);
    }
  }

  /** The running levels are the latest swing levels confirmed at bar `i`. */
  ghost predicate SwingKnown(bars: seq<Bar>, w: nat, i: int, high: real, low: real)
    requires bars != [] && i < |bars|
  {
    high == SwingHighAt(bars, w, i) && low == SwingLowAt(bars, w, i)
  }

  /** One turn: gather what the strategies see at bar `i`, score it, and draw. */
  method Turn(bars: seq<Bar>, st: Settings, c: Context, up: Option<Segment>, down: Option<Segment>,
              lastHigh: real, lastLow: real, i: nat, drawn: seq<Marker>) returns (v: Vote, markers: seq<Marker>)
    requires Prepared(bars, st, c, up, down) && 2 * st.pivotLookback <= i < |bars|
    requires SwingKnown(bars, st.pivotLookback, i, lastHigh, lastLow)
    requires drawn == DrawnBefore(bars, st, i)
    ensures v == VoteAt(bars, st, i)
    ensures markers == DrawnBefore(bars, st, i + 1)
  {
    var x := GatherInputs(bars, st, c, up, down, lastHigh, lastLow, i);
    v := ScoreBar(st, x);
    OneMore(Scorer(st), InputsBefore(bars, st, i), x);
    markers := drawn + v.markers;
  }

  method NextSwing(bars: seq<Bar>, w: nat, i: nat, lastHigh: real, lastLow: real) returns (high: real, low: real)
    requires 2 * w <= i < |bars|
    requires SwingKnown(bars, w, i - 1, lastHigh, lastLow)
    ensures SwingKnown(bars, w, i, high, low)
  {
    high, low := lastHigh, lastLow;
    var ph := PivotHigh(bars, i - w, w, w);
    var pl := PivotLow(bars, i - w, w, w);
    if ph.Some? {
      high := ph.value;
    }
    if pl.Some? {
      low := pl.value;
    }
  }

  method GatherInputs(bars: seq<Bar>, st: Settings, c: Context, up: Option<Segment>, down: Option<Segment>,
                      lastHigh: real, lastLow: real, i: nat) returns (x: Inputs)
    requires Prepared(bars, st, c, up, down) && i < |bars|
    requires SwingKnown(bars, st.pivotLookback, i, lastHigh, lastLow)
    ensures x == InputsAt(bars, st, i)
  {
    var swing := None;
    if st.showFib && i == |bars| - 1 {
      var s := FindSwingRange(bars, st.swingLookback);
      swing := Some(s);
    }
    x := InputsFrom(bars, c, lastHigh, lastLow, up, down, swing, i);
  }

  /** The overlay: the series, the trendlines, the loop, and the verdict on the newest bar. */
  method ComputeConfluence(bars: seq<Bar>, st: Settings)
    returns (markers: seq<Marker>, last: Vote, strong: Strong)
    requires Usable(st)
    ensures markers == Markers(bars, st)
    ensures last == LastVote(bars, st)
    ensures strong == StrongOf(last, |bars| >= MIN_BARS, st.threshold)
  {
    markers, last, strong := [], NO_VOTE, NoSignal;
    if |bars| < MIN_BARS {
      return;
    }
    var fast := EmaSeries(Closes(bars), st.emaFast);
    var slow := EmaSeries(Closes(bars), st.emaSlow);
    var golden := EmaSeries(Closes(bars), st.goldenEmaLength);
    var rsi := RsiSeries(Closes(bars), st.rsiLength);
    var volMa := SmaSeries(Volumes(bars), st.volMaLength);
    var c := Context(fast, slow, golden, rsi, volMa);
    var up, down := None, None;
    if st.showTrend {
      up, down := BuildTrendlines(bars, st.pivotLookback);
    }
    markers, last := SignalLoop(bars, st, c, up, down);
    if !st.enabled {
      markers := [];
    }
    if last.bull >= st.threshold {
      strong := BuySignal;
    } else if last.bear >= st.threshold {
      strong := SellSignal;
    }
  }
}
