/** Whether markers that were shown stay where they are when more bars arrive. */
module Repainting {
  import opened Prelude
  import opened Indicators
  import opened Confluence

  lemma {:induction false} PrefixData(bars: seq<Bar>, n: int)
    requires 0 <= n <= |bars|
    ensures Closes(bars[..n]) == Closes(bars)[..n] && Volumes(bars[..n]) == Volumes(bars)[..n]
  {
  }

  lemma {:induction false} SwingLevelsAreCausal(bars: seq<Bar>, n: int, w: nat, i: int)
    requires 0 < n <= |bars| && i < n
    ensures SwingHighAt(bars[..n], w, i) == SwingHighAt(bars, w, i)
    ensures SwingLowAt(bars[..n], w, i) == SwingLowAt(bars, w, i)
    decreases i
  {
    if i >= 2 * w && i >= 0 {
      PivotsAreCausal(bars, n, i - w, w, w);
      SwingLevelsAreCausal(bars, n, w, i - 1);
    }
  }

  function Prefix(c: Context, n: nat): Context
    requires Covers(c, |c.fast|) && n <= |c.fast|
  {
    Context(c.fast[..n], c.slow[..n], c.golden[..n], c.rsi[..n], c.volMa[..n])
  }

  lemma {:induction false} ContextIsCausal(bars: seq<Bar>, st: Settings, n: nat)
    requires Usable(st) && n <= |bars|
    ensures Covers(ContextOf(bars, st), |bars|)
    ensures ContextOf(bars[..n], st) == Prefix(ContextOf(bars, st), n)
  {
    PrefixData(bars, n);
    SeriesAreCausal(Closes(bars), n, st.emaFast);
    SeriesAreCausal(Closes(bars), n, st.emaSlow);
    SeriesAreCausal(Closes(bars), n, st.goldenEmaLength);
    SeriesAreCausal(Closes(bars), n, st.rsiLength);
    SeriesAreCausal(Volumes(bars), n, st.volMaLength);
  }

  lemma {:induction false} PrefixInputs(bars: seq<Bar>, c: Context, n: nat, high: real, low: real, up: Option<Segment>,
                     down: Option<Segment>, swing: Option<Swing>, i: nat)
    requires i < n <= |bars| && Covers(c, |bars|)
    ensures InputsFrom(bars[..n], Prefix(c, n), high, low, up, down, swing, i)
         == InputsFrom(bars, c, high, low, up, down, swing, i)
  {
  }

  /** The trendlines shown for the first `n` bars are the ones shown for all. */
  ghost predicate SameTrendlines(bars: seq<Bar>, st: Settings, n: nat)
    requires n <= |bars|
  {
    UpShown(bars[..n], st) == UpShown(bars, st) && DownShown(bars[..n], st) == DownShown(bars, st)
  }

  lemma {:induction false} InputsAreSettled(bars: seq<Bar>, st: Settings, n: nat, i: nat)
    requires Usable(st) && i < n <= |bars| && SameTrendlines(bars, st, n)
    requires st.showFib && n < |bars| ==> i < n - 1
    ensures InputsAt(bars[..n], st, i) == InputsAt(bars, st, i)
  {
    if n == |bars| {
      assert bars[..n] == bars;
    } else {
      ContextIsCausal(bars, st, n);
      SwingLevelsAreCausal(bars, n, st.pivotLookback, i);
      PrefixInputs(bars, ContextOf(bars, st), n, SwingHighAt(bars, st.pivotLookback, i), SwingLowAt(bars, st.pivotLookback, i),
                   UpShown(bars, st), DownShown(bars, st), None, i);
    }
  }

  lemma {:induction false} InputsBeforeAreSettled(bars: seq<Bar>, st: Settings, n: nat, end: int)
    requires Usable(st) && n <= |bars| && end <= n && SameTrendlines(bars, st, n)
    requires st.showFib && n < |bars| ==> end <= n - 1
    ensures InputsBefore(bars[..n], st, end) == InputsBefore(bars, st, end)
    decreases end
  {
    if end > 2 * st.pivotLookback {
      InputsBeforeAreSettled(bars, st, n, end - 1);
      InputsAreSettled(bars, st, n, end - 1);
    }
  }

  lemma {:induction false} DrawnGrows(score: Inputs -> Vote, bars: seq<Bar>, st: Settings, i: int, j: int)
    requires Usable(st) && i <= j <= |bars|
    ensures Drawn(score, InputsBefore(bars, st, i)) <= Drawn(score, InputsBefore(bars, st, j))
    decreases j - i
  {
    if i < j {
      DrawnGrows(score, bars, st, i, j - 1);
      if j > 2 * st.pivotLookback {
        OneMore(score, InputsBefore(bars, st, j - 1), InputsAt(bars, st, j - 1));
      }
    }
  }

  /** Everything shown before is still shown, in the same place, and whatever is new comes after it. */
  ghost predicate Kept(before: seq<Marker>, after: seq<Marker>) { before <= after }

  lemma {:induction false} DrawnIsSettled(score: Inputs -> Vote, bars: seq<Bar>, st: Settings, n: nat, end: int)
    requires Usable(st) && end <= n <= |bars| && SameTrendlines(bars, st, n)
    requires st.showFib && n < |bars| ==> end <= n - 1
    ensures Kept(Drawn(score, InputsBefore(bars[..n], st, end)), Drawn(score, InputsBefore(bars, st, |bars|)))
  {
    InputsBeforeAreSettled(bars, st, n, end);
    DrawnGrows(score, bars, st, end, |bars|);
  }

  /** The markers shown apart from those of the newest bar. */
  function SettledMarkers(bars: seq<Bar>, st: Settings): seq<Marker>
    requires Usable(st)
  {
    if |bars| < MIN_BARS || !st.enabled then [] else Drawn(Scorer(st), InputsBefore(bars, st, |bars| - 1))
  }

  /**
   * No repainting. The markers shown for the first `n` bars stay where they are whatever bars follow:
   * all of them when the Fibonacci vote is off, all but those of the newest bar when it is on; with
   * trendlines on, for as long as the two trendlines do not change.
   */
  lemma {:induction false} NoRepainting(bars: seq<Bar>, st: Settings, n: nat)
    requires Usable(st) && n <= |bars| && SameTrendlines(bars, st, n)
    ensures Kept(SettledMarkers(bars[..n], st), Markers(bars, st))
    ensures !st.showFib ==> Kept(Markers(bars[..n], st), Markers(bars, st))
  {
    SettledMarkersStay(bars, st, n);
    if !st.showFib {
      AllMarkersStay(bars, st, n);
    }
  }

  lemma {:induction false} SettledMarkersStay(bars: seq<Bar>, st: Settings, n: nat)
    requires Usable(st) && n <= |bars| && SameTrendlines(bars, st, n)
    ensures Kept(SettledMarkers(bars[..n], st), Markers(bars, st))
  {
    if n >= MIN_BARS && st.enabled {
      DrawnIsSettled(Scorer(st), bars, st, n, n - 1);
    }
  }

  lemma {:induction false} AllMarkersStay(bars: seq<Bar>, st: Settings, n: nat)
    requires Usable(st) && n <= |bars| && SameTrendlines(bars, st, n) && !st.showFib
    ensures Kept(Markers(bars[..n], st), Markers(bars, st))
  {
    if n >= MIN_BARS && st.enabled {
      DrawnIsSettled(Scorer(st), bars, st, n, n);
    }
  }

  /** With trendlines and the Fibonacci vote off, what any prefix of the bars shows is a prefix of what all of them show. */
  lemma PrefixShowsPrefix(bars: seq<Bar>, st: Settings, n: nat)
    requires Usable(st) && n <= |bars| && !st.showTrend && !st.showFib
    ensures Markers(bars[..n], st) <= Markers(bars, st)
  {
    assert SameTrendlines(bars, st, n);
    AllMarkersStay(bars, st, n);
  }

  // ---------- When trendlines stay ----------

  /** No pivot was confirmed by the bars after the first `n`. */
  ghost predicate NoNewPivots(bars: seq<Bar>, w: nat, n: nat)
  {
    forall i :: n - w <= i < |bars| - w ==> !IsPivotLow(bars, i, w, w) && !IsPivotHigh(bars, i, w, w)
  }

  lemma {:induction false} PointsAreCausal(bars: seq<Bar>, w: nat, n: nat, i: int)
    requires n <= |bars| && i <= n - w
    ensures LowPoints(bars[..n], w, i) == LowPoints(bars, w, i) && HighPoints(bars[..n], w, i) == HighPoints(bars, w, i)
    decreases i
  {
    if i > w {
      PivotsAreCausal(bars, n, i - 1, w, w);
      PointsAreCausal(bars, w, n, i - 1);
    }
  }

  lemma {:induction false} PointsOfQuietBars(bars: seq<Bar>, w: nat, i: int, j: int)
    requires i <= j <= |bars| - w
    requires forall k :: i <= k < j ==> !IsPivotLow(bars, k, w, w) && !IsPivotHigh(bars, k, w, w)
    ensures LowPoints(bars, w, j) == LowPoints(bars, w, i) && HighPoints(bars, w, j) == HighPoints(bars, w, i)
    decreases j - i
  {
    if i < j {
      PointsOfQuietBars(bars, w, i, j - 1);
      assert LowPoints(bars, w, j - 1) + [] == LowPoints(bars, w, j - 1);
      assert HighPoints(bars, w, j - 1) + [] == HighPoints(bars, w, j - 1);
    }
  }

  /** As long as the bars that arrive confirm no pivot, the trendlines do not change. */
  lemma NoNewPivotsKeepTrendlines(bars: seq<Bar>, st: Settings, n: nat)
    requires n <= |bars| && (st.showTrend ==> NoNewPivots(bars, st.pivotLookback, n))
    ensures SameTrendlines(bars, st, n)
  {
    if st.showTrend {
      PointsAreCausal(bars, st.pivotLookback, n, n - st.pivotLookback);
      PointsOfQuietBars(bars, st.pivotLookback, n - st.pivotLookback, |bars| - st.pivotLookback);
    }
  }

  /** Until a new pivot is confirmed, nothing that was shown moves, apart from the newest bar's Fibonacci vote. */
  lemma NoRepaintingBeforeNextPivot(bars: seq<Bar>, st: Settings, n: nat)
    requires Usable(st) && n <= |bars| && (st.showTrend ==> NoNewPivots(bars, st.pivotLookback, n))
    ensures Kept(SettledMarkers(bars[..n], st), Markers(bars, st))
    ensures !st.showFib ==> Kept(Markers(bars[..n], st), Markers(bars, st))
  {
    NoNewPivotsKeepTrendlines(bars, st, n);
    NoRepainting(bars, st, n);
  }

  // ---------- Exactly when they do ----------

  ghost predicate AscendingBars(bars: seq<Bar>) { forall i, j :: 0 <= i < j < |bars| ==> bars[i].time < bars[j].time }

  ghost predicate AscendingPoints(ps: seq<Point>) { forall i, j :: 0 <= i < j < |ps| ==> ps[i].time < ps[j].time }

  lemma {:induction false} PointsAscend(bars: seq<Bar>, w: nat, i: int)
    requires AscendingBars(bars) && i <= |bars|
    ensures AscendingPoints(LowPoints(bars, w, i)) && AscendingPoints(HighPoints(bars, w, i))
    ensures forall p :: p in LowPoints(bars, w, i) || p in HighPoints(bars, w, i) ==> i > 0 && p.time <= bars[i - 1].time
    decreases i
  {
    if i > w {
      PointsAscend(bars, w, i - 1);
    }
  }

  ghost predicate LowBetween(bars: seq<Bar>, w: nat, i: int, j: int)
  {
    exists k :: Max(w, i) <= k < j && IsPivotLow(bars, k, w, w)
  }

  ghost predicate HighBetween(bars: seq<Bar>, w: nat, i: int, j: int)
  {
    exists k :: Max(w, i) <= k < j && IsPivotHigh(bars, k, w, w)
  }

  lemma {:induction false} LowPointsGrow(bars: seq<Bar>, w: nat, i: int, j: int)
    requires i <= j
    ensures LowPoints(bars, w, i) <= LowPoints(bars, w, j)
    ensures |LowPoints(bars, w, i)| < |LowPoints(bars, w, j)| <==> LowBetween(bars, w, i, j)
    decreases j - i
  {
    if i < j {
      LowPointsGrow(bars, w, i, j - 1);
    }
  }

  lemma {:induction false} HighPointsGrow(bars: seq<Bar>, w: nat, i: int, j: int)
    requires i <= j
    ensures HighPoints(bars, w, i) <= HighPoints(bars, w, j)
    ensures |HighPoints(bars, w, i)| < |HighPoints(bars, w, j)| <==> HighBetween(bars, w, i, j)
    decreases j - i
  {
    if i < j {
      HighPointsGrow(bars, w, i, j - 1);
    }
  }

  /** A further point moves the line through the last two, unless there is no line even then. */
  lemma LastTwoMoves(before: seq<Point>, after: seq<Point>)
    requires before <= after && AscendingPoints(after)
    ensures LastTwo(before) == LastTwo(after) <==> (|before| < |after| ==> |after| < 2)
  {
  }

  /** A pivot low, or high, has been confirmed by the bars after the first `n`. */
  ghost predicate NewLow(bars: seq<Bar>, w: nat, n: nat) { LowBetween(bars, w, n - w, |bars| - w) }

  ghost predicate NewHigh(bars: seq<Bar>, w: nat, n: nat) { HighBetween(bars, w, n - w, |bars| - w) }

  lemma LinesOfPrefix(bars: seq<Bar>, w: nat, n: nat)
    requires n <= |bars|
    ensures UpLine(bars[..n], w) == LastTwo(LowPoints(bars, w, n - w))
    ensures DownLine(bars[..n], w) == LastTwo(HighPoints(bars, w, n - w))
  {
    PointsAreCausal(bars, w, n, n - w);
  }

  lemma AllPointsAscend(bars: seq<Bar>, w: nat)
    requires AscendingBars(bars)
    ensures AscendingPoints(LowPoints(bars, w, |bars| - w)) && AscendingPoints(HighPoints(bars, w, |bars| - w))
  {
    PointsAscend(bars, w, |bars| - w);
  }

  lemma UpLineStays(bars: seq<Bar>, w: nat, n: nat)
    requires n <= |bars| && AscendingBars(bars)
    ensures UpLine(bars[..n], w) == UpLine(bars, w) <==> (NewLow(bars, w, n) ==> |LowPoints(bars, w, |bars| - w)| < 2)
  {
    LinesOfPrefix(bars, w, n);
    LowPointsGrow(bars, w, n - w, |bars| - w);
    AllPointsAscend(bars, w);
    LastTwoMoves(LowPoints(bars, w, n - w), LowPoints(bars, w, |bars| - w));
  }

  lemma DownLineStays(bars: seq<Bar>, w: nat, n: nat)
    requires n <= |bars| && AscendingBars(bars)
    ensures DownLine(bars[..n], w) == DownLine(bars, w) <==> (NewHigh(bars, w, n) ==> |HighPoints(bars, w, |bars| - w)| < 2)
  {
    LinesOfPrefix(bars, w, n);
    HighPointsGrow(bars, w, n - w, |bars| - w);
    AllPointsAscend(bars, w);
    LastTwoMoves(HighPoints(bars, w, n - w), HighPoints(bars, w, |bars| - w));
  }

  /**
   * The shown trendlines stay the same if and only if, for lows and for highs alike, no pivot has been confirmed
   * since or there are fewer than two of them altogether.
   */
  lemma TrendlinesStayIff(bars: seq<Bar>, st: Settings, n: nat)
    requires n <= |bars| && st.showTrend && AscendingBars(bars)
    ensures var w := st.pivotLookback;
            SameTrendlines(bars, st, n) <==>
              && (NewLow(bars, w, n) ==> |LowPoints(bars, w, |bars| - w)| < 2)
              && (NewHigh(bars, w, n) ==> |HighPoints(bars, w, |bars| - w)| < 2)
  {
    UpLineStays(bars, st.pivotLookback, n);
    DownLineStays(bars, st.pivotLookback, n);
  }
}
