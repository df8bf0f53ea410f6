/**
 * The indicator series of the chart, filled by loops with running sums, against direct definitions.
 * A value that is not available yet (`NaN`) is `None`; arithmetic is exact.
 */
module Indicators {
  import opened Prelude

  datatype Bar = Bar(time: int, open: real, high: real, low: real, close: real, volume: Option<real>)

  function VolumeOf(b: Bar): real { if b.volume.Some? then b.volume.value else 0.0 }

  type Series = seq<Option<real>>

  function Sum(values: seq<real>): real
  {
    if values == [] then 0.0 else Sum(values[..|values| - 1]) + values[|values| - 1]
  }

  ghost predicate Within(values: seq<real>, lo: real, hi: real)
  {
    forall j :: 0 <= j < |values| ==> lo <= values[j] <= hi
  }

  lemma {:induction false} SumBounds(values: seq<real>, lo: real, hi: real)
    requires Within(values, lo, hi)
    ensures lo * |values| as real <= Sum(values) <= hi * |values| as real
  {
    if values != [] {
      var n := |values| - 1;
      SumBounds(values[..n], lo, hi);
      ScaleOneMore(lo, n);
      ScaleOneMore(hi, n);
    }
  }

  lemma ScaleOneMore(x: real, n: nat)
    ensures x * (n + 1) as real == x * n as real + x
  {
    assert (n + 1) as real == n as real + 1.0;
  }

  lemma DivideBounds(total: real, n: int, lo: real, hi: real)
    requires n > 0 && lo * n as real <= total <= hi * n as real
    ensures lo <= total / n as real <= hi
  {
    var q := total / n as real;
    assert q * n as real == total;
    CancelScale(lo, q, n as real);
    CancelScale(q, hi, n as real);
  }

  lemma CancelScale(a: real, b: real, n: real)
    requires n > 0.0 && a * n <= b * n
    ensures a <= b
  {
  }

  // ---------- Exponential moving average ----------

  function Smoothing(period: int): real
    requires period > 0
  {
    2.0 / (period + 1) as real
  }

  /** The moving average at bar `i`: the plain mean of the first `period` values, then exponential smoothing. */
  function EmaAt(values: seq<real>, period: int, i: int): real
    requires 0 < period <= i + 1 <= |values|
    decreases i
  {
    if i == period - 1 then Sum(values[..period]) / period as real
    else values[i] * Smoothing(period) + EmaAt(values, period, i - 1) * (1.0 - Smoothing(period))
  }

  function Ema(values: seq<real>, period: int): Series
    requires period > 0
  {
    seq(|values|, i requires 0 <= i < |values| => if i < period - 1 then None else Some(EmaAt(values, period, i)))
  }

  method EmaSeries(values: seq<real>, period: int) returns (series: Series)
    requires period > 0
    ensures series == Ema(values, period)
  {
    var out := new Option<real>[|values|](_ => None);
    if |values| < period {
      return out[..];
    }
    var k := 2.0 / (period + 1) as real;
    var total := SumOf(values[..period]);
    var ema := total / period as real;
    out[period - 1] := Some(ema);
    for i := period to |values|
      invariant ema == EmaAt(values, period, i - 1)
      invariant forall j :: 0 <= j < i ==> out[j] == Ema(values, period)[j]
      invariant forall j :: i <= j < |values| ==> out[j] == None
    {
      ema := values[i] * k + ema * (1.0 - k);
      out[i] := Some(ema);
    }
    series := out[..];
  }

  method SumOf(values: seq<real>) returns (total: real)
    ensures total == Sum(values)
  {
    total := 0.0;
    for i := 0 to |values|
      invariant total == Sum(values[..i])
    {
      assert values[..i + 1][..i] == values[..i];
      total := total + values[i];
    }
    assert values[..|values|] == values;
  }

  /** The average never leaves the range of the values seen so far. */
  lemma {:induction false} EmaWithinSeenRange(values: seq<real>, period: int, i: int, lo: real, hi: real)
    requires 0 < period <= i + 1 <= |values| && Within(values[..i + 1], lo, hi)
    ensures lo <= EmaAt(values, period, i) <= hi
    decreases i
  {
    if i == period - 1 {
      EmaStart(values, period, lo, hi);
    } else {
      assert values[..i + 1][i] == values[i];
      WithinPrefix(values, i, lo, hi);
      EmaWithinSeenRange(values, period, i - 1, lo, hi);
      EmaStep(values, period, i, lo, hi);
    }
  }

  lemma {:induction false} EmaStart(values: seq<real>, period: int, lo: real, hi: real)
    requires 0 < period <= |values| && Within(values[..period], lo, hi)
    ensures lo <= EmaAt(values, period, period - 1) <= hi
  {
    MeanWithin(values[..period], lo, hi);
  }

  lemma MeanWithin(values: seq<real>, lo: real, hi: real)
    requires values != [] && Within(values, lo, hi)
    ensures lo <= Sum(values) / |values| as real <= hi
  {
    SumBounds(values, lo, hi);
    DivideBounds(Sum(values), |values|, lo, hi);
  }

  lemma EmaStep(values: seq<real>, period: int, i: int, lo: real, hi: real)
    requires 0 < period <= i < |values| && lo <= values[i] <= hi && lo <= EmaAt(values, period, i - 1) <= hi
    ensures lo <= EmaAt(values, period, i) <= hi
  {
    SmoothingIsAShare(period);
    ConvexBounds(values[i], EmaAt(values, period, i - 1), Smoothing(period), lo, hi);
  }

  lemma WithinPrefix(values: seq<real>, i: int, lo: real, hi: real)
    requires 0 <= i < |values| && Within(values[..i + 1], lo, hi)
    ensures Within(values[..i], lo, hi)
  {
    forall j | 0 <= j < i
      ensures lo <= values[..i][j] <= hi
    {
      assert values[..i][j] == values[..i + 1][j];
    }
  }

  lemma SmoothingIsAShare(period: int)
    requires period > 0
    ensures 0.0 < Smoothing(period) <= 1.0
  {
    DivideBounds(2.0, period + 1, 0.0, 1.0);
  }

  lemma ConvexBounds(x: real, y: real, k: real, lo: real, hi: real)
    requires lo <= x <= hi && lo <= y <= hi && 0.0 <= k <= 1.0
    ensures lo <= x * k + y * (1.0 - k) <= hi
  {
    ConvexLower(x, y, k, 1.0 - k, lo);
    ConvexLower(-x, -y, k, 1.0 - k, -hi);
  }

  lemma ConvexLower(x: real, y: real, k: real, j: real, lo: real)
    requires lo <= x && lo <= y && k >= 0.0 && j >= 0.0 && k + j == 1.0
    ensures lo <= x * k + y * j
  {
    assert (x - lo) * k >= 0.0 && (y - lo) * j >= 0.0;
    assert lo * (k + j) == lo * k + lo * j;
  }

  /** The value at bar `i` depends on no later bar. */
  lemma {:induction false} EmaIsCausal(values: seq<real>, n: int, period: int, i: int)
    requires 0 < period <= i + 1 <= n <= |values|
    ensures EmaAt(values[..n], period, i) == EmaAt(values, period, i)
    decreases i
  {
    if i == period - 1 {
      assert values[..n][..period] == values[..period];
    } else {
      EmaIsCausal(values, n, period, i - 1);
    }
  }

  // ---------- Simple moving average ----------

  /** The mean of the last `period` values up to and including bar `i`. */
  function SmaAt(values: seq<real>, period: int, i: int): real
    requires 0 < period <= i + 1 <= |values|
  {
    Sum(values[i + 1 - period..i + 1]) / period as real
  }

  function Sma(values: seq<real>, period: int): Series
    requires period > 0
  {
    seq(|values|, i requires 0 <= i < |values| => if i < period - 1 then None else Some(SmaAt(values, period, i)))
  }

  lemma {:induction false} SumFront(values: seq<real>)
    requires values != []
    ensures Sum(values) == values[0] + Sum(values[1..])
  {
    if |values| == 1 {
      assert values[..0] == [] && values[1..] == [];
    } else {
      var n := |values| - 1;
      SumFront(values[..n]);
      assert values[..n][1..] == values[1..][..n - 1];
    }
  }

  /** Sliding the window by one adds the newest value and drops the oldest. */
  lemma SlideWindow(values: seq<real>, period: int, i: int)
    requires 0 < period <= i < |values|
    ensures Sum(values[i + 1 - period..i + 1]) == Sum(values[i - period..i]) + (values[i] - values[i - period])
  {
    var wide := values[i - period..i + 1];
    SumFront(wide);
    assert wide[1..] == values[i + 1 - period..i + 1];
    assert wide[..|wide| - 1] == values[i - period..i];
  }

  method SmaSeries(values: seq<real>, period: int) returns (series: Series)
    requires period > 0
    ensures series == Sma(values, period)
  {
    var out := new Option<real>[|values|](_ => None);
    if |values| < period {
      return out[..];
    }
    var sum := SumOf(values[..period]);
    out[period - 1] := Some(sum / period as real);
    for i := period to |values|
      invariant sum == Sum(values[i - period..i])
      invariant forall j :: 0 <= j < i ==> out[j] == Sma(values, period)[j]
      invariant forall j :: i <= j < |values| ==> out[j] == None
    {
      SlideWindow(values, period, i);
      sum := sum + (values[i] - values[i - period]);
      out[i] := Some(sum / period as real);
    }
    series := out[..];
  }

  lemma SmaIsCausal(values: seq<real>, n: int, period: int, i: int)
    requires 0 < period <= i + 1 <= n <= |values|
    ensures SmaAt(values[..n], period, i) == SmaAt(values, period, i)
  {
    assert values[..n][i + 1 - period..i + 1] == values[i + 1 - period..i + 1];
  }

  // ---------- Wilder's relative strength index ----------

  function Gain(closes: seq<real>, i: int): real
    requires 0 < i < |closes|
  {
    MaxR(closes[i] - closes[i - 1], 0.0)
  }

  function Loss(closes: seq<real>, i: int): real
    requires 0 < i < |closes|
  {
    MaxR(closes[i - 1] - closes[i], 0.0)
  }

  function TotalGain(closes: seq<real>, i: int): real
    requires 0 <= i < |closes|
  {
    if i == 0 then 0.0 else TotalGain(closes, i - 1) + Gain(closes, i)
  }

  function TotalLoss(closes: seq<real>, i: int): real
    requires 0 <= i < |closes|
  {
    if i == 0 then 0.0 else TotalLoss(closes, i - 1) + Loss(closes, i)
  }

  /** Wilder's smoothing: the newest move counts for one part in `period`. */
  function Wilder(average: real, move: real, period: int): real
    requires period > 0
  {
    (average * (period - 1) as real + move) / period as real
  }

  lemma WilderNonNegative(average: real, move: real, period: int)
    requires period > 0 && average >= 0.0 && move >= 0.0
    ensures Wilder(average, move, period) >= 0.0
  {
    assert average * (period - 1) as real >= 0.0;
  }

  function AvgGain(closes: seq<real>, period: int, i: int): real
    requires 0 < period <= i < |closes|
    decreases i
  {
    if i == period then TotalGain(closes, period) / period as real
    else Wilder(AvgGain(closes, period, i - 1), Gain(closes, i), period)
  }

  function AvgLoss(closes: seq<real>, period: int, i: int): real
    requires 0 < period <= i < |closes|
    decreases i
  {
    if i == period then TotalLoss(closes, period) / period as real
    else Wilder(AvgLoss(closes, period, i - 1), Loss(closes, i), period)
  }

  function Strength(avgGain: real, avgLoss: real): real
    requires avgGain >= 0.0 && avgLoss >= 0.0
  {
    if avgLoss == 0.0 then 100.0
    else
      RatioNonNegative(avgGain, avgLoss);
      100.0 - 100.0 / (1.0 + avgGain / avgLoss)
  }

  lemma RatioNonNegative(a: real, b: real)
    requires a >= 0.0 && b > 0.0
    ensures a / b >= 0.0
  {
  }

  lemma {:induction false} AveragesNonNegative(closes: seq<real>, period: int, i: int)
    requires 0 < period <= i < |closes|
    ensures AvgGain(closes, period, i) >= 0.0 && AvgLoss(closes, period, i) >= 0.0
    decreases i
  {
    if i == period {
      TotalsNonNegative(closes, period);
    } else {
      AveragesNonNegative(closes, period, i - 1);
      WilderNonNegative(AvgGain(closes, period, i - 1), Gain(closes, i), period);
      WilderNonNegative(AvgLoss(closes, period, i - 1), Loss(closes, i), period);
    }
  }

  lemma {:induction false} TotalsNonNegative(closes: seq<real>, i: int)
    requires 0 <= i < |closes|
    ensures TotalGain(closes, i) >= 0.0 && TotalLoss(closes, i) >= 0.0
  {
    if i > 0 {
      TotalsNonNegative(closes, i - 1);
    }
  }

  function RsiAt(closes: seq<real>, period: int, i: int): real
    requires 0 < period <= i < |closes|
  {
    AveragesNonNegative(closes, period, i);
    Strength(AvgGain(closes, period, i), AvgLoss(closes, period, i))
  }

  function Rsi(closes: seq<real>, period: int): Series
    requires period > 0
  {
    seq(|closes|, i requires 0 <= i < |closes| => if i < period then None else Some(RsiAt(closes, period, i)))
  }

  method RsiSeries(closes: seq<real>, period: int) returns (series: Series)
    requires period > 0
    ensures series == Rsi(closes, period)
  {
    var out := new Option<real>[|closes|](_ => None);
    if |closes| <= period {
      return out[..];
    }
    var avgGain, avgLoss := 0.0, 0.0;
    for i := 1 to period + 1
      invariant avgGain == TotalGain(closes, i - 1) && avgLoss == TotalLoss(closes, i - 1)
    {
      var d := closes[i] - closes[i - 1];
      if d >= 0.0 {
        avgGain := avgGain + d;
      } else {
        avgLoss := avgLoss - d;
      }
    }
    avgGain := avgGain / period as real;
    avgLoss := avgLoss / period as real;
    AveragesNonNegative(closes, period, period);
    out[period] := Some(Strength(avgGain, avgLoss));
    for i := period + 1 to |closes|
      invariant avgGain == AvgGain(closes, period, i - 1) && avgLoss == AvgLoss(closes, period, i - 1)
      invariant forall j :: 0 <= j < i ==> out[j] == Rsi(closes, period)[j]
      invariant forall j :: i <= j < |closes| ==> out[j] == None
    {
      var d := closes[i] - closes[i - 1];
      var gain := if d > 0.0 then d else 0.0;
      var loss := if d < 0.0 then -d else 0.0;
      assert gain == Gain(closes, i) && loss == Loss(closes, i);
      avgGain := Wilder(avgGain, gain, period);
      avgLoss := Wilder(avgLoss, loss, period);
      assert avgGain == AvgGain(closes, period, i) && avgLoss == AvgLoss(closes, period, i);
      AveragesNonNegative(closes, period, i);
      out[i] := Some(Strength(avgGain, avgLoss));
    }
    series := out[..];
  }

  ghost predicate IsShare(percent: real, gain: real, loss: real)
  {
    gain >= 0.0 && loss >= 0.0 && 0.0 <= percent <= 100.0 && percent * (gain + loss) == 100.0 * gain
  }

  /** The index is the gains' share of all movement, in percent, so it always lies between 0 and 100. */
  lemma {:induction false} RsiIsShareOfGains(closes: seq<real>, period: int, i: int)
    requires 0 < period <= i < |closes|
    ensures IsShare(RsiAt(closes, period, i), AvgGain(closes, period, i), AvgLoss(closes, period, i))
  {
    AveragesNonNegative(closes, period, i);
    ShareIdentity(AvgGain(closes, period, i), AvgLoss(closes, period, i));
  }

  lemma ShareIdentity(g: real, l: real)
    requires g >= 0.0 && l >= 0.0
    ensures IsShare(Strength(g, l), g, l)
  {
    if l > 0.0 {
      RatioNonNegative(g, l);
      var q := g / l;
      var x := 100.0 / (1.0 + q);
      assert x * (1.0 + q) == 100.0;
      assert q * l == g;
      ShareProduct(x, q, l, g);
    }
  }

  lemma ShareProduct(x: real, q: real, l: real, g: real)
    requires x * (1.0 + q) == 100.0 && q * l == g && q >= 0.0
    ensures (100.0 - x) * (g + l) == 100.0 * g
    ensures 0.0 <= x <= 100.0
  {
    assert g + l == (1.0 + q) * l;
    assert x * ((1.0 + q) * l) == (x * (1.0 + q)) * l;
    if x < 0.0 {
      NegativeProduct(x, 1.0 + q);
    }
    if x >= 0.0 {
      assert x * q >= 0.0;
    }
  }

  lemma NegativeProduct(x: real, y: real)
    requires x < 0.0 && y > 0.0
    ensures x * y < 0.0
  {
  }

  lemma {:induction false} RsiIsCausal(closes: seq<real>, n: int, period: int, i: int)
    requires 0 < period <= i < n <= |closes|
    ensures RsiAt(closes[..n], period, i) == RsiAt(closes, period, i)
  {
    AveragesAreCausal(closes, n, period, i);
  }

  lemma MovesAreCausal(closes: seq<real>, n: int, i: int)
    requires 0 < i < n <= |closes|
    ensures Gain(closes[..n], i) == Gain(closes, i) && Loss(closes[..n], i) == Loss(closes, i)
  {
  }

  lemma {:induction false} AveragesAreCausal(closes: seq<real>, n: int, period: int, i: int)
    requires 0 < period <= i < n <= |closes|
    ensures AvgGain(closes[..n], period, i) == AvgGain(closes, period, i)
    ensures AvgLoss(closes[..n], period, i) == AvgLoss(closes, period, i)
    decreases i
  {
    if i == period {
      TotalsAreCausal(closes, n, period);
    } else {
      AveragesAreCausal(closes, n, period, i - 1);
      MovesAreCausal(closes, n, i);
    }
  }

  lemma {:induction false} TotalsAreCausal(closes: seq<real>, n: int, i: int)
    requires 0 <= i < n <= |closes|
    ensures TotalGain(closes[..n], i) == TotalGain(closes, i) && TotalLoss(closes[..n], i) == TotalLoss(closes, i)
  {
    if i > 0 {
      TotalsAreCausal(closes, n, i - 1);
      MovesAreCausal(closes, n, i);
    }
  }

  // ---------- Pivots and crossings ----------

  predicate IsPivotHigh(bars: seq<Bar>, i: int, left: nat, right: nat)
  {
    && left <= i < |bars| - right
    && forall j :: i - left <= j <= i + right && j != i ==> bars[j].high < bars[i].high
  }

  predicate IsPivotLow(bars: seq<Bar>, i: int, left: nat, right: nat)
  {
    && left <= i < |bars| - right
    && forall j :: i - left <= j <= i + right && j != i ==> bars[j].low > bars[i].low
  }

  method PivotHigh(bars: seq<Bar>, i: int, left: nat, right: nat) returns (p: Option<real>)
    ensures p == if IsPivotHigh(bars, i, left, right) then Some(bars[i].high) else None
  {
    if i < left || i >= |bars| - right {
      return None;
    }
    var h := bars[i].high;
    for j := i - left to i + right + 1
      invariant forall k :: i - left <= k < j && k != i ==> bars[k].high < h
    {
      if j != i && bars[j].high >= h {
        return None;
      }
    }
    p := Some(h);
  }

  method PivotLow(bars: seq<Bar>, i: int, left: nat, right: nat) returns (p: Option<real>)
    ensures p == if IsPivotLow(bars, i, left, right) then Some(bars[i].low) else None
  {
    if i < left || i >= |bars| - right {
      return None;
    }
    var l := bars[i].low;
    for j := i - left to i + right + 1
      invariant forall k :: i - left <= k < j && k != i ==> bars[k].low > l
    {
      if j != i && bars[j].low <= l {
        return None;
      }
    }
    p := Some(l);
  }

  /** With equal widths, two pivots of one kind are always more than that width apart. */
  lemma PivotsAreSpaced(bars: seq<Bar>, i: int, j: int, width: nat)
    requires i < j
    requires (IsPivotHigh(bars, i, width, width) && IsPivotHigh(bars, j, width, width))
             || (IsPivotLow(bars, i, width, width) && IsPivotLow(bars, j, width, width))
    ensures j - i > width
  {
  }

  /** A pivot is settled as soon as the bars to its right exist. */
  lemma PivotsAreCausal(bars: seq<Bar>, n: int, i: int, left: nat, right: nat)
    requires 0 <= n <= |bars| && i + right < n
    ensures IsPivotHigh(bars[..n], i, left, right) == IsPivotHigh(bars, i, left, right)
    ensures IsPivotLow(bars[..n], i, left, right) == IsPivotLow(bars, i, left, right)
  {
  }

  /** `a` was at or below `b` one bar ago and is above it now. */
  predicate CrossUp(aPrev: Option<real>, bPrev: Option<real>, a: Option<real>, b: Option<real>)
  {
    aPrev.Some? && bPrev.Some? && a.Some? && b.Some? && aPrev.value <= bPrev.value && a.value > b.value
  }

  function ValueAt(s: Series, i: int): Option<real>
    requires i < |s|
  {
    if i < 0 then None else s[i]
  }

  /** Every series of a prefix is the prefix of the series. */
  lemma SeriesAreCausal(values: seq<real>, n: int, period: int)
    requires 0 < period && 0 <= n <= |values|
    ensures Ema(values[..n], period) == Ema(values, period)[..n]
    ensures Sma(values[..n], period) == Sma(values, period)[..n]
    ensures Rsi(values[..n], period) == Rsi(values, period)[..n]
  {
    forall i | 0 <= i < n
      ensures Ema(values[..n], period)[i] == Ema(values, period)[i]
      ensures Sma(values[..n], period)[i] == Sma(values, period)[i]
      ensures Rsi(values[..n], period)[i] == Rsi(values, period)[i]
    {
      if i >= period - 1 {
        EmaIsCausal(values, n, period, i);
        SmaIsCausal(values, n, period, i);
      }
      if i >= period {
        RsiIsCausal(values, n, period, i);
      }
    }
  }
}
