/** Weighted-average position accounting, fill prices, charges and the pre-trade checks. */
module PositionMath {
  import opened Prelude

  datatype Side = BUY | SELL

  /** `netQty` is signed: positive is long, negative is short. */
  datatype Position = Position(netQty: int, avgPricePaise: int, realizedPnlPaise: int)

  const FLAT := Position(0, 0, 0)

  datatype FillResult = FillResult(position: Position, realizedDeltaPaise: int)

  function ApplyFill(pos: Position, signedQty: int, fillPricePaise: int): (r: FillResult)
    requires signedQty != 0
    ensures r.position.netQty == pos.netQty + signedQty
    ensures r.position.realizedPnlPaise == pos.realizedPnlPaise + r.realizedDeltaPaise
  {
    var oldQty := pos.netQty;
    if oldQty == 0 || Sign(oldQty) == Sign(signedQty) then
      var newQty := oldQty + signedQty;
      var notional := pos.avgPricePaise * Abs(oldQty) + fillPricePaise * Abs(signedQty);
      FillResult(Position(newQty, RoundDiv(notional, Abs(newQty)), pos.realizedPnlPaise), 0)
    else
      var closingQty := Min(Abs(signedQty), Abs(oldQty));
      var perUnit := (fillPricePaise - pos.avgPricePaise) * Sign(oldQty);
      var realizedDelta := perUnit * closingQty;
      var realized := pos.realizedPnlPaise + realizedDelta;
      var remaining := Abs(signedQty) - closingQty;
      if remaining == 0 then
        var newQty := oldQty + signedQty;
        FillResult(Position(newQty, if newQty == 0 then 0 else pos.avgPricePaise, realized), realizedDelta)
      else
        FillResult(Position(Sign(signedQty) * remaining, fillPricePaise, realized), realizedDelta)
  }

  /** What a position cost to carry: its signed quantity at the average price. */
  function BookValue(pos: Position): int { pos.netQty * pos.avgPricePaise }

  /**
   * A fill moves money, it does not make any: the cash paid equals the rise in book value less the
   * profit realized. Reducing, closing and flipping are exact; averaging up is off by at most the half paisa
   * per unit that rounding the average price costs.
   */
  lemma FillConservesValue(pos: Position, signedQty: int, price: int)
    requires signedQty != 0
    ensures pos.netQty != 0 && Sign(pos.netQty) != Sign(signedQty) ==> ValueError(pos, signedQty, price) == 0
    ensures 2 * Abs(ValueError(pos, signedQty, price)) <= Abs(pos.netQty + signedQty)
  {
    if pos.netQty == 0 || Sign(pos.netQty) == Sign(signedQty) {
      IncreaseConservesValue(pos, signedQty, price);
    } else {
      DecreaseConservesValue(pos, signedQty, price);
    }
  }

  function ValueError(pos: Position, signedQty: int, price: int): int
    requires signedQty != 0
  {
    var r := ApplyFill(pos, signedQty, price);
    BookValue(r.position) - BookValue(pos) - r.realizedDeltaPaise - signedQty * price
  }

  lemma IncreaseConservesValue(pos: Position, signedQty: int, price: int)
    requires signedQty != 0
    requires pos.netQty == 0 || Sign(pos.netQty) == Sign(signedQty)
    ensures 2 * Abs(ValueError(pos, signedQty, price)) <= Abs(pos.netQty + signedQty)
  {
    var s := if signedQty > 0 then 1 else -1;
    var oldAbs, addAbs, newAbs: int := Abs(pos.netQty), Abs(signedQty), Abs(pos.netQty + signedQty);
    var q := RoundDiv(pos.avgPricePaise * oldAbs + price * addAbs, newAbs);
    SignedProduct(s, oldAbs, pos.avgPricePaise);
    SignedProduct(s, addAbs, price);
    SignedProduct(s, newAbs, q);
  }

  lemma SignedProduct(s: int, n: int, x: int)
    requires s == 1 || s == -1
    ensures (s * n) * x == s * (x * n)
    ensures (s * n) * x == s * (n * x)
  {
  }

  lemma DecreaseConservesValue(pos: Position, signedQty: int, price: int)
    requires signedQty != 0
    requires pos.netQty != 0 && Sign(pos.netQty) != Sign(signedQty)
    ensures ValueError(pos, signedQty, price) == 0
  {
    if Abs(signedQty) <= Abs(pos.netQty) {
      ReduceConservesValue(pos, signedQty, price);
    } else {
      FlipConservesValue(pos, signedQty, price);
    }
  }

  lemma ReduceConservesValue(pos: Position, signedQty: int, price: int)
    requires signedQty != 0 && pos.netQty != 0 && Sign(pos.netQty) != Sign(signedQty) && Abs(signedQty) <= Abs(pos.netQty)
    ensures ValueError(pos, signedQty, price) == 0
  {
    var n, avg := pos.netQty, pos.avgPricePaise;
    var r := ApplyFill(pos, signedQty, price);
    assert r.realizedDeltaPaise == -((price - avg) * signedQty) by {
      ClosedProduct(price - avg, Sign(n), Abs(signedQty), signedQty);
    }
    assert BookValue(r.position) == (n + signedQty) * avg;
    ReduceAlgebra(n, signedQty, avg, price);
  }

  lemma ReduceAlgebra(n: int, q: int, avg: int, price: int)
    ensures (n + q) * avg - n * avg - -((price - avg) * q) - q * price == 0
  {
  }

  lemma FlipConservesValue(pos: Position, signedQty: int, price: int)
    requires signedQty != 0 && pos.netQty != 0 && Sign(pos.netQty) != Sign(signedQty) && Abs(signedQty) > Abs(pos.netQty)
    ensures ValueError(pos, signedQty, price) == 0
  {
    var n, avg := pos.netQty, pos.avgPricePaise;
    var r := ApplyFill(pos, signedQty, price);
    assert r.realizedDeltaPaise == (price - avg) * n by {
      ClosedProduct(price - avg, Sign(n), Abs(n), -n);
      assert -((price - avg) * -n) == (price - avg) * n;
    }
    assert BookValue(r.position) == (n + signedQty) * price;
    FlipAlgebra(n, signedQty, avg, price);
  }

  lemma FlipAlgebra(n: int, q: int, avg: int, price: int)
    ensures (n + q) * price - n * avg - (price - avg) * n - q * price == 0
  {
  }

  lemma ClosedProduct(d: int, s: int, c: int, closed: int)
    requires (s == 1 || s == -1) && closed == -(s * c)
    ensures (d * s) * c == -(d * closed)
  {
  }

  /** Opening flat and closing the whole quantity again realizes exactly the price difference. */
  lemma {:induction false} RoundTripRealizesDifference(qty: int, entry: int, exit: int)
    requires qty != 0
    ensures var entered := ApplyFill(FLAT, qty, entry);
            var closed := ApplyFill(entered.position, -qty, exit);
            && closed.realizedDeltaPaise == (exit - entry) * qty
            && closed.position.netQty == 0 && closed.position.avgPricePaise == 0
  {
    var entered := ApplyFill(FLAT, qty, entry);
    AverageOfOne(entry, Abs(qty));
    if qty > 0 {
      assert (exit - entry) * 1 * Abs(qty) == (exit - entry) * qty;
    } else {
      assert ((exit - entry) * -1) * Abs(qty) == (exit - entry) * qty;
    }
  }

  lemma {:induction false} AverageOfOne(price: int, n: int)
    requires n > 0
    ensures RoundDiv(price * n, n) == price
  {
    NearestMultiple(RoundDiv(price * n, n), price, n);
  }

  lemma {:induction false} NearestMultiple(q: int, p: int, n: int)
    requires n > 0 && -n < 2 * (q * n - p * n) <= n
    ensures q == p
  {
    var d := q - p;
    assert q * n - p * n == d * n;
    if d >= 1 { ScaleInt(1, d, n); }
    if d <= -1 { ScaleInt(d, -1, n); }
  }

  /**
   * The average price after a fill: the fill price when the fill opens or flips the position, unchanged when it
   * reduces it, zero when it closes it, and never outside the old average and the fill price when it adds.
   */
  lemma {:induction false} AverageAfterFill(pos: Position, signedQty: int, price: int)
    requires signedQty != 0
    ensures var after := ApplyFill(pos, signedQty, price).position;
            && (after.netQty == 0 ==> after.avgPricePaise == 0)
            && (after.netQty != 0 && Sign(after.netQty) != Sign(pos.netQty) ==> after.avgPricePaise == price)
            && (after.netQty != 0 && Sign(pos.netQty) != Sign(signedQty) && Sign(after.netQty) == Sign(pos.netQty)
                ==> after.avgPricePaise == pos.avgPricePaise)
            && (after.netQty != 0
                ==> Min(pos.avgPricePaise, price) <= after.avgPricePaise <= Max(pos.avgPricePaise, price))
  {
    var held, added := Abs(pos.netQty), Abs(signedQty);
    if pos.netQty == 0 {
      AverageOfOne(price, added);
    } else if Sign(pos.netQty) == Sign(signedQty) {
      MeanIsBetween(pos.avgPricePaise, held, price, added);
    }
  }

  lemma {:induction false} MeanIsBetween(p: int, m: nat, x: int, n: nat)
    requires m + n > 0
    ensures Min(p, x) <= RoundDiv(p * m + x * n, m + n) <= Max(p, x)
  {
    var low, high, q := Min(p, x), Max(p, x), RoundDiv(p * m + x * n, m + n);
    ScaleInt(low, p, m);
    ScaleInt(low, x, n);
    ScaleInt(p, high, m);
    ScaleInt(x, high, n);
    if q < low { ScaleInt(q, low - 1, m + n); }
    if q > high { ScaleInt(high + 1, q, m + n); }
  }

  function UnrealizedPnl(pos: Position, markPricePaise: int): int
  {
    if pos.netQty == 0 then 0 else (markPricePaise - pos.avgPricePaise) * pos.netQty
  }

  // ---------- Fill model ----------

  /** Prices of a quote are in rupees; everything else is integer paise. */
  datatype Quote = Quote(ltp: real, bid: real, ask: real)

  datatype ChargeModel = ChargeModel(flatPerOrderPaise: int, turnoverBps: real)

  function MarketFillPricePaise(quote: Quote, side: Side, slippageBps: real): int
  {
    var base := if side.BUY? then Round(quote.ask * 100.0) else Round(quote.bid * 100.0);
    var slip := Round(base as real * slippageBps / 10000.0);
    if side.BUY? then base + slip else Max(1, base - slip)
  }

  function LimitFillPricePaise(quote: Quote, side: Side, limitPricePaise: int): Option<int>
  {
    if side.BUY? && Round(quote.ask * 100.0) <= limitPricePaise then Some(limitPricePaise)
    else if side.SELL? && Round(quote.bid * 100.0) >= limitPricePaise then Some(limitPricePaise)
    else None
  }

  function ComputeChargesPaise(fillPricePaise: int, qty: int, model: ChargeModel): int
  {
    model.flatPerOrderPaise + Round((fillPricePaise * qty) as real * model.turnoverBps / 10000.0)
  }
}
