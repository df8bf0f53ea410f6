/** Concrete runs in which a challenge ends by a refund while an order rests or a position is open. */
module EndedChallengeRuns {
  import opened Prelude
  import opened PositionMath
  import opened AccountBook
  import opened Platform
  import opened TradingInvariants
  import opened PlatformRuns
  import opened PlatformTheorems
  import opened TradingEngine
  import opened EndedChallenges
  import ChallengeRules

  // ---------- An order rests ----------

  const RULES := ChallengeRules.Rules(10.0, 10.0, 5.0, "PREV_DAY_CLOSE", 0, 30, 80.0, ["EQ"])

  const MARKET_ENV := Env(0, "2024-01-01", map[], map[], 0.0, ChargeModel(0, 0.0), {"EQ"},
                          map["RELIANCE" := Instrument("EQ", 1, None, true)], map[0 := Plan(true, 1, RULES, 1000000, 500)],
                          {0}, false, false)

  const BUY_BELOW := Command(0, 0, "RELIANCE", BUY, LIMIT, INTRADAY, 10, Some(10000), None)

  /** Buy a plan, activate it, rest a limit order, refund the plan. */
  const REFUNDED: Calls :=
    [(DoCreatePayment(0, 0), MARKET_ENV), (DoActivate(0, "pay_1"), MARKET_ENV), (DoPlace(BUY_BELOW), MARKET_ENV),
     (DoRefund(0), MARKET_ENV)]

  lemma Bought()
    ensures Run(EMPTY_DB, REFUNDED[..1]).payments == [Payment(0, 0, 500, CREATED, None, None, None)]
    ensures Run(EMPTY_DB, REFUNDED[..1]) == EMPTY_DB.(payments := Run(EMPTY_DB, REFUNDED[..1]).payments)
  {
    assert REFUNDED[..1][..0] == [];
  }

  lemma Activated()
    ensures var db := Run(EMPTY_DB, REFUNDED[..2]);
            && db.trades == [] && |db.challenges| == 1 && db.challenges[0].status.PENDING? && db.challenges[0].userId == 0
            && db.challenges[0].rules == RULES && db.challenges[0].equity == 1000000 && db.orders == []
            && db.payments == [Payment(0, 0, 500, ACTIVATED, Some("pay_1"), Some(0), Some(0))]
  {
    Bought();
    assert REFUNDED[..2][..1] == REFUNDED[..1];
  }

  lemma Rested()
    ensures var db, before := Run(EMPTY_DB, REFUNDED[..3]), Run(EMPTY_DB, REFUNDED[..2]);
            db == before.(orders := [OrderOf(BUY_BELOW)])
  {
    Activated();
    assert REFUNDED[..3][..2] == REFUNDED[..2];
    var before := Run(EMPTY_DB, REFUNDED[..2]);
    assert "RELIANCE" in MARKET_ENV.instruments && "EQ" in MARKET_ENV.openMarkets && "EQ" in RULES.segments;
    assert PlacementCheck(before, BUY_BELOW, MARKET_ENV).None?;
    assert ImmediateFill(BUY_BELOW, MARKET_ENV).None?;
  }

  lemma Refunded()
    ensures var db := Run(EMPTY_DB, REFUNDED);
            && db.orders == [OrderOf(BUY_BELOW)] && db.trades == []
            && |db.challenges| == 1 && db.challenges[0].status.EXPIRED?
  {
    Activated();
    Rested();
    assert REFUNDED[..|REFUNDED| - 1] == REFUNDED[..3];
  }

  /** The challenge has ended, its order still rests, and the next quote that crosses the limit buys for it. */
  lemma RefundedOrderFills()
    ensures Ended(Run(EMPTY_DB, REFUNDED), 0) && Run(EMPTY_DB, REFUNDED).challenges[0].status.EXPIRED?
    ensures !NoOpenOrders(Run(EMPTY_DB, REFUNDED), 0)
    ensures var db := Run(EMPTY_DB, REFUNDED + [(DoTick(0, Crossing(10000)), MARKET_ENV)]);
            && db.challenges[0].status.EXPIRED? && db.orders[0].status == OrderStatus.FILLED
            && |TradesOf(db.trades, 0)| == 1
  {
    Refunded();
    var db := Run(EMPTY_DB, REFUNDED);
    CrossingFills(db.orders[0], MARKET_ENV);
    TickTradesOnce(db, 0, Crossing(10000), MARKET_ENV);
    var last := (DoTick(0, Crossing(10000)), MARKET_ENV);
    assert (REFUNDED + [last])[..|REFUNDED|] == REFUNDED;
  }

  // ---------- A position is open ----------

  const PRICED_ENV := MARKET_ENV.(quotes := map["RELIANCE" := Quote(100.0, 100.0, 100.0)])

  const BUY_NOW := BUY_BELOW.(typ := MARKET, limitPricePaise := None)

  const HELD_KEY := PositionKey(0, "RELIANCE", INTRADAY)

  /** Buy a plan, activate it, buy at market. */
  const HELD: Moves :=
    [Serve(DoCreatePayment(0, 0), PRICED_ENV), Serve(DoActivate(0, "pay_1"), PRICED_ENV), Serve(DoPlace(BUY_NOW), PRICED_ENV)]

  const REFUND := Serve(DoRefund(0), PRICED_ENV)

  const CUTOFF := Check(Clock(true, 915, 915, "2024-01-01"))

  /** One challenge, paid for and not yet decided. */
  ghost predicate Started(e: Engine)
  {
    && e.loops == [] && e.squaredOffOn == ""
    && e.db.payments == [Payment(0, 0, 500, ACTIVATED, Some("pay_1"), Some(0), Some(0))]
    && |e.db.challenges| == 1 && e.db.challenges[0].status.PENDING?
  }

  lemma PaidEngine()
    ensures var e := RunMoves(HELD[..1]);
            && e.db.payments == [Payment(0, 0, 500, CREATED, None, None, None)]
            && e == Engine(EMPTY_DB.(payments := e.db.payments), [], "")
  {
    assert HELD[..1][..0] == [];
    assert 0 in PRICED_ENV.kycApproved && 0 in PRICED_ENV.plans && PRICED_ENV.plans[0].active;
  }

  lemma ActivatedEngine()
    ensures var e := RunMoves(HELD[..2]);
            && Started(e) && e.db.trades == [] && e.db.orders == [] && e.db.positions == []
            && e.db.challenges[0].userId == 0 && e.db.challenges[0].rules == RULES && e.db.challenges[0].equity == 1000000
  {
    PaidEngine();
    assert HELD[..2][..1] == HELD[..1];
  }

  /** The market order fills at once: ten shares are held and nothing is open. */
  lemma Holding10()
    ensures Started(RunMoves(HELD)) && NoOpenOrders(RunMoves(HELD).db, 0)
    ensures var rows := RunMoves(HELD).db.positions;
            |rows| == 1 && rows[0].key == HELD_KEY && rows[0].position.netQty == 10
  {
    ActivatedEngine();
    assert HELD[..|HELD| - 1] == HELD[..2];
    var db := RunMoves(HELD[..2]).db;
    assert "RELIANCE" in PRICED_ENV.instruments && "EQ" in PRICED_ENV.openMarkets && "EQ" in RULES.segments;
    assert RefPrice(BUY_NOW, PRICED_ENV) == 10000;
    assert PlacementCheck(db, BUY_NOW, PRICED_ENV).None?;
    assert ImmediateFill(BUY_NOW, PRICED_ENV).Some?;
  }

  lemma {:induction false} LookupOfRows(rows: seq<PositionRow>, k: PositionKey)
    ensures Lookup(rows, k) == Lookup(RowsOf(rows, k.challengeId), k)
  {
    if rows != [] {
      LookupOfRows(rows[1..], k);
    }
  }

  lemma RefundEnds(e: Engine)
    requires Started(e)
    ensures EndsQuietly(e.db, DoRefund(0), PRICED_ENV, 0)
    ensures Step(e.db, DoRefund(0), PRICED_ENV).challenges[0].status.EXPIRED?
  {
  }

  lemma RefundQuietly()
    ensures EndsQuietly(RunMoves(HELD).db, DoRefund(0), PRICED_ENV, 0)
    ensures Step(RunMoves(HELD).db, DoRefund(0), PRICED_ENV).challenges[0].status.EXPIRED?
  {
    Holding10();
    RefundEnds(RunMoves(HELD));
  }

  /** Refunded before any cutoff: the ten shares stay, whatever happens from then on, cutoffs included. */
  lemma RefundStrandsShares(more: Moves)
    ensures Lookup(RunMoves(HELD + [REFUND] + more).db.positions, HELD_KEY).netQty == 10
  {
    Holding10();
    RefundQuietly();
    EndStrandsPositions(HELD, DoRefund(0), PRICED_ENV, 0, more);
    LookupOfRows(RunMoves(HELD).db.positions, HELD_KEY);
    LookupOfRows(RunMoves(HELD + [REFUND] + more).db.positions, HELD_KEY);
  }

  /** Refunded between the cutoff's listing and its turn, the ended challenge still sells them. */
  lemma CutoffSellsAfterRefund()
    ensures var ended := RunMoves(HELD + [CUTOFF] + [REFUND]);
            var after := RunMoves(HELD + [CUTOFF] + [REFUND] + [Next(0, PRICED_ENV)]);
            && Ended(ended.db, 0) && Listed(ended, 0) && NoOpenOrders(ended.db, 0)
            && |TradesOf(after.db.trades, 0)| > |TradesOf(ended.db.trades, 0)|
            && Lookup(after.db.positions, HELD_KEY).netQty == 0
  {
    Holding10();
    RefundQuietly();
    QuietEndKeepsRows(RunMoves(HELD).db, DoRefund(0), PRICED_ENV, 0);
    RunMovesOneMore(HELD, CUTOFF);
    RunMovesOneMore(HELD + [CUTOFF], REFUND);
    RunMovesOneMore(HELD + [CUTOFF] + [REFUND], Next(0, PRICED_ENV));
    EngineRunsAreRuns(HELD + [CUTOFF] + [REFUND]);
    var ended := RunMoves(HELD + [CUTOFF] + [REFUND]);
    assert 0 in Tradable(RunMoves(HELD).db.challenges);
    assert 0 in ended.loops[0];
    SquareOffCloses(ended.db, 0, PRICED_ENV, HELD_KEY);
    SquareOffTrades(ended.db, 0, PRICED_ENV);
  }
}
