/** What can still happen to a challenge that has ended: exactly when it trades again, and what a rejection decides. */
module EndedChallenges {
  import opened Prelude
  import opened PositionMath
  import opened AccountBook
  import opened Platform
  import opened TradingInvariants
  import opened PlatformRuns
  import opened PlatformTheorems
  import opened TradingEngine
  import ChallengeRules

  ghost predicate Ended(db: Db, cid: nat)
  {
    cid < |db.challenges| && !(db.challenges[cid].status.PENDING? || db.challenges[cid].status.ACTIVE?)
  }

  /** No open intraday position, the only kind the engine's cutoff closes. */
  ghost predicate NoIntraday(db: Db, cid: nat) { OpenRows(db.positions, cid, Some(INTRADAY)) == [] }

  // ---------- What one call leaves alone ----------

  /** The positions of the challenge, in stored order. */
  function RowsOf(rows: seq<PositionRow>, cid: nat): seq<PositionRow>
  {
    if rows == [] then []
    else if rows[0].key.challengeId == cid then [rows[0]] + RowsOf(rows[1..], cid) else RowsOf(rows[1..], cid)
  }

  lemma {:induction false} OpenRowsOfRows(rows: seq<PositionRow>, cid: nat, only: Option<Product>)
    ensures OpenRows(rows, cid, only) == OpenRows(RowsOf(rows, cid), cid, only)
  {
    if rows != [] {
      OpenRowsOfRows(rows[1..], cid, only);
      assert ([rows[0]] + RowsOf(rows[1..], cid))[1..] == RowsOf(rows[1..], cid);
    }
  }

  /** The trades of the challenge and its positions are the same. */
  ghost predicate SameActivity(a: Db, b: Db, cid: nat)
  {
    && TradesOf(b.trades, cid) == TradesOf(a.trades, cid)
    && RowsOf(b.positions, cid) == RowsOf(a.positions, cid)
  }

  lemma {:induction false} UpsertElsewhere(rows: seq<PositionRow>, k: PositionKey, p: Position, buy: int, sell: int,
                                           cid: nat)
    requires k.challengeId != cid
    ensures RowsOf(Upsert(rows, k, p, buy, sell), cid) == RowsOf(rows, cid)
  {
    if rows != [] {
      UpsertElsewhere(rows[1..], k, p, buy, sell, cid);
    }
  }

  lemma SettleElsewhere(db: Db, oid: nat, price: int, env: Env, cid: nat)
    requires oid < |db.orders| && db.orders[oid].challengeId != cid
    ensures SameActivity(db, Settle(db, oid, price, env), cid)
  {
    var o := db.orders[oid];
    TradesOfAppend(db.trades, TradeOf(db, oid, price, env), cid);
    UpsertElsewhere(db.positions, KeyOf(o), FillOf(db, oid, price).position, if o.side.BUY? then o.qty else 0,
                    if o.side.BUY? then 0 else o.qty, cid);
  }

  /** Creating an order and settling it at once leaves no order open. */
  lemma ExecuteKeepsClosed(db: Db, o: Order, price: int, env: Env, cid: nat)
    requires NoOpenOrders(db, cid)
    ensures NoOpenOrders(Execute(db, o, price, env), cid)
  {
    var d := Execute(db, o, price, env);
    assert forall i :: 0 <= i < |db.orders| ==> d.orders[i] == db.orders[i];
  }

  lemma ExecuteElsewhere(db: Db, o: Order, price: int, env: Env, cid: nat)
    requires o.challengeId != cid
    ensures SameActivity(db, Execute(db, o, price, env), cid)
  {
    SettleElsewhere(AddOrder(db, o), |db.orders|, price, env, cid);
  }

  lemma {:induction false} CloseRowsKeepClosed(db: Db, rows: seq<PositionRow>, userId: nat, env: Env, cid: nat)
    requires NoOpenOrders(db, cid) && forall r :: r in rows ==> r.position.netQty != 0
    ensures NoOpenOrders(CloseRows(db, rows, userId, env), cid)
    ensures (forall r :: r in rows ==> r.key.challengeId != cid) ==> SameActivity(db, CloseRows(db, rows, userId, env), cid)
    decreases |rows|
  {
    if rows != [] {
      var d, key := CloseRow(db, rows[0], userId, env), rows[0].key;
      if key.instrument in env.quotes {
        var o := ExitOrder(rows[0], userId);
        var price := MarketFillPricePaise(env.quotes[key.instrument], o.side, env.slippageBps);
        ExecuteKeepsClosed(db, o, price, env, cid);
        if key.challengeId != cid {
          ExecuteElsewhere(db, o, price, env, cid);
        }
      }
      CloseRowsKeepClosed(d, rows[1..], userId, env, cid);
    }
  }

  lemma FlattenKeepsClosed(db: Db, c: nat, only: Option<Product>, env: Env, cid: nat)
    requires NoOpenOrders(db, cid)
    ensures NoOpenOrders(Flatten(db, c, only, env), cid)
    ensures c != cid ==> SameActivity(db, Flatten(db, c, only, env), cid)
  {
    if c < |db.challenges| {
      OpenRowsOpen(db.positions, c, only);
      CloseRowsKeepClosed(db, OpenRows(db.positions, c, only), db.challenges[c].userId, env, cid);
    }
  }

  lemma TickLeavesAlone(db: Db, oid: nat, quote: Quote, env: Env, cid: nat)
    requires NoOpenOrders(db, cid)
    ensures NoOpenOrders(TickOrder(db, oid, quote, env), cid) && SameActivity(db, TickOrder(db, oid, quote, env), cid)
  {
    if oid < |db.orders| && TickFill(db.orders[oid], quote, env).Some? {
      SettleElsewhere(db, oid, TickFill(db.orders[oid], quote, env).value, env, cid);
    }
  }

  lemma PlaceLeavesAlone(db: Db, cmd: Command, env: Env, cid: nat)
    requires Ended(db, cid) && NoOpenOrders(db, cid)
    ensures NoOpenOrders(PlaceOrder(db, cmd, env).0, cid) && SameActivity(db, PlaceOrder(db, cmd, env).0, cid)
  {
    if PlacementCheck(db, cmd, env).None? {
      assert cmd.challengeId != cid;
      var fill := ImmediateFill(cmd, env);
      if fill.Some? {
        ExecuteKeepsClosed(db, OrderOf(cmd), fill.value, env, cid);
        ExecuteElsewhere(db, OrderOf(cmd), fill.value, env, cid);
      }
    }
  }

  ghost predicate LeftAlone(a: Db, b: Db, cid: nat) { NoOpenOrders(b, cid) && SameActivity(a, b, cid) }

  lemma FailLeavesAlone(db: Db, c: nat, env: Env, cid: nat)
    requires NoOpenOrders(db, cid) && c != cid && c < |db.challenges|
    ensures LeftAlone(db, Fail(db, c, env), cid)
  {
    FlattenKeepsClosed(db, c, None, env, cid);
  }

  lemma PassLeavesAlone(db: Db, c: nat, finalEquity: int, env: Env, cid: nat)
    requires NoOpenOrders(db, cid) && c != cid && c < |db.challenges|
    ensures LeftAlone(db, Pass(db, c, finalEquity, env), cid)
  {
    FlattenKeepsClosed(db, c, None, env, cid);
  }

  lemma EvaluateActiveLeavesAlone(db: Db, c: nat, env: Env, cid: nat)
    requires NoOpenOrders(db, cid) && c != cid && c < |db.challenges|
    ensures LeftAlone(db, EvaluateActive(db, c, env).0, cid)
  {
    var mtm := MtmEquity(db, c, db.challenges[c].equity, env.cache);
    FailLeavesAlone(db, c, env, cid);
    PassLeavesAlone(db, c, mtm, env, cid);
  }

  lemma EvaluateLeavesAlone(db: Db, c: nat, env: Env, cid: nat)
    requires Ended(db, cid) && NoOpenOrders(db, cid)
    ensures NoOpenOrders(Evaluate(db, c, env).0, cid) && SameActivity(db, Evaluate(db, c, env).0, cid)
  {
    if Evaluate(db, c, env).1.Some? {
      EvaluateActiveLeavesAlone(Promote(db, c), c, env, cid);
    }
  }

  lemma CancelLeavesAlone(db: Db, userId: nat, oid: nat, cid: nat)
    requires NoOpenOrders(db, cid)
    ensures NoOpenOrders(CancelOrder(db, userId, oid).0, cid) && SameActivity(db, CancelOrder(db, userId, oid).0, cid)
  {
  }

  /** Neither placement, matching, evaluation nor square-off: a call about purchases, rewards or the morning anchor. */
  predicate Paperwork(a: Action)
  {
    a.DoCreatePayment? || a.DoActivate? || a.DoRefund? || a.DoAnchor? || a.DoApprove? || a.DoReject? || a.DoMarkPaid?
  }

  lemma PaperworkLeavesAlone(db: Db, a: Action, env: Env, cid: nat)
    requires Paperwork(a) && NoOpenOrders(db, cid)
    ensures NoOpenOrders(Step(db, a, env), cid) && SameActivity(db, Step(db, a, env), cid)
  {
    var d := Step(db, a, env);
    assert d.orders == db.orders && d.trades == db.trades && d.positions == db.positions;
  }

  lemma StepLeavesAlone(db: Db, a: Action, env: Env, cid: nat)
    requires Ended(db, cid) && NoOpenOrders(db, cid)
    ensures NoOpenOrders(Step(db, a, env), cid)
    ensures a != DoSquareOff(cid) ==> SameActivity(db, Step(db, a, env), cid)
  {
    match a
    case DoPlace(cmd) => PlaceLeavesAlone(db, cmd, env, cid);
    case DoTick(oid, quote) => TickLeavesAlone(db, oid, quote, env, cid);
    case DoSquareOff(c) => FlattenKeepsClosed(db, c, Some(INTRADAY), env, cid);
    case DoEvaluate(c) => EvaluateLeavesAlone(db, c, env, cid);
    case DoCancel(u, oid) => CancelLeavesAlone(db, u, oid, cid);
    case _ => PaperworkLeavesAlone(db, a, env, cid);
  }

  ghost predicate SameStatus(a: Db, b: Db, cid: nat)
    requires cid < |a.challenges|
  {
    cid < |b.challenges| && b.challenges[cid].status == a.challenges[cid].status
  }

  lemma FailStatus(db: Db, c: nat, env: Env, cid: nat)
    requires TradingOk(db) && RestingOk(db) && c < |db.challenges| && cid < |db.challenges| && c != cid
    ensures SameStatus(db, Fail(db, c, env), cid)
  {
    FreezeTrades(db, c, "CHALLENGE_FAILED", env);
  }

  lemma PassStatus(db: Db, c: nat, finalEquity: int, env: Env, cid: nat)
    requires TradingOk(db) && RestingOk(db) && c < |db.challenges| && cid < |db.challenges| && c != cid
    ensures SameStatus(db, Pass(db, c, finalEquity, env), cid)
  {
    FreezeTrades(db, c, "CHALLENGE_PASSED", env);
  }

  lemma EvaluateActiveStatus(db: Db, c: nat, env: Env, cid: nat)
    requires TradingOk(db) && RestingOk(db) && c < |db.challenges| && cid < |db.challenges| && c != cid
    ensures SameStatus(db, EvaluateActive(db, c, env).0, cid)
  {
    FailStatus(db, c, env, cid);
    PassStatus(db, c, MtmEquity(db, c, db.challenges[c].equity, env.cache), env, cid);
  }

  lemma EvaluateStatus(db: Db, c: nat, env: Env, cid: nat)
    requires Inv(db) && Ended(db, cid)
    ensures SameStatus(db, Evaluate(db, c, env).0, cid)
  {
    if Evaluate(db, c, env).1.Some? {
      PromoteKeeps(db, c);
      EvaluateActiveStatus(Promote(db, c), c, env, cid);
    }
  }

  ghost predicate StatusKept(db: Db, a: Action, d: Db, cid: nat)
    requires cid < |db.challenges|
  {
    && cid < |d.challenges|
    && (d.challenges[cid].status == db.challenges[cid].status
        || (a.DoApprove? && a.challengeId == cid && cid in db.rewards && db.rewards[cid].status.ELIGIBLE?
            && d.challenges[cid].status.PASSED?))
  }

  lemma PaperworkStatus(db: Db, a: Action, env: Env, cid: nat)
    requires Paperwork(a) && Ended(db, cid)
    ensures StatusKept(db, a, Step(db, a, env), cid)
  {
  }

  /** Only an approval moves an ended challenge on. */
  lemma StepKeepsStatus(db: Db, a: Action, env: Env, cid: nat)
    requires Inv(db) && Ended(db, cid)
    ensures StatusKept(db, a, Step(db, a, env), cid)
  {
    match a
    case DoPlace(cmd) => PlaceTrades(db, cmd, env);
    case DoTick(oid, quote) => TickTrades(db, oid, quote, env);
    case DoSquareOff(c) => FlattenTrades(db, c, Some(INTRADAY), env);
    case DoCancel(u, oid) => CancelTrades(db, u, oid);
    case DoEvaluate(c) => EvaluateStatus(db, c, env, cid);
    case _ => PaperworkStatus(db, a, env, cid);
  }

  // ---------- Extensions of a run ----------

  lemma RunSnoc(calls: Calls, more: Calls)
    requires more != []
    ensures var n := |more| - 1;
            Run(EMPTY_DB, calls + more) == Step(Run(EMPTY_DB, calls + more[..n]), more[n].0, more[n].1)
  {
    var last := more[|more| - 1];
    assert calls + more == calls + more[..|more| - 1] + [last];
    RunOneMore(EMPTY_DB, calls + more[..|more| - 1], last);
  }

  lemma RunOneMore(start: Db, calls: Calls, last: (Action, Env))
    ensures Run(start, calls + [last]) == Step(Run(start, calls), last.0, last.1)
  {
    assert (calls + [last])[..|calls|] == calls;
  }

  /** An ended challenge without open orders stays so. */
  lemma {:induction false} StaysClosed(calls: Calls, more: Calls, cid: nat)
    requires Ended(Run(EMPTY_DB, calls), cid) && NoOpenOrders(Run(EMPTY_DB, calls), cid)
    ensures Ended(Run(EMPTY_DB, calls + more), cid) && NoOpenOrders(Run(EMPTY_DB, calls + more), cid)
    decreases |more|
  {
    if more == [] {
      assert calls + more == calls;
    } else {
      var n := |more| - 1;
      StaysClosed(calls, more[..n], cid);
      RunSnoc(calls, more);
      RunKeeps(calls + more[..n]);
      CallKeepsClosed(Run(EMPTY_DB, calls + more[..n]), more[n].0, more[n].1, cid);
    }
  }

  lemma CallKeepsClosed(db: Db, a: Action, env: Env, cid: nat)
    requires Inv(db) && Ended(db, cid) && NoOpenOrders(db, cid)
    ensures Ended(Step(db, a, env), cid) && NoOpenOrders(Step(db, a, env), cid)
    ensures (a == DoSquareOff(cid) ==> NoIntraday(db, cid)) ==> SameActivity(db, Step(db, a, env), cid)
  {
    StepKeepsStatus(db, a, env, cid);
    StepLeavesAlone(db, a, env, cid);
  }

  // ---------- Exactly when ticks settle an order of an ended challenge ----------

  /** No tick, with any quote, fills an order of the challenge. */
  ghost predicate TicksFillNothing(db: Db, cid: nat)
  {
    forall oid: nat, quote: Quote, env: Env :: oid < |db.orders| && db.orders[oid].challengeId == cid ==>
      TickFill(db.orders[oid], quote, env).None?
  }

  /** A quote that crosses any limit there is. */
  function Crossing(limit: int): Quote
  {
    Quote(limit as real / 100.0, limit as real / 100.0, limit as real / 100.0)
  }

  lemma CrossingFills(o: Order, env: Env)
    requires o.status == OrderStatus.OPEN && o.typ.LIMIT? && o.limitPricePaise.Some?
    ensures TickFill(o, Crossing(o.limitPricePaise.value), env) == o.limitPricePaise
  {
    var limit := o.limitPricePaise.value;
    assert limit as real / 100.0 * 100.0 == limit as real;
    assert Round(limit as real) == limit;
  }

  const ANY_ENV := Env(0, "", map[], map[], 0.0, ChargeModel(0, 0.0), {}, map[], map[], {}, false, false)

  /**
   * Once a challenge has ended, however it ended, no tick in any continuation settles an order of it if and
   * only if it had no open order left at that moment.
   */
  lemma EndedNeverFillsIff(calls: Calls, cid: nat)
    requires Ended(Run(EMPTY_DB, calls), cid)
    ensures (forall more: Calls :: TicksFillNothing(Run(EMPTY_DB, calls + more), cid))
            <==> NoOpenOrders(Run(EMPTY_DB, calls), cid)
  {
    var db := Run(EMPTY_DB, calls);
    if NoOpenOrders(db, cid) {
      forall more: Calls
        ensures TicksFillNothing(Run(EMPTY_DB, calls + more), cid)
      {
        StaysClosed(calls, more, cid);
      }
    } else {
      RunKeeps(calls);
      var oid :| 0 <= oid < |db.orders| && db.orders[oid].challengeId == cid && db.orders[oid].status == OrderStatus.OPEN;
      CrossingFills(db.orders[oid], ANY_ENV);
      assert calls + [] == calls;
      assert !TicksFillNothing(Run(EMPTY_DB, calls + []), cid);
    }
  }

  // ---------- Exactly when an ended challenge trades again ----------

  lemma {:induction false} CloseRowsTrade(db: Db, rows: seq<PositionRow>, userId: nat, env: Env, cid: nat)
    requires forall r :: r in rows ==> r.position.netQty != 0 && r.key.challengeId == cid
    ensures |TradesOf(CloseRows(db, rows, userId, env).trades, cid)| >=
              |TradesOf(db.trades, cid)| + if rows != [] && rows[0].key.instrument in env.quotes then 1 else 0
    decreases |rows|
  {
    if rows != [] {
      var d := CloseRow(db, rows[0], userId, env);
      if rows[0].key.instrument in env.quotes {
        var o, placed := ExitOrder(rows[0], userId), AddOrder(db, ExitOrder(rows[0], userId));
        var price := MarketFillPricePaise(env.quotes[rows[0].key.instrument], o.side, env.slippageBps);
        TradesOfAppend(db.trades, TradeOf(placed, |db.orders|, price, env), cid);
      }
      CloseRowsTrade(d, rows[1..], userId, env, cid);
    }
  }

  /** Squaring off trades, whatever the status, when the first open intraday position has a quote. */
  lemma SquareOffTrades(db: Db, cid: nat, env: Env)
    requires cid < |db.challenges| && !NoIntraday(db, cid)
    requires OpenRows(db.positions, cid, Some(INTRADAY))[0].key.instrument in env.quotes
    ensures |TradesOf(Step(db, DoSquareOff(cid), env).trades, cid)| > |TradesOf(db.trades, cid)|
  {
    OpenRowsOpen(db.positions, cid, Some(INTRADAY));
    CloseRowsTrade(db, OpenRows(db.positions, cid, Some(INTRADAY)), db.challenges[cid].userId, env, cid);
  }

  lemma TickTradesOnce(db: Db, oid: nat, quote: Quote, env: Env)
    requires oid < |db.orders| && TickFill(db.orders[oid], quote, env).Some?
    ensures var cid := db.orders[oid].challengeId;
            |TradesOf(Step(db, DoTick(oid, quote), env).trades, cid)| == |TradesOf(db.trades, cid)| + 1
  {
    TradesOfAppend(db.trades, TradeOf(db, oid, TickFill(db.orders[oid], quote, env).value, env), db.orders[oid].challengeId);
  }

  /**
   * Nothing is left that could trade for the challenge: it has ended, no order of it is open, and no loop that
   * still lists it would find an open intraday position.
   */
  ghost predicate Dormant(e: Engine, cid: nat)
  {
    Ended(e.db, cid) && NoOpenOrders(e.db, cid) && !(Listed(e, cid) && !NoIntraday(e.db, cid))
  }

  lemma MoveKeepsDormant(e: Engine, m: Move, cid: nat)
    requires Inv(e.db) && Dormant(e, cid)
    ensures Dormant(After(e, m), cid) && SameActivity(e.db, After(e, m).db, cid)
  {
    var d := After(e, m);
    if m.Serve? {
      CallKeepsClosed(e.db, m.call, m.env, cid);
    } else if m.Next? && Running(e, m.loop) {
      var id := e.loops[m.loop][0];
      assert id == cid ==> Listed(e, cid);
      CallKeepsClosed(e.db, DoSquareOff(id), m.env, cid);
    }
    if Listed(d, cid) {
      ListedByCheck(e, m, cid);
    }
    OpenRowsOfRows(e.db.positions, cid, Some(INTRADAY));
    OpenRowsOfRows(d.db.positions, cid, Some(INTRADAY));
  }

  lemma {:induction false} StaysDormant(moves: Moves, more: Moves, cid: nat)
    requires Dormant(RunMoves(moves), cid)
    ensures Dormant(RunMoves(moves + more), cid)
    ensures SameActivity(RunMoves(moves).db, RunMoves(moves + more).db, cid)
    decreases |more|
  {
    if more == [] {
      assert moves + more == moves;
    } else {
      var n := |more| - 1;
      StaysDormant(moves, more[..n], cid);
      RunMovesSnoc(moves, more);
      EngineRunsAreRuns(moves + more[..n]);
      MoveKeepsDormant(RunMoves(moves + more[..n]), more[n], cid);
    }
  }

  ghost predicate NoNewTrades(moves: Moves, more: Moves, cid: nat)
  {
    TradesOf(RunMoves(moves + more).db.trades, cid) == TradesOf(RunMoves(moves).db.trades, cid)
  }

  lemma TickIsNewTrade(moves: Moves, oid: nat)
    requires oid < |RunMoves(moves).db.orders| && RunMoves(moves).db.orders[oid].status == OrderStatus.OPEN
    ensures exists m :: !NoNewTrades(moves, [m], RunMoves(moves).db.orders[oid].challengeId)
  {
    EngineRunsAreRuns(moves);
    var db := RunMoves(moves).db;
    assert db.orders[oid] in db.orders;
    var quote := Crossing(db.orders[oid].limitPricePaise.value);
    var m := Serve(DoTick(oid, quote), ANY_ENV);
    CrossingFills(db.orders[oid], ANY_ENV);
    TickTradesOnce(db, oid, quote, ANY_ENV);
    RunMovesOneMore(moves, m);
    assert !NoNewTrades(moves, [m], db.orders[oid].challengeId);
  }

  /** The moves that pass over the first `j` challenges of a loop. */
  function Skips(loop: nat, j: nat): Moves { seq(j, _ => Skip(loop)) }

  lemma {:induction false} SkipTo(moves: Moves, loop: nat, j: nat)
    requires loop < |RunMoves(moves).loops| && j <= |RunMoves(moves).loops[loop]|
    ensures var e, d := RunMoves(moves), RunMoves(moves + Skips(loop, j));
            d.db == e.db && |d.loops| == |e.loops| && d.loops[loop] == e.loops[loop][j..]
  {
    if j == 0 {
      assert moves + Skips(loop, 0) == moves;
    } else {
      SkipTo(moves, loop, j - 1);
      RunMovesOneMore(moves + Skips(loop, j - 1), Skip(loop));
      assert moves + Skips(loop, j) == moves + Skips(loop, j - 1) + [Skip(loop)];
    }
  }

  /** When the turn of a listed challenge with an open intraday position comes, it trades, ended or not. */
  lemma TurnIsNewTrade(moves: Moves, cid: nat)
    requires cid < |RunMoves(moves).db.challenges| && Listed(RunMoves(moves), cid) && !NoIntraday(RunMoves(moves).db, cid)
    ensures exists more :: !NoNewTrades(moves, more, cid)
  {
    var e := RunMoves(moves);
    var loop: nat :| loop < |e.loops| && cid in e.loops[loop];
    var j: nat :| j < |e.loops[loop]| && e.loops[loop][j] == cid;
    var row := OpenRows(e.db.positions, cid, Some(INTRADAY))[0];
    var env := ANY_ENV.(quotes := map[row.key.instrument := Crossing(100)]);
    SkipTo(moves, loop, j);
    RunMovesOneMore(moves + Skips(loop, j), Next(loop, env));
    SquareOffTrades(e.db, cid, env);
    var more := Skips(loop, j) + [Next(loop, env)];
    assert moves + more == moves + Skips(loop, j) + [Next(loop, env)];
    assert !NoNewTrades(moves, more, cid);
  }

  /**
   * Once a challenge has ended, however it ended, it never trades again, whatever happens, if and only if it has
   * no open order and is not both still listed by a running square-off and holding an open intraday position.
   */
  lemma EndedNeverTradesIff(moves: Moves, cid: nat)
    requires Ended(RunMoves(moves).db, cid)
    ensures (forall more :: NoNewTrades(moves, more, cid))
            <==> (NoOpenOrders(RunMoves(moves).db, cid)
                  && !(Listed(RunMoves(moves), cid) && !NoIntraday(RunMoves(moves).db, cid)))
  {
    var e := RunMoves(moves);
    if Dormant(e, cid) {
      forall more: Moves
        ensures NoNewTrades(moves, more, cid)
      {
        StaysDormant(moves, more, cid);
      }
    } else if !NoOpenOrders(e.db, cid) {
      var oid: nat :| oid < |e.db.orders| && e.db.orders[oid].challengeId == cid && e.db.orders[oid].status == OrderStatus.OPEN;
      TickIsNewTrade(moves, oid);
    } else {
      TurnIsNewTrade(moves, cid);
    }
  }

  // ---------- Positions nothing closes ----------

  /** A refund, or a pass that does not freeze: the ways to end that touch neither orders nor positions. */
  ghost predicate EndsQuietly(db: Db, call: Call, env: Env, cid: nat)
  {
    && !Ended(db, cid) && Ended(Step(db, call, env), cid)
    && (call.DoRefund? || (call == DoEvaluate(cid) && !env.freezeOnPass
                           && Evaluate(db, cid, env).1 == Some(ChallengeRules.PASS)))
  }

  lemma QuietEndKeepsRows(db: Db, call: Call, env: Env, cid: nat)
    requires EndsQuietly(db, call, env, cid)
    ensures Step(db, call, env).positions == db.positions && Step(db, call, env).orders == db.orders
  {
  }

  /**
   * If such an end finds no open order and no loop that still lists the challenge, its positions, open ones
   * included, are the same in every later state: nothing flattens them.
   */
  lemma EndStrandsPositions(moves: Moves, call: Call, env: Env, cid: nat, more: Moves)
    requires EndsQuietly(RunMoves(moves).db, call, env, cid)
    requires NoOpenOrders(RunMoves(moves).db, cid) && !Listed(RunMoves(moves), cid)
    ensures RowsOf(RunMoves(moves + [Serve(call, env)] + more).db.positions, cid) == RowsOf(RunMoves(moves).db.positions, cid)
    ensures NoOpenOrders(RunMoves(moves + [Serve(call, env)] + more).db, cid)
  {
    RunMovesOneMore(moves, Serve(call, env));
    QuietEndKeepsRows(RunMoves(moves).db, call, env, cid);
    assert !Listed(RunMoves(moves + [Serve(call, env)]), cid) by {
      if Listed(After(RunMoves(moves), Serve(call, env)), cid) {
        ListedByCheck(RunMoves(moves), Serve(call, env), cid);
      }
    }
    StaysDormant(moves + [Serve(call, env)], more, cid);
  }

  /** A challenge that has just passed has no open order if and only if passing freezes it or it had none before. */
  lemma PassedIsClosedIff(calls: Calls, cid: nat, env: Env)
    requires Evaluate(Run(EMPTY_DB, calls), cid, env).1 == Some(ChallengeRules.PASS)
    ensures Ended(Evaluate(Run(EMPTY_DB, calls), cid, env).0, cid)
    ensures NoOpenOrders(Evaluate(Run(EMPTY_DB, calls), cid, env).0, cid)
            <==> (env.freezeOnPass || NoOpenOrders(Run(EMPTY_DB, calls), cid))
  {
    RunKeeps(calls);
    PromoteKeeps(Run(EMPTY_DB, calls), cid);
    FreezeTrades(Promote(Run(EMPTY_DB, calls), cid), cid, "CHALLENGE_PASSED", env);
  }

  // ---------- Rejection ----------

  /** The reward was rejected, and its challenge is where it was when that happened. */
  ghost predicate Rejected(db: Db, cid: nat, status: ChallengeStatus)
  {
    cid in db.rewards && db.rewards[cid].status.DECLINED? && cid < |db.challenges| && db.challenges[cid].status == status
  }

  /**
   * A rejection never touches a challenge: afterwards it is PASSED if the reward had been approved, and still
   * PASSED_PENDING_REVIEW if it had not.
   */
  lemma RejectionDecidesNothing(calls: Calls, cid: nat)
    requires Reject(Run(EMPTY_DB, calls), cid).1.Ok?
    ensures var db, d := Run(EMPTY_DB, calls), Reject(Run(EMPTY_DB, calls), cid).0;
            && d.challenges == db.challenges && cid in db.rewards
            && Rejected(d, cid, if db.rewards[cid].status.APPROVED? then PASSED else PASSED_PENDING_REVIEW)
  {
    RunKeeps(calls);
  }

  /** Once rejected, for good: the challenge keeps that status in every later state. */
  lemma {:induction false} RejectedForGood(calls: Calls, more: Calls, cid: nat)
    requires var db := Run(EMPTY_DB, calls); cid in db.rewards && db.rewards[cid].status.DECLINED?
    ensures cid < |Run(EMPTY_DB, calls).challenges|
    ensures Rejected(Run(EMPTY_DB, calls + more), cid, Run(EMPTY_DB, calls).challenges[cid].status)
    decreases |more|
  {
    RunKeeps(calls);
    if more == [] {
      assert calls + more == calls;
    } else {
      var n := |more| - 1;
      RejectedForGood(calls, more[..n], cid);
      RunSnoc(calls, more);
      RunKeeps(calls + more[..n]);
      StepKeepsStatus(Run(EMPTY_DB, calls + more[..n]), more[n].0, more[n].1, cid);
      StepKeeps(Run(EMPTY_DB, calls + more[..n]), more[n].0, more[n].1);
    }
  }
}
