/**
 * The services as the program runs them: statements that update documents one after another. Each method leaves
 * the store exactly as its specification in `Platform` says, and every call a client can make keeps a consistent
 * store consistent and undoes nothing that was recorded.
 */
module Services {
  import opened Prelude
  import opened PositionMath
  import opened AccountBook
  import opened Platform
  import opened PlatformRuns
  import opened TradingEngine
  import ChallengeRules

  /** The collections, mutated in place by every service. */
  class Store {
    var payments: seq<Payment>
    var subscriptions: seq<Subscription>
    var challenges: seq<Challenge>
    var ledger: seq<Entry>
    var orders: seq<Order>
    var positions: seq<PositionRow>
    var holdings: map<HoldingKey, Holding>
    var trades: seq<Trade>
    var rewards: map<nat, Reward>

    constructor ()
      ensures View() == EMPTY_DB
    {
      payments, subscriptions, challenges, ledger, orders := [], [], [], [], [];
      positions, holdings, trades, rewards := [], map[], [], map[];
    }

    function View(): Db
      reads this
    {
      Db(payments, subscriptions, challenges, ledger, orders, positions, holdings, trades, rewards)
    }
  }

  class ExecutionService {
    const db: Store

    constructor (db: Store)
      ensures this.db == db
    {
      this.db := db;
    }

    method SettleFill(oid: nat, fillPrice: int, env: Env)
      requires oid < |db.orders|
      modifies db
      ensures db.View() == Settle(old(db.View()), oid, fillPrice, env)
    {
      var order := db.orders[oid];
      var cid, qty: int := order.challengeId, order.qty;
      var signedQty := if order.side.BUY? then qty else -qty;

      var prev := Lookup(db.positions, KeyOf(order));
      var fill := ApplyFill(prev, signedQty, fillPrice);
      var charges := ComputeChargesPaise(fillPrice, qty, env.chargeModel);
      var delta := fill.realizedDeltaPaise;

      db.positions := Upsert(db.positions, KeyOf(order), fill.position, if order.side.BUY? then qty else 0,
                             if order.side.BUY? then 0 else qty);
      if order.product.CARRY_FORWARD? {
        db.holdings := db.holdings[HoldingKey(cid, order.instrument) :=
          Holding(fill.position.netQty, fill.position.avgPricePaise)];
      }
      db.trades := db.trades + [Trade(oid, cid, order.instrument, order.side, qty, fillPrice, charges, delta)];
      db.orders := db.orders[oid := order.(status := OrderStatus.FILLED, filledPricePaise := Some(fillPrice),
                                           chargesPaise := Some(charges))];

      PostToChallenge(cid, oid, delta, charges, env.dateKey);
      ghost var t := TradeOf(old(db.View()), oid, fillPrice, env);
      assert t == Trade(oid, cid, order.instrument, order.side, qty, fillPrice, charges, delta);
    }

    /** Equity: realized profit in, charges out, each with its ledger row. */
    method PostToChallenge(cid: nat, oid: nat, delta: int, charges: int, dateKey: string)
      modifies db`ledger, db`challenges
      ensures cid >= |old(db.challenges)| ==> db.ledger == old(db.ledger) && db.challenges == old(db.challenges)
      ensures cid < |old(db.challenges)| ==>
        forall t: Trade :: t.orderId == oid && t.challengeId == cid && t.realized == delta && t.charges == charges ==>
          && db.ledger == old(db.ledger) + SettlementEntries(t, old(db.challenges)[cid].equity)
          && db.challenges == old(db.challenges)[cid := CreditChallenge(old(db.challenges)[cid], t, dateKey)]
    {
      if cid >= |db.challenges| {
        return;
      }
      var challenge := db.challenges[cid];
      var balance := challenge.equity;
      if delta != 0 {
        balance := balance + delta;
        db.ledger := db.ledger + [Entry(cid, PNL, delta, balance, TradeRef(oid))];
        challenge := challenge.(realized := challenge.realized + delta);
      }
      if charges != 0 {
        balance := balance - charges;
        db.ledger := db.ledger + [Entry(cid, CHARGE, -charges, balance, TradeRef(oid))];
      }
      challenge := challenge.(equity := balance);
      if balance > challenge.peak {
        challenge := challenge.(peak := balance);
      }
      if dateKey !in challenge.tradingDays {
        challenge := challenge.(tradingDays := challenge.tradingDays + [dateKey]);
      }
      db.challenges := db.challenges[cid := challenge];
    }

    method PlaceOrder(cmd: Command, env: Env) returns (r: Result<Placement>)
      modifies db
      ensures (db.View(), r) == Platform.PlaceOrder(old(db.View()), cmd, env)
      ensures Kept(old(db.View()), db.View())
    {
      PlaceIsKept(db.View(), cmd, env);
      var check := PlacementCheck(db.View(), cmd, env);
      if check.Some? {
        return Err(check.value);
      }
      var oid := |db.orders|;
      db.orders := db.orders + [OrderOf(cmd)];
      if cmd.typ.MARKET? {
        if cmd.instrument !in env.quotes {
          db.orders := db.orders[oid := Refuse(db.orders[oid], "NO_MARKET_DATA")];
          assert db.orders == old(db.orders) + [Refuse(OrderOf(cmd), "NO_MARKET_DATA")];
          return Err(NO_MARKET_DATA);
        }
        var price := MarketFillPricePaise(env.quotes[cmd.instrument], cmd.side, env.slippageBps);
        SettleFill(oid, price, env);
        return Ok(Placement(oid, OrderStatus.FILLED, Some(price)));
      }
      if cmd.instrument in env.quotes {
        var fill := LimitFillPricePaise(env.quotes[cmd.instrument], cmd.side, cmd.limitPricePaise.value);
        if fill.Some? {
          SettleFill(oid, fill.value, env);
          return Ok(Placement(oid, OrderStatus.FILLED, fill));
        }
      }
      r := Ok(Placement(oid, OrderStatus.OPEN, None));
    }

    method CancelOrder(userId: nat, oid: nat) returns (r: Result<bool>)
      modifies db`orders
      ensures (db.View(), r) == Platform.CancelOrder(old(db.View()), userId, oid)
      ensures Kept(old(db.View()), db.View())
    {
      CancelIsKept(db.View(), userId, oid);
      if oid >= |db.orders| || db.orders[oid].userId != userId {
        return Err(NOT_FOUND("Order"));
      }
      var current := db.orders[oid];
      if current.status != OrderStatus.OPEN {
        return Err(NOT_CANCELLABLE);
      }
      db.orders := db.orders[oid := current.(status := OrderStatus.CANCELLED)];
      r := Ok(true);
    }

    /** One locked section of the tick loop: the order is read again before anything is decided. */
    method MatchOrder(oid: nat, quote: Quote, env: Env)
      modifies db
      ensures db.View() == TickOrder(old(db.View()), oid, quote, env)
      ensures Kept(old(db.View()), db.View())
    {
      TickIsKept(db.View(), oid, quote, env);
      if oid >= |db.orders| || db.orders[oid].status != OrderStatus.OPEN {
        return;
      }
      var order := db.orders[oid];
      if order.typ.LIMIT? && order.limitPricePaise.Some? {
        var fill := LimitFillPricePaise(quote, order.side, order.limitPricePaise.value);
        if fill.Some? {
          SettleFill(oid, fill.value, env);
        }
        return;
      }
      if order.trigger.Some? {
        var px, t := Round(quote.ltp * 100.0), order.trigger.value;
        var fired := (t.kind.STOP_LOSS? && order.side.SELL? && px <= t.pricePaise)
                     || (t.kind.STOP_LOSS? && order.side.BUY? && px >= t.pricePaise)
                     || (t.kind.TARGET? && order.side.SELL? && px >= t.pricePaise)
                     || (t.kind.TARGET? && order.side.BUY? && px <= t.pricePaise);
        if fired {
          SettleFill(oid, MarketFillPricePaise(quote, order.side, env.slippageBps), env);
        }
      }
    }

    method OnQuote(instrument: string, quote: Quote, env: Env)
      modifies db
      ensures db.View() == TickOrders(old(db.View()), OpenOrderIds(old(db.orders), instrument), quote, env)
      ensures Kept(old(db.View()), db.View())
    {
      var open := OpenOrderIds(db.orders, instrument);
      KeptReflexive(db.View());
      for i := 0 to |open|
        invariant Kept(old(db.View()), db.View())
        invariant TickOrders(db.View(), open[i..], quote, env) == TickOrders(old(db.View()), open, quote, env)
      {
        assert open[i..][1..] == open[i + 1..];
        ghost var before := db.View();
        MatchOrder(open[i], quote, env);
        KeptTransitive(old(db.View()), before, db.View());
      }
    }

    /** The loop `forceFlatten` and `squareOffIntraday` share; the caller holds the account lock. */
    method CloseAll(open: seq<PositionRow>, userId: nat, env: Env)
      requires forall r :: r in open ==> r.position.netQty != 0
      modifies db
      ensures db.View() == CloseRows(old(db.View()), open, userId, env)
    {
      for i := 0 to |open|
        invariant CloseRows(db.View(), open[i..], userId, env) == CloseRows(old(db.View()), open, userId, env)
      {
        assert open[i..][1..] == open[i + 1..] && open[i..][0] == open[i];
        var pos := open[i];
        if pos.key.instrument in env.quotes {
          var exit := ExitOrder(pos, userId);
          var oid := |db.orders|;
          db.orders := db.orders + [exit];
          SettleFill(oid, MarketFillPricePaise(env.quotes[pos.key.instrument], exit.side, env.slippageBps), env);
        }
      }
    }

    method ForceFlatten(cid: nat, env: Env)
      modifies db
      ensures db.View() == Flatten(old(db.View()), cid, None, env)
    {
      if cid >= |db.challenges| {
        return;
      }
      OpenRowsOpen(db.positions, cid, None);
      CloseAll(OpenRows(db.positions, cid, None), db.challenges[cid].userId, env);
    }

    method SquareOffIntraday(cid: nat, env: Env)
      modifies db
      ensures db.View() == Flatten(old(db.View()), cid, Some(INTRADAY), env)
      ensures Kept(old(db.View()), db.View())
    {
      SquareOffIsKept(db.View(), cid, env);
      if cid >= |db.challenges| {
        return;
      }
      OpenRowsOpen(db.positions, cid, Some(INTRADAY));
      CloseAll(OpenRows(db.positions, cid, Some(INTRADAY)), db.challenges[cid].userId, env);
    }
  }

  class ChallengeEvalService {
    const db: Store
    const execution: ExecutionService

    constructor (execution: ExecutionService)
      ensures this.execution == execution && this.db == execution.db
    {
      this.execution := execution;
      this.db := execution.db;
    }

    method MtmEquityOf(cid: nat, realizedEquity: int, cache: map<string, Quote>) returns (mtm: int)
      ensures mtm == MtmEquity(db.View(), cid, realizedEquity, cache)
    {
      var open := OpenRows(db.positions, cid, None);
      var unrealized := 0;
      for i := 0 to |open|
        invariant unrealized == SumUnrealized(open[..i], cache)
      {
        var p := open[i];
        assert open[..i + 1][..i] == open[..i];
        if p.key.instrument in cache {
          var mark := Round(cache[p.key.instrument].ltp * 100.0);
          unrealized := unrealized + UnrealizedPnl(Position(p.position.netQty, p.position.avgPricePaise, 0), mark);
        }
      }
      assert open[..|open|] == open;
      mtm := realizedEquity + unrealized;
    }

    method Evaluate(cid: nat, env: Env) returns (r: Option<ChallengeRules.Outcome>)
      requires execution.db == db
      modifies db
      ensures (db.View(), r) == Platform.Evaluate(old(db.View()), cid, env)
      ensures Kept(old(db.View()), db.View())
    {
      EvaluateIsKept(db.View(), cid, env);
      if cid >= |db.challenges| {
        return None;
      }
      var challenge := db.challenges[cid];
      if !(challenge.status.PENDING? || challenge.status.ACTIVE?) {
        return None;
      }
      if challenge.status.PENDING? {
        challenge := challenge.(status := ACTIVE, events := challenge.events + ["ACTIVATED"]);
        db.challenges := db.challenges[cid := challenge];
      }
      var mtm := MtmEquityOf(cid, challenge.equity, env.cache);
      var outcome := ChallengeRules.EvaluateChallenge(
        ChallengeRules.EvalInput(challenge.rules, challenge.capital, mtm, challenge.dayStart,
                                 |challenge.tradingDays|, challenge.endsAt <= env.now));
      if outcome.FAIL? {
        FailChallenge(cid, env);
      } else if outcome.PASS? {
        PassChallenge(cid, challenge, mtm, env);
      }
      r := Some(outcome);
    }

    /** Saves through the caller's older copy, which writes back the status and the event list only. */
    method SaveModified(cid: nat, status: ChallengeStatus, event: string)
      requires cid < |db.challenges|
      modifies db`challenges
      ensures db.View() == SaveStatus(old(db.View()), cid, status, event)
    {
      var stored := db.challenges[cid];
      db.challenges := db.challenges[cid := stored.(status := status, events := stored.events + [event])];
    }

    method FailChallenge(cid: nat, env: Env)
      requires execution.db == db && cid < |db.challenges|
      modifies db
      ensures db.View() == Fail(old(db.View()), cid, env)
    {
      OpenRowsOpen(db.positions, cid, None);
      CloseRowsShape(db.View(), OpenRows(db.positions, cid, None), db.challenges[cid].userId, env);
      execution.ForceFlatten(cid, env);
      db.orders := CancelOpen(db.View(), cid, "CHALLENGE_FAILED").orders;
      SaveModified(cid, FAILED, "FAILED");
    }

    method PassChallenge(cid: nat, challenge: Challenge, finalEquity: int, env: Env)
      requires execution.db == db && cid < |db.challenges| && challenge == db.challenges[cid]
      modifies db
      ensures db.View() == Pass(old(db.View()), cid, finalEquity, env)
    {
      OpenRowsOpen(db.positions, cid, None);
      CloseRowsShape(db.View(), OpenRows(db.positions, cid, None), db.challenges[cid].userId, env);
      if env.freezeOnPass {
        execution.ForceFlatten(cid, env);
        db.orders := CancelOpen(db.View(), cid, "CHALLENGE_PASSED").orders;
      }
      SaveModified(cid, PASSED_PENDING_REVIEW, "PASSED_PENDING_REVIEW");
      var computed := ChallengeRules.ComputeRewardPaise(challenge.capital, finalEquity, challenge.rules.rewardPct);
      if cid !in db.rewards {
        db.rewards := db.rewards[cid := Reward(challenge.userId, challenge.rules.rewardPct, computed, None, ELIGIBLE,
                                               [ELIGIBLE])];
      }
    }
  }

  class PurchaseService {
    const db: Store

    constructor (db: Store)
      ensures this.db == db
    {
      this.db := db;
    }

    method CreateOrder(userId: nat, planId: nat, env: Env) returns (r: Result<nat>)
      modifies db`payments
      ensures (db.View(), r) == CreatePayment(old(db.View()), userId, planId, env)
      ensures Kept(old(db.View()), db.View())
    {
      CreatePaymentIsKept(db.View(), userId, planId, env);
      if userId !in env.kycApproved {
        return Err(KYC_REQUIRED);
      }
      if planId !in env.plans || !env.plans[planId].active {
        return Err(PLAN_UNAVAILABLE);
      }
      if !env.allowMultipleActive {
        var active := exists c :: c in db.challenges && c.userId == userId && (c.status.PENDING? || c.status.ACTIVE?);
        if active {
          return Err(ACTIVE_CHALLENGE_EXISTS);
        }
      }
      var pid := |db.payments|;
      db.payments := db.payments + [Payment(userId, planId, env.plans[planId].price, CREATED, None, None, None)];
      r := Ok(pid);
    }

    method Activate(pid: nat, gatewayPaymentId: string, env: Env) returns (r: Result<nat>)
      modifies db
      ensures (db.View(), r) == Platform.Activate(old(db.View()), pid, gatewayPaymentId, env)
      ensures Kept(old(db.View()), db.View())
    {
      ActivateIsKept(db.View(), pid, gatewayPaymentId, env);
      if pid >= |db.payments| {
        return Err(NOT_FOUND("Payment"));
      }
      var payment := db.payments[pid];
      if payment.status.ACTIVATED? {
        return Ok(if payment.challengeId.Some? then payment.challengeId.value else 0);
      }
      if payment.status.REFUNDED? || payment.status.NOT_PAID? {
        return Err(PAYMENT_TERMINAL);
      }
      if payment.planId !in env.plans {
        return Err(NOT_FOUND("Plan"));
      }
      var plan := env.plans[payment.planId];
      var endsAt := env.now + plan.rules.expiryDays * DAY_MS;
      var cid, sid := |db.challenges|, |db.subscriptions|;
      db.challenges := db.challenges + [
        Challenge(payment.userId, payment.planId, plan.version, plan.rules, plan.capital, plan.capital, plan.capital,
                  plan.capital, 0, [], PENDING, env.now, endsAt, ["CREATED"])];
      db.subscriptions := db.subscriptions + [
        Subscription(payment.userId, payment.planId, cid, pid, LIVE, env.now, endsAt)];
      db.ledger := db.ledger + [Entry(cid, CREDIT, plan.capital, plan.capital, PaymentRef(pid))];
      db.payments := db.payments[pid := payment.(status := ACTIVATED, gatewayPaymentId := Some(gatewayPaymentId),
                                                 subscriptionId := Some(sid), challengeId := Some(cid))];
      r := Ok(cid);
    }

    method Refund(pid: nat) returns (r: Result<bool>)
      modifies db
      ensures (db.View(), r) == Platform.Refund(old(db.View()), pid)
      ensures Kept(old(db.View()), db.View())
    {
      RefundIsKept(db.View(), pid);
      if pid >= |db.payments| {
        return Err(NOT_FOUND("Payment"));
      }
      var payment := db.payments[pid];
      if !(payment.status.ACTIVATED? || payment.status.CAPTURED?) {
        return Err(NOT_REFUNDABLE);
      }
      if payment.gatewayPaymentId.None? {
        return Err(NO_GATEWAY_PAYMENT);
      }
      db.payments := db.payments[pid := payment.(status := REFUNDED)];
      if payment.subscriptionId.Some? && payment.subscriptionId.value < |db.subscriptions| {
        var sid := payment.subscriptionId.value;
        db.subscriptions := db.subscriptions[sid := db.subscriptions[sid].(status := WITHDRAWN)];
      }
      if payment.challengeId.Some? && payment.challengeId.value < |db.challenges| {
        var cid := payment.challengeId.value;
        var c := db.challenges[cid];
        if c.status.PENDING? || c.status.ACTIVE? {
          db.challenges := db.challenges[cid := c.(status := EXPIRED, events := c.events + ["CANCELLED"])];
        }
      }
      r := Ok(true);
    }
  }

  class RewardAdminService {
    const db: Store

    constructor (db: Store)
      ensures this.db == db
    {
      this.db := db;
    }

    method Approve(cid: nat, overrideAmount: Option<int>) returns (r: Result<bool>)
      modifies db`rewards, db`challenges
      ensures (db.View(), r) == Platform.Approve(old(db.View()), cid, overrideAmount)
      ensures Kept(old(db.View()), db.View())
    {
      ApproveIsKept(db.View(), cid, overrideAmount);
      r := Transition(cid, APPROVED, overrideAmount, {ELIGIBLE});
    }

    method Reject(cid: nat) returns (r: Result<bool>)
      modifies db`rewards, db`challenges
      ensures (db.View(), r) == Platform.Reject(old(db.View()), cid)
      ensures Kept(old(db.View()), db.View())
    {
      RejectIsKept(db.View(), cid);
      r := Transition(cid, DECLINED, None, {ELIGIBLE, APPROVED});
    }

    method MarkPaid(cid: nat) returns (r: Result<bool>)
      modifies db`rewards, db`challenges
      ensures (db.View(), r) == Platform.MarkPaid(old(db.View()), cid)
      ensures Kept(old(db.View()), db.View())
    {
      MarkPaidIsKept(db.View(), cid);
      r := Transition(cid, PAID, None, {APPROVED});
    }

    method Transition(cid: nat, to: RewardStatus, overrideAmount: Option<int>, allowedFrom: set<RewardStatus>)
      returns (r: Result<bool>)
      modifies db`rewards, db`challenges
      ensures (db.View(), r) == TransitionReward(old(db.View()), cid, to, overrideAmount, allowedFrom)
    {
      if cid !in db.rewards {
        return Err(NOT_FOUND("Reward"));
      }
      var reward := db.rewards[cid];
      if reward.status !in allowedFrom {
        return Err(REWARD_INVALID_TRANSITION);
      }
      if overrideAmount.Some? {
        reward := reward.(overrideAmount := overrideAmount);
      }
      reward := reward.(status := to, timeline := reward.timeline + [to]);
      db.rewards := db.rewards[cid := reward];
      if to.APPROVED? && cid < |db.challenges| && db.challenges[cid].status.PASSED_PENDING_REVIEW? {
        db.challenges := db.challenges[cid := db.challenges[cid].(status := PASSED)];
      }
      r := Ok(true);
    }
  }

  class DailyAnchorService {
    const db: Store

    constructor (db: Store)
      ensures this.db == db
    {
      this.db := db;
    }

    /** Saves the anchor computed from a copy read earlier. */
    method ResetAnchor(cid: nat, amount: int)
      modifies db`challenges
      ensures db.View() == SetDayStart(old(db.View()), cid, amount)
      ensures Kept(old(db.View()), db.View())
    {
      AnchorIsKept(db.View(), cid, amount);
      if cid < |db.challenges| {
        db.challenges := db.challenges[cid := db.challenges[cid].(dayStart := amount)];
      }
    }
  }

  /**
   * The square-off timer. Its loop waits for every challenge, so it is cut at those points: a loop that was
   * started is in `loops` and each of its turns is a call of its own.
   */
  class TradingEngineService {
    const db: Store
    const execution: ExecutionService
    var loops: seq<seq<nat>>
    var lastSquareOffDate: string

    constructor (execution: ExecutionService)
      ensures this.execution == execution && this.db == execution.db
      ensures loops == [] && lastSquareOffDate == ""
    {
      this.execution, this.db := execution, execution.db;
      loops, lastSquareOffDate := [], "";
    }

    function State(): Engine
      reads this, db
    {
      Engine(db.View(), loops, lastSquareOffDate)
    }

    method CheckSquareOff(clock: Clock)
      modifies this
      ensures State() == After(old(State()), Check(clock))
    {
      if !clock.tradingDay {
        return;
      }
      if clock.minutesOfDay < clock.cutoff || lastSquareOffDate == clock.dateKey {
        return;
      }
      lastSquareOffDate := clock.dateKey;
      loops := loops + [Tradable(db.challenges)];
    }

    /** The next turn of a running loop. */
    method TakeTurn(loop: nat, env: Env)
      requires db == execution.db
      modifies this, db
      ensures State() == After(old(State()), Next(loop, env))
      ensures Kept(old(db.View()), db.View())
    {
      KeptReflexive(db.View());
      if loop >= |loops| || loops[loop] == [] {
        return;
      }
      var c := loops[loop][0];
      loops := loops[loop := loops[loop][1..]];
      execution.SquareOffIntraday(c, env);
    }

    /** A square-off that throws is logged, and the loop goes on. */
    method PassOver(loop: nat)
      modifies this
      ensures State() == After(old(State()), Skip(loop))
    {
      if loop < |loops| && loops[loop] != [] {
        loops := loops[loop := loops[loop][1..]];
      }
    }

    method StartAgain()
      modifies this
      ensures State() == After(old(State()), Restart)
    {
      loops, lastSquareOffDate := [], "";
    }
  }
}
