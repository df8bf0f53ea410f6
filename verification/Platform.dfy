/**
 * The platform's stored state and what each service call does to it, one call at a time: purchase and
 * refund, order placement, tick matching, flattening, evaluation and reward review. Collections that are
 * only ever inserted into are sequences and a document's id is its index, so a created id is always fresh.
 */
module Platform {
  import opened Prelude
  import opened PositionMath
  import opened AccountBook
  import ChallengeRules

  // ---------- Documents ----------

  datatype OrderType = MARKET | LIMIT
  datatype Product = INTRADAY | CARRY_FORWARD
  datatype OrderStatus = OPEN | FILLED | CANCELLED | REJECTED
  datatype TriggerKind = STOP_LOSS | TARGET
  datatype Trigger = Trigger(kind: TriggerKind, pricePaise: int)

  type Qty = q: int | q > 0 witness 1

  datatype Order = Order(userId: nat, challengeId: nat, instrument: string, side: Side, typ: OrderType,
                         product: Product, qty: Qty, limitPricePaise: Option<int>, trigger: Option<Trigger>,
                         status: OrderStatus, filledPricePaise: Option<int>, chargesPaise: Option<int>,
                         rejectionReason: Option<string>)

  datatype PositionKey = PositionKey(challengeId: nat, instrument: string, product: Product)
  datatype PositionRow = PositionRow(key: PositionKey, position: Position, dayBuyQty: int, daySellQty: int)
  datatype Holding = Holding(qty: int, avgPricePaise: int)
  datatype HoldingKey = HoldingKey(challengeId: nat, instrument: string)

  datatype ChallengeStatus = PENDING | ACTIVE | PASSED_PENDING_REVIEW | PASSED | FAILED | EXPIRED

  datatype Challenge = Challenge(userId: nat, planId: nat, planVersion: nat, rules: ChallengeRules.Rules,
                                 capital: int, equity: int, peak: int, dayStart: int, realized: int,
                                 tradingDays: seq<string>, status: ChallengeStatus, startedAt: int, endsAt: int,
                                 events: seq<string>)

  datatype PaymentStatus = CREATED | CAPTURED | ACTIVATED | NOT_PAID | REFUNDED
  datatype Payment = Payment(userId: nat, planId: nat, amount: int, status: PaymentStatus,
                             gatewayPaymentId: Option<string>, subscriptionId: Option<nat>, challengeId: Option<nat>)

  datatype SubscriptionStatus = LIVE | LAPSED | WITHDRAWN
  datatype Subscription = Subscription(userId: nat, planId: nat, challengeId: nat, paymentId: nat,
                                       status: SubscriptionStatus, activatedAt: int, expiresAt: int)

  datatype RewardStatus = ELIGIBLE | APPROVED | DECLINED | PAID
  datatype Reward = Reward(userId: nat, rewardPct: real, computedAmount: int, overrideAmount: Option<int>,
                           status: RewardStatus, timeline: seq<RewardStatus>)

  datatype Db = Db(payments: seq<Payment>, subscriptions: seq<Subscription>, challenges: seq<Challenge>,
                   ledger: seq<Entry>, orders: seq<Order>, positions: seq<PositionRow>,
                   holdings: map<HoldingKey, Holding>, trades: seq<Trade>, rewards: map<nat, Reward>)

  const EMPTY_DB := Db([], [], [], [], [], [], map[], [], map[])

  // ---------- What a call reads from outside the database ----------

  datatype Instrument = Instrument(segment: string, lotSize: int, freezeQty: Option<int>, enabled: bool)

  datatype Plan = Plan(active: bool, version: nat, rules: ChallengeRules.Rules, capital: int, price: int)

  /** `cache` holds the quotes present in Redis; `quotes` adds those the fallback lookup can supply. */
  datatype Env = Env(now: int, dateKey: string, cache: map<string, Quote>, quotes: map<string, Quote>,
                     slippageBps: real, chargeModel: ChargeModel, openMarkets: set<string>,
                     instruments: map<string, Instrument>, plans: map<nat, Plan>, kycApproved: set<nat>,
                     allowMultipleActive: bool, freezeOnPass: bool)

  datatype Failure =
    | NOT_FOUND(what: string)
    | CHALLENGE_NOT_TRADABLE | MARKET_CLOSED | INSTRUMENT_DISABLED | SEGMENT_NOT_ALLOWED | QTY_INVALID
    | LOT_SIZE_INVALID | QTY_LOT_MISMATCH | FREEZE_QTY_EXCEEDED | LIMIT_PRICE_REQUIRED | TRIGGER_PRICE_INVALID
    | INSUFFICIENT_CAPITAL | NO_MARKET_DATA | NOT_CANCELLABLE
    | KYC_REQUIRED | PLAN_UNAVAILABLE | ACTIVE_CHALLENGE_EXISTS | PAYMENT_TERMINAL | NOT_REFUNDABLE
    | NO_GATEWAY_PAYMENT | REWARD_INVALID_TRANSITION

  datatype Result<+T> = Ok(value: T) | Err(failure: Failure)

  // ---------- Positions ----------

  function Lookup(rows: seq<PositionRow>, k: PositionKey): Position
  {
    if rows == [] then FLAT else if rows[0].key == k then rows[0].position else Lookup(rows[1..], k)
  }

  function Upsert(rows: seq<PositionRow>, k: PositionKey, p: Position, buy: int, sell: int): seq<PositionRow>
  {
    if rows == [] then [PositionRow(k, p, buy, sell)]
    else if rows[0].key == k then
      [PositionRow(k, p, rows[0].dayBuyQty + buy, rows[0].daySellQty + sell)] + rows[1..]
    else [rows[0]] + Upsert(rows[1..], k, p, buy, sell)
  }

  /** The open positions of a challenge, in stored order; `only` restricts them to one product. */
  function OpenRows(rows: seq<PositionRow>, cid: nat, only: Option<Product>): seq<PositionRow>
  {
    if rows == [] then []
    else
      var rest := OpenRows(rows[1..], cid, only);
      if rows[0].key.challengeId == cid && rows[0].position.netQty != 0
         && (only.None? || rows[0].key.product == only.value)
      then [rows[0]] + rest else rest
  }

  // ---------- Settlement ----------

  function SignedQty(o: Order): int { var q: int := o.qty; if o.side.BUY? then q else -q }

  function KeyOf(o: Order): PositionKey { PositionKey(o.challengeId, o.instrument, o.product) }

  function FillOf(db: Db, oid: nat, price: int): FillResult
    requires oid < |db.orders|
  {
    ApplyFill(Lookup(db.positions, KeyOf(db.orders[oid])), SignedQty(db.orders[oid]), price)
  }

  function TradeOf(db: Db, oid: nat, price: int, env: Env): Trade
    requires oid < |db.orders|
  {
    var o := db.orders[oid];
    Trade(oid, o.challengeId, o.instrument, o.side, o.qty, price,
          ComputeChargesPaise(price, o.qty, env.chargeModel), FillOf(db, oid, price).realizedDeltaPaise)
  }

  /** The challenge document after a settlement posted `t` to it. */
  function CreditChallenge(c: Challenge, t: Trade, dateKey: string): Challenge
  {
    var balance := c.equity + t.realized - t.charges;
    c.(equity := balance,
       peak := if balance > c.peak then balance else c.peak,
       realized := c.realized + t.realized,
       tradingDays := if dateKey in c.tradingDays then c.tradingDays else c.tradingDays + [dateKey])
  }

  function Settle(db: Db, oid: nat, price: int, env: Env): Db
    requires oid < |db.orders|
  {
    var o, t, p := db.orders[oid], TradeOf(db, oid, price, env), FillOf(db, oid, price).position;
    var cid := o.challengeId;
    var filled := db.(
      positions := Upsert(db.positions, KeyOf(o), p, if o.side.BUY? then o.qty else 0, if o.side.BUY? then 0 else o.qty),
      holdings := if o.product.CARRY_FORWARD?
        then db.holdings[HoldingKey(cid, o.instrument) := Holding(p.netQty, p.avgPricePaise)] else db.holdings,
      trades := db.trades + [t],
      orders := db.orders[oid := o.(status := OrderStatus.FILLED, filledPricePaise := Some(price),
                                    chargesPaise := Some(t.charges))]);
    if cid >= |db.challenges| then filled
    else filled.(
      ledger := db.ledger + SettlementEntries(t, db.challenges[cid].equity),
      challenges := db.challenges[cid := CreditChallenge(db.challenges[cid], t, env.dateKey)])
  }

  function AddOrder(db: Db, o: Order): Db { db.(orders := db.orders + [o]) }

  // ---------- Placement, cancellation and tick matching ----------

  datatype Command = Command(challengeId: nat, userId: nat, instrument: string, side: Side, typ: OrderType,
                             product: Product, qty: int, limitPricePaise: Option<int>, trigger: Option<Trigger>)

  function RefPrice(cmd: Command, env: Env): int
  {
    if cmd.typ.LIMIT? then (if cmd.limitPricePaise.Some? then cmd.limitPricePaise.value else 0)
    else if cmd.instrument in env.quotes then
      var q := env.quotes[cmd.instrument]; Round((if cmd.side.BUY? then q.ask else q.bid) * 100.0)
    else 0
  }

  function ValidatePreTrade(cmd: Command, instrument: Instrument, c: Challenge, marketOpen: bool, cost: int)
    : (r: Option<Failure>)
    ensures r.None? ==> cmd.qty > 0 && (c.status.PENDING? || c.status.ACTIVE?) && cost <= c.equity
    ensures r.None? && cmd.typ.LIMIT? ==> cmd.limitPricePaise.Some? && cmd.limitPricePaise.value > 0
  {
    if !(c.status.PENDING? || c.status.ACTIVE?) then Some(CHALLENGE_NOT_TRADABLE)
    else if !marketOpen then Some(MARKET_CLOSED)
    else if !instrument.enabled then Some(INSTRUMENT_DISABLED)
    else if instrument.segment !in c.rules.segments then Some(SEGMENT_NOT_ALLOWED)
    else if cmd.qty <= 0 then Some(QTY_INVALID)
    else if instrument.lotSize <= 0 then Some(LOT_SIZE_INVALID)
    else if cmd.qty % instrument.lotSize != 0 then Some(QTY_LOT_MISMATCH)
    else if instrument.freezeQty.Some? && instrument.freezeQty.value != 0 && cmd.qty > instrument.freezeQty.value then
      Some(FREEZE_QTY_EXCEEDED)
    else if cmd.typ.LIMIT? && (cmd.limitPricePaise.None? || cmd.limitPricePaise.value <= 0) then
      Some(LIMIT_PRICE_REQUIRED)
    else if cmd.trigger.Some? && cmd.trigger.value.pricePaise <= 0 then Some(TRIGGER_PRICE_INVALID)
    else if cost > c.equity then Some(INSUFFICIENT_CAPITAL)
    else None
  }

  datatype Placement = Placement(orderId: nat, status: OrderStatus, filledPricePaise: Option<int>)

  function MarketOf(segment: string): string { if segment == "CUR" then "CUR" else "EQ" }

  function PlacementCheck(db: Db, cmd: Command, env: Env): Option<Failure>
  {
    if cmd.challengeId >= |db.challenges| || db.challenges[cmd.challengeId].userId != cmd.userId then
      Some(NOT_FOUND("Challenge"))
    else if cmd.instrument !in env.instruments then Some(NOT_FOUND("Instrument"))
    else
      var i := env.instruments[cmd.instrument];
      ValidatePreTrade(cmd, i, db.challenges[cmd.challengeId], MarketOf(i.segment) in env.openMarkets,
                       RefPrice(cmd, env) * cmd.qty)
  }

  function OrderOf(cmd: Command): Order
    requires cmd.qty > 0
  {
    Order(cmd.userId, cmd.challengeId, cmd.instrument, cmd.side, cmd.typ, cmd.product, cmd.qty, cmd.limitPricePaise,
          cmd.trigger, OrderStatus.OPEN, None, None, None)
  }

  /** Creating an order and settling it at once, as market orders and exits do. */
  function Execute(db: Db, o: Order, price: int, env: Env): Db
  {
    Settle(AddOrder(db, o), |db.orders|, price, env)
  }

  /** The price a placement fills at on the spot: at market, or at a limit that can be crossed now. */
  function ImmediateFill(cmd: Command, env: Env): Option<int>
  {
    if cmd.instrument !in env.quotes then None
    else if cmd.typ.MARKET? then Some(MarketFillPricePaise(env.quotes[cmd.instrument], cmd.side, env.slippageBps))
    else if cmd.limitPricePaise.Some? then
      LimitFillPricePaise(env.quotes[cmd.instrument], cmd.side, cmd.limitPricePaise.value)
    else None
  }

  function Refuse(o: Order, reason: string): Order
  {
    o.(status := OrderStatus.REJECTED, rejectionReason := Some(reason))
  }

  function PlaceOrder(db: Db, cmd: Command, env: Env): (Db, Result<Placement>)
  {
    var check := PlacementCheck(db, cmd, env);
    if check.Some? then (db, Err(check.value))
    else
      var oid, o, fill := |db.orders|, OrderOf(cmd), ImmediateFill(cmd, env);
      if fill.Some? then (Execute(db, o, fill.value, env), Ok(Placement(oid, OrderStatus.FILLED, fill)))
      else if cmd.typ.MARKET? then (AddOrder(db, Refuse(o, "NO_MARKET_DATA")), Err(NO_MARKET_DATA))
      else (AddOrder(db, o), Ok(Placement(oid, OrderStatus.OPEN, None)))
  }

  function CancelOrder(db: Db, userId: nat, oid: nat): (Db, Result<bool>)
  {
    if oid >= |db.orders| || db.orders[oid].userId != userId then (db, Err(NOT_FOUND("Order")))
    else if db.orders[oid].status != OrderStatus.OPEN then (db, Err(NOT_CANCELLABLE))
    else (db.(orders := db.orders[oid := db.orders[oid].(status := OrderStatus.CANCELLED)]), Ok(true))
  }

  function TriggerFired(t: Trigger, side: Side, px: int): bool
  {
    || (t.kind.STOP_LOSS? && side.SELL? && px <= t.pricePaise)
    || (t.kind.STOP_LOSS? && side.BUY? && px >= t.pricePaise)
    || (t.kind.TARGET? && side.SELL? && px >= t.pricePaise)
    || (t.kind.TARGET? && side.BUY? && px <= t.pricePaise)
  }

  /** The price at which a tick fills an order, if it does. */
  function TickFill(o: Order, quote: Quote, env: Env): Option<int>
  {
    if o.status != OrderStatus.OPEN then None
    else if o.typ.LIMIT? && o.limitPricePaise.Some? then LimitFillPricePaise(quote, o.side, o.limitPricePaise.value)
    else if o.trigger.Some? && TriggerFired(o.trigger.value, o.side, Round(quote.ltp * 100.0)) then
      Some(MarketFillPricePaise(quote, o.side, env.slippageBps))
    else None
  }

  /** One locked section of `onQuote`: the listing it came from may be stale, so any id may arrive here. */
  function TickOrder(db: Db, oid: nat, quote: Quote, env: Env): Db
  {
    if oid >= |db.orders| then db
    else
      var fill := TickFill(db.orders[oid], quote, env);
      if fill.Some? then Settle(db, oid, fill.value, env) else db
  }

  function OpenOrderIds(orders: seq<Order>, instrument: string): seq<nat>
  {
    if orders == [] then []
    else
      var n := |orders| - 1;
      OpenOrderIds(orders[..n], instrument)
      + if orders[n].status == OrderStatus.OPEN && orders[n].instrument == instrument then [n] else []
  }

  function TickOrders(db: Db, oids: seq<nat>, quote: Quote, env: Env): Db
    decreases |oids|
  {
    if oids == [] then db else TickOrders(TickOrder(db, oids[0], quote, env), oids[1..], quote, env)
  }

  // ---------- Flattening ----------

  function ExitOrder(row: PositionRow, userId: nat): Order
    requires row.position.netQty != 0
  {
    Order(userId, row.key.challengeId, row.key.instrument, if row.position.netQty > 0 then SELL else BUY, MARKET,
          row.key.product, Abs(row.position.netQty), None, None, OrderStatus.OPEN, None, None, None)
  }

  function CloseRow(db: Db, row: PositionRow, userId: nat, env: Env): Db
    requires row.position.netQty != 0
  {
    if row.key.instrument !in env.quotes then db
    else
      var o := ExitOrder(row, userId);
      Execute(db, o, MarketFillPricePaise(env.quotes[row.key.instrument], o.side, env.slippageBps), env)
  }

  function CloseRows(db: Db, rows: seq<PositionRow>, userId: nat, env: Env): Db
    requires forall r :: r in rows ==> r.position.netQty != 0
    decreases |rows|
  {
    if rows == [] then db else CloseRows(CloseRow(db, rows[0], userId, env), rows[1..], userId, env)
  }

  lemma {:induction false} OpenRowsOpen(rows: seq<PositionRow>, cid: nat, only: Option<Product>)
    ensures forall r :: r in OpenRows(rows, cid, only) <==>
              r in rows && r.key.challengeId == cid && r.position.netQty != 0 && (only.None? || r.key.product == only.value)
  {
    if rows != [] {
      OpenRowsOpen(rows[1..], cid, only);
      assert rows == [rows[0]] + rows[1..];
    }
  }

  /** Close every open position of a challenge (`forceFlatten`), or its intraday ones (`squareOffIntraday`). */
  function Flatten(db: Db, cid: nat, only: Option<Product>, env: Env): Db
  {
    if cid >= |db.challenges| then db
    else
      OpenRowsOpen(db.positions, cid, only);
      CloseRows(db, OpenRows(db.positions, cid, only), db.challenges[cid].userId, env)
  }

  // ---------- Evaluation ----------

  function SumUnrealized(rows: seq<PositionRow>, cache: map<string, Quote>): int
  {
    if rows == [] then 0
    else
      SumUnrealized(rows[..|rows| - 1], cache)
      + var r := rows[|rows| - 1];
        if r.key.instrument in cache then
          UnrealizedPnl(r.position.(realizedPnlPaise := 0), Round(cache[r.key.instrument].ltp * 100.0))
        else 0
  }

  function MtmEquity(db: Db, cid: nat, equity: int, cache: map<string, Quote>): int
  {
    equity + SumUnrealized(OpenRows(db.positions, cid, None), cache)
  }

  function CancelOpen(db: Db, cid: nat, reason: string): Db
  {
    db.(orders := seq(|db.orders|, i requires 0 <= i < |db.orders| =>
      if db.orders[i].challengeId == cid && db.orders[i].status == OrderStatus.OPEN
      then db.orders[i].(status := OrderStatus.CANCELLED, rejectionReason := Some(reason))
      else db.orders[i]))
  }

  /** `save` of a document on which only the status and the event list were modified. */
  function SaveStatus(db: Db, cid: nat, status: ChallengeStatus, event: string): Db
    requires cid < |db.challenges|
  {
    var c := db.challenges[cid];
    db.(challenges := db.challenges[cid := c.(status := status, events := c.events + [event])])
  }

  lemma {:induction false} CloseRowsShape(db: Db, rows: seq<PositionRow>, userId: nat, env: Env)
    requires forall r :: r in rows ==> r.position.netQty != 0
    ensures |CloseRows(db, rows, userId, env).challenges| == |db.challenges|
    decreases |rows|
  {
    if rows != [] {
      CloseRowsShape(CloseRow(db, rows[0], userId, env), rows[1..], userId, env);
    }
  }

  function Fail(db: Db, cid: nat, env: Env): Db
    requires cid < |db.challenges|
  {
    OpenRowsOpen(db.positions, cid, None);
    CloseRowsShape(db, OpenRows(db.positions, cid, None), db.challenges[cid].userId, env);
    SaveStatus(CancelOpen(Flatten(db, cid, None, env), cid, "CHALLENGE_FAILED"), cid, FAILED, "FAILED")
  }

  function Pass(db: Db, cid: nat, finalEquity: int, env: Env): Db
    requires cid < |db.challenges|
  {
    OpenRowsOpen(db.positions, cid, None);
    CloseRowsShape(db, OpenRows(db.positions, cid, None), db.challenges[cid].userId, env);
    var c := db.challenges[cid];
    var frozen := if env.freezeOnPass then CancelOpen(Flatten(db, cid, None, env), cid, "CHALLENGE_PASSED") else db;
    GrantReward(SaveStatus(frozen, cid, PASSED_PENDING_REVIEW, "PASSED_PENDING_REVIEW"), cid, c, finalEquity)
  }

  /** The reward upsert: inserted once per challenge, never overwritten. */
  function GrantReward(db: Db, cid: nat, c: Challenge, finalEquity: int): Db
  {
    var amount := ChallengeRules.ComputeRewardPaise(c.capital, finalEquity, c.rules.rewardPct);
    if cid in db.rewards then db
    else db.(rewards := db.rewards[cid := Reward(c.userId, c.rules.rewardPct, amount, None, ELIGIBLE, [ELIGIBLE])])
  }

  /** First evaluation promotes PENDING to ACTIVE. */
  function Promote(db: Db, cid: nat): Db
    requires cid < |db.challenges|
  {
    if db.challenges[cid].status.PENDING? then SaveStatus(db, cid, ACTIVE, "ACTIVATED") else db
  }

  function Evaluate(db: Db, cid: nat, env: Env): (Db, Option<ChallengeRules.Outcome>)
  {
    if cid >= |db.challenges| || !(db.challenges[cid].status.PENDING? || db.challenges[cid].status.ACTIVE?) then (db, None)
    else
      var (d, outcome) := EvaluateActive(Promote(db, cid), cid, env);
      (d, Some(outcome))
  }

  function EvaluateActive(db: Db, cid: nat, env: Env): (Db, ChallengeRules.Outcome)
    requires cid < |db.challenges|
  {
    var c := db.challenges[cid];
    var mtm := MtmEquity(db, cid, c.equity, env.cache);
    var outcome := ChallengeRules.EvaluateChallenge(
      ChallengeRules.EvalInput(c.rules, c.capital, mtm, c.dayStart, |c.tradingDays|, c.endsAt <= env.now));
    match outcome
    case CONTINUE => (db, outcome)
    case FAIL(_) => (Fail(db, cid, env), outcome)
    case PASS => (Pass(db, cid, mtm, env), outcome)
  }

  // ---------- Purchase ----------

  function CreatePayment(db: Db, userId: nat, planId: nat, env: Env): (Db, Result<nat>)
  {
    if userId !in env.kycApproved then (db, Err(KYC_REQUIRED))
    else if planId !in env.plans || !env.plans[planId].active then (db, Err(PLAN_UNAVAILABLE))
    else if !env.allowMultipleActive
         && (exists c :: c in db.challenges && c.userId == userId && (c.status.PENDING? || c.status.ACTIVE?)) then
      (db, Err(ACTIVE_CHALLENGE_EXISTS))
    else
      (db.(payments := db.payments + [Payment(userId, planId, env.plans[planId].price, CREATED, None, None, None)]),
       Ok(|db.payments|))
  }

  function Activate(db: Db, pid: nat, gatewayPaymentId: string, env: Env): (Db, Result<nat>)
  {
    if pid >= |db.payments| then (db, Err(NOT_FOUND("Payment")))
    else
      var p := db.payments[pid];
      if p.status.ACTIVATED? then (db, Ok(if p.challengeId.Some? then p.challengeId.value else 0))
      else if p.status.REFUNDED? || p.status.NOT_PAID? then (db, Err(PAYMENT_TERMINAL))
      else if p.planId !in env.plans then (db, Err(NOT_FOUND("Plan")))
      else
        var plan := env.plans[p.planId];
        var cid, endsAt := |db.challenges|, env.now + plan.rules.expiryDays * DAY_MS;
        (db.(challenges := db.challenges + [
               Challenge(p.userId, p.planId, plan.version, plan.rules, plan.capital, plan.capital, plan.capital,
                         plan.capital, 0, [], PENDING, env.now, endsAt, ["CREATED"])],
             subscriptions := db.subscriptions + [
               Subscription(p.userId, p.planId, cid, pid, LIVE, env.now, endsAt)],
             ledger := db.ledger + [Entry(cid, CREDIT, plan.capital, plan.capital, PaymentRef(pid))],
             payments := db.payments[pid := p.(status := ACTIVATED, gatewayPaymentId := Some(gatewayPaymentId),
                                               subscriptionId := Some(|db.subscriptions|), challengeId := Some(cid))]),
         Ok(cid))
  }

  function Refund(db: Db, pid: nat): (Db, Result<bool>)
  {
    if pid >= |db.payments| then (db, Err(NOT_FOUND("Payment")))
    else
      var p := db.payments[pid];
      if !(p.status.ACTIVATED? || p.status.CAPTURED?) then (db, Err(NOT_REFUNDABLE))
      else if p.gatewayPaymentId.None? then (db, Err(NO_GATEWAY_PAYMENT))
      else
        var d := db.(payments := db.payments[pid := p.(status := REFUNDED)]);
        (ExpireUnfinished(WithdrawSubscription(d, p), p), Ok(true))
  }

  function WithdrawSubscription(db: Db, p: Payment): Db
  {
    if p.subscriptionId.Some? && p.subscriptionId.value < |db.subscriptions| then
      db.(subscriptions := db.subscriptions[p.subscriptionId.value :=
            db.subscriptions[p.subscriptionId.value].(status := WITHDRAWN)])
    else db
  }

  /** A refunded challenge that is not yet decided ends. */
  function ExpireUnfinished(db: Db, p: Payment): Db
  {
    if p.challengeId.Some? && p.challengeId.value < |db.challenges|
       && (db.challenges[p.challengeId.value].status.PENDING? || db.challenges[p.challengeId.value].status.ACTIVE?) then
      SaveStatus(db, p.challengeId.value, EXPIRED, "CANCELLED")
    else db
  }

  // ---------- Reward review ----------

  function TransitionReward(db: Db, cid: nat, to: RewardStatus, overrideAmount: Option<int>, allowedFrom: set<RewardStatus>)
    : (Db, Result<bool>)
  {
    if cid !in db.rewards then (db, Err(NOT_FOUND("Reward")))
    else
      var r := db.rewards[cid];
      if r.status !in allowedFrom then (db, Err(REWARD_INVALID_TRANSITION))
      else
        var amount := if overrideAmount.Some? then overrideAmount else r.overrideAmount;
        var d := db.(rewards := db.rewards[cid := r.(status := to, overrideAmount := amount, timeline := r.timeline + [to])]);
        if to.APPROVED? && cid < |d.challenges| && d.challenges[cid].status.PASSED_PENDING_REVIEW? then
          (d.(challenges := d.challenges[cid := d.challenges[cid].(status := PASSED)]), Ok(true))
        else (d, Ok(true))
  }

  function Approve(db: Db, cid: nat, overrideAmount: Option<int>): (Db, Result<bool>)
  {
    TransitionReward(db, cid, APPROVED, overrideAmount, {ELIGIBLE})
  }

  function Reject(db: Db, cid: nat): (Db, Result<bool>)
  {
    TransitionReward(db, cid, DECLINED, None, {ELIGIBLE, APPROVED})
  }

  function MarkPaid(db: Db, cid: nat): (Db, Result<bool>)
  {
    TransitionReward(db, cid, PAID, None, {APPROVED})
  }

  // ---------- Runs ----------

  /**
   * One service call. `DoAnchor` is the morning job, which writes whatever anchor it computed earlier. Here a
   * square-off may come for any challenge at any time; which ones the engine sends is in `TradingEngine`.
   */
  datatype Action =
    | DoCreatePayment(userId: nat, planId: nat)
    | DoActivate(paymentId: nat, gatewayPaymentId: string)
    | DoRefund(paymentId: nat)
    | DoPlace(cmd: Command)
    | DoCancel(userId: nat, orderId: nat)
    | DoTick(orderId: nat, quote: Quote)
    | DoSquareOff(challengeId: nat)
    | DoEvaluate(challengeId: nat)
    | DoAnchor(challengeId: nat, amount: int)
    | DoApprove(challengeId: nat, overrideAmount: Option<int>)
    | DoReject(challengeId: nat)
    | DoMarkPaid(challengeId: nat)

  function SetDayStart(db: Db, cid: nat, amount: int): Db
  {
    if cid >= |db.challenges| then db
    else db.(challenges := db.challenges[cid := db.challenges[cid].(dayStart := amount)])
  }

  function Step(db: Db, a: Action, env: Env): Db
  {
    match a
    case DoCreatePayment(u, p) => CreatePayment(db, u, p, env).0
    case DoActivate(p, g) => Activate(db, p, g, env).0
    case DoRefund(p) => Refund(db, p).0
    case DoPlace(cmd) => PlaceOrder(db, cmd, env).0
    case DoCancel(u, o) => CancelOrder(db, u, o).0
    case DoTick(o, q) => TickOrder(db, o, q, env)
    case DoSquareOff(c) => Flatten(db, c, Some(INTRADAY), env)
    case DoEvaluate(c) => Evaluate(db, c, env).0
    case DoAnchor(c, amount) => SetDayStart(db, c, amount)
    case DoApprove(c, o) => Approve(db, c, o).0
    case DoReject(c) => Reject(db, c).0
    case DoMarkPaid(c) => MarkPaid(db, c).0
  }

  /** The state after any sequence of calls, each with its own view of the clock, quotes and configuration. */
  function Run(db: Db, calls: seq<(Action, Env)>): Db
  {
    if calls == [] then db
    else
      var n := |calls| - 1;
      Step(Run(db, calls[..n]), calls[n].0, calls[n].1)
  }
}
