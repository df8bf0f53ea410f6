/** What holds after every sequence of service calls, and what never changes again once it has happened. */
module PlatformRuns {
  import opened Prelude
  import opened PositionMath
  import opened AccountBook
  import opened Platform
  import opened TradingInvariants
  import ChallengeRules

  // ---------- Resting orders ----------

  /** Only limit orders ever rest, and a FAILED challenge has none. */
  ghost predicate RestingOk(db: Db)
  {
    forall i :: 0 <= i < |db.orders| && db.orders[i].status == OrderStatus.OPEN ==>
      && db.orders[i].typ == LIMIT && db.orders[i].limitPricePaise.Some?
      && db.orders[i].challengeId < |db.challenges|
      && db.challenges[db.orders[i].challengeId].status != FAILED
  }

  // ---------- Purchases and rewards ----------

  function CreditCount(es: seq<Entry>, pid: nat): nat
  {
    if es == [] then 0
    else CreditCount(es[..|es| - 1], pid) + if es[|es| - 1].ref == PaymentRef(pid) then 1 else 0
  }

  ghost predicate Funded(p: Payment) { p.status.ACTIVATED? || p.status.REFUNDED? }

  /** Challenges, subscriptions and opening credits are in one-to-one correspondence with funded payments. */
  ghost predicate PaymentsOk(db: Db)
  {
    && |db.subscriptions| == |db.challenges|
    && (forall p :: 0 <= p < |db.payments| ==>
          && (db.payments[p].status.CREATED? || Funded(db.payments[p]))
          && (Funded(db.payments[p]) <==> db.payments[p].challengeId.Some?)
          && db.payments[p].subscriptionId == db.payments[p].challengeId
          && CreditCount(db.ledger, p) == if Funded(db.payments[p]) then 1 else 0)
    && (forall p :: 0 <= p < |db.payments| && Funded(db.payments[p]) ==>
          && db.payments[p].challengeId.value < |db.challenges|
          && db.subscriptions[db.payments[p].challengeId.value].paymentId == p)
    && (forall c :: 0 <= c < |db.challenges| ==>
          && db.subscriptions[c].challengeId == c
          && db.subscriptions[c].paymentId < |db.payments|
          && db.payments[db.subscriptions[c].paymentId].challengeId == Some(c))
    && (forall e :: e in db.ledger && e.ref.PaymentRef? ==>
          && e.ref.paymentId < |db.payments|
          && db.payments[e.ref.paymentId].challengeId == Some(e.challengeId))
  }

  ghost predicate RewardsOk(db: Db)
  {
    && (forall c: nat :: c in db.rewards <==>
          c < |db.challenges| && (db.challenges[c].status.PASSED_PENDING_REVIEW? || db.challenges[c].status.PASSED?))
    && (forall c: nat :: c in db.rewards ==>
          && (db.rewards[c].status.ELIGIBLE? ==> db.challenges[c].status.PASSED_PENDING_REVIEW?)
          && (db.rewards[c].status.APPROVED? || db.rewards[c].status.PAID? ==> db.challenges[c].status.PASSED?))
  }

  ghost predicate Inv(db: Db)
  {
    TradingOk(db) && RestingOk(db) && PaymentsOk(db) && RewardsOk(db)
  }

  // ---------- What is never undone ----------

  ghost predicate FinalOrder(s: OrderStatus) { !s.OPEN? }

  ghost predicate FinalChallenge(s: ChallengeStatus) { s.FAILED? || s.PASSED? || s.EXPIRED? }

  ghost predicate FinalReward(s: RewardStatus) { s.PAID? || s.DECLINED? }

  /** Ledger and trades only grow; an order keeps its terms, and everything once it is no longer OPEN. */
  ghost predicate Appended(a: Db, b: Db)
  {
    && a.ledger <= b.ledger && a.trades <= b.trades
    && |a.orders| <= |b.orders|
    && (forall i :: 0 <= i < |a.orders| ==>
          && b.orders[i].challengeId == a.orders[i].challengeId && b.orders[i].qty == a.orders[i].qty
          && b.orders[i].side == a.orders[i].side
          && (FinalOrder(a.orders[i].status) ==> b.orders[i] == a.orders[i]))
  }

  ghost predicate LaterChallenges(a: seq<Challenge>, b: seq<Challenge>)
  {
    && |a| <= |b|
    && forall c :: 0 <= c < |a| ==>
         && b[c].capital == a[c].capital && b[c].rules == a[c].rules
         && (FinalChallenge(a[c].status) ==> b[c].status == a[c].status)
         && (!a[c].status.PENDING? ==> !b[c].status.PENDING?)
  }

  ghost predicate LaterPayments(a: seq<Payment>, b: seq<Payment>)
  {
    && |a| <= |b|
    && forall p :: 0 <= p < |a| && Funded(a[p]) ==>
         && Funded(b[p]) && b[p].challengeId == a[p].challengeId
         && (a[p].status.REFUNDED? ==> b[p] == a[p])
  }

  ghost predicate LaterRewards(a: map<nat, Reward>, b: map<nat, Reward>)
  {
    forall c :: c in a ==>
      && c in b && b[c].computedAmount == a[c].computedAmount
      && (FinalReward(a[c].status) ==> b[c] == a[c])
  }

  ghost predicate Later(a: Db, b: Db)
  {
    && Appended(a, b)
    && LaterChallenges(a.challenges, b.challenges)
    && LaterPayments(a.payments, b.payments)
    && LaterRewards(a.rewards, b.rewards)
  }

  lemma LaterTransitive(a: Db, b: Db, c: Db)
    requires Later(a, b) && Later(b, c)
    ensures Later(a, c)
  {
  }

  /** A challenge document changed at most in what settlement owns. */
  ghost predicate OnlyMoney(a: Challenge, b: Challenge)
  {
    b == a.(equity := b.equity, peak := b.peak, realized := b.realized, tradingDays := b.tradingDays)
  }

  /** What trading may change: nothing about purchases, rewards or statuses, and it writes no credit. */
  ghost predicate OnlyTraded(a: Db, b: Db)
  {
    && Appended(a, b)
    && b.payments == a.payments && b.subscriptions == a.subscriptions && b.rewards == a.rewards
    && |b.challenges| == |a.challenges|
    && (forall c :: 0 <= c < |a.challenges| ==> OnlyMoney(a.challenges[c], b.challenges[c]))
    && (forall i :: |a.ledger| <= i < |b.ledger| ==> b.ledger[i].ref.TradeRef?)
  }

  lemma OnlyTradedTransitive(a: Db, b: Db, c: Db)
    requires OnlyTraded(a, b) && OnlyTraded(b, c)
    ensures OnlyTraded(a, c)
  {
  }

  lemma {:induction false} CreditCountUnchanged(es: seq<Entry>, more: seq<Entry>, pid: nat)
    requires forall i :: 0 <= i < |more| ==> more[i].ref.TradeRef?
    ensures CreditCount(es + more, pid) == CreditCount(es, pid)
  {
    if more == [] {
      assert es + more == es;
    } else {
      var n := |more| - 1;
      assert (es + more)[..|es| + n] == es + more[..n];
      CreditCountUnchanged(es, more[..n], pid);
    }
  }

  lemma TradingKeepsLifecycle(a: Db, b: Db)
    requires PaymentsOk(a) && RewardsOk(a) && OnlyTraded(a, b)
    ensures PaymentsOk(b) && RewardsOk(b) && Later(a, b)
  {
    var more := b.ledger[|a.ledger|..];
    assert b.ledger == a.ledger + more;
    forall p | 0 <= p < |b.payments|
      ensures CreditCount(b.ledger, p) == if Funded(b.payments[p]) then 1 else 0
    {
      CreditCountUnchanged(a.ledger, more, p);
    }
  }

  // ---------- Trading calls ----------

  lemma SettleFrame(db: Db, oid: nat, price: int, env: Env)
    requires oid < |db.orders| && db.orders[oid].status == OrderStatus.OPEN
    ensures OnlyTraded(db, Settle(db, oid, price, env))
  {
    var d := Settle(db, oid, price, env);
    assert forall i :: |db.ledger| <= i < |d.ledger| ==> d.ledger[i].ref.TradeRef?;
    assert Appended(db, d);
  }

  lemma SettleKeepsResting(db: Db, oid: nat, price: int, env: Env)
    requires RestingOk(db) && oid < |db.orders|
    ensures RestingOk(Settle(db, oid, price, env))
  {
    var d := Settle(db, oid, price, env);
    assert forall c :: 0 <= c < |db.challenges| ==> d.challenges[c].status == db.challenges[c].status;
    assert forall i :: 0 <= i < |db.orders| && i != oid ==> d.orders[i] == db.orders[i];
  }

  lemma {:induction false} SettleTrades(db: Db, oid: nat, price: int, env: Env)
    requires TradingOk(db) && RestingOk(db) && oid < |db.orders| && db.orders[oid].status == OrderStatus.OPEN
    ensures var d := Settle(db, oid, price, env); TradingOk(d) && RestingOk(d) && OnlyTraded(db, d)
  {
    SettleKeepsTrading(db, oid, price, env);
    SettleKeepsResting(db, oid, price, env);
    SettleFrame(db, oid, price, env);
  }

  lemma ExecuteKeepsResting(db: Db, o: Order, price: int, env: Env)
    requires RestingOk(db)
    ensures RestingOk(Execute(db, o, price, env))
  {
    var d := Execute(db, o, price, env);
    assert forall c :: 0 <= c < |db.challenges| ==> d.challenges[c].status == db.challenges[c].status;
    assert forall i :: 0 <= i < |db.orders| ==> d.orders[i] == db.orders[i];
  }

  lemma ExecuteFrame(db: Db, o: Order, price: int, env: Env)
    requires o.status == OrderStatus.OPEN
    ensures OnlyTraded(db, Execute(db, o, price, env))
  {
    AddOrderFrame(db, o);
    SettleFrame(AddOrder(db, o), |db.orders|, price, env);
    OnlyTradedTransitive(db, AddOrder(db, o), Execute(db, o, price, env));
  }

  lemma AddOrderFrame(db: Db, o: Order)
    ensures OnlyTraded(db, AddOrder(db, o))
  {
  }

  lemma {:induction false} ExecuteTrades(db: Db, o: Order, price: int, env: Env)
    requires TradingOk(db) && RestingOk(db) && o.challengeId < |db.challenges| && o.status == OrderStatus.OPEN
    ensures var d := Execute(db, o, price, env); TradingOk(d) && RestingOk(d) && OnlyTraded(db, d)
  {
    AddOrderKeepsTrading(db, o);
    SettleKeepsTrading(AddOrder(db, o), |db.orders|, price, env);
    ExecuteKeepsResting(db, o, price, env);
    ExecuteFrame(db, o, price, env);
  }

  lemma PlaceTrades(db: Db, cmd: Command, env: Env)
    requires TradingOk(db) && RestingOk(db)
    ensures var d := PlaceOrder(db, cmd, env).0; TradingOk(d) && RestingOk(d) && OnlyTraded(db, d)
  {
    if PlacementCheck(db, cmd, env).None? {
      var o, fill := OrderOf(cmd), ImmediateFill(cmd, env);
      if fill.Some? {
        ExecuteTrades(db, o, fill.value, env);
      } else {
        var added := if cmd.typ.MARKET? then Refuse(o, "NO_MARKET_DATA") else o;
        AddOrderKeepsTrading(db, added);
        AddOrderFrame(db, added);
        AddOrderKeepsResting(db, added);
      }
    } else {
      OnlyTradedReflexive(db);
    }
  }

  lemma OnlyTradedReflexive(db: Db)
    ensures OnlyTraded(db, db)
  {
  }

  lemma AddOrderKeepsResting(db: Db, o: Order)
    requires RestingOk(db) && o.challengeId < |db.challenges|
    requires o.status == OrderStatus.OPEN ==>
      o.typ == LIMIT && o.limitPricePaise.Some? && db.challenges[o.challengeId].status != FAILED
    ensures RestingOk(AddOrder(db, o))
  {
  }

  lemma CancelFrame(db: Db, userId: nat, oid: nat)
    requires RestingOk(db)
    ensures var d := CancelOrder(db, userId, oid).0; RestingOk(d) && OnlyTraded(db, d)
  {
  }

  lemma CancelTrades(db: Db, userId: nat, oid: nat)
    requires TradingOk(db) && RestingOk(db)
    ensures var d := CancelOrder(db, userId, oid).0; TradingOk(d) && RestingOk(d) && OnlyTraded(db, d)
  {
    var d := CancelOrder(db, userId, oid).0;
    CancelFrame(db, userId, oid);
    CloseOrdersKeepsTrading(db, d.orders);
    assert d == db.(orders := d.orders);
  }

  lemma {:induction false} TickTrades(db: Db, oid: nat, quote: Quote, env: Env)
    requires TradingOk(db) && RestingOk(db)
    ensures var d := TickOrder(db, oid, quote, env); TradingOk(d) && RestingOk(d) && OnlyTraded(db, d)
  {
    if oid < |db.orders| && TickFill(db.orders[oid], quote, env).Some? {
      SettleTrades(db, oid, TickFill(db.orders[oid], quote, env).value, env);
    }
  }

  lemma {:induction false} CloseRowsTrades(db: Db, rows: seq<PositionRow>, userId: nat, env: Env)
    requires TradingOk(db) && RestingOk(db)
    requires forall r :: r in rows ==> r.position.netQty != 0 && r.key.challengeId < |db.challenges|
    ensures var d := CloseRows(db, rows, userId, env); TradingOk(d) && RestingOk(d) && OnlyTraded(db, d)
    decreases |rows|
  {
    if rows != [] {
      var r, d := rows[0], CloseRow(db, rows[0], userId, env);
      if r.key.instrument in env.quotes {
        var o := ExitOrder(r, userId);
        ExecuteTrades(db, o, MarketFillPricePaise(env.quotes[r.key.instrument], o.side, env.slippageBps), env);
      }
      CloseRowsTrades(d, rows[1..], userId, env);
      OnlyTradedTransitive(db, d, CloseRows(d, rows[1..], userId, env));
    }
  }

  lemma FlattenTrades(db: Db, cid: nat, only: Option<Product>, env: Env)
    requires TradingOk(db) && RestingOk(db)
    ensures var d := Flatten(db, cid, only, env); TradingOk(d) && RestingOk(d) && OnlyTraded(db, d)
  {
    if cid < |db.challenges| {
      OpenRowsOpen(db.positions, cid, only);
      CloseRowsTrades(db, OpenRows(db.positions, cid, only), db.challenges[cid].userId, env);
    }
  }

  ghost predicate NoOpenOrders(db: Db, cid: nat)
  {
    forall i :: 0 <= i < |db.orders| && db.orders[i].challengeId == cid ==> db.orders[i].status != OrderStatus.OPEN
  }

  lemma CancelOpenTrades(db: Db, cid: nat, reason: string)
    requires TradingOk(db) && RestingOk(db)
    ensures var d := CancelOpen(db, cid, reason);
            TradingOk(d) && RestingOk(d) && OnlyTraded(db, d) && NoOpenOrders(d, cid)
  {
    var d := CancelOpen(db, cid, reason);
    CloseOrdersKeepsTrading(db, d.orders);
    assert d == db.(orders := d.orders);
  }

  /** `forceFlatten` followed by cancelling every open order, as both terminal outcomes do. */
  lemma FreezeTrades(db: Db, cid: nat, reason: string, env: Env)
    requires TradingOk(db) && RestingOk(db)
    ensures var d := CancelOpen(Flatten(db, cid, None, env), cid, reason);
            TradingOk(d) && RestingOk(d) && OnlyTraded(db, d) && NoOpenOrders(d, cid)
  {
    FlattenTrades(db, cid, None, env);
    CancelOpenTrades(Flatten(db, cid, None, env), cid, reason);
    OnlyTradedTransitive(db, Flatten(db, cid, None, env), CancelOpen(Flatten(db, cid, None, env), cid, reason));
  }

  // ---------- Evaluation ----------

  /** Saving a new status touches nothing trading owns. */
  lemma StatusKeeps(db: Db, cid: nat, status: ChallengeStatus, event: string)
    requires TradingOk(db) && RestingOk(db) && cid < |db.challenges|
    requires status == FAILED ==> NoOpenOrders(db, cid)
    ensures TradingOk(SaveStatus(db, cid, status, event)) && RestingOk(SaveStatus(db, cid, status, event))
  {
    SameTradingKeepsTrading(db, SaveStatus(db, cid, status, event));
  }

  /** A status may be saved over a running challenge; only passing needs a reward beside it. */
  lemma StatusKeepsLifecycle(db: Db, cid: nat, status: ChallengeStatus, event: string)
    requires PaymentsOk(db) && RewardsOk(db) && cid < |db.challenges|
    requires db.challenges[cid].status.PENDING? || db.challenges[cid].status.ACTIVE?
    requires !status.PENDING?
    ensures var d := SaveStatus(db, cid, status, event);
            && PaymentsOk(d) && Later(db, d)
            && (!(status.PASSED_PENDING_REVIEW? || status.PASSED?) ==> RewardsOk(d))
  {
  }

  lemma PromoteKeeps(db: Db, cid: nat)
    requires Inv(db) && cid < |db.challenges| && (db.challenges[cid].status.PENDING? || db.challenges[cid].status.ACTIVE?)
    ensures var d := Promote(db, cid);
            Inv(d) && Later(db, d) && |d.challenges| == |db.challenges| && d.challenges[cid].status.ACTIVE?
  {
    if db.challenges[cid].status.PENDING? {
      StatusKeeps(db, cid, ACTIVE, "ACTIVATED");
      StatusKeepsLifecycle(db, cid, ACTIVE, "ACTIVATED");
    }
  }

  lemma FailKeeps(db: Db, cid: nat, env: Env)
    requires Inv(db) && cid < |db.challenges| && db.challenges[cid].status.ACTIVE?
    ensures var d := Fail(db, cid, env); Inv(d) && Later(db, d)
  {
    FreezeTrades(db, cid, "CHALLENGE_FAILED", env);
    var frozen := CancelOpen(Flatten(db, cid, None, env), cid, "CHALLENGE_FAILED");
    FailFrozen(db, frozen, cid);
  }

  lemma FailFrozen(db: Db, frozen: Db, cid: nat)
    requires PaymentsOk(db) && RewardsOk(db) && OnlyTraded(db, frozen) && TradingOk(frozen) && RestingOk(frozen)
    requires cid < |db.challenges| && db.challenges[cid].status.ACTIVE? && NoOpenOrders(frozen, cid)
    ensures var d := SaveStatus(frozen, cid, FAILED, "FAILED"); Inv(d) && Later(db, d)
  {
    TradingKeepsLifecycle(db, frozen);
    StatusKeeps(frozen, cid, FAILED, "FAILED");
    StatusKeepsLifecycle(frozen, cid, FAILED, "FAILED");
    LaterTransitive(db, frozen, SaveStatus(frozen, cid, FAILED, "FAILED"));
  }

  lemma {:induction false} PassKeeps(db: Db, cid: nat, finalEquity: int, env: Env)
    requires Inv(db) && cid < |db.challenges| && db.challenges[cid].status.ACTIVE?
    ensures var d := Pass(db, cid, finalEquity, env); Inv(d) && Later(db, d)
  {
    OnlyTradedReflexive(db);
    FreezeTrades(db, cid, "CHALLENGE_PASSED", env);
    var frozen := if env.freezeOnPass then CancelOpen(Flatten(db, cid, None, env), cid, "CHALLENGE_PASSED") else db;
    PassFrozen(db, frozen, cid, finalEquity);
  }

  lemma PassFrozen(db: Db, frozen: Db, cid: nat, finalEquity: int)
    requires PaymentsOk(db) && RewardsOk(db) && OnlyTraded(db, frozen) && TradingOk(frozen) && RestingOk(frozen)
    requires cid < |db.challenges| && db.challenges[cid].status.ACTIVE?
    ensures var d := GrantReward(SaveStatus(frozen, cid, PASSED_PENDING_REVIEW, "PASSED_PENDING_REVIEW"), cid,
                                 db.challenges[cid], finalEquity);
            Inv(d) && Later(db, d)
  {
    TradingKeepsLifecycle(db, frozen);
    StatusKeeps(frozen, cid, PASSED_PENDING_REVIEW, "PASSED_PENDING_REVIEW");
    StatusKeepsLifecycle(frozen, cid, PASSED_PENDING_REVIEW, "PASSED_PENDING_REVIEW");
    var saved := SaveStatus(frozen, cid, PASSED_PENDING_REVIEW, "PASSED_PENDING_REVIEW");
    LaterTransitive(db, frozen, saved);
    GrantKeeps(frozen, saved, cid, db.challenges[cid], finalEquity);
    LaterTransitive(db, saved, GrantReward(saved, cid, db.challenges[cid], finalEquity));
  }

  lemma {:induction false} GrantKeeps(frozen: Db, saved: Db, cid: nat, c: Challenge, finalEquity: int)
    requires RewardsOk(frozen) && cid < |frozen.challenges| && frozen.challenges[cid].status.ACTIVE?
    requires saved == SaveStatus(frozen, cid, PASSED_PENDING_REVIEW, "PASSED_PENDING_REVIEW")
    requires TradingOk(saved) && RestingOk(saved) && PaymentsOk(saved)
    ensures Inv(GrantReward(saved, cid, c, finalEquity)) && Later(saved, GrantReward(saved, cid, c, finalEquity))
  {
    var d := GrantReward(saved, cid, c, finalEquity);
    SameTradingKeepsTrading(saved, d);
    SamePurchasesKeepsPayments(saved, d);
    assert RewardsOk(d);
  }

  lemma EvaluateKeeps(db: Db, cid: nat, env: Env)
    requires Inv(db)
    ensures var d := Evaluate(db, cid, env).0; Inv(d) && Later(db, d)
  {
    if cid < |db.challenges| && (db.challenges[cid].status.PENDING? || db.challenges[cid].status.ACTIVE?) {
      PromoteKeeps(db, cid);
      var active := Promote(db, cid);
      EvaluateActiveKeeps(active, cid, env);
      LaterTransitive(db, active, EvaluateActive(active, cid, env).0);
    } else {
      LaterReflexive(db);
    }
  }

  lemma LaterReflexive(db: Db)
    ensures Later(db, db)
  {
  }

  lemma EvaluateActiveKeeps(active: Db, cid: nat, env: Env)
    requires Inv(active) && cid < |active.challenges| && active.challenges[cid].status.ACTIVE?
    ensures var d := EvaluateActive(active, cid, env).0; Inv(d) && Later(active, d)
  {
    var outcome := EvaluateActive(active, cid, env).1;
    match outcome
    case CONTINUE => LaterReflexive(active);
    case FAIL(_) => FailKeeps(active, cid, env);
    case PASS => PassKeeps(active, cid, MtmEquity(active, cid, active.challenges[cid].equity, env.cache), env);
  }

  // ---------- Purchases ----------

  lemma CreditCountAppend(es: seq<Entry>, e: Entry, pid: nat)
    ensures CreditCount(es + [e], pid) == CreditCount(es, pid) + if e.ref == PaymentRef(pid) then 1 else 0
  {
    assert (es + [e])[..|es|] == es;
  }

  lemma {:induction false} CreditCountZero(es: seq<Entry>, pid: nat)
    requires forall e :: e in es && e.ref.PaymentRef? ==> e.ref.paymentId < pid
    ensures CreditCount(es, pid) == 0
  {
    if es != [] {
      assert es[|es| - 1] in es;
      CreditCountZero(es[..|es| - 1], pid);
    }
  }

  lemma CreatePaymentKeepsPayments(db: Db, userId: nat, planId: nat, env: Env)
    requires PaymentsOk(db)
    ensures PaymentsOk(CreatePayment(db, userId, planId, env).0)
  {
    CreditCountZero(db.ledger, |db.payments|);
  }

  lemma CreatePaymentLater(db: Db, userId: nat, planId: nat, env: Env)
    ensures Later(db, CreatePayment(db, userId, planId, env).0)
  {
  }

  lemma CreatePaymentKeeps(db: Db, userId: nat, planId: nat, env: Env)
    requires Inv(db)
    ensures Inv(CreatePayment(db, userId, planId, env).0) && Later(db, CreatePayment(db, userId, planId, env).0)
  {
    CreatePaymentLater(db, userId, planId, env);
    SameTradingKeepsTrading(db, CreatePayment(db, userId, planId, env).0);
    CreatePaymentKeepsPayments(db, userId, planId, env);
  }

  lemma {:induction false} ActivateKeeps(db: Db, pid: nat, gatewayPaymentId: string, env: Env)
    requires Inv(db)
    ensures var d := Activate(db, pid, gatewayPaymentId, env).0; Inv(d) && Later(db, d)
  {
    var d := Activate(db, pid, gatewayPaymentId, env).0;
    ActivateLater(db, pid, gatewayPaymentId, env);
    if d != db {
      ActivateKeepsTrading(db, pid, gatewayPaymentId, env);
      ActivateKeepsPayments(db, pid, gatewayPaymentId, env);
    }
  }

  lemma ActivateLater(db: Db, pid: nat, gatewayPaymentId: string, env: Env)
    ensures Later(db, Activate(db, pid, gatewayPaymentId, env).0)
  {
  }

  lemma ActivateKeepsTrading(db: Db, pid: nat, gatewayPaymentId: string, env: Env)
    requires Inv(db) && Activate(db, pid, gatewayPaymentId, env).0 != db
    ensures TradingOk(Activate(db, pid, gatewayPaymentId, env).0)
  {
    var d, cid := Activate(db, pid, gatewayPaymentId, env).0, |db.challenges|;
    var c := d.challenges[cid];
    OpenAccountKeepsTrading(db, c, pid);
    SameTradingKeepsTrading(db.(challenges := db.challenges + [c],
                                ledger := db.ledger + [Entry(cid, CREDIT, c.capital, c.capital, PaymentRef(pid))]), d);
  }

  lemma ActivateKeepsPayments(db: Db, pid: nat, gatewayPaymentId: string, env: Env)
    requires Inv(db) && Activate(db, pid, gatewayPaymentId, env).0 != db
    ensures PaymentsOk(Activate(db, pid, gatewayPaymentId, env).0)
  {
    var d := Activate(db, pid, gatewayPaymentId, env).0;
    var e := d.ledger[|db.ledger|];
    forall p | 0 <= p < |d.payments|
      ensures CreditCount(d.ledger, p) == if Funded(d.payments[p]) then 1 else 0
    {
      CreditCountAppend(db.ledger, e, p);
    }
    forall c | 0 <= c < |d.challenges|
      ensures d.subscriptions[c].challengeId == c && d.subscriptions[c].paymentId < |d.payments|
      ensures d.payments[d.subscriptions[c].paymentId].challengeId == Some(c)
    {
      if c < |db.challenges| {
        assert d.subscriptions[c] == db.subscriptions[c];
      }
    }
  }

  lemma RefundKeepsTrading(db: Db, pid: nat)
    requires TradingOk(db) && RestingOk(db)
    ensures TradingOk(Refund(db, pid).0) && RestingOk(Refund(db, pid).0)
  {
    SameTradingKeepsTrading(db, Refund(db, pid).0);
  }

  /** Nothing that ties payments, subscriptions, challenges and credits together differs. */
  ghost predicate SamePurchases(a: Db, b: Db)
  {
    && |b.payments| == |a.payments| && |b.challenges| == |a.challenges| && |b.subscriptions| == |a.subscriptions|
    && b.ledger == a.ledger
    && (forall p :: 0 <= p < |a.payments| ==>
          && b.payments[p].challengeId == a.payments[p].challengeId
          && b.payments[p].subscriptionId == a.payments[p].subscriptionId
          && (Funded(b.payments[p]) <==> Funded(a.payments[p]))
          && (b.payments[p].status.CREATED? <==> a.payments[p].status.CREATED?))
    && (forall c :: 0 <= c < |a.subscriptions| ==>
          && b.subscriptions[c].challengeId == a.subscriptions[c].challengeId
          && b.subscriptions[c].paymentId == a.subscriptions[c].paymentId)
  }

  lemma SamePurchasesKeepsPayments(a: Db, b: Db)
    requires PaymentsOk(a) && SamePurchases(a, b)
    ensures PaymentsOk(b)
  {
  }

  lemma {:induction false} RefundSamePurchases(db: Db, pid: nat)
    requires PaymentsOk(db)
    ensures SamePurchases(db, Refund(db, pid).0)
  {
    if Refund(db, pid).1.Ok? {
      var p := db.payments[pid];
      var d1 := db.(payments := db.payments[pid := p.(status := REFUNDED)]);
      var d2 := WithdrawSubscription(d1, p);
      assert SamePurchases(db, d1);
      assert SamePurchases(d1, d2);
      assert SamePurchases(d2, ExpireUnfinished(d2, p));
      SamePurchasesChain(db, d1, d2);
      SamePurchasesChain(db, d2, Refund(db, pid).0);
    }
  }

  lemma SamePurchasesChain(a: Db, b: Db, c: Db)
    requires SamePurchases(a, b) && SamePurchases(b, c)
    ensures SamePurchases(a, c)
  {
  }

  lemma RefundKeepsRewards(db: Db, pid: nat)
    requires RewardsOk(db)
    ensures RewardsOk(Refund(db, pid).0)
  {
  }

  lemma RefundLater(db: Db, pid: nat)
    ensures Later(db, Refund(db, pid).0)
  {
    var d := Refund(db, pid).0;
    assert Appended(db, d);
    assert LaterPayments(db.payments, d.payments);
    assert LaterChallenges(db.challenges, d.challenges);
  }

  lemma {:induction false} RefundKeeps(db: Db, pid: nat)
    requires Inv(db)
    ensures Inv(Refund(db, pid).0) && Later(db, Refund(db, pid).0)
  {
    RefundKeepsTrading(db, pid);
    RefundSamePurchases(db, pid);
    SamePurchasesKeepsPayments(db, Refund(db, pid).0);
    RefundKeepsRewards(db, pid);
    RefundLater(db, pid);
  }

  // ---------- Rewards ----------

  /** The three transitions an admin has. */
  ghost predicate Review(to: RewardStatus, allowedFrom: set<RewardStatus>)
  {
    || (to == APPROVED && allowedFrom == {ELIGIBLE})
    || (to == DECLINED && allowedFrom == {ELIGIBLE, APPROVED})
    || (to == PAID && allowedFrom == {APPROVED})
  }

  lemma TransitionKeepsTrading(db: Db, cid: nat, to: RewardStatus, overrideAmount: Option<int>, allowedFrom: set<RewardStatus>)
    requires TradingOk(db) && RestingOk(db)
    ensures var d := TransitionReward(db, cid, to, overrideAmount, allowedFrom).0; TradingOk(d) && RestingOk(d)
  {
    SameTradingKeepsTrading(db, TransitionReward(db, cid, to, overrideAmount, allowedFrom).0);
  }

  lemma TransitionKeepsPayments(db: Db, cid: nat, to: RewardStatus, overrideAmount: Option<int>, allowedFrom: set<RewardStatus>)
    requires PaymentsOk(db)
    ensures PaymentsOk(TransitionReward(db, cid, to, overrideAmount, allowedFrom).0)
  {
  }

  lemma TransitionKeepsRewards(db: Db, cid: nat, to: RewardStatus, overrideAmount: Option<int>, allowedFrom: set<RewardStatus>)
    requires RewardsOk(db) && Review(to, allowedFrom)
    ensures RewardsOk(TransitionReward(db, cid, to, overrideAmount, allowedFrom).0)
  {
  }

  lemma TransitionLater(db: Db, cid: nat, to: RewardStatus, overrideAmount: Option<int>, allowedFrom: set<RewardStatus>)
    requires Review(to, allowedFrom)
    ensures Later(db, TransitionReward(db, cid, to, overrideAmount, allowedFrom).0)
  {
  }

  lemma {:induction false} TransitionKeeps(db: Db, cid: nat, to: RewardStatus, overrideAmount: Option<int>,
                                           allowedFrom: set<RewardStatus>)
    requires Inv(db) && Review(to, allowedFrom)
    ensures var d := TransitionReward(db, cid, to, overrideAmount, allowedFrom).0; Inv(d) && Later(db, d)
  {
    TransitionKeepsTrading(db, cid, to, overrideAmount, allowedFrom);
    TransitionKeepsPayments(db, cid, to, overrideAmount, allowedFrom);
    TransitionKeepsRewards(db, cid, to, overrideAmount, allowedFrom);
    TransitionLater(db, cid, to, overrideAmount, allowedFrom);
  }

  // ---------- Every run ----------

  lemma AnchorLater(db: Db, cid: nat, amount: int)
    ensures Later(db, SetDayStart(db, cid, amount))
  {
  }

  lemma AnchorKeepsTrading(db: Db, cid: nat, amount: int)
    requires TradingOk(db) && RestingOk(db)
    ensures TradingOk(SetDayStart(db, cid, amount)) && RestingOk(SetDayStart(db, cid, amount))
  {
    SameTradingKeepsTrading(db, SetDayStart(db, cid, amount));
  }

  lemma AnchorKeepsPurchases(db: Db, cid: nat, amount: int)
    requires PaymentsOk(db)
    ensures PaymentsOk(SetDayStart(db, cid, amount))
  {
    SamePurchasesKeepsPayments(db, SetDayStart(db, cid, amount));
  }

  lemma AnchorKeepsRewards(db: Db, cid: nat, amount: int)
    requires RewardsOk(db)
    ensures RewardsOk(SetDayStart(db, cid, amount))
  {
  }

  lemma AnchorKeeps(db: Db, cid: nat, amount: int)
    requires Inv(db)
    ensures Inv(SetDayStart(db, cid, amount)) && Later(db, SetDayStart(db, cid, amount))
  {
    AnchorKeepsTrading(db, cid, amount);
    AnchorKeepsPurchases(db, cid, amount);
    AnchorKeepsRewards(db, cid, amount);
    AnchorLater(db, cid, amount);
  }

  lemma TradingStepKeeps(db: Db, d: Db)
    requires Inv(db) && TradingOk(d) && RestingOk(d) && OnlyTraded(db, d)
    ensures Inv(d) && Later(db, d)
  {
    TradingKeepsLifecycle(db, d);
  }

  lemma {:induction false} PlaceKeeps(db: Db, cmd: Command, env: Env)
    requires Inv(db)
    ensures Inv(PlaceOrder(db, cmd, env).0) && Later(db, PlaceOrder(db, cmd, env).0)
  {
    PlaceTrades(db, cmd, env);
    TradingStepKeeps(db, PlaceOrder(db, cmd, env).0);
  }

  lemma {:induction false} CancelKeeps(db: Db, userId: nat, oid: nat)
    requires Inv(db)
    ensures Inv(CancelOrder(db, userId, oid).0) && Later(db, CancelOrder(db, userId, oid).0)
  {
    CancelTrades(db, userId, oid);
    TradingStepKeeps(db, CancelOrder(db, userId, oid).0);
  }

  lemma {:induction false} TickKeeps(db: Db, oid: nat, quote: Quote, env: Env)
    requires Inv(db)
    ensures Inv(TickOrder(db, oid, quote, env)) && Later(db, TickOrder(db, oid, quote, env))
  {
    TickTrades(db, oid, quote, env);
    TradingStepKeeps(db, TickOrder(db, oid, quote, env));
  }

  lemma SquareOffKeeps(db: Db, cid: nat, env: Env)
    requires Inv(db)
    ensures Inv(Flatten(db, cid, Some(INTRADAY), env)) && Later(db, Flatten(db, cid, Some(INTRADAY), env))
  {
    FlattenTrades(db, cid, Some(INTRADAY), env);
    TradingStepKeeps(db, Flatten(db, cid, Some(INTRADAY), env));
  }

  lemma StepKeeps(db: Db, a: Action, env: Env)
    requires Inv(db)
    ensures Inv(Step(db, a, env)) && Later(db, Step(db, a, env))
  {
    match a
    case DoCreatePayment(u, p) => CreatePaymentKeeps(db, u, p, env);
    case DoActivate(p, g) => ActivateKeeps(db, p, g, env);
    case DoRefund(p) => RefundKeeps(db, p);
    case DoPlace(cmd) => PlaceKeeps(db, cmd, env);
    case DoCancel(u, o) => CancelKeeps(db, u, o);
    case DoTick(o, q) => TickKeeps(db, o, q, env);
    case DoSquareOff(c) => SquareOffKeeps(db, c, env);
    case DoEvaluate(c) => EvaluateKeeps(db, c, env);
    case DoAnchor(c, amount) => AnchorKeeps(db, c, amount);
    case DoApprove(c, o) => TransitionKeeps(db, c, APPROVED, o, {ELIGIBLE});
    case DoReject(c) => TransitionKeeps(db, c, DECLINED, None, {ELIGIBLE, APPROVED});
    case DoMarkPaid(c) => TransitionKeeps(db, c, PAID, None, {APPROVED});
  }

  /** What every call promises its caller: a consistent store stays consistent, and nothing recorded is undone. */
  ghost predicate Kept(a: Db, b: Db) { Inv(a) ==> Inv(b) && Later(a, b) }

  lemma PlaceIsKept(db: Db, cmd: Command, env: Env)
    ensures Kept(db, PlaceOrder(db, cmd, env).0)
  {
    if Inv(db) {
      PlaceKeeps(db, cmd, env);
    }
  }

  lemma CancelIsKept(db: Db, userId: nat, oid: nat)
    ensures Kept(db, CancelOrder(db, userId, oid).0)
  {
    if Inv(db) {
      CancelKeeps(db, userId, oid);
    }
  }

  lemma TickIsKept(db: Db, oid: nat, quote: Quote, env: Env)
    ensures Kept(db, TickOrder(db, oid, quote, env))
  {
    if Inv(db) {
      TickKeeps(db, oid, quote, env);
    }
  }

  lemma SquareOffIsKept(db: Db, cid: nat, env: Env)
    ensures Kept(db, Flatten(db, cid, Some(INTRADAY), env))
  {
    if Inv(db) {
      SquareOffKeeps(db, cid, env);
    }
  }

  lemma EvaluateIsKept(db: Db, cid: nat, env: Env)
    ensures Kept(db, Evaluate(db, cid, env).0)
  {
    if Inv(db) {
      EvaluateKeeps(db, cid, env);
    }
  }

  lemma CreatePaymentIsKept(db: Db, userId: nat, planId: nat, env: Env)
    ensures Kept(db, CreatePayment(db, userId, planId, env).0)
  {
    if Inv(db) {
      CreatePaymentKeeps(db, userId, planId, env);
    }
  }

  lemma ActivateIsKept(db: Db, pid: nat, gatewayPaymentId: string, env: Env)
    ensures Kept(db, Activate(db, pid, gatewayPaymentId, env).0)
  {
    if Inv(db) {
      ActivateKeeps(db, pid, gatewayPaymentId, env);
    }
  }

  lemma RefundIsKept(db: Db, pid: nat)
    ensures Kept(db, Refund(db, pid).0)
  {
    if Inv(db) {
      RefundKeeps(db, pid);
    }
  }

  lemma ApproveIsKept(db: Db, cid: nat, overrideAmount: Option<int>)
    ensures Kept(db, Approve(db, cid, overrideAmount).0)
  {
    if Inv(db) {
      TransitionKeeps(db, cid, APPROVED, overrideAmount, {ELIGIBLE});
    }
  }

  lemma RejectIsKept(db: Db, cid: nat)
    ensures Kept(db, Reject(db, cid).0)
  {
    if Inv(db) {
      TransitionKeeps(db, cid, DECLINED, None, {ELIGIBLE, APPROVED});
    }
  }

  lemma MarkPaidIsKept(db: Db, cid: nat)
    ensures Kept(db, MarkPaid(db, cid).0)
  {
    if Inv(db) {
      TransitionKeeps(db, cid, PAID, None, {APPROVED});
    }
  }

  lemma AnchorIsKept(db: Db, cid: nat, amount: int)
    ensures Kept(db, SetDayStart(db, cid, amount))
  {
    if Inv(db) {
      AnchorKeeps(db, cid, amount);
    }
  }

  lemma KeptTransitive(a: Db, b: Db, c: Db)
    requires Kept(a, b) && Kept(b, c)
    ensures Kept(a, c)
  {
    if Inv(a) {
      LaterTransitive(a, b, c);
    }
  }

  lemma KeptReflexive(db: Db)
    ensures Kept(db, db)
  {
    LaterReflexive(db);
  }

  lemma {:induction false} RunKeeps(calls: seq<(Action, Env)>)
    ensures Inv(Run(EMPTY_DB, calls))
  {
    if calls != [] {
      var n := |calls| - 1;
      RunKeeps(calls[..n]);
      StepKeeps(Run(EMPTY_DB, calls[..n]), calls[n].0, calls[n].1);
    }
  }

  /** Nothing recorded by any prefix of a run is undone by the rest of it. */
  lemma {:induction false} RunIsMonotone(calls: seq<(Action, Env)>, n: nat)
    requires n <= |calls|
    ensures Later(Run(EMPTY_DB, calls[..n]), Run(EMPTY_DB, calls))
    decreases |calls|
  {
    if n == |calls| {
      assert calls[..n] == calls;
    } else {
      var m := |calls| - 1;
      RunIsMonotone(calls[..m], n);
      assert calls[..m][..n] == calls[..n];
      RunKeeps(calls[..m]);
      StepKeeps(Run(EMPTY_DB, calls[..m]), calls[m].0, calls[m].1);
      LaterTransitive(Run(EMPTY_DB, calls[..n]), Run(EMPTY_DB, calls[..m]), Run(EMPTY_DB, calls));
    }
  }
}
