/** The promises the platform makes to an account holder, read off the run invariants. */
module PlatformTheorems {
  import opened Prelude
  import opened PositionMath
  import opened AccountBook
  import opened Platform
  import opened TradingInvariants
  import opened PlatformRuns
  import ChallengeRules

  type Calls = seq<(Action, Env)>

  /**
   * After any run, an account's equity is the sum of its ledger, the last balance written there, and the
   * opening capital plus every realized profit less every charge; its peak is the highest such value.
   */
  lemma {:induction false} EquityEqualsLedger(calls: Calls, cid: nat)
    requires cid < |Run(EMPTY_DB, calls).challenges|
    ensures var db := Run(EMPTY_DB, calls);
            var c, es, ts := db.challenges[cid], EntriesOf(db.ledger, cid), TradesOf(db.trades, cid);
            && |es| > 0 && Chained(es)
            && c.equity == SumAmounts(es) == es[|es| - 1].balanceAfter
            && c.equity == c.capital + TotalRealized(ts) - TotalCharges(ts)
            && c.realized == TotalRealized(ts) == SumRealized(db.positions, cid)
            && PeakOk(BookOf(db, cid))
  {
    RunKeeps(calls);
    EquityIsLedgerSum(BookOf(Run(EMPTY_DB, calls), cid));
  }

  /** However stale the listing a tick or a cancel acts on, an order is settled at most once, for good. */
  lemma {:induction false} OrdersSettleOnce(calls: Calls, n: nat, oid: nat)
    requires n <= |calls| && oid < |Run(EMPTY_DB, calls[..n]).orders|
    ensures var before, after := Run(EMPTY_DB, calls[..n]), Run(EMPTY_DB, calls);
            && oid < |after.orders|
            && TradeCount(after.trades, oid) <= 1
            && (TradeCount(after.trades, oid) == 1 <==> after.orders[oid].status == OrderStatus.FILLED)
            && (before.orders[oid].status != OrderStatus.OPEN ==> after.orders[oid] == before.orders[oid])
            && before.trades <= after.trades && before.ledger <= after.ledger
  {
    RunKeeps(calls);
    RunIsMonotone(calls, n);
  }

  /** A cancellation that succeeds is final: whatever follows, the order stays CANCELLED and never gets a trade. */
  lemma CancelledForGood(calls: Calls, userId: nat, oid: nat, env: Env, more: Calls)
    requires CancelOrder(Run(EMPTY_DB, calls), userId, oid).1.Ok?
    ensures var db, after := Run(EMPTY_DB, calls), Run(EMPTY_DB, calls + [(DoCancel(userId, oid), env)] + more);
            && oid < |db.orders| && oid < |after.orders|
            && after.orders[oid] == db.orders[oid].(status := OrderStatus.CANCELLED)
            && TradeCount(after.trades, oid) == 0
  {
    var cancelled := calls + [(DoCancel(userId, oid), env)];
    assert cancelled[..|cancelled| - 1] == calls;
    assert (cancelled + more)[..|cancelled|] == cancelled;
    OrdersSettleOnce(cancelled + more, |cancelled|, oid);
  }

  /** Once FAILED, a challenge stays FAILED and never again has an order resting in the market. */
  lemma FailedStaysClosed(calls: Calls, n: nat, cid: nat)
    requires n <= |calls| && cid < |Run(EMPTY_DB, calls[..n]).challenges|
    requires Run(EMPTY_DB, calls[..n]).challenges[cid].status == FAILED
    ensures var after := Run(EMPTY_DB, calls);
            cid < |after.challenges| && after.challenges[cid].status == FAILED && NoOpenOrders(after, cid)
  {
    RunKeeps(calls);
    RunIsMonotone(calls, n);
  }

  /**
   * Stop-losses and targets never fire: an order that is still OPEN is always a limit order, so the
   * trigger branch of the tick loop is unreachable and the last traded price never decides a fill.
   */
  lemma TriggersNeverFire(calls: Calls, oid: nat, quote: Quote, otherLtp: real, env: Env)
    requires oid < |Run(EMPTY_DB, calls).orders|
    ensures var o := Run(EMPTY_DB, calls).orders[oid];
            && TickFill(o, quote, env) == TickFill(o, quote.(ltp := otherLtp), env)
            && (TickFill(o, quote, env).Some? ==> TickFill(o, quote, env) == o.limitPricePaise)
  {
    RunKeeps(calls);
  }

  /**
   * A payment that was ever activated owns exactly one challenge, one subscription and one opening credit,
   * of exactly that challenge's capital; any other payment owns none. Refunding changes none of it.
   */
  lemma CreditedExactlyOnce(calls: Calls, pid: nat)
    requires pid < |Run(EMPTY_DB, calls).payments|
    ensures var db := Run(EMPTY_DB, calls);
            var p := db.payments[pid];
            && CreditCount(db.ledger, pid) == (if Funded(p) then 1 else 0)
            && (Funded(p) <==> p.challengeId.Some?)
            && |db.subscriptions| == |db.challenges|
            && (forall c: nat :: c < |db.subscriptions| ==>
                  db.subscriptions[c].challengeId == c
                  && (db.subscriptions[c].paymentId == pid <==> p.challengeId == Some(c)))
            && (forall e :: e in db.ledger && e.ref == PaymentRef(pid) ==> p.challengeId == Some(e.challengeId))
  {
    RunKeeps(calls);
  }

  /**
   * Activating again, however much later, by any route and with any later view of the plans, changes nothing and
   * names the same challenge, unless the payment was refunded: then it is refused.
   */
  lemma ActivationIsIdempotent(calls: Calls, pid: nat, g: string, env: Env, more: Calls, g': string, env': Env)
    requires Activate(Run(EMPTY_DB, calls), pid, g, env).1.Ok?
    ensures var later := Run(EMPTY_DB, calls + [(DoActivate(pid, g), env)] + more);
            && pid < |later.payments|
            && (later.payments[pid].status.ACTIVATED? || later.payments[pid].status.REFUNDED?)
            && Activate(later, pid, g', env') ==
                 (later, if later.payments[pid].status.REFUNDED? then Err(PAYMENT_TERMINAL)
                         else Activate(Run(EMPTY_DB, calls), pid, g, env).1)
  {
    var activated := calls + [(DoActivate(pid, g), env)];
    assert activated[..|activated| - 1] == calls;
    assert (activated + more)[..|activated|] == activated;
    RunKeeps(calls);
    RunKeeps(activated + more);
    RunIsMonotone(activated + more, |activated|);
  }

  /** A reward exists exactly while its challenge has passed; once approved or paid the challenge is PASSED for good. */
  lemma RewardFollowsChallenge(calls: Calls, n: nat, cid: nat)
    requires n <= |calls|
    ensures var before, after := Run(EMPTY_DB, calls[..n]), Run(EMPTY_DB, calls);
            && (cid in after.rewards <==>
                  (cid < |after.challenges|
                   && (after.challenges[cid].status.PASSED_PENDING_REVIEW? || after.challenges[cid].status.PASSED?)))
            && (cid in after.rewards && (after.rewards[cid].status.APPROVED? || after.rewards[cid].status.PAID?) ==>
                  after.challenges[cid].status.PASSED?)
            && (cid in before.rewards ==>
                  && cid in after.rewards && after.rewards[cid].computedAmount == before.rewards[cid].computedAmount
                  && (FinalReward(before.rewards[cid].status) ==> after.rewards[cid] == before.rewards[cid]))
  {
    RunKeeps(calls);
    RunIsMonotone(calls, n);
  }

  // ---------- Flattening ----------

  lemma {:induction false} LookupOfRow(rows: seq<PositionRow>, r: PositionRow)
    requires UniqueKeys(rows) && r in rows
    ensures Lookup(rows, r.key) == r.position
  {
    if rows[0] != r {
      assert r in rows[1..];
      LookupOfRow(rows[1..], r);
      var i :| 1 <= i < |rows| && rows[i] == r;
    }
  }

  lemma {:induction false} LookupIsRow(rows: seq<PositionRow>, k: PositionKey)
    requires Lookup(rows, k).netQty != 0
    ensures exists r :: r in rows && r.key == k && r.position == Lookup(rows, k)
  {
    if rows[0].key == k {
      assert rows[0] in rows;
    } else {
      LookupIsRow(rows[1..], k);
      var r :| r in rows[1..] && r.key == k && r.position == Lookup(rows[1..], k);
      assert r in rows;
    }
  }

  lemma {:induction false} OpenRowsUnique(rows: seq<PositionRow>, cid: nat, only: Option<Product>)
    requires UniqueKeys(rows)
    ensures UniqueKeys(OpenRows(rows, cid, only))
  {
    if rows != [] {
      OpenRowsUnique(rows[1..], cid, only);
      OpenRowsOpen(rows[1..], cid, only);
      var rest := OpenRows(rows[1..], cid, only);
      forall i | 0 <= i < |rest|
        ensures rest[i].key != rows[0].key
      {
        assert rest[i] in rest;
        var j :| 0 <= j < |rows[1..]| && rows[1..][j] == rest[i];
        assert rows[j + 1] == rest[i];
      }
    }
  }

  lemma CloseRowEffect(db: Db, row: PositionRow, userId: nat, env: Env, k: PositionKey)
    requires row.position.netQty != 0 && Lookup(db.positions, row.key) == row.position
    ensures var after := Lookup(CloseRow(db, row, userId, env).positions, k);
            if k == row.key && k.instrument in env.quotes then after.netQty == 0 else after == Lookup(db.positions, k)
  {
    if row.key.instrument in env.quotes {
      var o, placed := ExitOrder(row, userId), AddOrder(db, ExitOrder(row, userId));
      var price := MarketFillPricePaise(env.quotes[row.key.instrument], o.side, env.slippageBps);
      assert KeyOf(o) == row.key && SignedQty(o) == -row.position.netQty;
      UpsertLookup(db.positions, row.key, FillOf(placed, |db.orders|, price).position,
                   if o.side.BUY? then o.qty else 0, if o.side.BUY? then 0 else o.qty, k);
    }
  }

  lemma {:induction false} CloseRowsEffect(db: Db, rows: seq<PositionRow>, userId: nat, env: Env, k: PositionKey)
    requires UniqueKeys(rows)
    requires forall r :: r in rows ==> r.position.netQty != 0 && Lookup(db.positions, r.key) == r.position
    ensures var after := Lookup(CloseRows(db, rows, userId, env).positions, k);
            if (exists r :: r in rows && r.key == k) && k.instrument in env.quotes then after.netQty == 0
            else after == Lookup(db.positions, k)
    decreases |rows|
  {
    if rows != [] {
      var d := CloseRow(db, rows[0], userId, env);
      forall r | r in rows[1..]
        ensures Lookup(d.positions, r.key) == r.position && r.key != rows[0].key
      {
        var i :| 1 <= i < |rows| && rows[i] == r;
        CloseRowEffect(db, rows[0], userId, env, r.key);
      }
      CloseRowsEffect(d, rows[1..], userId, env, k);
      CloseRowEffect(db, rows[0], userId, env, k);
      assert rows == [rows[0]] + rows[1..];
    }
  }

  /**
   * Flattening closes exactly the positions it should: every selected position whose instrument has a
   * quote ends flat, and no other position of any account changes.
   */
  lemma FlattenCloses(db: Db, cid: nat, only: Option<Product>, env: Env, k: PositionKey)
    requires UniqueKeys(db.positions) && cid < |db.challenges|
    ensures var after := Lookup(Flatten(db, cid, only, env).positions, k);
            if k.challengeId == cid && (only.None? || k.product == only.value) && k.instrument in env.quotes
            then after.netQty == 0 else after == Lookup(db.positions, k)
  {
    var rows := OpenRows(db.positions, cid, only);
    OpenRowsOpen(db.positions, cid, only);
    OpenRowsUnique(db.positions, cid, only);
    forall r | r in rows
      ensures Lookup(db.positions, r.key) == r.position
    {
      LookupOfRow(db.positions, r);
    }
    CloseRowsEffect(db, rows, db.challenges[cid].userId, env, k);
    if Lookup(db.positions, k).netQty != 0 {
      LookupIsRow(db.positions, k);
    }
  }

  /** Whenever an evaluation fails a challenge it leaves no open order and no open position that can be priced. */
  lemma FailureFlattens(calls: Calls, cid: nat, env: Env, k: PositionKey)
    requires var r := Evaluate(Run(EMPTY_DB, calls), cid, env).1; r.Some? && r.value.FAIL?
    requires k.challengeId == cid && k.instrument in env.quotes
    ensures var d := Evaluate(Run(EMPTY_DB, calls), cid, env).0;
            && NoOpenOrders(d, cid) && cid < |d.challenges| && d.challenges[cid].status == FAILED
            && Lookup(d.positions, k).netQty == 0
  {
    RunKeeps(calls);
    var active := Promote(Run(EMPTY_DB, calls), cid);
    PromoteKeeps(Run(EMPTY_DB, calls), cid);
    FreezeTrades(active, cid, "CHALLENGE_FAILED", env);
    FlattenCloses(active, cid, None, env, k);
  }

  // ---------- Why the evaluator may hold an older copy ----------

  /**
   * The evaluator reads the challenge before `forceFlatten` settles through fresh copies. Saving only the
   * modified fields is essential: writing the whole older document back would keep the books right if and
   * only if the flattening moved no money.
   */
  lemma WholeDocumentSaveWouldLoseFills(db: Db, cid: nat, env: Env, status: ChallengeStatus)
    requires TradingOk(db) && RestingOk(db) && cid < |db.challenges|
    ensures var flat := Flatten(db, cid, None, env);
            && |flat.challenges| == |db.challenges|
            && (BookOk(BookOf(flat.(challenges := flat.challenges[cid := db.challenges[cid].(status := status)]), cid))
                <==> SameMoney(db.challenges[cid], flat.challenges[cid]))
  {
    FlattenTrades(db, cid, None, env);
    var flat := Flatten(db, cid, None, env);
    var stale := BookOf(flat.(challenges := flat.challenges[cid := db.challenges[cid].(status := status)]), cid);
    var right := BookOf(flat, cid);
    assert OnlyMoney(db.challenges[cid], flat.challenges[cid]);
    if BookOk(stale) {
      PeakIsUnique(stale, right);
    }
  }

  lemma PeakIsUnique(a: Book, b: Book)
    requires PeakOk(a) && PeakOk(b) && a.trades == b.trades && a.capital == b.capital
    ensures a.peak == b.peak
  {
    var i: nat :| i <= |a.trades| && EquityAfter(a, i) == a.peak;
    var j: nat :| j <= |b.trades| && EquityAfter(b, j) == b.peak;
    assert EquityAfter(b, i) == EquityAfter(a, i) && EquityAfter(a, j) == EquityAfter(b, j);
  }
}
