/**
 * What holds of an account however its locked calls interleave, and what a section that outlives its lease would do
 * to it.
 */
module LockedRuns {
  import opened Prelude
  import opened PositionMath
  import opened AccountBook
  import opened Platform
  import opened TradingInvariants
  import opened PlatformRuns
  import opened LockedCalls
  import ChallengeRules
  import LeaseLock

  // ---------- What every section keeps ----------

  /** A locked tick, cancellation, placement, square-off or evaluation, of anything. */
  ghost predicate Locked(s: LockSection)
  {
    || (exists oid, quote, env :: s == TickSection(s.key, s.ttl, oid, quote, env))
    || (exists userId, oid :: s == CancelSection(s.key, s.ttl, userId, oid))
    || (exists cmd, env :: s == PlaceSection(s.key, s.ttl, cmd, env))
    || (exists cid, only, n, env :: s == CloseSection(s.key, s.ttl, cid, only, n, env))
    || (exists cid, n, env :: s == EvaluateSection(s.key, s.ttl, cid, n, env))
  }

  ghost predicate AccountOk(db: Db) { TradingOk(db) && RestingOk(db) }

  /** Nothing recorded is undone, and payments and subscriptions are not touched. */
  ghost predicate Grown(a: Db, b: Db)
  {
    && Appended(a, b) && LaterChallenges(a.challenges, b.challenges)
    && b.payments == a.payments && b.subscriptions == a.subscriptions
  }

  ghost predicate Keeps(a: Db, b: Db) { AccountOk(b) && Grown(a, b) }

  lemma GrownTransitive(a: Db, b: Db, c: Db)
    requires Grown(a, b) && Grown(b, c)
    ensures Grown(a, c)
  {
  }

  lemma TradedIsGrown(a: Db, b: Db)
    requires OnlyTraded(a, b)
    ensures Grown(a, b)
  {
  }

  lemma CloseSomeKeeps(db: Db, cid: nat, only: Option<Product>, n: nat, env: Env)
    requires AccountOk(db)
    ensures var d := CloseSome(db, cid, only, n, env); AccountOk(d) && OnlyTraded(db, d)
  {
    if cid < |db.challenges| {
      var rows := OpenRows(db.positions, cid, only);
      OpenRowsOpen(db.positions, cid, only);
      assert forall r :: r in rows[..Min(n, |rows|)] ==> r in rows;
      CloseRowsTrades(db, rows[..Min(n, |rows|)], db.challenges[cid].userId, env);
    } else {
      OnlyTradedReflexive(db);
    }
  }

  /** An outcome other than CONTINUE, over what closing and cancelling left. */
  lemma SaveOutcomeKeeps(db: Db, cid: nat, status: ChallengeStatus, event: string)
    requires AccountOk(db) && cid < |db.challenges| && db.challenges[cid].status.ACTIVE? && !status.PENDING?
    requires status == FAILED ==> NoOpenOrders(db, cid)
    ensures Keeps(db, SaveStatus(db, cid, status, event))
  {
    StatusKeeps(db, cid, status, event);
  }

  lemma GrantKeepsAccount(db: Db, cid: nat, c: Challenge, finalEquity: int)
    requires AccountOk(db)
    ensures Keeps(db, GrantReward(db, cid, c, finalEquity))
  {
    SameTradingKeepsTrading(db, GrantReward(db, cid, c, finalEquity));
  }

  /** The frozen account an outcome is saved over. */
  lemma ClosedKeeps(db: Db, cid: nat, n: nat, env: Env, l: Held)
    requires AccountOk(db) && l.reviewed.Some?
    ensures var closed := if Closing(l, env) then CloseSome(db, cid, None, n, env) else db;
            var d := CancelIfClosing(cid, env, l, closed).1;
            AccountOk(d) && OnlyTraded(db, d) && (Closing(l, env) ==> NoOpenOrders(d, cid))
  {
    if Closing(l, env) {
      var closed := CloseSome(db, cid, None, n, env);
      CloseSomeKeeps(db, cid, None, n, env);
      var reason := if l.outcome.FAIL? then "CHALLENGE_FAILED" else "CHALLENGE_PASSED";
      CancelOpenTrades(closed, cid, reason);
      OnlyTradedTransitive(db, closed, CancelOpen(closed, cid, reason));
    } else {
      OnlyTradedReflexive(db);
    }
  }

  lemma EndedKeeps(db: Db, cid: nat, n: nat, env: Env, l: Held)
    requires AccountOk(db) && l.reviewed.Some? && cid < |db.challenges| && db.challenges[cid].status.ACTIVE?
    ensures var closed := if Closing(l, env) then CloseSome(db, cid, None, n, env) else db;
            Keeps(db, Ended(cid, env, l, closed).1)
  {
    ClosedKeeps(db, cid, n, env, l);
    var closed := if Closing(l, env) then CloseSome(db, cid, None, n, env) else db;
    var frozen := CancelIfClosing(cid, env, l, closed).1;
    var saved := SaveOutcome(cid, l, frozen).1;
    TradedIsGrown(db, frozen);
    if l.outcome.FAIL? {
      SaveOutcomeKeeps(frozen, cid, FAILED, "FAILED");
      GrownTransitive(db, frozen, saved);
    } else if l.outcome.PASS? {
      SaveOutcomeKeeps(frozen, cid, PASSED_PENDING_REVIEW, "PASSED_PENDING_REVIEW");
      GrownTransitive(db, frozen, saved);
      GrantKeepsAccount(saved, cid, l.reviewed.value, l.mtm);
      GrownTransitive(db, saved, GrantReward(saved, cid, l.reviewed.value, l.mtm));
    }
  }

  lemma PromoteKeepsAccount(db: Db, cid: nat)
    requires AccountOk(db) && cid < |db.challenges| && (db.challenges[cid].status.PENDING? || db.challenges[cid].status.ACTIVE?)
    ensures Keeps(db, Promote(db, cid))
    ensures cid < |Promote(db, cid).challenges| && Promote(db, cid).challenges[cid].status.ACTIVE?
  {
    OnlyTradedReflexive(db);
    TradedIsGrown(db, db);
    if db.challenges[cid].status.PENDING? {
      StatusKeeps(db, cid, ACTIVE, "ACTIVATED");
    }
  }

  lemma EvaluateSomeKeeps(db: Db, cid: nat, n: nat, env: Env)
    requires AccountOk(db)
    ensures Keeps(db, EvaluateSome(db, cid, n, env))
  {
    OnlyTradedReflexive(db);
    TradedIsGrown(db, db);
    if cid < |db.challenges| && (db.challenges[cid].status.PENDING? || db.challenges[cid].status.ACTIVE?) {
      var active := Promote(db, cid);
      ReviewedIsEvaluate(db, cid, env);
      PromoteKeepsAccount(db, cid);
      EndedKeeps(active, cid, n, env, Reviewed(cid, env, db).0);
      GrownTransitive(db, active, EvaluateSome(db, cid, n, env));
    }
  }

  const SOME_ENV := Env(0, "", map[], map[], 0.0, ChargeModel(0, 0.0), {}, map[], map[], {}, false, false)

  lemma CallKeepsAccount(s: LockSection, a: Action, env: Env, db: Db)
    requires CarriesOut(s, a, env) && (a.DoTick? || a.DoCancel? || a.DoPlace?) && AccountOk(db)
    ensures Keeps(db, Alone(s, db))
  {
    assert Alone(s, db) == Step(db, a, env);
    match a {
      case DoTick(oid, quote) => TickTrades(db, oid, quote, env);
      case DoCancel(userId, oid) => CancelTrades(db, userId, oid);
      case DoPlace(cmd) => PlaceTrades(db, cmd, env);
    }
    TradedIsGrown(db, Step(db, a, env));
  }

  lemma LockedKeepsAccount(s: LockSection, db: Db)
    requires Locked(s) && AccountOk(db)
    ensures Keeps(db, Alone(s, db))
  {
    if oid, quote, env :| s == TickSection(s.key, s.ttl, oid, quote, env) {
      TickSectionTicks(s.key, s.ttl, oid, quote, env);
      CallKeepsAccount(s, DoTick(oid, quote), env, db);
    } else if userId, oid :| s == CancelSection(s.key, s.ttl, userId, oid) {
      CancelSectionCancels(s.key, s.ttl, userId, oid, SOME_ENV);
      CallKeepsAccount(s, DoCancel(userId, oid), SOME_ENV, db);
    } else if cmd, env :| s == PlaceSection(s.key, s.ttl, cmd, env) {
      PlaceSectionPlaces(s.key, s.ttl, cmd, env);
      CallKeepsAccount(s, DoPlace(cmd), env, db);
    } else if cid, only, n, env :| s == CloseSection(s.key, s.ttl, cid, only, n, env) {
      CloseSectionCloses(s.key, s.ttl, cid, only, n, env, db);
      CloseSomeKeeps(db, cid, only, n, env);
      TradedIsGrown(db, CloseSome(db, cid, only, n, env));
    } else {
      var cid, n, env :| s == EvaluateSection(s.key, s.ttl, cid, n, env);
      EvaluateSectionEvaluates(s.key, s.ttl, cid, n, env, db);
      EvaluateSomeKeeps(db, cid, n, env);
    }
  }

  ghost predicate OnlyLocked(moves: seq<LockMove>) { forall m :: m in moves && m.TryAcquire? ==> Locked(m.section) }

  lemma {:induction false} SerialKeepsAccount(db: Db, log: seq<LeaseLock.Executed<Db, Held>>)
    requires AccountOk(db) && LeaseLock.AllComplete(log) && LeaseLock.Sensible(log)
    requires forall i :: 0 <= i < |log| ==> Locked(log[i].section)
    ensures Keeps(db, LeaseLock.Serial(db, log))
  {
    if log == [] {
      OnlyTradedReflexive(db);
      TradedIsGrown(db, db);
    } else {
      var n := |log| - 1;
      SerialKeepsAccount(db, log[..n]);
      LockedKeepsAccount(log[n].section, LeaseLock.Serial(db, log[..n]));
      GrownTransitive(db, LeaseLock.Serial(db, log[..n]), LeaseLock.Serial(db, log));
    }
  }

  /**
   * However the steps of locked ticks, cancellations, placements, square-offs and evaluations of any accounts
   * interleave, as long as none works past its lease or is abandoned: an account nobody is inside has one trade
   * for every FILLED order and none for any other, positions and equity that are the sums over its trades and
   * ledger, and nothing recorded in it before was undone.
   */
  lemma LockedRunsKeepAccounts(accounts: map<LeaseLock.Key, Db>, moves: seq<LockMove>, k: LeaseLock.Key)
    requires LeaseLock.Timely(LeaseLock.Initial<Db, Held>(accounts), moves)
    requires LeaseLock.Finishing(LeaseLock.Initial<Db, Held>(accounts), moves)
    requires OnlyLocked(moves) && k in accounts && AccountOk(accounts[k])
    requires forall a :: a in LeaseLock.Run(LeaseLock.Initial<Db, Held>(accounts), moves).inside ==>
               LeaseLock.Run(LeaseLock.Initial<Db, Held>(accounts), moves).inside[a].section.key != k
    ensures var s := LeaseLock.Run(LeaseLock.Initial<Db, Held>(accounts), moves);
            && k in s.accounts
            && Books(s.accounts[k]) && OneTradePerFill(s.accounts[k]) && PositionsOk(s.accounts[k]) && RestingOk(s.accounts[k])
            && Grown(accounts[k], s.accounts[k])
  {
    LeaseLock.SingleWriterPerAccount(accounts, moves, k);
    LeaseLock.TimelyRunsAreSerial(accounts, moves);
    LeaseLock.LoggedWasBrought(accounts, moves);
    var log := LeaseLock.Run(LeaseLock.Initial<Db, Held>(accounts), moves).log[k];
    forall i | 0 <= i < |log|
      ensures Locked(log[i].section)
    {
      var j :| 0 <= j < |moves| && moves[j].TryAcquire? && moves[j].section == log[i].section;
      assert moves[j] in moves;
    }
    SerialKeepsAccount(accounts[k], log);
  }

  // ---------- Why the lease must outlive the section ----------

  lemma SumAppend(es: seq<Entry>, e: Entry)
    ensures SumAmounts(es + [e]) == SumAmounts(es) + e.amount
  {
    assert (es + [e])[..|es|] == es;
  }

  lemma SettlementSum(es: seq<Entry>, t: Trade, balance: int)
    ensures SumAmounts(es + SettlementEntries(t, balance)) == SumAmounts(es) + t.realized - t.charges
  {
    var pnl, charges := PnlEntries(t, balance), ChargeEntries(t, balance + t.realized);
    assert es + (pnl + charges) == (es + pnl) + charges;
    assert es + [] == es && (es + pnl) + [] == es + pnl;
    if pnl != [] {
      SumAppend(es, pnl[0]);
    }
    if charges != [] {
      SumAppend(es + pnl, charges[0]);
    }
  }

  /** What a settlement adds to the sum of its account's ledger. */
  lemma LedgerSumAfter(db: Db, oid: nat, price: int, env: Env)
    requires oid < |db.orders| && db.orders[oid].challengeId < |db.challenges|
    ensures var cid, t := db.orders[oid].challengeId, TradeOf(db, oid, price, env);
            SumAmounts(EntriesOf(Settle(db, oid, price, env).ledger, cid)) ==
              SumAmounts(EntriesOf(db.ledger, cid)) + t.realized - t.charges
  {
    var cid, t := db.orders[oid].challengeId, TradeOf(db, oid, price, env);
    SettleWrites(db, oid, price, env, cid);
    SettlementSum(EntriesOf(db.ledger, cid), t, db.challenges[cid].equity);
  }

  lemma LateSaveMoney(held: Held, env: Env, stalled: Db, other: nat, price: int, env': Env)
    requires other < |stalled.orders| && held.order.Some? && held.challenge.Some?
    requires held.order.value.challengeId == stalled.orders[other].challengeId < |stalled.challenges|
    requires held.balance == SumAmounts(EntriesOf(stalled.ledger, held.order.value.challengeId))
    ensures var final := SaveChallenge(env, held, Settle(stalled, other, price, env')).1;
            var cid := held.order.value.challengeId;
            var t := TradeOf(stalled, other, price, env');
            && cid < |final.challenges|
            && (final.challenges[cid].equity == SumAmounts(EntriesOf(final.ledger, cid)) <==> t.realized == t.charges)
  {
    LedgerSumAfter(stalled, other, price, env');
  }

  /** A tick just before its save: it holds the ledger's sum as the balance, and no other order has changed. */
  lemma StalledHolds(oid: nat, quote: Quote, env: Env, db: Db, other: nat)
    requires AccountOk(db) && oid < |db.orders| && other < |db.orders| && other != oid
    requires TickFill(db.orders[oid], quote, env).Some?
    ensures var (held, stalled) := Prepared(env, ReadOrder(oid, quote, env, NOTHING, db).0, db);
            var cid := db.orders[oid].challengeId;
            && held.order == Some(db.orders[oid]) && held.challenge.Some?
            && held.balance == SumAmounts(EntriesOf(stalled.ledger, cid))
            && other < |stalled.orders| && stalled.orders[other] == db.orders[other]
            && cid < |stalled.challenges|
  {
    var cid, l := db.orders[oid].challengeId, ReadOrder(oid, quote, env, NOTHING, db).0;
    assert db.orders[oid] in db.orders;
    PreparedIsSettled(env, l, db);
    LedgerSumAfter(db, oid, l.price, env);
    EquityIsLedgerSum(BookOf(db, cid));
  }

  /** A tick with everything written but the challenge. */
  lemma StalledTick(key: LeaseLock.Key, ttl: nat, oid: nat, quote: Quote, env: Env, db: Db)
    ensures LeaseLock.RunAlone(TickSection(key, ttl, oid, quote, env), db, 9) ==
              Prepared(env, ReadOrder(oid, quote, env, NOTHING, db).0, db)
  {
    var s := TickSection(key, ttl, oid, quote, env);
    var read := (l: Held, db: Db) => ReadOrder(oid, quote, env, l, db);
    RunAloneIsExec(s, db, 9);
    assert s.body[..9] == [read] + Preparing(env);
    ExecConcat([read], Preparing(env), NOTHING, db);
    ExecOne(read, NOTHING, db);
    ExecPreparing(env, ReadOrder(oid, quote, env, NOTHING, db).0, db);
  }

  lemma Overtake(key: LeaseLock.Key, ttl: nat, other: nat, quote: Quote, env: Env, db: Db)
    requires other < |db.orders| && TickFill(db.orders[other], quote, env).Some?
    ensures Alone(TickSection(key, ttl, other, quote, env), db) ==
              Settle(db, other, TickFill(db.orders[other], quote, env).value, env)
  {
    TickSectionTicks(key, ttl, other, quote, env);
    assert Alone(TickSection(key, ttl, other, quote, env), db) == Step(db, DoTick(other, quote), env);
  }

  /**
   * Had a tick stalled past its lease just before saving the challenge, and a tick for another order of the account
   * been granted the lock and completed meanwhile, the late save would leave equity equal to the ledger sum if and
   * only if the other tick moved no money.
   */
  lemma LateSaveLosesUpdate(key: LeaseLock.Key, ttl: nat, oid: nat, quote: Quote, env: Env, other: nat, quote': Quote,
                            env': Env, db: Db)
    requires AccountOk(db) && oid < |db.orders| && other < |db.orders| && other != oid
    requires TickFill(db.orders[oid], quote, env).Some? && TickFill(db.orders[other], quote', env').Some?
    requires db.orders[other].challengeId == db.orders[oid].challengeId
    ensures var (held, stalled) := LeaseLock.RunAlone(TickSection(key, ttl, oid, quote, env), db, 9);
            var overtaken := Alone(TickSection(key, ttl, other, quote', env'), stalled);
            var final, cid := SaveChallenge(env, held, overtaken).1, db.orders[oid].challengeId;
            && other < |stalled.orders| && cid < |final.challenges|
            && var t := TradeOf(stalled, other, TickFill(db.orders[other], quote', env').value, env');
               final.challenges[cid].equity == SumAmounts(EntriesOf(final.ledger, cid)) <==> t.realized == t.charges
  {
    StalledTick(key, ttl, oid, quote, env, db);
    StalledHolds(oid, quote, env, db, other);
    var (held, stalled) := Prepared(env, ReadOrder(oid, quote, env, NOTHING, db).0, db);
    Overtake(key, ttl, other, quote', env', stalled);
    LateSaveMoney(held, env, stalled, other, TickFill(db.orders[other], quote', env').value, env');
  }
}
