/**
 * Trading calls as the account lock sees them: every read and every write of a document is a step of its own, for
 * ticks, cancellations, placements, square-off and evaluation, the five calls that take the lock. The documents of an
 * account live under its key.
 */
module LockedCalls {
  import opened Prelude
  import opened PositionMath
  import opened AccountBook
  import opened Platform
  import opened TradingInvariants
  import opened PlatformRuns
  import ChallengeRules
  import LeaseLock

  type LockSection = LeaseLock.Section<Db, Held>

  type LockMove = LeaseLock.Move<Db, Held>

  /**
   * What a section holds in memory between its steps: the order it settles, if any, with its price, fill, challenge
   * and running balance; the positions it has still to close, and for whom; whether a placement was accepted; the
   * challenge under evaluation, if any, with its marked equity and the outcome.
   */
  datatype Held = Held(oid: nat, order: Option<Order>, price: int, fill: FillResult, challenge: Option<Challenge>,
                       balance: int, rows: seq<PositionRow>, userId: nat, accepted: bool,
                       reviewed: Option<Challenge>, mtm: int, outcome: ChallengeRules.Outcome)

  const NOTHING := Held(0, None, 0, FillResult(FLAT, 0), None, 0, [], 0, false, None, 0, ChallengeRules.CONTINUE)

  type Memory = (Held, Db)

  type Moment = (Held, Db) -> Memory

  // ---------- Steps one after another ----------

  ghost function Exec(steps: seq<Moment>, l: Held, db: Db): Memory
  {
    if steps == [] then (l, db)
    else
      var n := |steps| - 1;
      var (m, d) := Exec(steps[..n], l, db);
      steps[n](m, d)
  }

  lemma {:induction false} RunAloneIsExec(s: LockSection, db: Db, n: nat)
    requires n <= |s.body|
    ensures LeaseLock.RunAlone(s, db, n) == Exec(s.body[..n], s.start, db)
  {
    if n > 0 {
      RunAloneIsExec(s, db, n - 1);
      assert s.body[..n][..n - 1] == s.body[..n - 1];
    }
  }

  lemma {:induction false} ExecConcat(a: seq<Moment>, b: seq<Moment>, l: Held, db: Db)
    ensures Exec(a + b, l, db) == var (m, d) := Exec(a, l, db); Exec(b, m, d)
    decreases |b|
  {
    if b == [] {
      assert a + b == a;
    } else {
      var n := |b| - 1;
      ExecConcat(a, b[..n], l, db);
      assert (a + b)[..|a| + n] == a + b[..n];
    }
  }

  lemma ExecOne(f: Moment, l: Held, db: Db)
    ensures Exec([f], l, db) == f(l, db)
  {
    assert [f][..0] == [];
    assert Exec([f][..0], l, db) == (l, db);
  }

  ghost function Then(p: Memory, f: Moment): Memory { f(p.0, p.1) }

  lemma ExecThree(f: Moment, g: Moment, h: Moment, l: Held, db: Db)
    ensures Exec([f, g], l, db) == Then(f(l, db), g)
    ensures Exec([f, g, h], l, db) == Then(Then(f(l, db), g), h)
  {
    ExecOne(f, l, db);
    assert [f, g][..1] == [f];
    assert [f, g, h][..2] == [f, g];
  }

  // ---------- Settling the order that is held ----------

  function ReadPosition(l: Held, db: Db): Memory
  {
    if l.order.None? then (l, db)
    else
      var o := l.order.value;
      (l.(fill := ApplyFill(Lookup(db.positions, KeyOf(o)), SignedQty(o), l.price)), db)
  }

  function WritePosition(l: Held, db: Db): Memory
  {
    if l.order.None? then (l, db)
    else
      var o := l.order.value;
      (l, db.(positions := Upsert(db.positions, KeyOf(o), l.fill.position, if o.side.BUY? then o.qty else 0,
                                  if o.side.BUY? then 0 else o.qty)))
  }

  function WriteHolding(l: Held, db: Db): Memory
  {
    if l.order.None? || !l.order.value.product.CARRY_FORWARD? then (l, db)
    else
      var o := l.order.value;
      (l, db.(holdings := db.holdings[HoldingKey(o.challengeId, o.instrument) :=
                Holding(l.fill.position.netQty, l.fill.position.avgPricePaise)]))
  }

  function HeldTrade(env: Env, l: Held): Trade
    requires l.order.Some?
  {
    var o := l.order.value;
    Trade(l.oid, o.challengeId, o.instrument, o.side, o.qty, l.price, ComputeChargesPaise(l.price, o.qty, env.chargeModel),
          l.fill.realizedDeltaPaise)
  }

  function CreateTrade(env: Env, l: Held, db: Db): Memory
  {
    if l.order.None? then (l, db) else (l, db.(trades := db.trades + [HeldTrade(env, l)]))
  }

  function SaveOrder(env: Env, l: Held, db: Db): Memory
  {
    if l.order.None? || l.oid >= |db.orders| then (l, db)
    else
      (l, db.(orders := db.orders[l.oid :=
                db.orders[l.oid].(status := OrderStatus.FILLED, filledPricePaise := Some(l.price),
                                  chargesPaise := Some(HeldTrade(env, l).charges))]))
  }

  function ReadChallenge(l: Held, db: Db): Memory
  {
    if l.order.None? || l.order.value.challengeId >= |db.challenges| then (l.(challenge := None), db)
    else
      var c := db.challenges[l.order.value.challengeId];
      (l.(challenge := Some(c), balance := c.equity), db)
  }

  function AppendPnl(env: Env, l: Held, db: Db): Memory
  {
    if l.order.None? || l.challenge.None? then (l, db)
    else
      var t := HeldTrade(env, l);
      (l.(balance := l.balance + t.realized), db.(ledger := db.ledger + PnlEntries(t, l.balance)))
  }

  function AppendCharge(env: Env, l: Held, db: Db): Memory
  {
    if l.order.None? || l.challenge.None? then (l, db)
    else
      var t := HeldTrade(env, l);
      (l.(balance := l.balance - t.charges), db.(ledger := db.ledger + ChargeEntries(t, l.balance)))
  }

  /** Writes the fields settlement modified, as computed from the copy read before. */
  function SaveChallenge(env: Env, l: Held, db: Db): Memory
  {
    if l.order.None? || l.challenge.None? || l.order.value.challengeId >= |db.challenges| then (l, db)
    else
      var c, cid, t := l.challenge.value, l.order.value.challengeId, HeldTrade(env, l);
      (l, db.(challenges := db.challenges[cid := db.challenges[cid].(
                equity := l.balance, peak := if l.balance > c.peak then l.balance else c.peak,
                realized := c.realized + t.realized,
                tradingDays := if env.dateKey in c.tradingDays then c.tradingDays else c.tradingDays + [env.dateKey])]))
  }

  ghost function Positioning(): seq<Moment>
  {
    [(l: Held, db: Db) => ReadPosition(l, db), (l: Held, db: Db) => WritePosition(l, db),
     (l: Held, db: Db) => WriteHolding(l, db)]
  }

  ghost function Recording(env: Env): seq<Moment>
  {
    [(l: Held, db: Db) => CreateTrade(env, l, db), (l: Held, db: Db) => SaveOrder(env, l, db)]
  }

  ghost function Posting(env: Env): seq<Moment>
  {
    [(l: Held, db: Db) => ReadChallenge(l, db), (l: Held, db: Db) => AppendPnl(env, l, db),
     (l: Held, db: Db) => AppendCharge(env, l, db)]
  }

  /** Everything but the save of the challenge, eight steps. */
  ghost function Preparing(env: Env): seq<Moment> { Positioning() + Recording(env) + Posting(env) }

  ghost function Settling(env: Env): seq<Moment> { Preparing(env) + [(l: Held, db: Db) => SaveChallenge(env, l, db)] }

  // The same as compositions.

  function Positioned(l: Held, db: Db): Memory
  {
    var (l1, d1) := ReadPosition(l, db);
    var (l2, d2) := WritePosition(l1, d1);
    WriteHolding(l2, d2)
  }

  function Ordered(env: Env, l: Held, db: Db): Memory
  {
    var (l3, d3) := Positioned(l, db);
    var (l4, d4) := CreateTrade(env, l3, d3);
    SaveOrder(env, l4, d4)
  }

  function Prepared(env: Env, l: Held, db: Db): Memory
  {
    var (l5, d5) := Ordered(env, l, db);
    var (l6, d6) := ReadChallenge(l5, d5);
    var (l7, d7) := AppendPnl(env, l6, d6);
    AppendCharge(env, l7, d7)
  }

  function Settled(env: Env, l: Held, db: Db): Memory
  {
    var (l8, d8) := Prepared(env, l, db);
    SaveChallenge(env, l8, d8)
  }

  lemma ExecOrdered(env: Env, l: Held, db: Db)
    ensures Exec(Positioning() + Recording(env), l, db) == Ordered(env, l, db)
  {
    var f, g, h := Positioning()[0], Positioning()[1], Positioning()[2];
    ExecThree(f, g, h, l, db);
    assert Exec(Positioning(), l, db) == Positioned(l, db);
    var (m, d) := Positioned(l, db);
    ExecThree(Recording(env)[0], Recording(env)[1], h, m, d);
    ExecConcat(Positioning(), Recording(env), l, db);
  }

  lemma ExecPreparing(env: Env, l: Held, db: Db)
    ensures Exec(Preparing(env), l, db) == Prepared(env, l, db)
  {
    ExecOrdered(env, l, db);
    var (m, d) := Ordered(env, l, db);
    ExecThree(Posting(env)[0], Posting(env)[1], Posting(env)[2], m, d);
    ExecConcat(Positioning() + Recording(env), Posting(env), l, db);
  }

  lemma ExecSettling(env: Env, l: Held, db: Db)
    ensures Exec(Settling(env), l, db) == Settled(env, l, db)
  {
    ExecPreparing(env, l, db);
    var (m, d) := Prepared(env, l, db);
    var save := (l: Held, db: Db) => SaveChallenge(env, l, db);
    ExecOne(save, m, d);
    ExecConcat(Preparing(env), [save], l, db);
  }

  /** The held order is the stored one. */
  ghost predicate Holds(l: Held, db: Db) { l.oid < |db.orders| && l.order == Some(db.orders[l.oid]) }

  /** What settling leaves in memory as it was. */
  ghost predicate SameTask(l: Held, m: Held)
  {
    && m.oid == l.oid && m.order == l.order && m.price == l.price && m.rows == l.rows && m.userId == l.userId
    && SameReview(l, m)
  }

  ghost predicate SameReview(l: Held, m: Held) { m.reviewed == l.reviewed && m.mtm == l.mtm && m.outcome == l.outcome }

  lemma OrderedIsFilled(env: Env, l: Held, db: Db)
    requires Holds(l, db)
    ensures var (m, d) := Ordered(env, l, db);
            && SameTask(l, m) && m.fill == FillOf(db, l.oid, l.price)
            && HeldTrade(env, m) == TradeOf(db, l.oid, l.price, env)
            && d == Settle(db, l.oid, l.price, env).(challenges := db.challenges, ledger := db.ledger)
  {
  }

  /** Just before its save a settlement holds the new balance, and everything but the challenge is written. */
  lemma PreparedIsSettled(env: Env, l: Held, db: Db)
    requires Holds(l, db) && l.order.value.challengeId < |db.challenges|
    ensures var (m, d) := Prepared(env, l, db);
            var c, t := db.challenges[l.order.value.challengeId], TradeOf(db, l.oid, l.price, env);
            && SameTask(l, m) && m.challenge == Some(c) && m.balance == c.equity + t.realized - t.charges
            && HeldTrade(env, m) == t
            && d == Settle(db, l.oid, l.price, env).(challenges := db.challenges)
  {
    OrderedIsFilled(env, l, db);
    var t, c := HeldTrade(env, Ordered(env, l, db).0), db.challenges[l.order.value.challengeId];
    assert db.ledger + PnlEntries(t, c.equity) + ChargeEntries(t, c.equity + t.realized)
        == db.ledger + SettlementEntries(t, c.equity);
  }

  /** The nine steps of a settlement, undisturbed, are the settlement; without a held order they are nothing. */
  lemma SettledIsSettle(env: Env, l: Held, db: Db)
    requires l.order.Some? ==> Holds(l, db)
    ensures Settled(env, l, db).1 == if l.order.Some? then Settle(db, l.oid, l.price, env) else db
    ensures SameTask(l, Settled(env, l, db).0)
  {
    if l.order.Some? {
      OrderedIsFilled(env, l, db);
      if l.order.value.challengeId < |db.challenges| {
        PreparedIsSettled(env, l, db);
        assert Settled(env, l, db).1.challenges == Settle(db, l.oid, l.price, env).challenges;
      }
    }
  }

  lemma SettlingSettles(env: Env, l: Held, db: Db)
    requires l.order.Some? ==> Holds(l, db)
    ensures Exec(Settling(env), l, db).1 == if l.order.Some? then Settle(db, l.oid, l.price, env) else db
    ensures SameTask(l, Exec(Settling(env), l, db).0)
  {
    ExecSettling(env, l, db);
    SettledIsSettle(env, l, db);
  }

  // ---------- The steps before it ----------

  /** A tick: the order, read again under the lock. */
  function ReadOrder(oid: nat, quote: Quote, env: Env, l: Held, db: Db): Memory
  {
    if oid < |db.orders| && TickFill(db.orders[oid], quote, env).Some? then
      (l.(oid := oid, order := Some(db.orders[oid]), price := TickFill(db.orders[oid], quote, env).value), db)
    else (l, db)
  }

  ghost function TickSection(key: LeaseLock.Key, ttl: nat, oid: nat, quote: Quote, env: Env): LockSection
  {
    LeaseLock.Section(key, ttl, NOTHING, [(l: Held, db: Db) => ReadOrder(oid, quote, env, l, db)] + Settling(env))
  }

  function ReadOwnOpenOrder(userId: nat, oid: nat, l: Held, db: Db): Memory
  {
    if oid < |db.orders| && db.orders[oid].userId == userId && db.orders[oid].status == OrderStatus.OPEN then
      (l.(oid := oid, order := Some(db.orders[oid])), db)
    else (l, db)
  }

  function SaveCancelled(l: Held, db: Db): Memory
  {
    if l.order.None? || l.oid >= |db.orders| then (l, db)
    else (l, db.(orders := db.orders[l.oid := db.orders[l.oid].(status := OrderStatus.CANCELLED)]))
  }

  ghost function CancelSection(key: LeaseLock.Key, ttl: nat, userId: nat, oid: nat): LockSection
  {
    LeaseLock.Section(key, ttl, NOTHING,
      [(l: Held, db: Db) => ReadOwnOpenOrder(userId, oid, l, db), (l: Held, db: Db) => SaveCancelled(l, db)])
  }

  /** A placement: the challenge is read and the order checked against it. */
  function CheckCommand(cmd: Command, env: Env, l: Held, db: Db): Memory
  {
    (l.(accepted := PlacementCheck(db, cmd, env).None?), db)
  }

  /** The order is stored, and held for settlement if it fills on the spot. */
  function CreateOrder(cmd: Command, env: Env, l: Held, db: Db): Memory
  {
    if !l.accepted || cmd.qty <= 0 then (l, db)
    else
      var fill := ImmediateFill(cmd, env);
      (l.(oid := |db.orders|, order := if fill.Some? then Some(OrderOf(cmd)) else None,
          price := if fill.Some? then fill.value else 0),
       AddOrder(db, OrderOf(cmd)))
  }

  function RejectUnpriced(cmd: Command, env: Env, l: Held, db: Db): Memory
  {
    if !l.accepted || !cmd.typ.MARKET? || ImmediateFill(cmd, env).Some? || l.oid >= |db.orders| then (l, db)
    else (l, db.(orders := db.orders[l.oid := Refuse(db.orders[l.oid], "NO_MARKET_DATA")]))
  }

  ghost function Placing(cmd: Command, env: Env): seq<Moment>
  {
    [(l: Held, db: Db) => CheckCommand(cmd, env, l, db), (l: Held, db: Db) => CreateOrder(cmd, env, l, db),
     (l: Held, db: Db) => RejectUnpriced(cmd, env, l, db)]
  }

  ghost function PlaceSection(key: LeaseLock.Key, ttl: nat, cmd: Command, env: Env): LockSection
  {
    LeaseLock.Section(key, ttl, NOTHING, Placing(cmd, env) + Settling(env))
  }

  /** Square-off and flattening list the open positions once and then close them one by one. */
  function ListPositions(cid: nat, only: Option<Product>, l: Held, db: Db): Memory
  {
    if cid >= |db.challenges| then (l.(rows := []), db)
    else (l.(rows := OpenRows(db.positions, cid, only), userId := db.challenges[cid].userId), db)
  }

  function CreateExit(env: Env, l: Held, db: Db): Memory
  {
    if l.rows == [] then (l.(order := None), db)
    else
      var r, rest := l.rows[0], l.rows[1..];
      if r.position.netQty == 0 || r.key.instrument !in env.quotes then (l.(order := None, rows := rest), db)
      else
        var o := ExitOrder(r, l.userId);
        (l.(oid := |db.orders|, order := Some(o), rows := rest,
            price := MarketFillPricePaise(env.quotes[r.key.instrument], o.side, env.slippageBps)),
         AddOrder(db, o))
  }

  ghost function Round(env: Env): seq<Moment> { [(l: Held, db: Db) => CreateExit(env, l, db)] + Settling(env) }

  ghost function Rounds(env: Env, n: nat): seq<Moment> { if n == 0 then [] else Round(env) + Rounds(env, n - 1) }

  /** Closing at most `n` positions of a challenge, of one product or of all. */
  ghost function CloseSection(key: LeaseLock.Key, ttl: nat, cid: nat, only: Option<Product>, n: nat, env: Env): LockSection
  {
    LeaseLock.Section(key, ttl, NOTHING, [(l: Held, db: Db) => ListPositions(cid, only, l, db)] + Rounds(env, n))
  }

  // An evaluation: the challenge is read and promoted, the outcome decided on its positions, and then applied.

  function ReadReviewed(cid: nat, l: Held, db: Db): Memory
  {
    if cid < |db.challenges| && (db.challenges[cid].status.PENDING? || db.challenges[cid].status.ACTIVE?) then
      (l.(reviewed := Some(db.challenges[cid])), db)
    else (l, db)
  }

  function PromoteReviewed(cid: nat, l: Held, db: Db): Memory
  {
    if l.reviewed.None? || !l.reviewed.value.status.PENDING? || cid >= |db.challenges| then (l, db)
    else
      var c := l.reviewed.value;
      (l.(reviewed := Some(c.(status := ACTIVE, events := c.events + ["ACTIVATED"]))),
       SaveStatus(db, cid, ACTIVE, "ACTIVATED"))
  }

  function Decide(cid: nat, env: Env, l: Held, db: Db): Memory
  {
    if l.reviewed.None? then (l, db)
    else
      var c := l.reviewed.value;
      var mtm := MtmEquity(db, cid, c.equity, env.cache);
      (l.(mtm := mtm, outcome := ChallengeRules.EvaluateChallenge(
            ChallengeRules.EvalInput(c.rules, c.capital, mtm, c.dayStart, |c.tradingDays|, c.endsAt <= env.now))), db)
  }

  predicate Closing(l: Held, env: Env) { l.outcome.FAIL? || (l.outcome.PASS? && env.freezeOnPass) }

  function ListIfClosing(cid: nat, env: Env, l: Held, db: Db): Memory
  {
    if l.reviewed.Some? && Closing(l, env) then ListPositions(cid, None, l, db) else (l.(rows := []), db)
  }

  function CancelIfClosing(cid: nat, env: Env, l: Held, db: Db): Memory
  {
    if l.reviewed.Some? && Closing(l, env) then
      (l, CancelOpen(db, cid, if l.outcome.FAIL? then "CHALLENGE_FAILED" else "CHALLENGE_PASSED"))
    else (l, db)
  }

  function SaveOutcome(cid: nat, l: Held, db: Db): Memory
  {
    if l.reviewed.None? || cid >= |db.challenges| then (l, db)
    else
      match l.outcome
      case CONTINUE => (l, db)
      case FAIL(_) => (l, SaveStatus(db, cid, FAILED, "FAILED"))
      case PASS => (l, SaveStatus(db, cid, PASSED_PENDING_REVIEW, "PASSED_PENDING_REVIEW"))
  }

  function GrantIfPassed(cid: nat, l: Held, db: Db): Memory
  {
    if l.reviewed.Some? && l.outcome.PASS? then (l, GrantReward(db, cid, l.reviewed.value, l.mtm)) else (l, db)
  }

  ghost function Reviewing(cid: nat, env: Env): seq<Moment>
  {
    [(l: Held, db: Db) => ReadReviewed(cid, l, db), (l: Held, db: Db) => PromoteReviewed(cid, l, db),
     (l: Held, db: Db) => Decide(cid, env, l, db)]
  }

  ghost function Listing(cid: nat, env: Env): seq<Moment> { [(l: Held, db: Db) => ListIfClosing(cid, env, l, db)] }

  ghost function Ending(cid: nat, env: Env): seq<Moment>
  {
    [(l: Held, db: Db) => CancelIfClosing(cid, env, l, db), (l: Held, db: Db) => SaveOutcome(cid, l, db),
     (l: Held, db: Db) => GrantIfPassed(cid, l, db)]
  }

  /** An evaluation with room for closing `n` positions. */
  ghost function EvaluateSection(key: LeaseLock.Key, ttl: nat, cid: nat, n: nat, env: Env): LockSection
  {
    LeaseLock.Section(key, ttl, NOTHING, Reviewing(cid, env) + Listing(cid, env) + Rounds(env, n) + Ending(cid, env))
  }

  // ---------- Sections that carry out one call ----------

  ghost function Alone(s: LockSection, db: Db): Db { LeaseLock.RunAlone(s, db, |s.body|).1 }

  /** Run without interference, the section does what the call does. */
  ghost predicate CarriesOut(s: LockSection, a: Action, env: Env)
  {
    forall db: Db :: Alone(s, db) == Step(db, a, env)
  }

  lemma AloneIsExec(s: LockSection, db: Db)
    ensures Alone(s, db) == Exec(s.body, s.start, db).1
  {
    RunAloneIsExec(s, db, |s.body|);
    assert s.body[..|s.body|] == s.body;
  }

  /** The ten steps of a locked tick, undisturbed, are the tick; whatever the listing said about the order. */
  lemma TickSectionTicks(key: LeaseLock.Key, ttl: nat, oid: nat, quote: Quote, env: Env)
    ensures CarriesOut(TickSection(key, ttl, oid, quote, env), DoTick(oid, quote), env)
  {
    var s := TickSection(key, ttl, oid, quote, env);
    var read := (l: Held, db: Db) => ReadOrder(oid, quote, env, l, db);
    forall db: Db
      ensures Alone(s, db) == Step(db, DoTick(oid, quote), env)
    {
      AloneIsExec(s, db);
      ExecConcat([read], Settling(env), NOTHING, db);
      ExecOne(read, NOTHING, db);
      SettlingSettles(env, ReadOrder(oid, quote, env, NOTHING, db).0, db);
    }
  }

  lemma CancelSectionCancels(key: LeaseLock.Key, ttl: nat, userId: nat, oid: nat, env: Env)
    ensures CarriesOut(CancelSection(key, ttl, userId, oid), DoCancel(userId, oid), env)
  {
    var s := CancelSection(key, ttl, userId, oid);
    forall db: Db
      ensures Alone(s, db) == Step(db, DoCancel(userId, oid), env)
    {
      AloneIsExec(s, db);
      ExecThree(s.body[0], s.body[1], s.body[1], NOTHING, db);
    }
  }

  function Placed(cmd: Command, env: Env, db: Db): Memory
  {
    var (l1, d1) := CheckCommand(cmd, env, NOTHING, db);
    var (l2, d2) := CreateOrder(cmd, env, l1, d1);
    RejectUnpriced(cmd, env, l2, d2)
  }

  lemma PlacedAndSettled(cmd: Command, env: Env, db: Db)
    ensures var (l, d) := Placed(cmd, env, db);
            && (l.order.Some? ==> Holds(l, d))
            && PlaceOrder(db, cmd, env).0 == if l.order.Some? then Settle(d, l.oid, l.price, env) else d
  {
    if PlacementCheck(db, cmd, env).None? && ImmediateFill(cmd, env).None? && cmd.typ.MARKET? {
      var o := OrderOf(cmd);
      assert (db.orders + [o])[|db.orders| := Refuse(o, "NO_MARKET_DATA")] == db.orders + [Refuse(o, "NO_MARKET_DATA")];
    }
  }

  /** A locked placement, undisturbed, is the placement: refused, resting, rejected or filled on the spot. */
  lemma PlaceSectionPlaces(key: LeaseLock.Key, ttl: nat, cmd: Command, env: Env)
    ensures CarriesOut(PlaceSection(key, ttl, cmd, env), DoPlace(cmd), env)
  {
    var s, p := PlaceSection(key, ttl, cmd, env), Placing(cmd, env);
    forall db: Db
      ensures Alone(s, db) == Step(db, DoPlace(cmd), env)
    {
      AloneIsExec(s, db);
      ExecConcat(p, Settling(env), NOTHING, db);
      ExecThree(p[0], p[1], p[2], NOTHING, db);
      assert Exec(p, NOTHING, db) == Placed(cmd, env, db);
      var (l, d) := Placed(cmd, env, db);
      PlacedAndSettled(cmd, env, db);
      SettlingSettles(env, l, d);
    }
  }

  /** One round closes the first listed position, if there is one and it has a quote. */
  lemma RoundCloses(env: Env, l: Held, db: Db)
    requires forall r :: r in l.rows ==> r.position.netQty != 0
    ensures var (m, d) := Exec(Round(env), l, db);
            && SameReview(l, m) && m.userId == l.userId && m.rows == (if l.rows == [] then [] else l.rows[1..])
            && d == if l.rows == [] then db else CloseRow(db, l.rows[0], l.userId, env)
  {
    var exit := (l: Held, db: Db) => CreateExit(env, l, db);
    ExecConcat([exit], Settling(env), l, db);
    ExecOne(exit, l, db);
    var (m, d) := CreateExit(env, l, db);
    SettlingSettles(env, m, d);
  }

  /** Closing the first `n` rows is closing the first one and then `n - 1` of the rest. */
  lemma CloseFirst(db: Db, rows: seq<PositionRow>, n: nat, userId: nat, env: Env)
    requires n > 0 && forall r :: r in rows ==> r.position.netQty != 0
    ensures var rest := if rows == [] then [] else rows[1..];
            var d := if rows == [] then db else CloseRow(db, rows[0], userId, env);
            CloseRows(db, rows[..Min(n, |rows|)], userId, env) == CloseRows(d, rest[..Min(n - 1, |rest|)], userId, env)
  {
    if rows != [] {
      var k := Min(n, |rows|);
      assert rows[..k][0] == rows[0] && rows[..k][1..] == rows[1..][..k - 1];
    }
  }

  lemma {:induction false} RoundsClose(env: Env, n: nat, l: Held, db: Db)
    requires forall r :: r in l.rows ==> r.position.netQty != 0
    ensures SameReview(l, Exec(Rounds(env, n), l, db).0)
    ensures Exec(Rounds(env, n), l, db).1 == CloseRows(db, l.rows[..Min(n, |l.rows|)], l.userId, env)
  {
    if n > 0 {
      ExecConcat(Round(env), Rounds(env, n - 1), l, db);
      RoundCloses(env, l, db);
      var (m, d) := Exec(Round(env), l, db);
      RoundsClose(env, n - 1, m, d);
      CloseFirst(db, l.rows, n, l.userId, env);
    }
  }

  /** Closing at most `n` of the open positions. */
  function CloseSome(db: Db, cid: nat, only: Option<Product>, n: nat, env: Env): Db
  {
    if cid >= |db.challenges| then db
    else
      var rows := OpenRows(db.positions, cid, only);
      OpenRowsOpen(db.positions, cid, only);
      CloseRows(db, rows[..Min(n, |rows|)], db.challenges[cid].userId, env)
  }

  lemma CloseSectionCloses(key: LeaseLock.Key, ttl: nat, cid: nat, only: Option<Product>, n: nat, env: Env, db: Db)
    ensures Alone(CloseSection(key, ttl, cid, only, n, env), db) == CloseSome(db, cid, only, n, env)
  {
    var list := (l: Held, db: Db) => ListPositions(cid, only, l, db);
    AloneIsExec(CloseSection(key, ttl, cid, only, n, env), db);
    ExecConcat([list], Rounds(env, n), NOTHING, db);
    ExecOne(list, NOTHING, db);
    OpenRowsOpen(db.positions, cid, only);
    var l := ListPositions(cid, only, NOTHING, db).0;
    RoundsClose(env, n, l, db);
  }

  lemma CloseSomeIsFlatten(db: Db, cid: nat, only: Option<Product>, n: nat, env: Env)
    requires |OpenRows(db.positions, cid, only)| <= n
    ensures CloseSome(db, cid, only, n, env) == Flatten(db, cid, only, env)
  {
    var rows := OpenRows(db.positions, cid, only);
    assert rows[..Min(n, |rows|)] == rows;
  }

  /** With a round for every open position, undisturbed, it is the flattening. */
  lemma CloseSectionFlattens(key: LeaseLock.Key, ttl: nat, cid: nat, only: Option<Product>, n: nat, env: Env, db: Db)
    requires |OpenRows(db.positions, cid, only)| <= n
    ensures Alone(CloseSection(key, ttl, cid, only, n, env), db) == Flatten(db, cid, only, env)
  {
    CloseSectionCloses(key, ttl, cid, only, n, env, db);
    CloseSomeIsFlatten(db, cid, only, n, env);
  }

  // ---------- Evaluation ----------

  function Reviewed(cid: nat, env: Env, db: Db): Memory
  {
    var (l1, d1) := ReadReviewed(cid, NOTHING, db);
    var (l2, d2) := PromoteReviewed(cid, l1, d1);
    Decide(cid, env, l2, d2)
  }

  function Ended(cid: nat, env: Env, l: Held, db: Db): Memory
  {
    var (l1, d1) := CancelIfClosing(cid, env, l, db);
    var (l2, d2) := SaveOutcome(cid, l1, d1);
    GrantIfPassed(cid, l2, d2)
  }

  /** The evaluation as far as it gets with `n` positions closed. */
  function EvaluateSome(db: Db, cid: nat, n: nat, env: Env): Db
  {
    var (l, d) := Reviewed(cid, env, db);
    var closed := if l.reviewed.Some? && Closing(l, env) then CloseSome(d, cid, None, n, env) else d;
    Ended(cid, env, l, closed).1
  }

  lemma ExecReviewing(cid: nat, env: Env, db: Db)
    ensures Exec(Reviewing(cid, env) + Listing(cid, env), NOTHING, db) ==
              var (l, d) := Reviewed(cid, env, db); ListIfClosing(cid, env, l, d)
  {
    var r := Reviewing(cid, env);
    var (l, d) := Reviewed(cid, env, db);
    ExecThree(r[0], r[1], r[2], NOTHING, db);
    assert Exec(r, NOTHING, db) == (l, d);
    ExecConcat(r, Listing(cid, env), NOTHING, db);
    ExecOne(Listing(cid, env)[0], l, d);
  }

  /** What ending does depends only on the review. */
  lemma EndedBySameReview(cid: nat, env: Env, l: Held, m: Held, db: Db)
    requires SameReview(l, m)
    ensures Ended(cid, env, m, db).1 == Ended(cid, env, l, db).1
  {
  }

  lemma EvaluateSectionEvaluates(key: LeaseLock.Key, ttl: nat, cid: nat, n: nat, env: Env, db: Db)
    ensures Alone(EvaluateSection(key, ttl, cid, n, env), db) == EvaluateSome(db, cid, n, env)
  {
    var front, e := Reviewing(cid, env) + Listing(cid, env), Ending(cid, env);
    var (l, d) := Reviewed(cid, env, db);
    var (l', d') := ListIfClosing(cid, env, l, d);
    AloneIsExec(EvaluateSection(key, ttl, cid, n, env), db);
    ExecReviewing(cid, env, db);
    ExecConcat(front, Rounds(env, n), NOTHING, db);
    OpenRowsOpen(d.positions, cid, None);
    RoundsClose(env, n, l', d);
    var (m, closed) := Exec(Rounds(env, n), l', d);
    ExecConcat(front + Rounds(env, n), e, NOTHING, db);
    ExecThree(e[0], e[1], e[2], m, closed);
    assert Exec(e, m, closed) == Ended(cid, env, m, closed);
    EndedBySameReview(cid, env, l, m, closed);
  }

  /** The review is the promotion and the decision of `Evaluate`. */
  lemma ReviewedIsEvaluate(db: Db, cid: nat, env: Env)
    requires cid < |db.challenges| && (db.challenges[cid].status.PENDING? || db.challenges[cid].status.ACTIVE?)
    ensures var (l, d) := Reviewed(cid, env, db);
            && d == Promote(db, cid) && l.reviewed == Some(d.challenges[cid])
            && l.outcome == Evaluate(db, cid, env).1.value && l.mtm == MtmEquity(d, cid, d.challenges[cid].equity, env.cache)
  {
  }

  lemma EndedIsEvaluate(db: Db, cid: nat, env: Env, l: Held)
    requires cid < |db.challenges| && l.reviewed == Some(db.challenges[cid])
    requires l.mtm == MtmEquity(db, cid, db.challenges[cid].equity, env.cache) && l.outcome == EvaluateActive(db, cid, env).1
    ensures var closed := if Closing(l, env) then Flatten(db, cid, None, env) else db;
            Ended(cid, env, l, closed).1 == EvaluateActive(db, cid, env).0
  {
    OpenRowsOpen(db.positions, cid, None);
    CloseRowsShape(db, OpenRows(db.positions, cid, None), db.challenges[cid].userId, env);
  }

  /** With a round for every open position, undisturbed, it is the evaluation. */
  lemma EvaluateSectionIsEvaluation(key: LeaseLock.Key, ttl: nat, cid: nat, n: nat, env: Env, db: Db)
    requires |OpenRows(db.positions, cid, None)| <= n
    ensures Alone(EvaluateSection(key, ttl, cid, n, env), db) == Evaluate(db, cid, env).0
  {
    EvaluateSectionEvaluates(key, ttl, cid, n, env, db);
    if cid < |db.challenges| && (db.challenges[cid].status.PENDING? || db.challenges[cid].status.ACTIVE?) {
      ReviewedIsEvaluate(db, cid, env);
      CloseSomeIsFlatten(Promote(db, cid), cid, None, n, env);
      EndedIsEvaluate(Promote(db, cid), cid, env, Reviewed(cid, env, db).0);
    }
  }
}
