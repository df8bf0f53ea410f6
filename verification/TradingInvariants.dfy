/** What trading keeps: every account's book, one trade per filled order, and the position rows. */
module TradingInvariants {
  import opened Prelude
  import opened PositionMath
  import opened AccountBook
  import opened Platform

  // ---------- One account's view of the shared collections ----------

  function EntriesOf(es: seq<Entry>, cid: nat): seq<Entry>
  {
    if es == [] then []
    else EntriesOf(es[..|es| - 1], cid) + if es[|es| - 1].challengeId == cid then [es[|es| - 1]] else []
  }

  function TradesOf(ts: seq<Trade>, cid: nat): seq<Trade>
  {
    if ts == [] then []
    else TradesOf(ts[..|ts| - 1], cid) + if ts[|ts| - 1].challengeId == cid then [ts[|ts| - 1]] else []
  }

  function BookOf(db: Db, cid: nat): Book
    requires cid < |db.challenges|
  {
    var c := db.challenges[cid];
    Book(c.capital, c.equity, c.peak, c.realized, EntriesOf(db.ledger, cid), TradesOf(db.trades, cid))
  }

  /** How many trades were written for an order. */
  function TradeCount(ts: seq<Trade>, oid: nat): nat
  {
    if ts == [] then 0 else TradeCount(ts[..|ts| - 1], oid) + if ts[|ts| - 1].orderId == oid then 1 else 0
  }

  function SumRealized(rows: seq<PositionRow>, cid: nat): int
  {
    if rows == [] then 0
    else (if rows[0].key.challengeId == cid then rows[0].position.realizedPnlPaise else 0) + SumRealized(rows[1..], cid)
  }

  lemma EntriesOfAppend(es: seq<Entry>, e: Entry, cid: nat)
    ensures EntriesOf(es + [e], cid) == EntriesOf(es, cid) + if e.challengeId == cid then [e] else []
  {
    assert (es + [e])[..|es|] == es;
  }

  lemma {:induction false} EntriesOfConcat(es: seq<Entry>, more: seq<Entry>, cid: nat)
    ensures EntriesOf(es + more, cid) == EntriesOf(es, cid) + EntriesOf(more, cid)
  {
    if more == [] {
      assert es + more == es;
    } else {
      var n := |more| - 1;
      EntriesOfConcat(es, more[..n], cid);
      assert es + more == (es + more[..n]) + [more[n]];
      EntriesOfAppend(es + more[..n], more[n], cid);
    }
  }

  lemma SettlementEntriesOf(t: Trade, balance: int, cid: nat)
    ensures EntriesOf(SettlementEntries(t, balance), cid) ==
            if t.challengeId == cid then SettlementEntries(t, balance) else []
  {
    var a, b := PnlEntries(t, balance), ChargeEntries(t, balance + t.realized);
    EntriesOfConcat(a, b, cid);
    assert forall e: Entry :: [e][..0] == [];
  }

  lemma TradesOfAppend(ts: seq<Trade>, t: Trade, cid: nat)
    ensures TradesOf(ts + [t], cid) == TradesOf(ts, cid) + if t.challengeId == cid then [t] else []
  {
    assert (ts + [t])[..|ts|] == ts;
  }

  lemma TradeCountAppend(ts: seq<Trade>, t: Trade, oid: nat)
    ensures TradeCount(ts + [t], oid) == TradeCount(ts, oid) + if t.orderId == oid then 1 else 0
  {
    assert (ts + [t])[..|ts|] == ts;
  }

  lemma {:induction false} TradeCountZero(ts: seq<Trade>, oid: nat)
    requires forall t :: t in ts ==> t.orderId < oid
    ensures TradeCount(ts, oid) == 0
  {
    if ts != [] {
      assert ts[|ts| - 1] in ts;
      TradeCountZero(ts[..|ts| - 1], oid);
    }
  }

  // ---------- Invariants ----------

  ghost predicate Refs(db: Db)
  {
    && (forall o :: o in db.orders ==> o.challengeId < |db.challenges|)
    && (forall t :: t in db.trades ==> t.orderId < |db.orders| && t.challengeId == db.orders[t.orderId].challengeId)
    && (forall e :: e in db.ledger ==> e.challengeId < |db.challenges|)
    && (forall r :: r in db.positions ==> r.key.challengeId < |db.challenges|)
  }

  ghost predicate Books(db: Db)
  {
    forall c: nat :: c < |db.challenges| ==> BookOk(BookOf(db, c))
  }

  /** An order has exactly one trade if it is FILLED and none otherwise. */
  ghost predicate OneTradePerFill(db: Db)
  {
    forall o: nat :: o < |db.orders| ==>
      TradeCount(db.trades, o) == if db.orders[o].status == OrderStatus.FILLED then 1 else 0
  }

  ghost predicate UniqueKeys(rows: seq<PositionRow>)
  {
    forall i, j :: 0 <= i < j < |rows| ==> rows[i].key != rows[j].key
  }

  ghost predicate PositionsOk(db: Db)
  {
    && UniqueKeys(db.positions)
    && (forall c: nat :: c < |db.challenges| ==> SumRealized(db.positions, c) == db.challenges[c].realized)
    && (forall k: PositionKey :: k.product.CARRY_FORWARD? && (exists r :: r in db.positions && r.key == k) ==>
          var h := HoldingKey(k.challengeId, k.instrument);
          h in db.holdings
          && db.holdings[h] == Holding(Lookup(db.positions, k).netQty, Lookup(db.positions, k).avgPricePaise))
  }

  ghost predicate TradingOk(db: Db)
  {
    Refs(db) && Books(db) && OneTradePerFill(db) && PositionsOk(db)
  }

  // ---------- Position rows ----------

  lemma {:induction false} UpsertLookup(rows: seq<PositionRow>, k: PositionKey, p: Position, buy: int, sell: int,
                                        other: PositionKey)
    ensures Lookup(Upsert(rows, k, p, buy, sell), other) == if other == k then p else Lookup(rows, other)
  {
    if rows != [] && rows[0].key != k {
      UpsertLookup(rows[1..], k, p, buy, sell, other);
    }
  }

  lemma {:induction false} UpsertKeys(rows: seq<PositionRow>, k: PositionKey, p: Position, buy: int, sell: int)
    ensures forall r :: r in Upsert(rows, k, p, buy, sell) ==> r.key == k || exists q :: q in rows && q.key == r.key
    ensures UniqueKeys(rows) ==> UniqueKeys(Upsert(rows, k, p, buy, sell))
  {
    var up := Upsert(rows, k, p, buy, sell);
    if rows != [] && rows[0].key != k {
      UpsertKeys(rows[1..], k, p, buy, sell);
      var rest := Upsert(rows[1..], k, p, buy, sell);
      forall r | r in up
        ensures r.key == k || exists q :: q in rows && q.key == r.key
      {
        if r in rest && r.key != k {
          var q :| q in rows[1..] && q.key == r.key;
          assert q in rows;
        } else if r !in rest {
          assert rows[0] in rows;
        }
      }
      if UniqueKeys(rows) {
        forall r | r in rest
          ensures r.key != rows[0].key
        {
          if r.key != k {
            var q :| q in rows[1..] && q.key == r.key;
          }
        }
      }
    } else if rows != [] {
      forall r | r in up
        ensures r.key == k || exists q :: q in rows && q.key == r.key
      {
        if r.key != k { assert r in rows; }
      }
    }
  }

  lemma {:induction false} UpsertRealized(rows: seq<PositionRow>, k: PositionKey, p: Position, buy: int, sell: int, cid: nat)
    ensures SumRealized(Upsert(rows, k, p, buy, sell), cid) == SumRealized(rows, cid)
              + if k.challengeId == cid then p.realizedPnlPaise - Lookup(rows, k).realizedPnlPaise else 0
  {
    if rows != [] && rows[0].key != k {
      UpsertRealized(rows[1..], k, p, buy, sell, cid);
    }
  }

  // ---------- Settlement ----------

  /** Settlement posts one trade to its own account's book and touches no other account's. */
  lemma SettlePosts(db: Db, oid: nat, price: int, env: Env, c: nat)
    requires oid < |db.orders| && db.orders[oid].challengeId < |db.challenges| && c < |db.challenges|
    ensures BookOf(Settle(db, oid, price, env), c) ==
            if c == db.orders[oid].challengeId then Post(BookOf(db, c), TradeOf(db, oid, price, env)) else BookOf(db, c)
  {
    var d, cid := Settle(db, oid, price, env), db.orders[oid].challengeId;
    SettleWrites(db, oid, price, env, c);
    if c == cid {
      assert BookOf(d, c).entries == Post(BookOf(db, c), TradeOf(db, oid, price, env)).entries;
    } else {
      assert BookOf(d, c).entries == BookOf(db, c).entries && BookOf(d, c).trades == BookOf(db, c).trades;
      assert d.challenges[c] == db.challenges[c];
    }
  }

  lemma SettleWrites(db: Db, oid: nat, price: int, env: Env, c: nat)
    requires oid < |db.orders| && db.orders[oid].challengeId < |db.challenges| && c < |db.challenges|
    ensures var d, t, cid := Settle(db, oid, price, env), TradeOf(db, oid, price, env), db.orders[oid].challengeId;
            && EntriesOf(d.ledger, c) == EntriesOf(db.ledger, c)
                 + (if c == cid then SettlementEntries(t, db.challenges[cid].equity) else [])
            && TradesOf(d.trades, c) == TradesOf(db.trades, c) + (if c == cid then [t] else [])
  {
    var t, cid := TradeOf(db, oid, price, env), db.orders[oid].challengeId;
    EntriesOfConcat(db.ledger, SettlementEntries(t, db.challenges[cid].equity), c);
    SettlementEntriesOf(t, db.challenges[cid].equity, c);
    TradesOfAppend(db.trades, t, c);
  }

  lemma SettleKeepsBooks(db: Db, oid: nat, price: int, env: Env)
    requires TradingOk(db) && oid < |db.orders|
    ensures Books(Settle(db, oid, price, env))
  {
    var db' := Settle(db, oid, price, env);
    assert db.orders[oid] in db.orders;
    forall c: nat | c < |db'.challenges|
      ensures BookOk(BookOf(db', c))
    {
      SettlePosts(db, oid, price, env, c);
      if c == db.orders[oid].challengeId {
        PostKeepsBook(BookOf(db, c), TradeOf(db, oid, price, env));
      }
    }
  }

  lemma SettleKeepsRefs(db: Db, oid: nat, price: int, env: Env)
    requires Refs(db) && oid < |db.orders|
    ensures Refs(Settle(db, oid, price, env))
  {
    var db', o := Settle(db, oid, price, env), db.orders[oid];
    assert o in db.orders;
    UpsertKeys(db.positions, KeyOf(o), FillOf(db, oid, price).position, if o.side.BUY? then o.qty else 0,
               if o.side.BUY? then 0 else o.qty);
    forall x | x in db'.orders
      ensures x.challengeId < |db'.challenges|
    {
      var i :| 0 <= i < |db'.orders| && db'.orders[i] == x;
      assert db.orders[i] in db.orders;
    }
  }

  lemma SettleKeepsTradeCounts(db: Db, oid: nat, price: int, env: Env)
    requires OneTradePerFill(db) && oid < |db.orders| && db.orders[oid].status != OrderStatus.FILLED
    ensures OneTradePerFill(Settle(db, oid, price, env))
  {
    var db' := Settle(db, oid, price, env);
    forall o: nat | o < |db'.orders|
      ensures TradeCount(db'.trades, o) == if db'.orders[o].status == OrderStatus.FILLED then 1 else 0
    {
      TradeCountAppend(db.trades, TradeOf(db, oid, price, env), o);
    }
  }

  lemma SettleKeepsPositions(db: Db, oid: nat, price: int, env: Env)
    requires TradingOk(db) && oid < |db.orders|
    ensures PositionsOk(Settle(db, oid, price, env))
  {
    var db', o := Settle(db, oid, price, env), db.orders[oid];
    assert o in db.orders;
    var k, p := KeyOf(o), FillOf(db, oid, price).position;
    var buy, sell := if o.side.BUY? then o.qty else 0, if o.side.BUY? then 0 else o.qty;
    UpsertKeys(db.positions, k, p, buy, sell);
    forall c: nat | c < |db'.challenges|
      ensures SumRealized(db'.positions, c) == db'.challenges[c].realized
    {
      UpsertRealized(db.positions, k, p, buy, sell, c);
    }
    forall k': PositionKey | k'.product.CARRY_FORWARD? && exists r :: r in db'.positions && r.key == k'
      ensures var h := HoldingKey(k'.challengeId, k'.instrument);
              h in db'.holdings
              && db'.holdings[h] == Holding(Lookup(db'.positions, k').netQty, Lookup(db'.positions, k').avgPricePaise)
    {
      UpsertLookup(db.positions, k, p, buy, sell, k');
    }
  }

  lemma {:induction false} SettleKeepsTrading(db: Db, oid: nat, price: int, env: Env)
    requires TradingOk(db) && oid < |db.orders| && db.orders[oid].status == OrderStatus.OPEN
    ensures TradingOk(Settle(db, oid, price, env))
  {
    SettleKeepsBooks(db, oid, price, env);
    SettleKeepsRefs(db, oid, price, env);
    SettleKeepsTradeCounts(db, oid, price, env);
    SettleKeepsPositions(db, oid, price, env);
  }

  // ---------- The other primitives ----------

  lemma AddOrderKeepsTrading(db: Db, o: Order)
    requires TradingOk(db) && o.challengeId < |db.challenges| && o.status != OrderStatus.FILLED
    ensures TradingOk(AddOrder(db, o))
  {
    var db' := AddOrder(db, o);
    TradeCountZero(db.trades, |db.orders|);
    forall c: nat | c < |db'.challenges|
      ensures BookOk(BookOf(db', c))
    {
      assert BookOf(db', c) == BookOf(db, c);
    }
  }

  /** Orders keep their account, and none becomes FILLED or stops being it. */
  ghost predicate SameFills(a: seq<Order>, b: seq<Order>)
  {
    && |a| == |b|
    && forall i :: 0 <= i < |a| ==>
         && a[i].challengeId == b[i].challengeId
         && (a[i].status == OrderStatus.FILLED <==> b[i].status == OrderStatus.FILLED)
  }

  lemma CloseOrdersKeepsTrading(db: Db, orders: seq<Order>)
    requires TradingOk(db) && SameFills(db.orders, orders)
    ensures TradingOk(db.(orders := orders))
  {
    var db' := db.(orders := orders);
    forall c: nat | c < |db'.challenges|
      ensures BookOk(BookOf(db', c))
    {
      assert BookOf(db', c) == BookOf(db, c);
    }
    forall o | o in db'.orders
      ensures o.challengeId < |db'.challenges|
    {
      var i :| 0 <= i < |orders| && orders[i] == o;
      assert db.orders[i] in db.orders;
    }
  }

  /** Challenge documents agree on everything settlement owns. */
  ghost predicate SameMoney(a: Challenge, b: Challenge)
  {
    a.capital == b.capital && a.equity == b.equity && a.peak == b.peak && a.realized == b.realized
  }

  /** The two states differ at most in statuses, purchases and rewards. */
  ghost predicate SameTrading(a: Db, b: Db)
  {
    && b.ledger == a.ledger && b.orders == a.orders && b.positions == a.positions
    && b.holdings == a.holdings && b.trades == a.trades
    && |b.challenges| == |a.challenges|
    && (forall c :: 0 <= c < |a.challenges| ==> SameMoney(a.challenges[c], b.challenges[c]))
  }

  lemma SameTradingKeepsTrading(a: Db, b: Db)
    requires TradingOk(a) && SameTrading(a, b)
    ensures TradingOk(b)
  {
    forall c: nat | c < |b.challenges|
      ensures BookOk(BookOf(b, c))
    {
      assert SameMoney(a.challenges[c], b.challenges[c]);
      assert BookOf(b, c) == BookOf(a, c);
    }
  }

  lemma {:induction false} EntriesOfNone(es: seq<Entry>, cid: nat)
    requires forall e :: e in es ==> e.challengeId < cid
    ensures EntriesOf(es, cid) == []
  {
    if es != [] {
      assert es[|es| - 1] in es;
      EntriesOfNone(es[..|es| - 1], cid);
    }
  }

  lemma {:induction false} TradesOfNone(ts: seq<Trade>, cid: nat)
    requires forall t :: t in ts ==> t.challengeId < cid
    ensures TradesOf(ts, cid) == []
  {
    if ts != [] {
      assert ts[|ts| - 1] in ts;
      TradesOfNone(ts[..|ts| - 1], cid);
    }
  }

  lemma {:induction false} SumRealizedNone(rows: seq<PositionRow>, cid: nat)
    requires forall r :: r in rows ==> r.key.challengeId < cid
    ensures SumRealized(rows, cid) == 0
  {
    if rows != [] {
      SumRealizedNone(rows[1..], cid);
    }
  }

  lemma OpenAccountKeepsTrading(db: Db, c: Challenge, pid: nat)
    requires TradingOk(db) && c.equity == c.peak == c.capital && c.realized == 0
    ensures TradingOk(db.(challenges := db.challenges + [c],
                          ledger := db.ledger + [Entry(|db.challenges|, CREDIT, c.capital, c.capital, PaymentRef(pid))]))
  {
    var cid := |db.challenges|;
    var e := Entry(cid, CREDIT, c.capital, c.capital, PaymentRef(pid));
    var db' := db.(challenges := db.challenges + [c], ledger := db.ledger + [e]);
    forall t | t in db.trades
      ensures t.challengeId < cid
    {
      assert db.orders[t.orderId] in db.orders;
    }
    EntriesOfNone(db.ledger, cid);
    TradesOfNone(db.trades, cid);
    SumRealizedNone(db.positions, cid);
    forall x: nat | x < |db'.challenges|
      ensures BookOk(BookOf(db', x))
    {
      EntriesOfAppend(db.ledger, e, x);
      if x < cid {
        assert BookOf(db', x) == BookOf(db, x);
      } else {
        assert BookOf(db', x) == OpeningBook(cid, pid, c.capital);
        OpeningBookOk(cid, pid, c.capital);
      }
    }
  }
}
