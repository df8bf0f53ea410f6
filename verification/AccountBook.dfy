/**
 * One account's money: its append-only ledger, its trades and the running figures the challenge
 * document carries. `Post` is what settling one trade does to it; `BookOk` is what the figures mean.
 */
module AccountBook {
  import opened Prelude
  import opened PositionMath

  datatype Ref = PaymentRef(paymentId: nat) | TradeRef(orderId: nat)

  datatype EntryKind = CREDIT | PNL | CHARGE

  datatype Entry = Entry(challengeId: nat, kind: EntryKind, amount: int, balanceAfter: int, ref: Ref)

  datatype Trade = Trade(orderId: nat, challengeId: nat, instrument: string, side: Side, qty: int, price: int,
                         charges: int, realized: int)

  datatype Book = Book(capital: int, equity: int, peak: int, realized: int, entries: seq<Entry>, trades: seq<Trade>)

  /** The ledger rows one settlement appends when the balance before it is `balance`. */
  function PnlEntries(t: Trade, balance: int): seq<Entry>
  {
    if t.realized == 0 then []
    else [Entry(t.challengeId, PNL, t.realized, balance + t.realized, TradeRef(t.orderId))]
  }

  function ChargeEntries(t: Trade, balance: int): seq<Entry>
  {
    if t.charges == 0 then []
    else [Entry(t.challengeId, CHARGE, -t.charges, balance - t.charges, TradeRef(t.orderId))]
  }

  function SettlementEntries(t: Trade, balance: int): seq<Entry>
  {
    PnlEntries(t, balance) + ChargeEntries(t, balance + t.realized)
  }

  function Post(b: Book, t: Trade): Book
  {
    var balance := b.equity + t.realized - t.charges;
    b.(equity := balance,
       peak := if balance > b.peak then balance else b.peak,
       realized := b.realized + t.realized,
       entries := b.entries + SettlementEntries(t, b.equity),
       trades := b.trades + [t])
  }

  function OpeningBook(challengeId: nat, paymentId: nat, capital: int): Book
  {
    Book(capital, capital, capital, 0, [Entry(challengeId, CREDIT, capital, capital, PaymentRef(paymentId))], [])
  }

  // ---------- What the figures mean ----------

  function TotalRealized(ts: seq<Trade>): int
  {
    if ts == [] then 0 else TotalRealized(ts[..|ts| - 1]) + ts[|ts| - 1].realized
  }

  function TotalCharges(ts: seq<Trade>): int
  {
    if ts == [] then 0 else TotalCharges(ts[..|ts| - 1]) + ts[|ts| - 1].charges
  }

  function SumAmounts(es: seq<Entry>): int
  {
    if es == [] then 0 else SumAmounts(es[..|es| - 1]) + es[|es| - 1].amount
  }

  /** The account's worth after its first `i` trades. */
  function EquityAfter(b: Book, i: nat): int
    requires i <= |b.trades|
  {
    b.capital + TotalRealized(b.trades[..i]) - TotalCharges(b.trades[..i])
  }

  /** Every entry after the opening credit continues from the balance of the one before it. */
  ghost predicate Chained(es: seq<Entry>)
  {
    forall i :: 0 < i < |es| ==> es[i].balanceAfter == es[i - 1].balanceAfter + es[i].amount
  }

  /** One credit of the capital first, then entries that each continue from the last, up to `balance`. */
  ghost predicate EntriesOk(es: seq<Entry>, capital: int, balance: int)
  {
    && |es| > 0
    && es[0].kind == CREDIT
    && es[0].amount == es[0].balanceAfter == capital
    && (forall i :: 0 < i < |es| ==> es[i].kind != CREDIT)
    && Chained(es)
    && balance == es[|es| - 1].balanceAfter
  }

  ghost predicate LedgerOk(b: Book) { EntriesOk(b.entries, b.capital, b.equity) }

  ghost predicate PeakOk(b: Book)
  {
    && (forall i: nat :: i <= |b.trades| ==> EquityAfter(b, i) <= b.peak)
    && (exists i: nat :: i <= |b.trades| && EquityAfter(b, i) == b.peak)
  }

  ghost predicate BookOk(b: Book)
  {
    && LedgerOk(b)
    && b.realized == TotalRealized(b.trades)
    && b.equity == b.capital + b.realized - TotalCharges(b.trades)
    && PeakOk(b)
  }

  lemma OpeningBookOk(challengeId: nat, paymentId: nat, capital: int)
    ensures BookOk(OpeningBook(challengeId, paymentId, capital))
  {
    var b := OpeningBook(challengeId, paymentId, capital);
    assert EquityAfter(b, 0) == capital;
  }

  lemma PostKeepsBook(b: Book, t: Trade)
    requires BookOk(b)
    ensures BookOk(Post(b, t))
  {
    assert Post(b, t).trades[..|b.trades|] == b.trades == b.trades[..|b.trades|];
    PostKeepsLedger(b, t);
    PostKeepsPeak(b, t);
  }

  lemma PostKeepsPeak(b: Book, t: Trade)
    requires PeakOk(b) && b.equity == EquityAfter(b, |b.trades|)
    ensures PeakOk(Post(b, t))
  {
    var p, n := Post(b, t), |b.trades|;
    forall i: nat | i <= n
      ensures EquityAfter(p, i) == EquityAfter(b, i)
    {
      assert p.trades[..i] == b.trades[..i];
    }
    PostedEquity(b, t);
    var best: nat :| best <= n && EquityAfter(b, best) == b.peak;
    assert EquityAfter(p, if p.equity > b.peak then n + 1 else best) == p.peak;
  }

  lemma PostedEquity(b: Book, t: Trade)
    requires b.equity == EquityAfter(b, |b.trades|)
    ensures EquityAfter(Post(b, t), |b.trades| + 1) == Post(b, t).equity
  {
    var n := |b.trades|;
    assert b.trades[..n] == b.trades;
    assert (b.trades + [t])[..n + 1] == b.trades + [t];
    assert (b.trades + [t])[..n] == b.trades;
  }

  lemma PostKeepsLedger(b: Book, t: Trade)
    requires LedgerOk(b)
    ensures LedgerOk(Post(b, t))
  {
    var pnl, charges := PnlEntries(t, b.equity), ChargeEntries(t, b.equity + t.realized);
    if pnl != [] {
      AppendKeepsEntries(b.entries, pnl[0], b.capital, b.equity);
    }
    assert b.entries + [] == b.entries;
    var posted := b.entries + pnl;
    if charges != [] {
      AppendKeepsEntries(posted, charges[0], b.capital, b.equity + t.realized);
    }
    assert posted + [] == posted;
    assert b.entries + (pnl + charges) == posted + charges;
  }

  lemma AppendKeepsEntries(es: seq<Entry>, e: Entry, capital: int, balance: int)
    requires EntriesOk(es, capital, balance) && e.kind != CREDIT && e.balanceAfter == balance + e.amount
    ensures EntriesOk(es + [e], capital, e.balanceAfter)
  {
  }

  /** The current equity is the sum of every amount ever written to the ledger. */
  lemma EquityIsLedgerSum(b: Book)
    requires LedgerOk(b)
    ensures b.equity == SumAmounts(b.entries)
  {
    ChainSums(b.entries);
  }

  lemma {:induction false} ChainSums(es: seq<Entry>)
    requires |es| > 0 && es[0].amount == es[0].balanceAfter && Chained(es)
    ensures es[|es| - 1].balanceAfter == SumAmounts(es)
  {
    var front := es[..|es| - 1];
    if front == [] {
      assert SumAmounts(front) == 0;
    } else {
      ChainSums(front);
    }
  }

  /** Posting all of `ts` in order. */
  function PostAll(b: Book, ts: seq<Trade>): Book
  {
    if ts == [] then b else Post(PostAll(b, ts[..|ts| - 1]), ts[|ts| - 1])
  }

  lemma {:induction false} PostAllKeepsBook(b: Book, ts: seq<Trade>)
    requires BookOk(b)
    ensures BookOk(PostAll(b, ts))
    ensures PostAll(b, ts).trades == b.trades + ts && PostAll(b, ts).capital == b.capital
  {
    if ts != [] {
      PostAllKeepsBook(b, ts[..|ts| - 1]);
      PostKeepsBook(PostAll(b, ts[..|ts| - 1]), ts[|ts| - 1]);
      assert ts == ts[..|ts| - 1] + [ts[|ts| - 1]];
    }
  }
}
