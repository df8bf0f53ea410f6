/**
 * Sanitising history candles: drop invalid ones, normalise wicks, sort by time, keep the last bar of each
 * timestamp. What the loops compute is characterised by one map: the last kept bar of every timestamp.
 */
module Candles {
  import opened Prelude

  /** A candle as received: a component that is NaN or infinite is `None`. */
  datatype RawCandle = RawCandle(t: Option<int>, o: Option<real>, h: Option<real>, l: Option<real>, c: Option<real>,
                                 v: Option<real>)

  /** A candle whose components are all finite; `t` is its opening time in milliseconds. */
  datatype Candle = Candle(t: int, o: real, h: real, l: real, c: real, v: real)

  function Raw(x: Candle): RawCandle { RawCandle(Some(x.t), Some(x.o), Some(x.h), Some(x.l), Some(x.c), Some(x.v)) }

  function Raws(xs: seq<Candle>): seq<RawCandle> { seq(|xs|, i requires 0 <= i < |xs| => Raw(xs[i])) }

  predicate Positive(x: Option<real>) { x.Some? && x.value > 0.0 }

  /** True when OHLC is finite, positive and wick-consistent up to the tolerance. */
  predicate IsValidHistoryCandle(x: RawCandle)
  {
    && x.t.Some? && x.t.value > 0
    && Positive(x.o) && Positive(x.h) && Positive(x.l) && Positive(x.c)
    && x.v.Some? && x.v.value >= 0.0
    && x.h.value >= x.l.value
    && x.h.value + EPS >= MaxR(x.o.value, x.c.value)
    && x.l.value - EPS <= MinR(x.o.value, x.c.value)
  }

  function Normalize(x: RawCandle): Candle
    requires IsValidHistoryCandle(x)
  {
    Candle(x.t.value, x.o.value, MaxR(x.h.value, MaxR(x.o.value, x.c.value)), MinR(x.l.value, MinR(x.o.value, x.c.value)),
           x.c.value, x.v.value)
  }

  /** What a sanitised candle looks like: positive, with wicks that cover open and close exactly. */
  ghost predicate Clean(x: Candle)
  {
    x.t > 0 && 0.0 < x.l <= x.o <= x.h && x.l <= x.c <= x.h && x.v >= 0.0
  }

  lemma NormalizeCleans(x: RawCandle)
    requires IsValidHistoryCandle(x)
    ensures Clean(Normalize(x))
  {
  }

  lemma CleanIsStable(x: Candle)
    requires Clean(x)
    ensures IsValidHistoryCandle(Raw(x)) && Normalize(Raw(x)) == x
  {
  }

  predicate InRange(t: int, fromMs: Option<int>, toMs: Option<int>)
  {
    (fromMs.Some? ==> fromMs.value <= t) && (toMs.Some? ==> t <= toMs.value)
  }

  predicate Keeps(x: RawCandle, fromMs: Option<int>, toMs: Option<int>)
  {
    IsValidHistoryCandle(x) && InRange(x.t.value, fromMs, toMs)
  }

  function Kept(bars: seq<RawCandle>, fromMs: Option<int>, toMs: Option<int>): seq<Candle>
  {
    if bars == [] then []
    else
      var rest, last := Kept(bars[..|bars| - 1], fromMs, toMs), bars[|bars| - 1];
      if Keeps(last, fromMs, toMs) then rest + [Normalize(last)] else rest
  }

  // ---------- Time-indexed view ----------

  /** The last candle of each timestamp. */
  function LastByTime(xs: seq<Candle>): map<int, Candle>
  {
    if xs == [] then map[] else LastByTime(xs[..|xs| - 1])[xs[|xs| - 1].t := xs[|xs| - 1]]
  }

  ghost predicate Ascending(xs: seq<Candle>)
  {
    forall i, j :: 0 <= i < j < |xs| ==> xs[i].t < xs[j].t
  }

  ghost predicate SortedByTime(xs: seq<Candle>)
  {
    forall i, j :: 0 <= i < j < |xs| ==> xs[i].t <= xs[j].t
  }

  lemma {:induction false} LastByTimeConcat(xs: seq<Candle>, ys: seq<Candle>)
    ensures LastByTime(xs + ys) == LastByTime(xs) + LastByTime(ys)
  {
    if ys == [] {
      assert xs + ys == xs;
    } else {
      var n := |ys| - 1;
      LastByTimeConcat(xs, ys[..n]);
      assert (xs + ys)[..|xs| + n] == xs + ys[..n];
    }
  }

  lemma {:induction false} LastByTimeKeys(xs: seq<Candle>)
    ensures forall i :: 0 <= i < |xs| ==> xs[i].t in LastByTime(xs)
    ensures forall t :: t in LastByTime(xs) ==> LastByTime(xs)[t].t == t && LastByTime(xs)[t] in xs
    ensures xs != [] ==> LastByTime(xs) != map[]
  {
    if xs != [] {
      var n := |xs| - 1;
      LastByTimeKeys(xs[..n]);
      assert xs[n].t in LastByTime(xs);
      forall i | 0 <= i < n
        ensures xs[i].t in LastByTime(xs)
      {
        assert xs[..n][i].t in LastByTime(xs[..n]);
      }
    }
  }

  lemma {:induction false} AscendingIndex(xs: seq<Candle>, i: nat)
    requires Ascending(xs) && i < |xs|
    ensures xs[i].t in LastByTime(xs) && LastByTime(xs)[xs[i].t] == xs[i]
  {
    var n := |xs| - 1;
    if i < n {
      AscendingIndex(xs[..n], i);
    }
  }

  /** An ascending list is determined by the candle it has at each timestamp. */
  lemma {:induction false} AscendingIsDetermined(xs: seq<Candle>, ys: seq<Candle>)
    requires Ascending(xs) && Ascending(ys) && LastByTime(xs) == LastByTime(ys)
    ensures xs == ys
  {
    LastByTimeKeys(xs);
    LastByTimeKeys(ys);
    if xs != [] && ys != [] {
      var m, n := |xs| - 1, |ys| - 1;
      SameLatest(xs, ys);
      AscendingIndex(xs, m);
      AscendingIndex(ys, n);
      WithoutLast(xs);
      WithoutLast(ys);
      AscendingIsDetermined(xs[..m], ys[..n]);
    }
  }

  lemma SameLatest(xs: seq<Candle>, ys: seq<Candle>)
    requires Ascending(xs) && Ascending(ys) && LastByTime(xs) == LastByTime(ys) && xs != [] && ys != []
    ensures xs[|xs| - 1].t == ys[|ys| - 1].t
  {
    LatestBounds(xs);
    LatestBounds(ys);
  }

  lemma LatestBounds(xs: seq<Candle>)
    requires Ascending(xs) && xs != []
    ensures xs[|xs| - 1].t in LastByTime(xs) && forall t :: t in LastByTime(xs) ==> t <= xs[|xs| - 1].t
  {
    LastByTimeKeys(xs);
    forall t | t in LastByTime(xs)
      ensures t <= xs[|xs| - 1].t
    {
      var i :| 0 <= i < |xs| && xs[i] == LastByTime(xs)[t];
    }
  }

  lemma MapUndo(m: map<int, Candle>, t: int, c: Candle)
    requires t !in m
    ensures m[t := c] - {t} == m
  {
  }

  lemma MapSwap(m: map<int, Candle>, t: int, c: Candle, t': int, c': Candle)
    requires t != t'
    ensures m[t := c][t' := c'] == m[t' := c'][t := c]
  {
  }

  lemma MapOverwrite(m: map<int, Candle>, t: int, c: Candle, c': Candle)
    ensures m[t := c][t := c'] == m[t := c']
  {
  }

  lemma WithoutLast(xs: seq<Candle>)
    requires Ascending(xs) && xs != []
    ensures LastByTime(xs[..|xs| - 1]) == LastByTime(xs) - {xs[|xs| - 1].t}
  {
    var front, last := xs[..|xs| - 1], xs[|xs| - 1];
    LastByTimeKeys(front);
    forall t | t in LastByTime(front)
      ensures t < last.t
    {
      var i :| 0 <= i < |front| && front[i] == LastByTime(front)[t];
    }
    MapUndo(LastByTime(front), last.t, last);
  }

  // ---------- The specification ----------

  /** Insert a candle at its place, replacing the one of the same timestamp if there is one. */
  function Put(xs: seq<Candle>, c: Candle): seq<Candle>
  {
    if xs == [] || xs[|xs| - 1].t < c.t then xs + [c]
    else if xs[|xs| - 1].t == c.t then xs[..|xs| - 1] + [c]
    else Put(xs[..|xs| - 1], c) + [xs[|xs| - 1]]
  }

  function Listing(xs: seq<Candle>): seq<Candle>
  {
    if xs == [] then [] else Put(Listing(xs[..|xs| - 1]), xs[|xs| - 1])
  }

  lemma {:induction false} PutMembers(xs: seq<Candle>, c: Candle)
    ensures forall x :: x in Put(xs, c) ==> x == c || x in xs
  {
    if xs != [] && xs[|xs| - 1].t > c.t {
      PutMembers(xs[..|xs| - 1], c);
    }
  }

  lemma {:induction false} PutAscends(xs: seq<Candle>, c: Candle)
    requires Ascending(xs)
    ensures Ascending(Put(xs, c))
  {
    if xs != [] && xs[|xs| - 1].t > c.t {
      var head := Put(xs[..|xs| - 1], c);
      PutAscends(xs[..|xs| - 1], c);
      PutMembers(xs[..|xs| - 1], c);
      forall i | 0 <= i < |head|
        ensures head[i].t < xs[|xs| - 1].t
      {
        assert head[i] in head;
      }
    }
  }

  lemma {:induction false} PutReplaces(xs: seq<Candle>, c: Candle)
    ensures LastByTime(Put(xs, c)) == LastByTime(xs)[c.t := c]
  {
    if xs == [] || xs[|xs| - 1].t < c.t {
      assert Put(xs, c)[..|xs|] == xs;
    } else {
      var front, last := xs[..|xs| - 1], xs[|xs| - 1];
      assert Put(xs, c)[..|Put(xs, c)| - 1] == if last.t == c.t then front else Put(front, c);
      if last.t == c.t {
        MapOverwrite(LastByTime(front), c.t, last, c);
      } else {
        PutReplaces(front, c);
        MapSwap(LastByTime(front), c.t, c, last.t, last);
      }
    }
  }

  lemma PutSound(xs: seq<Candle>, c: Candle)
    requires Ascending(xs)
    ensures Ascending(Put(xs, c)) && LastByTime(Put(xs, c)) == LastByTime(xs)[c.t := c]
    ensures forall x :: x in Put(xs, c) ==> x == c || x in xs
  {
    PutMembers(xs, c);
    PutAscends(xs, c);
    PutReplaces(xs, c);
  }

  lemma {:induction false} ListingSound(xs: seq<Candle>)
    ensures Ascending(Listing(xs)) && LastByTime(Listing(xs)) == LastByTime(xs)
    ensures forall x :: x in Listing(xs) ==> x in xs
  {
    if xs != [] {
      ListingSound(xs[..|xs| - 1]);
      PutSound(Listing(xs[..|xs| - 1]), xs[|xs| - 1]);
    }
  }

  function Sanitize(bars: seq<RawCandle>, fromMs: Option<int>, toMs: Option<int>): seq<Candle>
  {
    Listing(Kept(bars, fromMs, toMs))
  }

  // ---------- Sorting, stably ----------

  /** Place a candle after every candle that is not later, as a stable sort does with the next element. */
  function InsertStable(xs: seq<Candle>, c: Candle): seq<Candle>
  {
    if xs == [] || xs[|xs| - 1].t <= c.t then xs + [c] else InsertStable(xs[..|xs| - 1], c) + [xs[|xs| - 1]]
  }

  function StableSort(xs: seq<Candle>): seq<Candle>
  {
    if xs == [] then [] else InsertStable(StableSort(xs[..|xs| - 1]), xs[|xs| - 1])
  }

  lemma {:induction false} InsertStableAdds(xs: seq<Candle>, c: Candle)
    ensures multiset(InsertStable(xs, c)) == multiset(xs) + multiset{c}
  {
    if xs != [] && xs[|xs| - 1].t > c.t {
      InsertStableAdds(xs[..|xs| - 1], c);
      assert xs == xs[..|xs| - 1] + [xs[|xs| - 1]];
    }
  }

  lemma {:induction false} InsertStableSorts(xs: seq<Candle>, c: Candle)
    requires SortedByTime(xs)
    ensures SortedByTime(InsertStable(xs, c))
  {
    if xs != [] && xs[|xs| - 1].t > c.t {
      var n, last := |xs| - 1, xs[|xs| - 1];
      var head := InsertStable(xs[..n], c);
      InsertStableSorts(xs[..n], c);
      InsertStableAdds(xs[..n], c);
      forall i | 0 <= i < |head|
        ensures head[i].t <= last.t
      {
        assert head[i] in multiset(head);
      }
    }
  }

  /** A stable insertion makes the new candle the last of its timestamp and disturbs no other timestamp. */
  lemma {:induction false} InsertStableKeepsLast(xs: seq<Candle>, c: Candle)
    requires SortedByTime(xs)
    ensures LastByTime(InsertStable(xs, c)) == LastByTime(xs)[c.t := c]
  {
    if xs != [] && xs[|xs| - 1].t > c.t {
      var front, last := xs[..|xs| - 1], xs[|xs| - 1];
      InsertStableKeepsLast(front, c);
      assert InsertStable(xs, c)[..|InsertStable(xs, c)| - 1] == InsertStable(front, c);
      MapSwap(LastByTime(front), c.t, c, last.t, last);
    } else {
      assert (xs + [c])[..|xs|] == xs;
    }
  }

  lemma {:induction false} StableSortSound(xs: seq<Candle>)
    ensures SortedByTime(StableSort(xs)) && LastByTime(StableSort(xs)) == LastByTime(xs)
  {
    if xs != [] {
      var front, last := xs[..|xs| - 1], xs[|xs| - 1];
      StableSortSound(front);
      InsertStableSorts(StableSort(front), last);
      InsertStableKeepsLast(StableSort(front), last);
    }
  }

  /** Sort ascending, drop invalids, dedupe by timestamp (keep last), optionally clamp to a range. */
  method SanitizeHistoryCandles(bars: seq<RawCandle>, fromMs: Option<int>, toMs: Option<int>) returns (out: seq<Candle>)
    ensures out == Sanitize(bars, fromMs, toMs)
  {
    var cleaned := [];
    for i := 0 to |bars|
      invariant cleaned == Kept(bars[..i], fromMs, toMs)
    {
      assert bars[..i + 1][..i] == bars[..i];
      var raw := bars[i];
      if !IsValidHistoryCandle(raw) { continue; }
      if fromMs.Some? && raw.t.value < fromMs.value { continue; }
      if toMs.Some? && raw.t.value > toMs.value { continue; }
      cleaned := cleaned + [Normalize(raw)];
    }
    assert bars[..|bars|] == bars;
    ghost var kept := cleaned;
    StableSortSound(cleaned);
    cleaned := StableSort(cleaned);
    out := Dedupe(cleaned);
    ListingSound(kept);
    AscendingIsDetermined(out, Listing(kept));
  }

  /** The pass over the sorted list that overwrites the last bar while the timestamp repeats. */
  method Dedupe(sorted: seq<Candle>) returns (out: seq<Candle>)
    requires SortedByTime(sorted)
    ensures Ascending(out) && LastByTime(out) == LastByTime(sorted)
  {
    out := [];
    for i := 0 to |sorted|
      invariant Ascending(out) && LastByTime(out) == LastByTime(sorted[..i])
      invariant if i == 0 then out == [] else out != [] && out[|out| - 1].t == sorted[i - 1].t
    {
      assert sorted[..i + 1][..i] == sorted[..i];
      var b := sorted[i];
      PutSound(out, b);
      if out != [] && out[|out| - 1].t == b.t {
        out := out[..|out| - 1] + [b];
      } else {
        out := out + [b];
      }
    }
    assert sorted[..|sorted|] == sorted;
  }

  // ---------- What sanitising means ----------

  /** The last valid in-range bar with timestamp `t`, normalised. */
  function LastKeptAt(bars: seq<RawCandle>, fromMs: Option<int>, toMs: Option<int>, t: int): Option<Candle>
  {
    if bars == [] then None
    else
      var last := bars[|bars| - 1];
      if Keeps(last, fromMs, toMs) && last.t.value == t then Some(Normalize(last))
      else LastKeptAt(bars[..|bars| - 1], fromMs, toMs, t)
  }

  function At(xs: seq<Candle>, t: int): Option<Candle>
  {
    if t in LastByTime(xs) then Some(LastByTime(xs)[t]) else None
  }

  lemma {:induction false} KeptAt(bars: seq<RawCandle>, fromMs: Option<int>, toMs: Option<int>, t: int)
    ensures At(Kept(bars, fromMs, toMs), t) == LastKeptAt(bars, fromMs, toMs, t)
  {
    if bars != [] {
      KeptAt(bars[..|bars| - 1], fromMs, toMs, t);
    }
  }

  /**
   * A list is the sanitised input exactly when it is strictly ascending and has, at every timestamp, the
   * last valid in-range bar of that timestamp, normalised, and nothing where there is none.
   */
  lemma SanitizeIsExact(bars: seq<RawCandle>, fromMs: Option<int>, toMs: Option<int>, out: seq<Candle>)
    ensures out == Sanitize(bars, fromMs, toMs) <==>
            (Ascending(out) && forall t :: At(out, t) == LastKeptAt(bars, fromMs, toMs, t))
  {
    var s := Sanitize(bars, fromMs, toMs);
    ListingSound(Kept(bars, fromMs, toMs));
    forall t
      ensures At(s, t) == LastKeptAt(bars, fromMs, toMs, t)
    {
      KeptAt(bars, fromMs, toMs, t);
    }
    if Ascending(out) && forall t :: At(out, t) == LastKeptAt(bars, fromMs, toMs, t) {
      forall t
        ensures At(out, t) == At(s, t)
      {
      }
      SameAt(out, s);
      AscendingIsDetermined(out, s);
    }
  }

  lemma SameAt(xs: seq<Candle>, ys: seq<Candle>)
    requires forall t :: At(xs, t) == At(ys, t)
    ensures LastByTime(xs) == LastByTime(ys)
  {
    forall t
      ensures t in LastByTime(xs) <==> t in LastByTime(ys)
      ensures t in LastByTime(xs) && t in LastByTime(ys) ==> LastByTime(xs)[t] == LastByTime(ys)[t]
    {
      assert At(xs, t) == At(ys, t);
    }
  }

  ghost predicate AllClean(xs: seq<Candle>) { forall x :: x in xs ==> Clean(x) }

  lemma {:induction false} KeptIsClean(bars: seq<RawCandle>, fromMs: Option<int>, toMs: Option<int>)
    ensures AllClean(Kept(bars, fromMs, toMs))
    ensures forall x :: x in Kept(bars, fromMs, toMs) ==> InRange(x.t, fromMs, toMs)
  {
    if bars != [] {
      KeptIsClean(bars[..|bars| - 1], fromMs, toMs);
      if Keeps(bars[|bars| - 1], fromMs, toMs) {
        NormalizeCleans(bars[|bars| - 1]);
      }
    }
  }

  lemma SanitizedIsClean(bars: seq<RawCandle>, fromMs: Option<int>, toMs: Option<int>)
    ensures Ascending(Sanitize(bars, fromMs, toMs)) && AllClean(Sanitize(bars, fromMs, toMs))
    ensures forall x :: x in Sanitize(bars, fromMs, toMs) ==> InRange(x.t, fromMs, toMs)
  {
    ListingSound(Kept(bars, fromMs, toMs));
    KeptIsClean(bars, fromMs, toMs);
  }

  lemma {:induction false} KeptConcat(xs: seq<RawCandle>, ys: seq<RawCandle>, fromMs: Option<int>, toMs: Option<int>)
    ensures Kept(xs + ys, fromMs, toMs) == Kept(xs, fromMs, toMs) + Kept(ys, fromMs, toMs)
  {
    if ys == [] {
      assert xs + ys == xs;
    } else {
      var n := |ys| - 1;
      KeptConcat(xs, ys[..n], fromMs, toMs);
      assert (xs + ys)[..|xs| + n] == xs + ys[..n];
    }
  }

  /** Candles that are already clean and in range all pass unchanged. */
  lemma {:induction false} KeptOfClean(xs: seq<Candle>, fromMs: Option<int>, toMs: Option<int>)
    requires AllClean(xs) && forall x :: x in xs ==> InRange(x.t, fromMs, toMs)
    ensures Kept(Raws(xs), fromMs, toMs) == xs
  {
    if xs != [] {
      var n := |xs| - 1;
      KeptOfClean(xs[..n], fromMs, toMs);
      assert Raws(xs)[..n] == Raws(xs[..n]);
      CleanIsStable(xs[n]);
      assert xs == xs[..n] + [xs[n]];
    }
  }

  lemma ListingOfAscending(xs: seq<Candle>)
    requires Ascending(xs)
    ensures Listing(xs) == xs
  {
    ListingSound(xs);
    AscendingIsDetermined(Listing(xs), xs);
  }

  lemma SanitizeOfClean(xs: seq<Candle>)
    requires Ascending(xs) && AllClean(xs)
    ensures Sanitize(Raws(xs), None, None) == xs
  {
    KeptOfClean(xs, None, None);
    ListingOfAscending(xs);
  }

  /** Sanitising twice, with the same or no range the second time, is sanitising once. */
  lemma SanitizeIsIdempotent(bars: seq<RawCandle>, fromMs: Option<int>, toMs: Option<int>)
    ensures Sanitize(Raws(Sanitize(bars, fromMs, toMs)), fromMs, toMs) == Sanitize(bars, fromMs, toMs)
    ensures Sanitize(Raws(Sanitize(bars, fromMs, toMs)), None, None) == Sanitize(bars, fromMs, toMs)
  {
    var s := Sanitize(bars, fromMs, toMs);
    SanitizedIsClean(bars, fromMs, toMs);
    KeptOfClean(s, fromMs, toMs);
    ListingOfAscending(s);
    SanitizeOfClean(s);
  }

  /** Sanitising parts before joining them gives what sanitising the whole does. */
  lemma SanitizeDistributes(xs: seq<RawCandle>, ys: seq<RawCandle>, fromMs: Option<int>, toMs: Option<int>)
    ensures Sanitize(xs + ys, fromMs, toMs) ==
            Sanitize(Raws(Sanitize(xs, fromMs, toMs)) + Raws(Sanitize(ys, fromMs, toMs)), fromMs, toMs)
  {
    var a, b := Sanitize(xs, fromMs, toMs), Sanitize(ys, fromMs, toMs);
    var whole, parts := Kept(xs + ys, fromMs, toMs), Kept(Raws(a) + Raws(b), fromMs, toMs);
    KeptConcat(xs, ys, fromMs, toMs);
    KeptConcat(Raws(a), Raws(b), fromMs, toMs);
    SanitizedIsClean(xs, fromMs, toMs);
    SanitizedIsClean(ys, fromMs, toMs);
    KeptOfClean(a, fromMs, toMs);
    KeptOfClean(b, fromMs, toMs);
    LastByTimeConcat(Kept(xs, fromMs, toMs), Kept(ys, fromMs, toMs));
    LastByTimeConcat(a, b);
    ListingSound(Kept(xs, fromMs, toMs));
    ListingSound(Kept(ys, fromMs, toMs));
    ListingSound(whole);
    ListingSound(parts);
    AscendingIsDetermined(Listing(whole), Listing(parts));
  }
}
