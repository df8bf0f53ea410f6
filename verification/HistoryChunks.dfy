/** Fetching a long intraday range in broker-sized windows, and what a failed window costs. */
module HistoryChunks {
  import opened Prelude
  import opened Candles
  import opened CandleBuckets
  import opened CandleMerge

  /** 89 days: the broker caps a poll at about 90. */
  const CHUNK_MS := 89 * DAY_MS

  datatype Window = Window(start: int, end: int)

  function Windows(fromMs: int, toMs: int): seq<Window>
    decreases toMs - fromMs
  {
    if fromMs > toMs then []
    else
      var end := Min(fromMs + CHUNK_MS, toMs);
      [Window(fromMs, end)] + Windows(end + 1, toMs)
  }

  /** A broker's answer to a window; `None` is a failed request. */
  type Broker = Window -> Option<seq<Candle>>

  /** All answers, one after the other, failures contributing nothing. */
  function Answers(ws: seq<Window>, broker: Broker): seq<Candle>
  {
    if ws == [] then []
    else
      var front := Answers(ws[..|ws| - 1], broker);
      var a := broker(ws[|ws| - 1]);
      if a.Some? then front + a.value else front
  }

  function FetchChunks(broker: Broker, fromMs: int, toMs: int): seq<Candle>
  {
    Listing(Answers(Windows(fromMs, toMs), broker))
  }

  // ---------- The loop ----------

  ghost predicate UniqueTimes(xs: seq<Candle>)
  {
    forall i, j :: 0 <= i < j < |xs| ==> xs[i].t != xs[j].t
  }

  lemma {:induction false} ReplaceAt(xs: seq<Candle>, j: nat, c: Candle)
    requires UniqueTimes(xs) && j < |xs| && xs[j].t == c.t
    ensures LastByTime(xs[j := c]) == LastByTime(xs)[c.t := c]
  {
    var n, ys := |xs| - 1, xs[j := c];
    if j < n {
      assert ys[..n] == xs[..n][j := c];
      ReplaceAt(xs[..n], j, c);
      MapSwap(LastByTime(xs[..n]), c.t, c, xs[n].t, xs[n]);
    } else {
      assert ys[..n] == xs[..n];
      MapOverwrite(LastByTime(xs[..n]), c.t, xs[n], c);
    }
  }

  lemma SetByTimeSound(xs: seq<Candle>, c: Candle)
    requires UniqueTimes(xs)
    ensures UniqueTimes(SetByTime(xs, c)) && LastByTime(SetByTime(xs, c)) == LastByTime(xs)[c.t := c]
  {
    var j := IndexOfTime(xs, c.t);
    if j < |xs| {
      ReplaceAt(xs, j, c);
    } else {
      assert (xs + [c])[..|xs|] == xs;
    }
  }

  lemma {:induction false} InsertStableMembers(xs: seq<Candle>, c: Candle)
    ensures forall x :: x in InsertStable(xs, c) ==> x == c || x in xs
  {
    if xs != [] && xs[|xs| - 1].t > c.t {
      InsertStableMembers(xs[..|xs| - 1], c);
    }
  }

  lemma {:induction false} StableSortMembers(xs: seq<Candle>)
    ensures forall x :: x in StableSort(xs) ==> x in xs
  {
    if xs != [] {
      StableSortMembers(xs[..|xs| - 1]);
      InsertStableMembers(StableSort(xs[..|xs| - 1]), xs[|xs| - 1]);
    }
  }

  lemma {:induction false} InsertStableAscends(xs: seq<Candle>, c: Candle)
    requires Ascending(xs) && forall x :: x in xs ==> x.t != c.t
    ensures Ascending(InsertStable(xs, c))
  {
    if xs != [] && xs[|xs| - 1].t > c.t {
      var front := xs[..|xs| - 1];
      InsertStableAscends(front, c);
      InsertStableMembers(front, c);
      var head := InsertStable(front, c);
      forall i | 0 <= i < |head|
        ensures head[i].t < xs[|xs| - 1].t
      {
        assert head[i] in head;
      }
    } else if xs != [] {
      assert xs[|xs| - 1] in xs;
    }
  }

  /** Sorting candles of distinct times gives their ascending listing. */
  lemma {:induction false} SortOfUnique(xs: seq<Candle>)
    requires UniqueTimes(xs)
    ensures Ascending(StableSort(xs)) && LastByTime(StableSort(xs)) == LastByTime(xs)
  {
    StableSortSound(xs);
    if xs != [] {
      var front, last := xs[..|xs| - 1], xs[|xs| - 1];
      SortOfUnique(front);
      StableSortMembers(front);
      InsertStableAscends(StableSort(front), last);
    }
  }

  method FetchIntradayChunks(broker: Broker, fromMs: int, toMs: int) returns (out: seq<Candle>)
    ensures out == FetchChunks(broker, fromMs, toMs)
  {
    var merged: seq<Candle> := [];
    var cursor := fromMs;
    ghost var done: seq<Window> := [];
    while cursor <= toMs
      invariant done + Windows(cursor, toMs) == Windows(fromMs, toMs)
      invariant UniqueTimes(merged) && LastByTime(merged) == LastByTime(Answers(done, broker))
      decreases toMs - cursor
    {
      var chunkEnd := Min(cursor + CHUNK_MS, toMs);
      var answer := broker(Window(cursor, chunkEnd));
      assert (done + [Window(cursor, chunkEnd)])[..|done|] == done;
      if answer.Some? {
        merged := MergeAnswer(merged, answer.value);
        LastByTimeConcat(Answers(done, broker), answer.value);
      }
      done := done + [Window(cursor, chunkEnd)];
      cursor := chunkEnd + 1;
    }
    assert done == Windows(fromMs, toMs);
    SortOfUnique(merged);
    ListingSound(Answers(done, broker));
    out := StableSort(merged);
    AscendingIsDetermined(out, Listing(Answers(done, broker)));
  }

  /** `merged.set(c.t, c)` for every candle of an answer. */
  method MergeAnswer(merged: seq<Candle>, answer: seq<Candle>) returns (out: seq<Candle>)
    requires UniqueTimes(merged)
    ensures UniqueTimes(out) && LastByTime(out) == LastByTime(merged) + LastByTime(answer)
  {
    out := merged;
    for i := 0 to |answer|
      invariant UniqueTimes(out) && LastByTime(out) == LastByTime(merged) + LastByTime(answer[..i])
    {
      assert answer[..i + 1][..i] == answer[..i];
      SetByTimeSound(out, answer[i]);
      out := SetByTime(out, answer[i]);
    }
    assert answer[..|answer|] == answer;
  }

  /** The broker's history and today's candles in one list: ascending, today's winning where both have a time. */
  method MergeByTs(history: seq<Candle>, today: seq<Candle>) returns (out: seq<Candle>)
    ensures Ascending(out)
    ensures forall t :: At(out, t) == (if t in LastByTime(today) then Some(LastByTime(today)[t]) else At(history, t))
  {
    var merged := MergeAnswer([], history);
    merged := MergeAnswer(merged, today);
    SortOfUnique(merged);
    out := StableSort(merged);
    assert LastByTime([]) + LastByTime(history) == LastByTime(history);
  }

  // ---------- The windows ----------

  ghost predicate InWindow(w: Window, t: int) { w.start <= t <= w.end }

  /** The windows start and end with the range and follow each other without gap or overlap. */
  ghost predicate Partitions(ws: seq<Window>, fromMs: int, toMs: int)
  {
    if ws == [] then fromMs > toMs
    else
      && ws[0].start == fromMs && ws[|ws| - 1].end == toMs
      && (forall i :: 0 <= i < |ws| ==> ws[i].start <= ws[i].end <= ws[i].start + CHUNK_MS)
      && (forall i :: 0 < i < |ws| ==> ws[i].start == ws[i - 1].end + 1)
  }

  lemma {:induction false} WindowsPartition(fromMs: int, toMs: int)
    ensures Partitions(Windows(fromMs, toMs), fromMs, toMs)
    decreases toMs - fromMs
  {
    if fromMs <= toMs {
      WindowsPartition(Min(fromMs + CHUNK_MS, toMs) + 1, toMs);
    }
  }

  lemma {:induction false} LaterWindows(ws: seq<Window>, fromMs: int, toMs: int, i: nat, j: nat)
    requires Partitions(ws, fromMs, toMs) && i < j < |ws|
    ensures ws[i].end < ws[j].start
  {
    if j > i + 1 {
      LaterWindows(ws, fromMs, toMs, i, j - 1);
    }
  }

  lemma {:induction false} WindowOf(fromMs: int, toMs: int, t: int) returns (i: nat)
    requires fromMs <= t <= toMs
    ensures i < |Windows(fromMs, toMs)| && InWindow(Windows(fromMs, toMs)[i], t)
    decreases toMs - fromMs
  {
    var ws := Windows(fromMs, toMs);
    if t <= ws[0].end {
      i := 0;
    } else {
      var j := WindowOf(ws[0].end + 1, toMs, t);
      assert ws[1..] == Windows(ws[0].end + 1, toMs);
      i := j + 1;
    }
  }

  lemma WindowsInside(fromMs: int, toMs: int, i: nat)
    requires i < |Windows(fromMs, toMs)|
    ensures fromMs <= Windows(fromMs, toMs)[i].start && Windows(fromMs, toMs)[i].end <= toMs
  {
    var ws := Windows(fromMs, toMs);
    WindowsPartition(fromMs, toMs);
    if i > 0 {
      LaterWindows(ws, fromMs, toMs, 0, i);
    }
    if i < |ws| - 1 {
      LaterWindows(ws, fromMs, toMs, i, |ws| - 1);
    }
  }

  /** Every instant of the range lies in exactly one window, and no window reaches outside the range. */
  lemma ExactlyOneWindow(fromMs: int, toMs: int, t: int)
    ensures fromMs <= t <= toMs <==> exists i :: 0 <= i < |Windows(fromMs, toMs)| && InWindow(Windows(fromMs, toMs)[i], t)
    ensures forall i, j :: 0 <= i < j < |Windows(fromMs, toMs)| ==>
              !(InWindow(Windows(fromMs, toMs)[i], t) && InWindow(Windows(fromMs, toMs)[j], t))
  {
    WindowsPartition(fromMs, toMs);
    if fromMs <= t <= toMs {
      var i := WindowOf(fromMs, toMs, t);
    }
    if i: nat :| i < |Windows(fromMs, toMs)| && InWindow(Windows(fromMs, toMs)[i], t) {
      WindowsInside(fromMs, toMs, i);
    }
    forall i, j | 0 <= i < j < |Windows(fromMs, toMs)|
      ensures !(InWindow(Windows(fromMs, toMs)[i], t) && InWindow(Windows(fromMs, toMs)[j], t))
    {
      LaterWindows(Windows(fromMs, toMs), fromMs, toMs, i, j);
    }
  }

  // ---------- A broker that returns exactly what it stores ----------

  /** Requests carry whole seconds: both ends of a window are cut down to theirs. */
  function FloorSec(ms: int): int { ms / 1000 * 1000 }

  predicate Covers(w: Window, t: int) { FloorSec(w.start) <= t <= FloorSec(w.end) }

  function Covered(w: Window): Candle -> bool { (c: Candle) => Covers(w, c.t) }

  /** The stored candles inside the requested window, or nothing when the request fails. */
  function Stored(store: seq<Candle>, fails: Window -> bool): Broker
  {
    (w: Window) => if fails(w) then None else Some(Filter(store, Covered(w)))
  }

  lemma {:induction false} FilterAt(xs: seq<Candle>, w: Window, t: int)
    ensures At(Filter(xs, Covered(w)), t) == if Covers(w, t) then At(xs, t) else None
  {
    if xs != [] {
      FilterAt(xs[..|xs| - 1], w, t);
    }
  }

  ghost predicate Served(ws: seq<Window>, fails: Window -> bool, t: int)
  {
    exists i :: 0 <= i < |ws| && !fails(ws[i]) && Covers(ws[i], t)
  }

  lemma {:induction false} AnswersAt(ws: seq<Window>, store: seq<Candle>, fails: Window -> bool, t: int)
    ensures At(Answers(ws, Stored(store, fails)), t) == if Served(ws, fails, t) then At(store, t) else None
  {
    if ws != [] {
      var n := |ws| - 1;
      AnswersAt(ws[..n], store, fails, t);
      FilterAt(store, ws[n], t);
      assert Served(ws[..n], fails, t) ==> Served(ws, fails, t) by {
        if i :| 0 <= i < n && !fails(ws[..n][i]) && Covers(ws[..n][i], t) {
          assert !fails(ws[i]) && Covers(ws[i], t);
        }
      }
      assert Served(ws, fails, t) ==> Served(ws[..n], fails, t) || (!fails(ws[n]) && Covers(ws[n], t)) by {
        if i :| 0 <= i < |ws| && !fails(ws[i]) && Covers(ws[i], t) && i < n {
          assert !fails(ws[..n][i]) && Covers(ws[..n][i], t);
        }
      }
      if !fails(ws[n]) {
        LastByTimeConcat(Answers(ws[..n], Stored(store, fails)), Filter(store, Covered(ws[n])));
      }
    }
  }

  /** What the client finally returns: only bars of the requested range. */
  function FetchCandles(broker: Broker, fromMs: int, toMs: int): seq<Candle>
  {
    Filter(FetchChunks(broker, fromMs, toMs), Requested(fromMs, toMs))
  }

  function Requested(fromMs: int, toMs: int): Candle -> bool { (c: Candle) => fromMs <= c.t <= toMs }

  lemma {:induction false} RequestedAt(xs: seq<Candle>, fromMs: int, toMs: int, t: int)
    ensures At(Filter(xs, Requested(fromMs, toMs)), t) == if fromMs <= t <= toMs then At(xs, t) else None
  {
    if xs != [] {
      RequestedAt(xs[..|xs| - 1], fromMs, toMs, t);
    }
  }

  /** A stored bar is returned exactly when it is in range and some request that covers it did not fail. */
  lemma FetchedExactly(store: seq<Candle>, fails: Window -> bool, fromMs: int, toMs: int, t: int)
    ensures var out := FetchCandles(Stored(store, fails), fromMs, toMs);
            && Ascending(out)
            && At(out, t) == if fromMs <= t <= toMs && Served(Windows(fromMs, toMs), fails, t) then At(store, t) else None
  {
    var ws := Windows(fromMs, toMs);
    ListingSound(Answers(ws, Stored(store, fails)));
    FilterSound(FetchChunks(Stored(store, fails), fromMs, toMs), Requested(fromMs, toMs));
    RequestedAt(FetchChunks(Stored(store, fails), fromMs, toMs), fromMs, toMs, t);
    AnswersAt(ws, store, fails, t);
  }

  /** A whole second of the range is covered by the request for the window it lies in. */
  lemma WindowCovers(w: Window, t: int)
    requires InWindow(w, t) && t % 1000 == 0
    ensures Covers(w, t)
  {
  }

  /**
   * When no request fails and bars open on whole seconds, fetching in chunks returns exactly the stored bars
   * of the range: what one unlimited request would.
   */
  lemma ChunkingIsInvisible(store: seq<Candle>, fromMs: int, toMs: int)
    requires Ascending(store) && forall c :: c in store ==> c.t % 1000 == 0
    ensures FetchCandles(Stored(store, _ => false), fromMs, toMs) == Filter(store, Requested(fromMs, toMs))
  {
    var fails: Window -> bool := _ => false;
    var out, whole := FetchCandles(Stored(store, fails), fromMs, toMs), Filter(store, Requested(fromMs, toMs));
    FetchedExactly(store, fails, fromMs, toMs, 0);
    FilterSound(store, Requested(fromMs, toMs));
    LastByTimeKeys(store);
    forall t
      ensures At(out, t) == At(whole, t)
    {
      FetchedExactly(store, fails, fromMs, toMs, t);
      RequestedAt(store, fromMs, toMs, t);
      if fromMs <= t <= toMs && t in LastByTime(store) {
        AlwaysServed(fromMs, toMs, t, fails);
      }
    }
    SameAt(out, whole);
    AscendingIsDetermined(out, whole);
  }

  lemma AlwaysServed(fromMs: int, toMs: int, t: int, fails: Window -> bool)
    requires fromMs <= t <= toMs && t % 1000 == 0 && forall w :: !fails(w)
    ensures Served(Windows(fromMs, toMs), fails, t)
  {
    ExactlyOneWindow(fromMs, toMs, t);
    var i :| 0 <= i < |Windows(fromMs, toMs)| && InWindow(Windows(fromMs, toMs)[i], t);
    WindowCovers(Windows(fromMs, toMs)[i], t);
  }

  /** A bar that is lost lies in a window whose request failed: a failure costs nothing outside its own window. */
  lemma FailuresStayLocal(store: seq<Candle>, fails: Window -> bool, fromMs: int, toMs: int, t: int)
    requires fromMs <= t <= toMs && t % 1000 == 0
    requires At(FetchCandles(Stored(store, fails), fromMs, toMs), t) != At(store, t)
    ensures exists i :: 0 <= i < |Windows(fromMs, toMs)| && InWindow(Windows(fromMs, toMs)[i], t)
                        && fails(Windows(fromMs, toMs)[i])
  {
    FetchedExactly(store, fails, fromMs, toMs, t);
    ExactlyOneWindow(fromMs, toMs, t);
    var i :| 0 <= i < |Windows(fromMs, toMs)| && InWindow(Windows(fromMs, toMs)[i], t);
    WindowCovers(Windows(fromMs, toMs)[i], t);
  }
}
