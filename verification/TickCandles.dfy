/** The streaming one-minute aggregator, against the maximal same-minute runs of each instrument's ticks. */
module TickCandles {
  import opened Prelude

  datatype Tick = Tick(instrument: string, ltp: real, volume: real, ts: int)

  datatype MinuteCandle = MinuteCandle(instrument: string, ts: int, o: real, h: real, l: real, c: real, v: real)

  function MinuteBucket(ts: int): int { ts / 60000 * 60000 }

  // ---------- Maximal runs ----------

  ghost predicate NonEmptyRuns(r: seq<seq<Tick>>) { forall i :: 0 <= i < |r| ==> r[i] != [] }

  /** One more tick joins the last run if it is of its minute, and starts a run otherwise. */
  function RunsNext(r: seq<seq<Tick>>, t: Tick): (next: seq<seq<Tick>>)
    requires NonEmptyRuns(r)
    ensures NonEmptyRuns(next) && next != []
  {
    if r != [] && MinuteBucket(r[|r| - 1][0].ts) == MinuteBucket(t.ts) then r[|r| - 1 := r[|r| - 1] + [t]] else r + [[t]]
  }

  /** Consecutive ticks of one minute grouped together, in order. */
  function Runs(ticks: seq<Tick>): (r: seq<seq<Tick>>)
    ensures NonEmptyRuns(r) && (r == [] <==> ticks == [])
  {
    if ticks == [] then [] else RunsNext(Runs(ticks[..|ticks| - 1]), ticks[|ticks| - 1])
  }

  function Flatten(r: seq<seq<Tick>>): seq<Tick>
  {
    if r == [] then [] else Flatten(r[..|r| - 1]) + r[|r| - 1]
  }

  ghost predicate OneMinuteEach(r: seq<seq<Tick>>)
  {
    forall i, j :: 0 <= i < |r| && 0 <= j < |r[i]| ==> r[i] != [] && MinuteBucket(r[i][j].ts) == MinuteBucket(r[i][0].ts)
  }

  ghost predicate NeighboursDiffer(r: seq<seq<Tick>>)
  {
    forall i :: 0 < i < |r| && r[i - 1] != [] && r[i] != [] ==> MinuteBucket(r[i - 1][0].ts) != MinuteBucket(r[i][0].ts)
  }

  lemma {:induction false} RunsLoseNothing(ticks: seq<Tick>)
    ensures Flatten(Runs(ticks)) == ticks
  {
    if ticks != [] {
      var front, t := ticks[..|ticks| - 1], ticks[|ticks| - 1];
      RunsLoseNothing(front);
      FlattenNext(Runs(front), t);
      assert ticks == front + [t];
    }
  }

  lemma FlattenNext(r: seq<seq<Tick>>, t: Tick)
    requires NonEmptyRuns(r)
    ensures Flatten(RunsNext(r, t)) == Flatten(r) + [t]
  {
    var next, n := RunsNext(r, t), |r| - 1;
    if next == r + [[t]] {
      assert next[..|r|] == r;
    } else {
      assert next[..n] == r[..n];
      assert Flatten(r[..n]) + (r[n] + [t]) == (Flatten(r[..n]) + r[n]) + [t];
    }
  }

  lemma {:induction false} RunsAreRuns(ticks: seq<Tick>)
    ensures OneMinuteEach(Runs(ticks)) && NeighboursDiffer(Runs(ticks))
  {
    if ticks != [] {
      RunsAreRuns(ticks[..|ticks| - 1]);
    }
  }

  /** The runs split the ticks without loss, each lies in one minute, and neighbours never do. */
  lemma {:induction false} RunsAreMaximal(ticks: seq<Tick>)
    ensures Flatten(Runs(ticks)) == ticks && OneMinuteEach(Runs(ticks)) && NeighboursDiffer(Runs(ticks))
  {
    RunsLoseNothing(ticks);
    RunsAreRuns(ticks);
  }

  ghost predicate InOrder(ticks: seq<Tick>) { forall i, j :: 0 <= i < j < |ticks| ==> ticks[i].ts <= ticks[j].ts }

  function LastMinute(ticks: seq<Tick>): int
    requires ticks != []
  {
    MinuteBucket(ticks[|ticks| - 1].ts)
  }

  /** Ticks in time order give minutes in strictly increasing order. */
  lemma {:induction false} RunsInOrder(ticks: seq<Tick>)
    requires InOrder(ticks)
    ensures forall i, j :: 0 <= i < j < |Runs(ticks)| ==>
              MinuteBucket(Runs(ticks)[i][0].ts) < MinuteBucket(Runs(ticks)[j][0].ts)
    ensures ticks != [] ==> (Runs(ticks) != [] && MinuteBucket(Runs(ticks)[|Runs(ticks)| - 1][0].ts) == LastMinute(ticks))
  {
    if ticks != [] {
      RunsInOrder(ticks[..|ticks| - 1]);
    }
  }

  // ---------- What a candle says about its run ----------

  ghost predicate Summarises(b: MinuteCandle, key: string, run: seq<Tick>)
  {
    && run != [] && b.instrument == key && b.ts == MinuteBucket(run[0].ts)
    && b.o == run[0].ltp && b.c == run[|run| - 1].ltp && b.v == run[|run| - 1].volume
    && (forall i :: 0 <= i < |run| ==> b.l <= run[i].ltp <= b.h)
    && (exists i :: 0 <= i < |run| && run[i].ltp == b.h)
    && (exists i :: 0 <= i < |run| && run[i].ltp == b.l)
  }

  ghost predicate AllSummarise(bars: seq<MinuteCandle>, key: string, runs: seq<seq<Tick>>)
  {
    |bars| == |runs| && forall i :: 0 <= i < |bars| ==> Summarises(bars[i], key, runs[i])
  }

  function NewBar(t: Tick): MinuteCandle { MinuteCandle(t.instrument, MinuteBucket(t.ts), t.ltp, t.ltp, t.ltp, t.ltp, t.volume) }

  lemma NewBarSummarises(t: Tick)
    ensures Summarises(NewBar(t), t.instrument, [t])
  {
    assert [t][0].ltp == t.ltp;
  }

  lemma UpdateSummarises(b: MinuteCandle, key: string, run: seq<Tick>, t: Tick)
    requires Summarises(b, key, run)
    ensures Summarises(b.(h := MaxR(b.h, t.ltp), l := MinR(b.l, t.ltp), c := t.ltp, v := t.volume), key, run + [t])
  {
    var more := run + [t];
    var i :| 0 <= i < |run| && run[i].ltp == b.h;
    assert more[if t.ltp > b.h then |run| else i].ltp == MaxR(b.h, t.ltp);
    var j :| 0 <= j < |run| && run[j].ltp == b.l;
    assert more[if t.ltp < b.l then |run| else j].ltp == MinR(b.l, t.ltp);
  }

  /** The ticks of one instrument. */
  function Only(ticks: seq<Tick>, key: string): seq<Tick>
  {
    if ticks == [] then []
    else
      var rest, t := Only(ticks[..|ticks| - 1], key), ticks[|ticks| - 1];
      if t.instrument == key then rest + [t] else rest
  }

  function BarsOf(bars: seq<MinuteCandle>, key: string): seq<MinuteCandle>
  {
    if bars == [] then []
    else
      var rest, b := BarsOf(bars[..|bars| - 1], key), bars[|bars| - 1];
      if b.instrument == key then rest + [b] else rest
  }

  // ---------- One instrument ----------

  /** The candles completed for an instrument and its bar in progress. */
  datatype Strand = Strand(done: seq<MinuteCandle>, current: Option<MinuteCandle>)

  function UpdateBar(b: MinuteCandle, t: Tick): MinuteCandle
  {
    b.(h := MaxR(b.h, t.ltp), l := MinR(b.l, t.ltp), c := t.ltp, v := t.volume)
  }

  function StrandNext(s: Strand, t: Tick): Strand
  {
    if s.current.None? then Strand(s.done, Some(NewBar(t)))
    else if s.current.value.ts == MinuteBucket(t.ts) then Strand(s.done, Some(UpdateBar(s.current.value, t)))
    else Strand(s.done + [s.current.value], Some(NewBar(t)))
  }

  function StrandOf(ticks: seq<Tick>): Strand
  {
    if ticks == [] then Strand([], None)
    else StrandNext(StrandOf(ticks[..|ticks| - 1]), ticks[|ticks| - 1])
  }

  function AllBars(s: Strand): seq<MinuteCandle>
  {
    if s.current.Some? then s.done + [s.current.value] else s.done
  }

  /** Completed candles followed by the bar in progress are the candles of the maximal same-minute runs. */
  lemma {:induction false} StrandSummarisesRuns(ticks: seq<Tick>, key: string)
    requires forall t :: t in ticks ==> t.instrument == key
    ensures AllSummarise(AllBars(StrandOf(ticks)), key, Runs(ticks))
    ensures StrandOf(ticks).current.None? <==> ticks == []
  {
    if ticks != [] {
      var front, t := ticks[..|ticks| - 1], ticks[|ticks| - 1];
      StrandSummarisesRuns(front, key);
      StrandStep(StrandOf(front), Runs(front), t);
    }
  }

  lemma StrandOfAppend(ticks: seq<Tick>, t: Tick)
    ensures StrandOf(ticks + [t]) == StrandNext(StrandOf(ticks), t)
  {
    assert (ticks + [t])[..|ticks|] == ticks;
  }

  lemma StrandStep(s: Strand, r: seq<seq<Tick>>, t: Tick)
    requires AllSummarise(AllBars(s), t.instrument, r) && (s.current.None? <==> r == []) && NonEmptyRuns(r)
    ensures AllSummarise(AllBars(StrandNext(s, t)), t.instrument, RunsNext(r, t))
  {
    var n := |r| - 1;
    NewBarSummarises(t);
    if s.current.Some? {
      assert AllBars(s)[n] == s.current.value && Summarises(s.current.value, t.instrument, r[n]);
      if s.current.value.ts == MinuteBucket(t.ts) {
        UpdateSummarises(s.current.value, t.instrument, r[n], t);
      }
    }
  }

  // ---------- All instruments ----------

  type Open = map<string, MinuteCandle>

  /** The open bars after a tick, and the candle it completed, if any. */
  function AddTick(open: Open, t: Tick): (Open, Option<MinuteCandle>)
  {
    var key := t.instrument;
    if key !in open then (open[key := NewBar(t)], None)
    else if MinuteBucket(t.ts) == open[key].ts then (open[key := UpdateBar(open[key], t)], None)
    else (open[key := NewBar(t)], Some(open[key]))
  }

  /** The open bars and everything emitted after a tick stream. */
  function Feed(ticks: seq<Tick>): (Open, seq<MinuteCandle>)
  {
    if ticks == [] then (map[], [])
    else
      var (open, emitted) := Feed(ticks[..|ticks| - 1]);
      var (open', completed) := AddTick(open, ticks[|ticks| - 1]);
      (open', if completed.Some? then emitted + [completed.value] else emitted)
  }

  lemma BarsOfAppend(bars: seq<MinuteCandle>, b: MinuteCandle, key: string)
    ensures BarsOf(bars + [b], key) == BarsOf(bars, key) + if b.instrument == key then [b] else []
  {
    assert (bars + [b])[..|bars|] == bars;
  }

  /** Each instrument's part of the stream is aggregated as if the others did not exist. */
  lemma {:induction false} InstrumentsAreIndependent(ticks: seq<Tick>, key: string)
    ensures BarsOf(Feed(ticks).1, key) == StrandOf(Only(ticks, key)).done
    ensures key in Feed(ticks).0 <==> StrandOf(Only(ticks, key)).current.Some?
    ensures key in Feed(ticks).0 ==> Some(Feed(ticks).0[key]) == StrandOf(Only(ticks, key)).current
    ensures key in Feed(ticks).0 ==> Feed(ticks).0[key].instrument == key
  {
    if ticks != [] {
      var front, t := ticks[..|ticks| - 1], ticks[|ticks| - 1];
      InstrumentsAreIndependent(front, key);
      InstrumentsAreIndependent(front, t.instrument);
      var (open, emitted) := Feed(front);
      var completed := AddTick(open, t).1;
      if completed.Some? {
        BarsOfAppend(emitted, completed.value, key);
      }
      if t.instrument == key {
        StrandOfAppend(Only(front, key), t);
      }
    }
  }

  lemma {:induction false} OnlyIsOnly(ticks: seq<Tick>, key: string)
    ensures forall t :: t in Only(ticks, key) ==> t.instrument == key
    ensures InOrder(ticks) ==> InOrder(Only(ticks, key))
    ensures forall t :: t in Only(ticks, key) ==> t in ticks
  {
    if ticks != [] {
      var n := |ticks| - 1;
      OnlyIsOnly(ticks[..n], key);
      if InOrder(ticks) {
        var rest := Only(ticks[..n], key);
        forall i | 0 <= i < |rest|
          ensures rest[i].ts <= ticks[n].ts
        {
          assert rest[i] in ticks[..n];
        }
      }
    }
  }

  /**
   * However the ticks of all instruments interleave, what was emitted for one of them followed by its open
   * bar are the candles of the maximal same-minute runs of that instrument's own ticks.
   */
  lemma FeedSummarisesRuns(ticks: seq<Tick>, key: string)
    ensures var (open, emitted) := Feed(ticks);
            AllSummarise(BarsOf(emitted, key) + if key in open then [open[key]] else [], key, Runs(Only(ticks, key)))
  {
    InstrumentsAreIndependent(ticks, key);
    OnlyIsOnly(ticks, key);
    StrandSummarisesRuns(Only(ticks, key), key);
    var (open, emitted) := Feed(ticks);
    if key in open {
      assert AllBars(StrandOf(Only(ticks, key))) == BarsOf(emitted, key) + [open[key]];
    } else {
      assert BarsOf(emitted, key) + [] == BarsOf(emitted, key);
    }
  }

  /** When ticks arrive in time order, an instrument's candles are at strictly increasing minutes. */
  lemma CandleTimesIncrease(ticks: seq<Tick>, key: string, i: nat, j: nat)
    requires InOrder(ticks)
    requires var (open, emitted) := Feed(ticks);
             i < j < |BarsOf(emitted, key) + if key in open then [open[key]] else []|
    ensures var (open, emitted) := Feed(ticks);
            var bars := BarsOf(emitted, key) + if key in open then [open[key]] else [];
            bars[i].ts < bars[j].ts
  {
    FeedSummarisesRuns(ticks, key);
    OnlyIsOnly(ticks, key);
    RunsInOrder(Only(ticks, key));
  }

  // ---------- The aggregator ----------

  class CandleAggregator {
    var open: Open

    constructor ()
      ensures open == map[]
    {
      open := map[];
    }

    /** Returns a completed candle if this tick closed the previous minute. */
    method AddQuote(t: Tick) returns (completed: Option<MinuteCandle>)
      modifies this
      ensures (open, completed) == AddTick(old(open), t)
    {
      var bucket, key := MinuteBucket(t.ts), t.instrument;
      if key !in open {
        open := open[key := NewBar(t)];
        return None;
      }
      var current := open[key];
      if bucket == current.ts {
        current := current.(h := MaxR(current.h, t.ltp));
        current := current.(l := MinR(current.l, t.ltp));
        current := current.(c := t.ltp);
        current := current.(v := t.volume);
        open := open[key := current];
        return None;
      }
      completed := Some(current);
      open := open[key := NewBar(t)];
    }

    /** Force-close all open bars: each comes out once. */
    method Flush() returns (bars: seq<MinuteCandle>)
      modifies this
      ensures open == map[]
      ensures |bars| == |old(open)| && (forall k :: k in old(open) ==> old(open)[k] in bars)
    {
      bars := [];
      var keys := open.Keys;
      while keys != {}
        invariant keys <= open.Keys
        invariant |bars| + |keys| == |open|
        invariant forall k :: k in open && k !in keys ==> open[k] in bars
        decreases |keys|
      {
        var k :| k in keys;
        bars := bars + [open[k]];
        keys := keys - {k};
      }
      open := map[];
    }
  }
}
