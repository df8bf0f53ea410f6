/**
 * The trading engine's square-off timer around the store. A check at or after the cutoff takes a listing of the
 * challenges that are PENDING or ACTIVE and works it off one challenge at a time; anything may happen between the
 * listing and a challenge's turn, so several listings may be outstanding and any of them stale.
 */
module TradingEngine {
  import opened Prelude
  import opened AccountBook
  import opened Platform
  import opened TradingInvariants
  import opened PlatformRuns
  import opened PlatformTheorems

  /** `loops` holds what each running loop has still to do, `squaredOffOn` the last date a listing was taken. */
  datatype Engine = Engine(db: Db, loops: seq<seq<nat>>, squaredOffOn: string)

  const STARTED := Engine(EMPTY_DB, [], "")

  /** What clients, timers and reviewers can ask for. Squaring off is for the engine alone. */
  type Call = a: Action | !a.DoSquareOff? witness DoRefund(0)

  datatype Clock = Clock(tradingDay: bool, minutesOfDay: int, cutoff: int, dateKey: string)

  datatype Move =
    | Serve(call: Call, env: Env)
    | Check(clock: Clock)
    | Next(loop: nat, env: Env)
    | Skip(loop: nat)
    | Restart

  /** The ids `find({ status: { $in: ['PENDING', 'ACTIVE'] } })` returns. */
  function Tradable(challenges: seq<Challenge>): (ids: seq<nat>)
    ensures forall c: nat :: c in ids <==> c < |challenges| && (challenges[c].status.PENDING? || challenges[c].status.ACTIVE?)
  {
    if challenges == [] then []
    else
      var n := |challenges| - 1;
      Tradable(challenges[..n])
      + if challenges[n].status.PENDING? || challenges[n].status.ACTIVE? then [n] else []
  }

  predicate Due(e: Engine, clock: Clock)
  {
    clock.tradingDay && clock.minutesOfDay >= clock.cutoff && e.squaredOffOn != clock.dateKey
  }

  predicate Running(e: Engine, loop: nat) { loop < |e.loops| && e.loops[loop] != [] }

  function Drop(e: Engine, loop: nat): Engine
    requires Running(e, loop)
  {
    e.(loops := e.loops[loop := e.loops[loop][1..]])
  }

  /** `Skip` is a square-off that throws: the error is logged and the loop goes on. A restart forgets all loops. */
  function After(e: Engine, m: Move): Engine
  {
    match m
    case Serve(call, env) => e.(db := Step(e.db, call, env))
    case Check(clock) =>
      if Due(e, clock) then e.(loops := e.loops + [Tradable(e.db.challenges)], squaredOffOn := clock.dateKey) else e
    case Next(loop, env) =>
      if Running(e, loop) then Drop(e, loop).(db := Step(e.db, DoSquareOff(e.loops[loop][0]), env)) else e
    case Skip(loop) => if Running(e, loop) then Drop(e, loop) else e
    case Restart => e.(loops := [], squaredOffOn := "")
  }

  type Moves = seq<Move>

  function RunMoves(moves: Moves): Engine
  {
    if moves == [] then STARTED else After(RunMoves(moves[..|moves| - 1]), moves[|moves| - 1])
  }

  lemma RunMovesOneMore(moves: Moves, m: Move)
    ensures RunMoves(moves + [m]) == After(RunMoves(moves), m)
  {
    assert (moves + [m])[..|moves|] == moves;
  }

  lemma RunMovesSnoc(moves: Moves, more: Moves)
    requires more != []
    ensures var n := |more| - 1; RunMoves(moves + more) == After(RunMoves(moves + more[..n]), more[n])
  {
    var front, last := moves + more[..|more| - 1], more[|more| - 1];
    SplitLast(moves, more);
    RunMovesOneMore(front, last);
  }

  lemma SplitLast<T>(a: seq<T>, b: seq<T>)
    requires b != []
    ensures a + b == a + b[..|b| - 1] + [b[|b| - 1]]
  {
  }

  // ---------- Every engine run is a run of calls ----------

  /** The calls that reach the store in the course of a run. */
  function CallsOf(moves: Moves): Calls
  {
    if moves == [] then []
    else
      var n := |moves| - 1;
      var e := RunMoves(moves[..n]);
      CallsOf(moves[..n]) + CallOf(e, moves[n])
  }

  function CallOf(e: Engine, m: Move): Calls
  {
    match m
    case Serve(call, env) => [(call, env)]
    case Next(loop, env) => if Running(e, loop) then [(DoSquareOff(e.loops[loop][0]), env)] else []
    case _ => []
  }

  lemma MoveIsCall(e: Engine, m: Move)
    ensures After(e, m).db ==
              if CallOf(e, m) == [] then e.db else Step(e.db, CallOf(e, m)[0].0, CallOf(e, m)[0].1)
  {
  }

  lemma {:induction false} EngineRunsAreCalls(moves: Moves)
    ensures RunMoves(moves).db == Run(EMPTY_DB, CallsOf(moves))
  {
    if moves != [] {
      var n := |moves| - 1;
      var e := RunMoves(moves[..n]);
      EngineRunsAreCalls(moves[..n]);
      MoveIsCall(e, moves[n]);
      AppendCall(CallsOf(moves[..n]), CallOf(e, moves[n]));
    }
  }

  /** So everything proved of runs of calls, with a square-off of any challenge at any time, holds of the engine. */
  lemma EngineRunsAreRuns(moves: Moves)
    ensures RunMoves(moves).db == Run(EMPTY_DB, CallsOf(moves)) && Inv(RunMoves(moves).db)
  {
    EngineRunsAreCalls(moves);
    RunKeeps(CallsOf(moves));
  }

  lemma AppendCall(calls: Calls, last: Calls)
    requires |last| <= 1
    ensures Run(EMPTY_DB, calls + last) ==
              if last == [] then Run(EMPTY_DB, calls) else Step(Run(EMPTY_DB, calls), last[0].0, last[0].1)
  {
    if last == [] {
      assert calls + last == calls;
    } else {
      assert (calls + last)[..|calls + last| - 1] == calls;
    }
  }

  // ---------- What listings hold ----------

  ghost predicate Listed(e: Engine, cid: nat) { exists i :: 0 <= i < |e.loops| && cid in e.loops[i] }

  /** Only a check lists a challenge, and only one that is PENDING or ACTIVE then. */
  lemma ListedByCheck(e: Engine, m: Move, cid: nat)
    requires Listed(After(e, m), cid)
    ensures Listed(e, cid) || (m.Check? && Due(e, m.clock) && cid in Tradable(e.db.challenges))
  {
    var d := After(e, m);
    var i :| 0 <= i < |d.loops| && cid in d.loops[i];
    assert i < |e.loops| ==> forall c :: c in d.loops[i] ==> c in e.loops[i];
  }

  function DateOf(e: Engine, m: Move): seq<string> { if m.Check? && Due(e, m.clock) then [m.clock.dateKey] else [] }

  /** The dates on which listings were taken. */
  function Dates(moves: Moves): seq<string>
  {
    if moves == [] then []
    else
      var n := |moves| - 1;
      Dates(moves[..n]) + DateOf(RunMoves(moves[..n]), moves[n])
  }

  predicate NoneTwice(dates: seq<string>) { forall i :: 0 < i < |dates| ==> dates[i] != dates[i - 1] }

  function Newest(dates: seq<string>): string { if dates == [] then "" else dates[|dates| - 1] }

  lemma NextDate(e: Engine, m: Move, dates: seq<string>)
    requires !m.Restart? && NoneTwice(dates) && e.squaredOffOn == Newest(dates)
    ensures NoneTwice(dates + DateOf(e, m)) && After(e, m).squaredOffOn == Newest(dates + DateOf(e, m))
  {
    if DateOf(e, m) == [] {
      assert dates + DateOf(e, m) == dates;
    }
  }

  /** Without a restart no two listings in a row are for the same date, however often the timer fires. */
  lemma {:induction false} OneListingPerDate(moves: Moves)
    requires forall m :: m in moves ==> !m.Restart?
    ensures NoneTwice(Dates(moves)) && RunMoves(moves).squaredOffOn == Newest(Dates(moves))
  {
    if moves != [] {
      var n := |moves| - 1;
      OneListingPerDate(moves[..n]);
      NextDate(RunMoves(moves[..n]), moves[n], Dates(moves[..n]));
    }
  }

  // ---------- One cutoff ----------

  function SquareOffAll(db: Db, ids: seq<nat>, env: Env): Db
    decreases |ids|
  {
    if ids == [] then db else SquareOffAll(Step(db, DoSquareOff(ids[0]), env), ids[1..], env)
  }

  function Turns(loop: nat, n: nat, env: Env): Moves { seq(n, _ => Next(loop, env)) }

  /** A loop that nothing interrupts. */
  lemma {:induction false} UninterruptedLoop(moves: Moves, loop: nat, env: Env)
    requires loop < |RunMoves(moves).loops|
    ensures var e := RunMoves(moves);
            RunMoves(moves + Turns(loop, |e.loops[loop]|, env)).db == SquareOffAll(e.db, e.loops[loop], env)
    decreases |RunMoves(moves).loops[loop]|
  {
    var e := RunMoves(moves);
    var n := |e.loops[loop]|;
    if n == 0 {
      assert moves + Turns(loop, 0, env) == moves;
    } else {
      RunMovesOneMore(moves, Next(loop, env));
      UninterruptedLoop(moves + [Next(loop, env)], loop, env);
      assert moves + Turns(loop, n, env) == moves + [Next(loop, env)] + Turns(loop, n - 1, env);
    }
  }

  /** The position is one that squaring off a listed challenge closes. */
  predicate Closes(ids: seq<nat>, env: Env, k: PositionKey)
  {
    k.challengeId in ids && k.product.INTRADAY? && k.instrument in env.quotes
  }

  lemma SquareOffCloses(db: Db, cid: nat, env: Env, k: PositionKey)
    requires Inv(db) && cid < |db.challenges|
    ensures var d := Step(db, DoSquareOff(cid), env);
            && Inv(d) && |d.challenges| == |db.challenges|
            && (if Closes([cid], env, k) then Lookup(d.positions, k).netQty == 0
                else Lookup(d.positions, k) == Lookup(db.positions, k))
  {
    SquareOffKeeps(db, cid, env);
    FlattenTrades(db, cid, Some(INTRADAY), env);
    FlattenCloses(db, cid, Some(INTRADAY), env, k);
  }

  lemma {:induction false} SquareOffAllCloses(db: Db, ids: seq<nat>, env: Env, k: PositionKey)
    requires Inv(db) && forall c :: c in ids ==> c < |db.challenges|
    ensures var after := Lookup(SquareOffAll(db, ids, env).positions, k);
            if Closes(ids, env, k) then after.netQty == 0 else after == Lookup(db.positions, k)
    decreases |ids|
  {
    if ids != [] {
      assert ids[0] in ids && forall c :: c in ids[1..] ==> c in ids;
      SquareOffCloses(db, ids[0], env, k);
      SquareOffAllCloses(Step(db, DoSquareOff(ids[0]), env), ids[1..], env, k);
    }
  }

  /**
   * A cutoff that nothing interrupts: every intraday position that has a quote, of a challenge then PENDING or
   * ACTIVE, ends flat, and no other position changes.
   */
  lemma CutoffFlattens(moves: Moves, clock: Clock, env: Env, k: PositionKey)
    requires Due(RunMoves(moves), clock)
    ensures var e := RunMoves(moves);
            var ids := Tradable(e.db.challenges);
            var after := RunMoves(moves + [Check(clock)] + Turns(|e.loops|, |ids|, env)).db;
            if Closes(ids, env, k) then Lookup(after.positions, k).netQty == 0
            else Lookup(after.positions, k) == Lookup(e.db.positions, k)
  {
    var e := RunMoves(moves);
    EngineRunsAreRuns(moves);
    RunMovesOneMore(moves, Check(clock));
    UninterruptedLoop(moves + [Check(clock)], |e.loops|, env);
    SquareOffAllCloses(e.db, Tradable(e.db.challenges), env, k);
  }
}
