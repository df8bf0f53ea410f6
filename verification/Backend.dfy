/** The services and the engine around one store, through any sequence of calls and timer turns. */
module Backend {
  import opened Prelude
  import opened AccountBook
  import opened Platform
  import opened TradingInvariants
  import opened PlatformRuns
  import opened PlatformTheorems
  import opened TradingEngine
  import opened Services

  class Server {
    const db: Store
    const execution: ExecutionService
    const evaluation: ChallengeEvalService
    const purchases: PurchaseService
    const rewards: RewardAdminService
    const anchors: DailyAnchorService
    const engine: TradingEngineService

    ghost predicate Valid()
    {
      && execution.db == db && evaluation.db == db && evaluation.execution == execution
      && purchases.db == db && rewards.db == db && anchors.db == db
      && engine.db == db && engine.execution == execution
    }

    constructor ()
      ensures Valid() && fresh(db) && fresh(engine) && engine.State() == STARTED
    {
      var store := new Store();
      var exec := new ExecutionService(store);
      db, execution := store, exec;
      evaluation := new ChallengeEvalService(exec);
      purchases := new PurchaseService(store);
      rewards := new RewardAdminService(store);
      anchors := new DailyAnchorService(store);
      engine := new TradingEngineService(exec);
    }

    /** One call, dispatched to its service. */
    method Handle(call: Call, env: Env)
      requires Valid()
      modifies db
      ensures db.View() == Step(old(db.View()), call, env) && Kept(old(db.View()), db.View())
    {
      match call {
        case DoCreatePayment(u, p) => var _ := purchases.CreateOrder(u, p, env);
        case DoActivate(p, g) => var _ := purchases.Activate(p, g, env);
        case DoRefund(p) => var _ := purchases.Refund(p);
        case DoPlace(cmd) => var _ := execution.PlaceOrder(cmd, env);
        case DoCancel(u, o) => var _ := execution.CancelOrder(u, o);
        case DoTick(o, quote) => execution.MatchOrder(o, quote, env);
        case DoEvaluate(c) => var _ := evaluation.Evaluate(c, env);
        case DoAnchor(c, amount) => anchors.ResetAnchor(c, amount);
        case DoApprove(c, amount) => var _ := rewards.Approve(c, amount);
        case DoReject(c) => var _ := rewards.Reject(c);
        case DoMarkPaid(c) => var _ := rewards.MarkPaid(c);
      }
    }

    method Perform(m: Move)
      requires Valid()
      modifies db, engine
      ensures engine.State() == After(old(engine.State()), m) && Kept(old(db.View()), db.View())
    {
      KeptReflexive(db.View());
      match m {
        case Serve(call, env) => Handle(call, env);
        case Check(clock) => engine.CheckSquareOff(clock);
        case Next(loop, env) => engine.TakeTurn(loop, env);
        case Skip(loop) => engine.PassOver(loop);
        case Restart => engine.StartAgain();
      }
    }

    /**
     * From an empty store, through any calls and timer turns: afterwards every account's equity is the sum of its
     * ledger, an order has a trade exactly if it is FILLED, and the store is consistent.
     */
    method ServeAll(moves: Moves)
      requires Valid() && engine.State() == STARTED
      modifies db, engine
      ensures engine.State() == RunMoves(moves) && Inv(db.View())
      ensures forall cid :: 0 <= cid < |db.challenges| ==>
                db.challenges[cid].equity == SumAmounts(EntriesOf(db.ledger, cid))
      ensures forall oid :: 0 <= oid < |db.orders| ==>
                TradeCount(db.trades, oid) == if db.orders[oid].status == OrderStatus.FILLED then 1 else 0
    {
      for i := 0 to |moves|
        invariant engine.State() == RunMoves(moves[..i])
      {
        assert moves[..i + 1][..i] == moves[..i];
        Perform(moves[i]);
      }
      assert moves[..|moves|] == moves;
      EngineRunsAreRuns(moves);
      forall cid: nat | cid < |db.challenges|
        ensures db.challenges[cid].equity == SumAmounts(EntriesOf(db.ledger, cid))
      {
        EquityEqualsLedger(CallsOf(moves), cid);
      }
    }
  }
}
