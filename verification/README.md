# A verified model of the paper-trading platform

This Dafny project models the parts of the platform that carry its guarantees and proves what they promise,
over every input, every run and every interleaving. `dafny verify dfyconfig.toml` checks all of it.

## What is modelled

**Accounts and challenges.** `Platform` holds the stored documents (payments, subscriptions, challenges, ledger,
orders, positions, holdings, trades, rewards) and, as functions, what every service call does to them: purchase
and refund, placement with all pre-trade checks, cancellation, tick matching, flattening, evaluation and reward
review. `Services` is the same code in its own shape, classes that write one document after another, each method
proved equal to its function and to keep the store consistent. `AccountBook` says what one account's figures mean,
`TradingInvariants` and `PlatformRuns` carry the invariant over every run, `PlatformTheorems` reads off the promises.
`TradingEngine` is the square-off timer with its listings, which may be stale when their turn comes; `Backend` puts
services and engine around one store. `EndedChallenges` says exactly when an ended challenge can still trade, what
nothing closes any more and what becomes of a rejected one, `EndedChallengeRuns` has the runs. `PositionMath` and
`ChallengeRules` are the arithmetic.

**The account lock.** `LeaseLock` is a state machine of any number of actors running sections step by step under a
leased lock with a clock that may jump. It proves mutual exclusion, harmless late releases and serialisability for
arbitrary sections. `LockedCalls` cuts the five calls that take the lock (tick, cancellation, placement, square-off,
evaluation) into their reads and writes, and `LockedRuns` proves what holds however those interleave. `Platform` may
therefore treat a locked call as one step.

**Candles.** `Candles` (sanitising), `CandleBuckets` (outliers and aggregation), `IntervalFusion` (coarser bars from
finer ones), `CandleMerge` (broker-preferring merge), `HistoryChunks` (chunked fetching), `TickCandles` (streaming
aggregation), `ChartBars`, `ChartValidation` and `LiveBars` (the trader app). Each loop is proved against a direct description and the independent aggregators are
proved to agree.

**Indicators.** `Indicators` has the moving averages, the relative strength index and pivots, `Confluence` and
`ConfluenceLoop` the signal overlay, `Repainting` what is never redrawn and until when, `RepaintingExample` bars whose
trendline and Fibonacci markers are redrawn, `Sorting` the median they rest on.

**Sessions, rooms and limits.** `Sessions` is refresh rotation (section 10.4 of RFC 6749), `MarketRooms` and
`RoomMembers` the market gateway's rooms and upstream interest at every point where a handler can be interrupted,
`RateWindows` the shared throttler, `OneTimeCodes` mobile codes.

## How to read it

- A collection that is only inserted into is a sequence and a document's id is its index.
- What a call reads from outside (clock, quotes, calendar, instruments, configuration, random tokens) is a parameter
  of that call, so every theorem holds for any values of it.
- Saving a document writes the fields that were modified. `WholeDocumentSaveWouldLoseFills` shows that the books
  depend on this.
- Prices in paise and quantities are integers; chart prices, percentages and averages are exact reals. A component
  that may be NaN or missing is an option.
- Dafny names that would clash are changed: payment `FAILED` is `NOT_PAID`; subscription `ACTIVE`, `EXPIRED` and
  `CANCELLED` are `LIVE`, `LAPSED` and `WITHDRAWN`; reward `REJECTED` is `DECLINED`.

## Where the code and its documentation differ

The model follows the code; each point is a lemma.

- Stop-loss and target orders never fire. The tick loop has a branch for resting market orders with a trigger, but
  placement never leaves a market order resting (`TriggersNeverFire`).
- Replay detection ends when the database deletes the expired row of a spent token, while the family may live on
  (`ReplayDetectedIffStored`, `LateReplayGoesUnnoticed`).
- A room is not always the set of its subscribers: a client that leaves in the middle of its own subscribe message
  stays in the rooms joined afterwards (`LeavingBetweenTwoJoins`), permanently (`GhostStays`). Rooms are exact if and
  only if no client leaves while its message still names an instrument it is not subscribed to (`RoomsAreExactIff`).
- Aggregation drops buckets that start at or before the epoch (`AggregationDropsOnlyTheEpoch`), so exactness is
  stated for bars from a day after it.
- A comment at backend/apps/api/src/modules/challenge/application/reward-admin.service.ts:78 speaks of finalising the
  challenge on approval or rejection. A rejection never touches the challenge: after rejecting an APPROVED reward it is
  PASSED, after rejecting an ELIGIBLE one PASSED_PENDING_REVIEW (`RejectionDecidesNothing`), for good
  (`RejectedForGood`).
- A challenge that has ended may still trade. Only failing cancels its orders on every path; a refund leaves them OPEN,
  and so does passing with `freezeOnPass` off (`PassedIsClosedIff`). Ticks fill none of them if and only if none was
  open when the challenge ended (`EndedNeverFillsIff`, `RefundedOrderFills`). The cutoff lists PENDING and ACTIVE
  challenges only, but a challenge may end between the listing and its turn: it never trades at all if and only if it
  has no open order and is not both still listed and holding an open intraday position (`EndedNeverTradesIff`,
  `CutoffSellsAfterRefund`).
- The cutoff is there to flatten intraday positions, yet those of a challenge that a refund, or a pass without freeze,
  ended before it was listed are never closed (`EndStrandsPositions`, `RefundStrandsShares`).
- Half-hours made from quarter-hours need not be those made from the minutes (`HalfHoursFromQuartersDiffer`): for traded
  bars they are if and only if the second outlier pass drops nothing (`IntervalsFuseIff`).
- Trendlines are computed from all bars, so a break that was shown can disappear (`TrendlinesRepaint`), though never
  before the next pivot is confirmed (`NoRepaintingBeforeNextPivot`), which moves the line as soon as there are two of
  its kind (`TrendlinesStayIff`). The Fibonacci vote is cast at the newest bar only, so a signal it made can disappear
  with the next bar (`FibonacciRepaints`).

## Model

| member | source | states |
|---|---|---|
| `PlatformTheorems.EquityEqualsLedger` | backend/apps/api/src/modules/trading/application/execution.service.ts:228-254 | Over every run of activation, placement, cancellation, ticks, square-off, evaluation, refund, day anchoring and reward review: equity is the sum of the account's ledger, its last balance, and capital plus realized P&L less charges; realized P&L is the sum over the trades and over the positions; peak equity is the highest value ever reached |
| `PlatformTheorems.OrdersSettleOnce` | backend/apps/api/src/modules/trading/application/execution.service.ts:149-177 | Whatever stale listing a tick or cancel acts on: an order has at most one trade, has one exactly when it is FILLED, never leaves FILLED, CANCELLED or REJECTED, and ledger and trades only ever grow |
| `PlatformTheorems.FailedStaysClosed` | backend/apps/api/src/modules/challenge/application/challenge-eval.service.ts:92-104 | Once FAILED, a challenge is FAILED in every later state and never has an OPEN order again |
| `PlatformTheorems.TriggersNeverFire` | backend/apps/api/src/modules/trading/application/execution.service.ts:161-174 | No reachable OPEN order takes the stop-loss/target branch: the last traded price never decides a fill, and any tick fill is at the order's own limit |
| `PlatformTheorems.CreditedExactlyOnce` | backend/apps/api/src/modules/plans/application/purchase.service.ts:105-183 | Over every run a payment that was ever ACTIVATED owns exactly one challenge, one subscription and one CREDIT entry, and any other payment owns none |
| `PlatformTheorems.ActivationIsIdempotent` | backend/apps/api/src/modules/plans/application/purchase.service.ts:114-116 | Any later activation of a payment activated at some point of a run, with any gateway id and view of the plans, changes nothing and names the same challenge, or is refused if the payment was refunded since |
| `PlatformTheorems.RewardFollowsChallenge` | backend/apps/api/src/modules/challenge/application/reward-admin.service.ts:56-87 | A reward exists exactly when its challenge is PASSED_PENDING_REVIEW or PASSED; APPROVED or PAID implies PASSED; the computed amount never changes; PAID and REJECTED are final |
| `EndedChallenges.RejectionDecidesNothing` | backend/apps/api/src/modules/challenge/application/reward-admin.service.ts:44-48 | In every run, a rejection that succeeds changes no challenge: the challenge is PASSED if the reward had been approved and PASSED_PENDING_REVIEW if it had not |
| `EndedChallenges.RejectedForGood` | backend/apps/api/src/modules/challenge/application/reward-admin.service.ts:56-87 | Whatever is called after a rejection, the reward stays REJECTED and the challenge keeps the status it had |
| `EndedChallenges.EndedNeverFillsIff` | backend/apps/api/src/modules/trading/application/execution.service.ts:149-177 | However a challenge ended, no tick in any continuation settles an order of it if and only if it had no open order when it ended |
| `EndedChallenges.EndedNeverTradesIff` | backend/apps/api/src/modules/trading/application/trading-engine.service.ts:49-66 | However a challenge ended, it never trades again, whatever calls, cutoffs, turns and restarts follow, if and only if it has no open order and is not both still listed by a running square-off and holding an open intraday position |
| `EndedChallengeRuns.RefundedOrderFills` | backend/apps/api/src/modules/plans/application/purchase.service.ts:230-239 | A concrete run: a refund ends the challenge, its limit order rests on, and the next quote that crosses it buys |
| `EndedChallengeRuns.RefundStrandsShares` | backend/apps/api/src/modules/plans/application/purchase.service.ts:230-239 | A concrete run: ten shares held at a refund are held in every later state, cutoffs included |
| `EndedChallengeRuns.CutoffSellsAfterRefund` | backend/apps/api/src/modules/trading/application/trading-engine.service.ts:58-65 | A concrete run: refunded between the cutoff's listing and its turn, the ended challenge still sells its shares |
| `EndedChallenges.TurnIsNewTrade` | backend/apps/api/src/modules/trading/application/trading-engine.service.ts:58-65 | When the turn of a listed challenge with an open intraday position comes, it trades, though it may have ended since the listing |
| `EndedChallenges.EndStrandsPositions` | backend/apps/api/src/modules/plans/application/purchase.service.ts:230-239 | A refund, or a pass that does not freeze, of a challenge with no open order and in no running square-off leaves its positions as they are in every later state: nothing flattens them |
| `PlatformTheorems.CancelledForGood` | backend/apps/api/src/modules/trading/application/execution.service.ts:132-144 | A cancellation that succeeds is final in every continuation: the order stays as it was but CANCELLED, and never has a trade |
| `EndedChallenges.PassedIsClosedIff` | backend/apps/api/src/modules/challenge/application/challenge-eval.service.ts:106-131 | A challenge that has just passed has no open order if and only if `freezeOnPass` is on or it had none before |
| `PlatformTheorems.FlattenCloses` | backend/apps/api/src/modules/trading/application/execution.service.ts:269-307 | Flattening leaves every selected position that has a quote flat and changes no other position of any account |
| `PlatformTheorems.FailureFlattens` | backend/apps/api/src/modules/challenge/application/challenge-eval.service.ts:92-104 | An evaluation that fails a challenge leaves it FAILED with no open order and no open position that can be priced |
| `PlatformTheorems.WholeDocumentSaveWouldLoseFills` | backend/apps/api/src/modules/challenge/application/challenge-eval.service.ts:96-101 | Writing the evaluator's older challenge document back whole would keep the books right if and only if the flattening moved no money |
| `PlatformRuns.RunKeeps` | backend/apps/api/src/modules/trading/application/execution.service.ts:68-307 | The whole invariant (books, references, one trade per fill, resting orders, purchases, rewards) holds after every run of service calls |
| `PlatformRuns.RunIsMonotone` | backend/apps/api/src/modules/trading/application/execution.service.ts:181-262 | Between any two points of a run: ledger and trades are extended, decided orders, challenges and rewards unchanged, funded payments keep their challenge |
| `TradingEngine.EngineRunsAreRuns` | backend/apps/api/src/modules/trading/application/trading-engine.service.ts:30-66 | The store in every run of calls, cutoff checks, loop turns, failed square-offs and restarts is the store of a run of calls, so all run theorems hold of it |
| `TradingEngine.CutoffFlattens` | backend/apps/api/src/modules/trading/application/trading-engine.service.ts:49-66 | A cutoff nothing interrupts leaves every intraday position with a quote of a PENDING or ACTIVE challenge flat and changes no other position |
| `TradingEngine.OneListingPerDate` | backend/apps/api/src/modules/trading/application/trading-engine.service.ts:55-57 | Without a restart no two listings in a row are for the same date, however often the timer fires |
| `TradingEngine.ListedByCheck` | backend/apps/api/src/modules/trading/application/trading-engine.service.ts:58 | Only a check that is due lists a challenge, and only one that is PENDING or ACTIVE then |
| `TradingInvariants.SettlePosts` | backend/apps/api/src/modules/trading/application/execution.service.ts:181-262 | A settlement posts exactly one trade to its own account's book and leaves the book of every other account alone |
| `TradingInvariants.SettleKeepsTrading` | backend/apps/api/src/modules/trading/application/execution.service.ts:181-262 | Settling an OPEN order keeps all books, references, trade counts and position sums |
| `AccountBook.PostKeepsBook` | backend/apps/api/src/modules/trading/application/execution.service.ts:228-254 | Posting a trade keeps the chained ledger, the realized total, the equity identity and the peak |
| `AccountBook.EquityIsLedgerSum` | backend/apps/api/src/modules/trading/application/execution.service.ts:231-247 | A chained ledger's last balance is the sum of all its amounts |
| `AccountBook.PostAllKeepsBook` | backend/apps/api/src/modules/trading/application/execution.service.ts:228-254 | The book survives any sequence of trades |
| `AccountBook.OpeningBookOk` | backend/apps/api/src/modules/plans/application/purchase.service.ts:154-164 | The opening credit of an activation starts a correct book |
| `PositionMath.ApplyFill` | backend/apps/api/src/modules/trading/domain/position-math.ts:26-66 | Every fill moves the quantity by the signed amount and the realized P&L by the delta it reports |
| `PositionMath.AverageAfterFill` | backend/apps/api/src/modules/trading/domain/position-math.ts:26-66 | The average price after a fill: the fill price when it opens or flips, unchanged when it reduces, zero when it closes, and otherwise never outside the old average and the fill price |
| `PositionMath.FillConservesValue` | backend/apps/api/src/modules/trading/domain/position-math.ts:26-66 | Cash paid is the rise in book value less the realized profit: exact when reducing, closing or flipping, within half a paisa per unit when averaging |
| `PositionMath.RoundTripRealizesDifference` | backend/apps/api/src/modules/trading/domain/position-math.ts:26-66 | Opening flat and closing the whole quantity realizes exactly the price difference and ends flat, long or short |
| `Services.ExecutionService.SettleFill` | backend/apps/api/src/modules/trading/application/execution.service.ts:181-262 | Document-by-document settlement equals the specification `Settle` |
| `Services.ExecutionService.PostToChallenge` | backend/apps/api/src/modules/trading/application/execution.service.ts:228-254 | Running balance, ledger appends, peak and trading day as specified |
| `Services.ExecutionService.PlaceOrder` | backend/apps/api/src/modules/trading/application/execution.service.ts:68-130 | New state and result are those of `PlaceOrder`, on every refusal and fill path; a consistent store stays consistent and nothing recorded is undone |
| `Services.ExecutionService.MatchOrder` | backend/apps/api/src/modules/trading/application/execution.service.ts:152-175 | One locked section of the tick loop equals `TickOrder`, for any order id; a consistent store stays consistent and nothing recorded is undone |
| `Services.ExecutionService.OnQuote` | backend/apps/api/src/modules/trading/application/execution.service.ts:149-177 | The tick loop over its listing equals `TickOrders`; a consistent store stays consistent and nothing recorded is undone |
| `Services.ExecutionService.CloseAll` | backend/apps/api/src/modules/trading/application/execution.service.ts:274-284 | The loop that closes listed positions at market equals `CloseRows` |
| `Services.ExecutionService.ForceFlatten` | backend/apps/api/src/modules/trading/application/execution.service.ts:269-285 | Equals `Flatten` over all products |
| `Services.ExecutionService.SquareOffIntraday` | backend/apps/api/src/modules/trading/application/execution.service.ts:290-307 | Equals `Flatten` over INTRADAY; a consistent store stays consistent and nothing recorded is undone |
| `Services.ChallengeEvalService.MtmEquityOf` | backend/apps/api/src/modules/challenge/application/challenge-eval.service.ts:44-54 | The accumulating loop returns realized equity plus the unrealized P&L of every position with a cached quote |
| `Services.ChallengeEvalService.Evaluate` | backend/apps/api/src/modules/challenge/application/challenge-eval.service.ts:57-90 | New state and decision are those of `Evaluate`; a consistent store stays consistent and nothing recorded is undone |
| `Services.ChallengeEvalService.FailChallenge` | backend/apps/api/src/modules/challenge/application/challenge-eval.service.ts:92-104 | Flatten, cancel resting orders, then save the status only |
| `Services.ChallengeEvalService.PassChallenge` | backend/apps/api/src/modules/challenge/application/challenge-eval.service.ts:106-131 | Optional freeze, status, and the reward upsert as specified |
| `Services.PurchaseService.Activate` | backend/apps/api/src/modules/plans/application/purchase.service.ts:105-183 | New state and result are those of `Activate`; a consistent store stays consistent and nothing recorded is undone |
| `Services.PurchaseService.Refund` | backend/apps/api/src/modules/plans/application/purchase.service.ts:212-246 | A consistent store stays consistent and nothing recorded is undone, with the new state and result of `Refund` |
| `Services.RewardAdminService.Transition` | backend/apps/api/src/modules/challenge/application/reward-admin.service.ts:56-87 | New state and result are those of `TransitionReward`, which `RewardFollowsChallenge` is about |
| `Services.TradingEngineService.CheckSquareOff` | backend/apps/api/src/modules/trading/application/trading-engine.service.ts:49-58 | The guards on trading day, cutoff and date, and the listing, as in `After` |
| `Services.TradingEngineService.TakeTurn` | backend/apps/api/src/modules/trading/application/trading-engine.service.ts:60-61 | One turn of a running loop is that of `After`; a consistent store stays consistent and nothing recorded is undone |
| `Backend.Server.ServeAll` | backend/apps/api/src/modules/trading/application/execution.service.ts:68-307 | All services and the engine around one store, through any calls, timer turns and restarts from an empty store: the state is that of the run, equity is the sum of the ledger and an order has a trade exactly if it is FILLED |
| `ChallengeRules.ValidationIsExact` | backend/apps/api/src/modules/plans/domain/plan-rules.vo.ts:5-58 | Validation accepts exactly the sound rules, keeps them as they are, and everything it accepts is sound |
| `ChallengeRules.MaxDrawdownReachable` | backend/apps/api/src/modules/challenge/domain/challenge-rules-eval.ts:38-50 | For sound rules with day-start equity equal to capital MAX_DRAWDOWN is never returned: the daily floor is never below the overall one |
| `ChallengeRules.MoreEquityNeverHurts` | backend/apps/api/src/modules/challenge/domain/challenge-rules-eval.ts:35-60 | Raising equity never introduces a drawdown failure; PASS means unexpired and above both floors |
| `ChallengeRules.RewardBounds` | backend/apps/api/src/modules/challenge/domain/challenge-rules-eval.ts:63-66 | The reward lies between 0 and the profit and never falls when final equity rises |
| `LeaseLock.AtMostOneHolder` | backend/libs/shared/src/redis/redis-lock.service.ts:29-38 | Whatever the timing, at most one actor holds an unexpired lease on a key |
| `LeaseLock.LateReleaseIsHarmless` | backend/libs/shared/src/redis/redis-lock.service.ts:6-11 | A late release never removes the lease another actor has been granted since |
| `LeaseLock.TimelyRunsAreSerial` | backend/libs/shared/src/redis/redis-lock.service.ts:54-61 | Every interleaving in which no section works past its lease gives the accounts that running the sections one at a time would |
| `LeaseLock.SingleWriterPerAccount` | backend/libs/shared/src/redis/redis-lock.service.ts:54-61 | When nobody is inside a key, its account is the result of its complete sections in grant order |
| `LeaseLock.LoggedWasBrought` | backend/libs/shared/src/redis/redis-lock.service.ts:54-61 | Only sections that some actor brought to the lock ever take effect |
| `LeaseLock.RedisLockService.AttemptOnce` | backend/libs/shared/src/redis/redis-lock.service.ts:29-38 | A fresh token is stored exactly when the key is free, and nothing changes otherwise |
| `LeaseLock.RedisLockService.ReleaseLock` | backend/libs/shared/src/redis/redis-lock.service.ts:6-11 | Deletes the key exactly when it still carries the caller's token |
| `LeaseLock.RedisLockService.Acquire` | backend/libs/shared/src/redis/redis-lock.service.ts:41-51 | The retry loop ends with a granted token under the key and a full time to live, or with the deadline passed and the key taken |
| `LockedCalls.TickSectionTicks` | backend/apps/api/src/modules/trading/application/execution.service.ts:149-262 | A locked tick as ten reads and writes (order re-read, position read and write, holding, trade, order save, challenge read, two ledger entries, challenge save), undisturbed, does what `TickOrder` does, from any state |
| `LockedCalls.CancelSectionCancels` | backend/apps/api/src/modules/trading/application/execution.service.ts:132-144 | A locked cancellation as a read and a save, undisturbed, does what `CancelOrder` does, from any state |
| `LockedCalls.PlaceSectionPlaces` | backend/apps/api/src/modules/trading/application/execution.service.ts:68-130 | A locked placement as challenge check, order creation, rejection save and the nine steps of a settlement, undisturbed, does what `PlaceOrder` does, on every path |
| `LockedCalls.CloseSectionFlattens` | backend/apps/api/src/modules/trading/application/execution.service.ts:269-307 | A square-off or flattening as one listing and ten steps per position, undisturbed, does what `Flatten` does |
| `LockedCalls.EvaluateSectionIsEvaluation` | backend/apps/api/src/modules/challenge/application/challenge-eval.service.ts:57-131 | A locked evaluation as challenge read, promotion, decision, flattening step by step, cancelling, status save and reward upsert, undisturbed, does what `Evaluate` does |
| `LockedRuns.LockedRunsKeepAccounts` | backend/apps/api/src/modules/trading/application/execution.service.ts:68-307 | However the steps of locked ticks, cancellations, placements, square-offs and evaluations interleave within their leases, an account nobody is inside has one trade for each FILLED order and none for others, positions and equity that are the sums over its trades and ledger, and nothing recorded undone |
| `LockedRuns.LateSaveLosesUpdate` | backend/libs/shared/src/redis/redis-lock.service.ts:54-61 | A tick that stalls past its lease and then saves the challenge leaves equity equal to the ledger sum if and only if the tick that overtook it moved no money |
| `Sessions.FamiliesAreChains` | backend/apps/api/src/modules/auth/application/auth.service.ts:190-232 | Under any calls each family is one chain of successors with at most one unrevoked session, its newest |
| `Sessions.AcceptedAtMostOnce` | backend/apps/api/src/modules/auth/application/auth.service.ts:190-216 | No refresh token is ever accepted twice |
| `Sessions.ReplayKillsFamily` | backend/apps/api/src/modules/auth/application/auth.service.ts:195-209 | Presenting a spent or expired stored token revokes the family for good: no later call gives it a live session |
| `Sessions.ReplayDetectedIffStored` | backend/apps/api/src/modules/auth/application/auth.service.ts:191-199 | A replay of an accepted token is noticed if and only if its row is still stored; otherwise nothing changes |
| `Sessions.OnlyExpiredAreDeleted` | backend/apps/api/src/modules/auth/infrastructure/schemas/session.schema.ts:45 | Only rows past their own expiry are ever deleted, so a replay within the token's lifetime is always noticed |
| `Sessions.LateReplayGoesUnnoticed` | backend/apps/api/src/modules/auth/infrastructure/schemas/session.schema.ts:45 | A concrete run in which a spent token is replayed after its row was deleted while the family is still live |
| `Sessions.Find` | backend/apps/api/src/modules/auth/application/auth.service.ts:192 | Returns the first stored row with the hash, or the number of rows when there is none |
| `Sessions.SessionService.RefreshToken` | backend/apps/api/src/modules/auth/application/auth.service.ts:190-216 | New rows, accepted history and outcome are those of the specification |
| `Sessions.SessionService.RevokeMany` | backend/apps/api/src/modules/auth/application/auth.service.ts:218-232 | The update loop revokes exactly the stored, unrevoked rows that match |
| `Indicators.EmaSeries` | frontend/trader/src/lib/market/indicators/helpers.ts:9-20 | The smoothing loop computes the direct definition at every bar, `NaN` before it |
| `Indicators.SmaSeries` | frontend/trader/src/lib/market/indicators/helpers.ts:23-33 | The sliding sum gives the mean of each window |
| `Indicators.RsiSeries` | frontend/trader/src/lib/market/indicators/helpers.ts:36-58 | The running averages give Wilder's index at every bar |
| `Indicators.EmaWithinSeenRange` | frontend/trader/src/lib/market/indicators/helpers.ts:12-18 | The average never leaves the range of the values seen so far |
| `Indicators.SlideWindow` | frontend/trader/src/lib/market/indicators/helpers.ts:28-31 | One value in and one out turns one window sum into the next |
| `Indicators.RsiIsShareOfGains` | frontend/trader/src/lib/market/indicators/helpers.ts:48-56 | The index is the gains' percentage of all movement, so it lies in [0, 100] |
| `Indicators.PivotHigh` | frontend/trader/src/lib/market/indicators/helpers.ts:61-69 | Returns the high exactly when it strictly exceeds every neighbour and both sides are complete |
| `Indicators.PivotLow` | frontend/trader/src/lib/market/indicators/helpers.ts:72-80 | Returns the low exactly when it is strictly below every neighbour and both sides are complete |
| `Indicators.PivotsAreSpaced` | frontend/trader/src/lib/market/indicators/helpers.ts:61-80 | With equal width on both sides, two pivot highs, or two pivot lows, are always more than that width apart |
| `Indicators.PivotsAreCausal` | frontend/trader/src/lib/market/indicators/helpers.ts:61-80 | A confirmed pivot depends on no bar after its right neighbours |
| `Indicators.SeriesAreCausal` | frontend/trader/src/lib/market/indicators/helpers.ts:9-58 | Series values of a prefix are the prefix of the series |
| `Sorting.Sort` | backend/apps/api/src/modules/market/domain/candle-sanitize.ts:62 | The result is sorted and a permutation |
| `Sorting.SortIsUnique` | backend/apps/api/src/modules/market/domain/candle-sanitize.ts:62-63 | Two sorted permutations are equal, so the median does not depend on the sorting algorithm |
| `Confluence.BuildTrendlines` | frontend/trader/src/lib/market/indicators/multi-strategy-confluence.ts:71-94 | The scanning loop returns the segments through the last two confirmed pivot lows and highs |
| `Confluence.FindSwingRange` | frontend/trader/src/lib/market/indicators/multi-strategy-confluence.ts:48-69 | Median, band, fallback and scan give the specified swing with its bar indices |
| `Confluence.SwingIsExtreme` | frontend/trader/src/lib/market/indicators/multi-strategy-confluence.ts:60-68 | The swing is the highest high and lowest low of the bars it is measured on, and both are attained there |
| `ConfluenceLoop.ScoreBar` | frontend/trader/src/lib/market/indicators/multi-strategy-confluence.ts:148-261 | The six strategies in source order, with their counters and pushes, score and draw what the per-bar definition does |
| `ConfluenceLoop.SignalsAreExact` | frontend/trader/src/lib/market/indicators/multi-strategy-confluence.ts:250-264 | A strong signal is drawn exactly when signals are on and its score reaches the threshold, and carries that score |
| `ConfluenceLoop.CrossingsAreExact` | frontend/trader/src/lib/market/indicators/multi-strategy-confluence.ts:147-165 | An average crossing is drawn exactly when the averages cross; then its side has at least two votes and the other crossing is not drawn |
| `ConfluenceLoop.VotesAreBounded` | frontend/trader/src/lib/market/indicators/multi-strategy-confluence.ts:143-261 | Each side gets at most six votes and both together at most eight |
| `ConfluenceLoop.SignalLoop` | frontend/trader/src/lib/market/indicators/multi-strategy-confluence.ts:142-268 | The loop with its carried swing levels draws what the per-bar definition draws |
| `ConfluenceLoop.ComputeConfluence` | frontend/trader/src/lib/market/indicators/multi-strategy-confluence.ts:109-315 | Of the result, the markers, the last score and the verdict are those of the per-bar definition |
| `Repainting.InputsAreSettled` | frontend/trader/src/lib/market/indicators/multi-strategy-confluence.ts:125-268 | As long as the shown trendlines do not change, what the strategies see at a bar is the same in every later run of the overlay, the newest bar excepted while the Fibonacci vote is on |
| `Repainting.PrefixShowsPrefix` | frontend/trader/src/lib/market/indicators/multi-strategy-confluence.ts:125-268 | With trendlines and the Fibonacci vote off, the markers of any prefix of the bars are a prefix of the markers of all of them |
| `Repainting.NoRepainting` | frontend/trader/src/lib/market/indicators/multi-strategy-confluence.ts:125-268 | The markers of a prefix stay where they are: all with the Fibonacci vote off, all but the newest bar's with it on, as long as shown trendlines do not change |
| `Repainting.NoNewPivotsKeepTrendlines` | frontend/trader/src/lib/market/indicators/multi-strategy-confluence.ts:71-94 | The shown trendlines do not change as long as the bars that arrive confirm no pivot |
| `Repainting.TrendlinesStayIff` | frontend/trader/src/lib/market/indicators/multi-strategy-confluence.ts:71-94 | With ascending times the shown trendlines stay the same if and only if, for lows and for highs, no pivot was confirmed since or there are fewer than two of them |
| `Repainting.NoRepaintingBeforeNextPivot` | frontend/trader/src/lib/market/indicators/multi-strategy-confluence.ts:125-268 | Until a new pivot is confirmed no marker moves, apart from the newest bar with the Fibonacci vote on |
| `RepaintingExample.TrendlinesRepaint` | frontend/trader/src/lib/market/indicators/multi-strategy-confluence.ts:71-94 | Bars on which a break shown after thirty bars is gone after thirty-two, for any settings that show trendlines |
| `RepaintingExample.FibonacciRepaints` | frontend/trader/src/lib/market/indicators/multi-strategy-confluence.ts:238-264 | Bars on which a signal that is only a Fibonacci vote is shown at the newest of thirty bars and gone one bar later |
| `RepaintingExample.ShownExactlyWhereBroken` | frontend/trader/src/lib/market/indicators/multi-strategy-confluence.ts:193-215 | A break of the falling line is shown at exactly the scored bars that break it |
| `Candles.SanitizeHistoryCandles` | backend/apps/api/src/modules/market/domain/candle-sanitize.ts:33-53 | Filter, stable sort and overwrite pass compute the ascending listing of the last kept bar of each timestamp |
| `Candles.SanitizeIsExact` | backend/apps/api/src/modules/market/domain/candle-sanitize.ts:33-53 | A list is the sanitised input if and only if it is strictly ascending and has at each timestamp the last valid in-range bar, normalised, and nothing elsewhere |
| `Candles.SanitizedIsClean` | backend/apps/api/src/modules/market/domain/candle-sanitize.ts:6-27 | Everything returned is positive, in range, and has wicks that cover open and close |
| `Candles.SanitizeIsIdempotent` | backend/apps/api/src/modules/market/domain/candle-sanitize.ts:33-53 | Sanitising again, with the same range or none, changes nothing |
| `Candles.SanitizeDistributes` | backend/apps/api/src/modules/market/domain/candle-sanitize.ts:33-53 | Sanitising parts before joining them gives what sanitising the whole does |
| `CandleBuckets.FilterPriceOutliersSound` | backend/apps/api/src/modules/market/domain/candle-sanitize.ts:60-73 | Order is kept; either nothing is dropped, or exactly the bars in the band around the median remain and they are at least five and at least half |
| `CandleBuckets.MedianOfCleanIsPositive` | backend/apps/api/src/modules/market/domain/candle-sanitize.ts:62-64 | The guard against a median that is not positive never trips on sanitised candles |
| `CandleBuckets.AggregateFrom1m` | backend/apps/api/src/modules/market/domain/candle-sanitize.ts:95-112 | The Map loop between two sanitises computes the specification |
| `CandleBuckets.MapFoldIsRunFold` | backend/apps/api/src/modules/market/domain/candle-sanitize.ts:98-111 | On ascending bars the Map fold only ever touches its newest bucket: it is the run fold |
| `CandleBuckets.AggregationIsExact` | backend/apps/api/src/modules/market/domain/candle-sanitize.ts:95-112 | From a day after the epoch on: exactly one ascending bar per non-empty bucket with first open, highest high, lowest low, last close and total volume; nothing dropped, volume conserved |
| `CandleBuckets.AggregationDropsOnlyTheEpoch` | backend/apps/api/src/modules/market/domain/candle-sanitize.ts:111 | For any input the closing sanitise drops exactly the buckets that start at or before the epoch |
| `CandleBuckets.AggregationStaysInBand` | backend/apps/api/src/modules/market/domain/candle-sanitize.ts:60-112 | For any input, unless the filter fell back, no aggregated wick leaves the widened band |
| `CandleBuckets.RunFoldFuses` | frontend/trader/src/lib/market/indicators/helpers.ts:83-102 | Aggregating twice is aggregating once, for any input, sorted or not, when the second bucketing is coarser |
| `CandleBuckets.IntervalsFuse` | backend/apps/api/src/modules/market/infrastructure/dhan-history.client.ts:57-61 | From a day after the epoch on, aggregating finer server bars gives the coarser server bars, as the 30-from-15-minute path needs, as long as the second outlier pass drops nothing |
| `IntervalFusion.IntervalsFuseIff` | backend/apps/api/src/modules/market/infrastructure/dhan-history.client.ts:57-61 | For bars that were all traded, from a day after the epoch on, aggregating the finer bars gives the coarser ones if and only if the second outlier pass drops none of them |
| `IntervalFusion.HalfHoursFromQuartersDiffer` | backend/apps/api/src/modules/market/infrastructure/dhan-history.client.ts:57-61 | Bars whose half-hours made from quarter-hours are not those made from the minutes |
| `CandleBuckets.RunFoldConservesVolume` | frontend/trader/src/lib/market/indicators/helpers.ts:97 | Total volume is conserved by the fold |
| `CandleMerge.MergeRemotePreferring` | backend/apps/api/src/modules/market/domain/candle-sanitize.ts:120-147 | The Map-based merge computes the specification on all four empty and non-empty cases |
| `CandleMerge.MergePrefersBroker` | backend/apps/api/src/modules/market/domain/candle-sanitize.ts:120-147 | Strictly ascending bars of the two sanitised inputs; at a broker timestamp only the broker's bar; stored bars up to the last broker time only within 25% of its median; the outlier pass keeps at least max(5, half) or all |
| `CandleMerge.BrokerTimestampIsBrokers` | backend/apps/api/src/modules/market/domain/candle-sanitize.ts:138-139 | A returned bar at a broker timestamp is the broker's bar |
| `ChartBars.AggregateBarsLoop` | frontend/trader/src/lib/market/indicators/helpers.ts:83-102 | The loop with its bar under construction computes the run fold |
| `ChartBars.AggregateBarsFuses` | frontend/trader/src/lib/market/indicators/helpers.ts:83-102 | Aggregating to a minutes and then b minutes is aggregating to b, for all bars, when a divides b |
| `ChartBars.ChartAgreesWithServer` | backend/apps/api/src/modules/market/domain/candle-sanitize.ts:95-112 | The chart's aggregate of cleaned minute bars and the server's are the same bars |
| `ChartValidation.ValidateBars` | frontend/trader/src/lib/market/datafeed.ts:124-157 | Validation in the trader app is the server's sanitising followed by its own outlier pass |
| `ChartValidation.DropOutliersSound` | frontend/trader/src/lib/market/datafeed.ts:143-156 | Either nothing is dropped or exactly the bars near the reference remain, at least max(5, half) of them |
| `ChartValidation.ValidationWithReferenceIsIdempotent` | frontend/trader/src/lib/market/datafeed.ts:124-157 | With a reference price, validated bars pass a second validation unchanged |
| `TickCandles.RunsAreMaximal` | backend/apps/api/src/modules/market/domain/candle-aggregator.ts:17-36 | The same-minute runs split the ticks without loss, each within one minute, neighbours never |
| `TickCandles.FeedSummarisesRuns` | backend/apps/api/src/modules/market/domain/candle-aggregator.ts:17-43 | However instruments interleave, an instrument's emitted candles followed by its open bar are the OHLC of its maximal same-minute runs |
| `TickCandles.InstrumentsAreIndependent` | backend/apps/api/src/modules/market/domain/candle-aggregator.ts:17-36 | Each instrument is aggregated as if the others did not exist |
| `TickCandles.CandleTimesIncrease` | backend/apps/api/src/modules/market/domain/candle-aggregator.ts:17-36 | With ticks in time order an instrument's candles are at strictly increasing minutes |
| `TickCandles.CandleAggregator.AddQuote` | backend/apps/api/src/modules/market/domain/candle-aggregator.ts:17-36 | New open bars and completed candle are those of the specification |
| `TickCandles.CandleAggregator.Flush` | backend/apps/api/src/modules/market/domain/candle-aggregator.ts:39-43 | Returns every open bar once and leaves none |
| `LiveBars.UpstoxDataFeed.HandleQuote` | frontend/trader/src/lib/market/datafeed.ts:421-458 | Every subscription changes exactly as one tick prescribes |
| `LiveBars.ChartsNeverRewriteHistory` | frontend/trader/src/lib/market/datafeed.ts:415-458 | Any quotes in any order: only valid bars, never back in time, and within a bucket open fixed, high never falling, low never rising, also against the seed |
| `LiveBars.BucketContains` | frontend/trader/src/lib/market/datafeed.ts:81-85 | A bar starts at a multiple of the resolution and contains the tick |
| `HistoryChunks.FetchIntradayChunks` | backend/apps/api/src/modules/market/infrastructure/dhan-history.client.ts:87-120 | The cursor loop ends and equals merging the answers of the window list |
| `HistoryChunks.WindowsPartition` | backend/apps/api/src/modules/market/infrastructure/dhan-history.client.ts:96-117 | The windows partition the range without gap or overlap |
| `HistoryChunks.ExactlyOneWindow` | backend/apps/api/src/modules/market/infrastructure/dhan-history.client.ts:96-117 | Every instant of the range lies in exactly one window |
| `HistoryChunks.FetchedExactly` | backend/apps/api/src/modules/market/infrastructure/dhan-history.client.ts:41-66 | The fetch has at each time the stored bar if it is in range and some served window covers it, and nothing else |
| `HistoryChunks.ChunkingIsInvisible` | backend/apps/api/src/modules/market/infrastructure/dhan-history.client.ts:87-120 | With no failures the chunked fetch is one unchunked fetch |
| `HistoryChunks.FailuresStayLocal` | backend/apps/api/src/modules/market/infrastructure/dhan-history.client.ts:107-116 | A bar is only ever lost inside a window whose own request failed |
| `HistoryChunks.MergeByTs` | backend/apps/api/src/modules/market/infrastructure/upstox-history.client.ts:144-149 | The merge is ascending and has at each time today's last bar, else history's last bar |
| `MarketRooms.InterestMatchesRooms` | backend/apps/api/src/modules/market/application/market-data.service.ts:65-97 | At every interruption point interest is 1 exactly while the room is non-empty, absent otherwise, and upstream calls strictly alternate between subscribe and unsubscribe |
| `RoomMembers.MembersMatchSubscriptions` | backend/apps/api/src/modules/market/presentation/market.gateway.ts:63-123 | At every interruption point a connected client is in a room exactly when it is subscribed |
| `RoomMembers.RoomsAreExactIff` | backend/apps/api/src/modules/market/presentation/market.gateway.ts:63-123 | At every point of a run, and however its pending messages go on from there, each room is exactly the set of connected clients subscribed, if and only if no client left while a message of its still named an instrument it was not subscribed to |
| `RoomMembers.PendingBecomesGhost` | backend/apps/api/src/modules/market/presentation/market.gateway.ts:81-82 | Whichever place a new instrument has in a departed client's message, resuming it that far puts the client in that room |
| `RoomMembers.LeavingBetweenTwoJoins` | backend/apps/api/src/modules/market/presentation/market.gateway.ts:63-82 | A concrete run: a client that leaves between two joins of one message stays in the second room |
| `RoomMembers.GhostStays` | backend/apps/api/src/modules/market/presentation/market.gateway.ts:115-123 | No later action removes such a member |
| `MarketRooms.UninterruptedMessage` | backend/apps/api/src/modules/market/presentation/market.gateway.ts:71-82 | The subscribe handler run in one go is the interruptible message resumed until it is done |
| `MarketRooms.MarketDataService.AddInterestFor` | backend/apps/api/src/modules/market/application/market-data.service.ts:65-76 | Counters and upstream calls are those of adding the keys one by one |
| `MarketRooms.MarketDataService.RemoveInterestFor` | backend/apps/api/src/modules/market/application/market-data.service.ts:81-96 | Counters and upstream calls are those of removing the keys one by one |
| `MarketRooms.MarketGateway.JoinRoom` | backend/apps/api/src/modules/market/presentation/market.gateway.ts:91-104 | New subscriptions, room and interest are those of `Join` |
| `MarketRooms.MarketGateway.LeaveRoom` | backend/apps/api/src/modules/market/presentation/market.gateway.ts:115-123 | New room and interest are those of `Leave` |
| `MarketRooms.MarketGateway.OnSubscribe` | backend/apps/api/src/modules/market/presentation/market.gateway.ts:80-82 | Joins the first 200 keys in order |
| `MarketRooms.MarketGateway.OnUnsubscribe` | backend/apps/api/src/modules/market/presentation/market.gateway.ts:83-88 | Leaves and forgets the first 200 keys in order |
| `MarketRooms.MarketGateway.HandleDisconnect` | backend/apps/api/src/modules/market/presentation/market.gateway.ts:63-69 | Leaves every subscribed room and forgets the client |
| `RateWindows.AnyWindowLetsThroughFewerThanTwiceTheLimit` | backend/libs/shared/src/rate-limit/redis-throttler.storage.ts:16-54 | With a positive block duration, any stretch of one window length lets through at most 2 * limit - 1 hits |
| `RateWindows.WindowLetsThroughTheLimit` | backend/libs/shared/src/rate-limit/redis-throttler.storage.ts:36-50 | No window of the counter lets through more than the limit |
| `RateWindows.RefusedOnlyWhenFull` | backend/libs/shared/src/rate-limit/redis-throttler.storage.ts:43-50 | A hit refused while no block stands finds exactly the limit already let through in its window |
| `RateWindows.BurstReachesTheBound` | backend/libs/shared/src/rate-limit/redis-throttler.storage.ts:16-54 | The bound 2 * limit - 1 is attained for every limit and window |
| `RateWindows.LimitsExactlyWhenBlocking` | backend/libs/shared/src/rate-limit/redis-throttler.storage.ts:43 | For the block duration given to `increment`: any window lets through fewer than twice the limit if and only if it is positive |
| `RateWindows.RedisThrottlerStorage.IncrementHits` | backend/libs/shared/src/rate-limit/redis-throttler.storage.ts:16-54 | Record and keys are those of the specification; no other key changes |
| `OneTimeCodes.HourlyLimitHolds` | backend/apps/api/src/modules/auth/infrastructure/otp.service.ts:28-34 | Over every run no hour holds more than `maxPerHour` sends to a target, deleted rows included |
| `OneTimeCodes.SendsAreSpaced` | backend/apps/api/src/modules/auth/infrastructure/otp.service.ts:36-40 | Two sends to a target are at least the cooldown apart |
| `OneTimeCodes.SentExactlyWhenAllowed` | backend/apps/api/src/modules/auth/infrastructure/otp.service.ts:28-53 | A code is sent if and only if the full history has room in the last hour and is past the cooldown: row deletion is never noticeable |
| `OneTimeCodes.GuessesAreBounded` | backend/apps/api/src/modules/auth/infrastructure/otp.service.ts:55-74 | A code is accepted at most once, compared with at most `maxAttempts` wrong guesses, and only before it expires |
| `OneTimeCodes.Newest` | backend/apps/api/src/modules/auth/infrastructure/otp.service.ts:56-58 | The newest matching row, or none |
| `OneTimeCodes.OtpService.IssueCode` | backend/apps/api/src/modules/auth/infrastructure/otp.service.ts:28-53 | New rows and outcome are those of the specification |
| `OneTimeCodes.OtpService.VerifyCode` | backend/apps/api/src/modules/auth/infrastructure/otp.service.ts:55-74 | New rows, guesses and outcome are those of the specification |

## Left out

- PlatformTheorems.EquityEqualsLedger: each service call is one step; that locked calls may be so treated is `TimelyRunsAreSerial`, proved for sections that end within their lease, and a crash half way through `activate` or `pass` is not modelled.
- PlatformTheorems.CreditedExactlyOnce: refund and activation take different lock names in the code; each is one step here. Payments never become CAPTURED or FAILED, because no code sets those statuses.
- PlatformTheorems.RewardFollowsChallenge: reward review takes no lock in the code; each transition is one step, so two admins deciding at the same moment are not modelled.
- LockedCalls.CloseSectionFlattens: a section has a fixed number of steps, so square-off and evaluation get room for a given number of positions; `LockedRunsKeepAccounts` holds for any such number, also a too small one. `withLock` itself, a try-finally around a callback, is not a method; `LeaseLock` models it.
- EndedChallenges.EndedNeverTradesIff: a check and its listing are one step, since nothing reads between them what the other writes; each turn of the loop is a step of its own.
- TradingEngine.EngineRunsAreRuns: which instruments the engine is subscribed to is not part of the model; any tick may come at any time.
- Repainting.NoRepainting: with trendlines shown it is stated for as long as the two lines do not change, for which `TrendlinesStayIff` gives the exact condition on the bars, and with the Fibonacci vote on without the newest bar, because the code recomputes both from all bars (`TrendlinesRepaint`, `FibonacciRepaints`).
- ConfluenceLoop.ComputeConfluence: gives the markers, the last score and the verdict, not the line points, Fibonacci levels, golden zone and timeframe rows of the result; for positive periods and pivot width, since the code divides by the periods and reads the bar before the first scored one.
- PositionMath.ApplyFill: its contract gives quantity and realized total; the average price is `AverageAfterFill`, the money `FillConservesValue`.
- CandleBuckets.IntervalsFuse: one direction for any volumes, for finer bars none of which the second outlier pass drops; the exact condition is `IntervalsFuseIff`, for bars that were all traded, since a dropped bar without volume need not show.
- Sessions.AcceptedAtMostOnce: each call is one step with a new random hash; two refreshes of one token racing between its lookup and its save are not modelled.
- RoomMembers.RoomsAreExactIff: waits inside one room join after the join itself (bus subscription, cached quote) are not separate interruption points, because nothing modelled changes in them.
- RateWindows.AnyWindowLetsThroughFewerThanTwiceTheLimit: the Redis commands of one call are one step.
- OneTimeCodes.HourlyLimitHolds: configuration is constant over a run and within the bounds of its schema; one call is one step.
- HistoryChunks.ChunkingIsInvisible: bars open on whole seconds, since request bounds are formatted to seconds; the JSON bodies and `parseDhanCandles`, `parseCandles` are not part of this model.
- LiveBars.BucketContains: for non-negative times; before the epoch JavaScript's remainder differs, which `BarBucketSec` models.
- TickCandles.CandleAggregator.Flush: the order in which open bars are returned is unspecified.
- Floating-point rounding: the 1e-9 tolerances are kept, arithmetic is exact; quantities are unbounded integers.
- RateWindows.LimitsExactlyWhenBlocking: about the argument of `increment`; which block duration a caller passes is decided in the throttler library, which is not part of this model.
- Login checks (password, lockout, new-device mail), registration, KYC, TOTP and employee sessions: a login here is the creation of a family.
- The stale-feed watchdog's re-subscription and the candle buffer's bulk writes: transport.
- Daily anchor scheduling: only its effect, setting day-start equity, is an action, with any amount.
- `myPayments`, reward queues and other queries: read-only listings.
- Mongo, Redis, HTTP, WebSocket, cryptography, broker credentials, instrument sync, screens: only the state they read or write appears.
