# Verified models of the artic trading platform

The project models the parts of the platform in which state outlives a single call or in which a number is
attested, and proves what they promise over all runs and all inputs.

| files | what they model |
|---|---|
| `VmRegistry`, `VmProtocol`, `VmSafety`, `VmTheorems`, `VmAgreement`, `VmCalls`, `VmHistory`, `VmAnswers`, `VmSystem`, `VmService`, `VmProgress` | the hub's per-user VM: wake, drain, touch, hydrate over the in-memory registry, the Postgres row and the provider's instances |
| `BacktestEngine`, `BacktestLaws`, `BacktestTrades`, `BacktestUnits`, `Metrics` | the backtest replay loop and the figures reported about it |
| `PaperTrading`, `Trading`, `TradingLaws`, `TradingSignals` | the agent's tick loop, its paper position and its stops |
| `TradeLog`, `TradePipeline` | from an executed action to its row in the trades table |
| `Sums`, `LeastSquares`, `Kalman`, `MeanReversion`, `MovingAverages`, `Trends` | the signal algorithms that have a theorem behind them |
| `LruCache`, `RateLimit` | the strategy cache and the LLM rate limiter |
| `Options`, `RealLemmas` | an optional value; products and quotients of reals |

Python floats are `real`.  `dafny verify dfyconfig.toml` checks everything.

## How the VM protocol is modelled

`VmProtocol` is a step machine: one event is the code between two awaits, and a program counter names the call a
coroutine is waiting for.  Callers interleave freely, every awaited call may raise (with or without having taken
effect), the process may crash anywhere and is rehydrated from the rows, and instances may die by themselves.
`World` records what really happened at the provider; the code never reads it.

`VmService` is the same protocol as the code runs it: an object with nested calls, `try`/`except`, early returns
and the polling loop, which at every await lets everybody else run.  `VMService.Wake` and `VMService.Drain` are proved
to leave, wherever the script of answers breaks off, exactly the state the step machine reaches by the same events;
so the theorems about runs are theorems about the code.

## Where the code does not do what it says

* `_compute_dynamic_tp_sl` is given the enumeration member `PositionSide.LONG`; `str()` of it is
  `"PositionSide.LONG"`, which is neither of the spellings the function accepts for a long.  Dynamic levels are
  therefore right for shorts and upside down for longs (`TradingLaws.EngineLevelsOrientedIff`), and a dynamic long
  never survives the next fetched price (`TradingLaws.DynamicLongLivesOneTick`).
* `touch` sets the registry to running whatever the wake is doing.  After a wake that timed out it makes the next one
  answer RUNNING for an endpoint no probe has reached (`VmCalls.UnprobedRunningHappens`; exactly when:
  `VmCalls.RunningMeansProbedIff`), and it can keep an orphan from being reclaimed (`VmCalls.HiddenOrphanHappens`;
  exactly when: `VmCalls.NextWakeReclaims`).
* Registry and row can be apart while nothing is under way (`VmCalls.StoresCanPart`): after a mapping commit of a wake
  that raised without effect, or the last commit of a drain that raised after taking effect, and not otherwise
  (`VmTheorems.QuiescentStoresAgree`); `VmAgreement.QuiescentStoresAgreeIff` says what brings them together again.
* `max_drawdown` documents a fraction in 0..1.  It is one exactly when no value after a positive one is negative
  (`Metrics.DrawdownRange`), and replays do produce other curves (`BacktestLaws.ShortLosesMoreThanAll`,
  `BacktestLaws.LongOwesItsFees`).
* A position kept over a stop is closed at the price of the next start with a loss of its stop percentage or more,
  although the price has not moved since, exactly if it starts below the stop (`TradingLaws.StartsIntoLossIff`).
* The upsert never updates strategy and hash.  When a start has put another plan in charge of an open position, its
  row depends on whether the open arrived (`TradeLog.OpenMayBeLostIff`, `TradePipeline.TableConverges`).  And an open
  that is delivered after its close reopens the row (`TradeLog.LateOpenReopens`).
* The clamp of the z-score at two deviations never binds up to five prices and can bind for every longer window
  (`MeanReversion.ClampNeverBinds`, `MeanReversion.ClampBindsBeyondFive`).

## Model

| member | source | states |
|---|---|---|
| VmRegistry.HydratedIsExact | hub/vm/service.py:54-67 | with one row per user, hydration gives every user with a row that row's state and leaves everybody else alone |
| VmRegistry.VMRegistry.SetStatus | hub/vm/registry.py:31-37 | changes one user's status and named fields, nobody else's; a user without a state stays without one |
| VmRegistry.VMRegistry.Hydrate | hub/vm/service.py:54-67 | one put per row amounts to the hydrated registry |
| VmSafety.NextKeepsInv | hub/vm/service.py:96-340 | every event of the protocol, failing or not, keeps lock exclusion, row consistency, the whereabouts of every instance and what each waiting point relies on |
| VmTheorems.NoOrphans | hub/vm/service.py:206-286 | in every history a live instance is the row's, or between start and its persisted id, or its stop raised, or it was reported not ready, or its id never reached the row |
| VmTheorems.ExcusesAreEarned | hub/vm/service.py:120-124 | an instance gets an excuse only by the very failure the excuse names |
| VmTheorems.StartsOnlyAfterDeparture | hub/vm/service.py:218-256 | whenever an instance is started, whether or not its id comes back, the row maps none and every earlier one has left by a stop attempt, a not-ready report or an id that never reached the row |
| VmTheorems.AtMostOneInstance | hub/vm/service.py:96-157 | however many callers interleave and retry, with a truthful provider and no failure at most one instance is ever started |
| VmTheorems.RowsStayConsistent | hub/vm/service.py:288-340 | endpoint implies id; stopped implies neither; running implies both and a probed endpoint |
| VmTheorems.RunningIsWrittenAfterProbe | hub/vm/service.py:129-157 | over all histories running is written only by the commit ending a wake that, without leaving its lock, had a healthy answer from that very endpoint |
| VmTheorems.RunningIsWrittenByWake | hub/vm/service.py:328-340 | no event but the last commit of a wake writes running, and none replaces the mapping while it stands |
| VmTheorems.QuiescentStoresAgree | hub/vm/service.py:297-326 | unless a commit has parted them since boot, registry and row agree on id and endpoint whenever no wake or drain is under way, whatever else raised and whatever touch did |
| VmAgreement.QuiescentStoresAgreeIff | hub/vm/service.py:96-326 | exactly when they agree: if and only if the history of answers to mapping commits, of finished wakes and drains and of boots has not left them apart |
| VmTheorems.DesyncIffParted | hub/vm/service.py:297-326 | what counts as parted, told by the history: since the last boot a mapping commit of a wake raised without effect, or the last commit of a drain raised after it |
| VmTheorems.FailedCommitDisagrees | hub/vm/service.py:297-326 | from agreeing stores, a raising mapping commit of a wake parts them if and only if it had no effect |
| VmTheorems.FailedDrainCommitDisagrees | hub/vm/service.py:181-196 | from agreeing stores, a raising last commit of a drain parts them if and only if it took effect |
| VmTheorems.OneWakeAtATime | hub/vm/service.py:98-99 | two callers of one user are never both past the lock |
| VmCalls.StoresCanPart | hub/vm/service.py:254-257 | a concrete history of a first wake ends with nothing under way and the stores apart |
| VmCalls.RunningAnswers | hub/vm/service.py:96-157 | in every history RUNNING is answered either by a wake that leaves the instance mapped and running in both stores, its endpoint probed under its own lock, or straight off a running registry |
| VmCalls.RunningMeansProbedIff | hub/vm/service.py:100-105 | the endpoint behind RUNNING has answered a probe if and only if the answer was not read off the registry after a touch of an unprobed endpoint that no later status change, healthy answer or finished wake had settled |
| VmCalls.VouchesIffTouched | hub/vm/service.py:159-162 | the registry passes for running with an endpoint no probe has reached exactly while such a touch is unsettled |
| VmCalls.OnlyTouchVouches | hub/vm/service.py:159-162 | no event but such a touch makes the registry vouch for an unprobed endpoint, and each such touch does |
| VmCalls.TouchAnswersForPoll | hub/vm/service.py:133-162 | from any polling wake, a touch and then the deadline make the next wake answer RUNNING without any probe having succeeded |
| VmCalls.UnprobedRunningHappens | hub/vm/service.py:96-162 | a concrete history of a first wake, a touch and a second wake in which that happens |
| VmCalls.NextWakeReclaims | hub/vm/service.py:100-105 | whatever left an instance in the row without an endpoint, the next wake stops it before another is started if and only if the registry does not pass for running; otherwise it answers RUNNING and changes nothing at the provider |
| VmCalls.TouchHidesOrphan | hub/vm/service.py:159-162 | from any wake waiting for the commit of its endpoint, an ineffective raising commit and a touch make the next wake answer RUNNING and reclaim nothing |
| VmCalls.HiddenOrphanHappens | hub/vm/service.py:96-162 | a concrete history in which a live instance is left in the row without an endpoint that way |
| VmCalls.DrainedIsForgotten | hub/vm/service.py:181-197 | in every history a drain that comes to its end leaves both stores stopped and empty, the new snapshot in the row and the instance gone |
| VmCalls.StartedWakeRuns | hub/vm/service.py:254-286 | alone and with every call succeeding, a wake adds exactly the one instance it started to those that live |
| VmCalls.DrainUndoesWake | hub/vm/service.py:171-197 | alone and with every call succeeding, a drain takes exactly the mapped instance away again |
| VmHistory.StartsFromLastSaved | hub/vm/service.py:206-216 | over every history the snapshot a wake starts is the one the provider reported to the last drain whose commit took effect, and the golden one if and only if there was no such drain |
| VmHistory.DrainedMachineIsResumed | hub/vm/service.py:171-216 | alone and with every call succeeding, the wake after a drain starts the snapshot that drain took |
| VmHistory.RowRemembersActivity | hub/vm/service.py:159-169 | over every history the row carries the time of the last touch of the row or of the last wake whose final commit took effect, whichever came last |
| VmAnswers.PhaseIsTold | hub/vm/service.py:109-128 | over every history a wake inside its lock is cleaning up if and only if under that lock the provider refused it or it had nothing to start from, and is at work on an instance if and only if that one was started or found ready under that lock and it was not refused |
| VmAnswers.AnswersAreTold | hub/vm/service.py:96-157 | a wake past the lock answers FAILED if and only if it was refused, leaving an error row and, stores not parted, every instance given up on; PENDING only on the deadline, with the instance still mapped; and RUNNING or PENDING only about an instance that came up under its lock |
| VmAnswers.UnknownUserFails | hub/vm/service.py:100-103 | FAILED without a wake is answered only on taking the lock, for a user the registry does not know, and changes nothing |
| VmProgress.AnswerAdvances | hub/vm/service.py:96-157 | every answer but an unhealthy probe brings a wake nearer to its end, and a success never takes it off the way to RUNNING |
| VmProgress.WakeEndsInTime | hub/vm/service.py:96-157 | however the others interleave, a wake ends after at most thirteen answers besides unhealthy probes |
| VmProgress.SuccessfulWakeAnswersRunning | hub/vm/service.py:96-157 | with a golden snapshot and no call failing or timing out it ends in RUNNING, whatever the others do |
| VmSystem.NoInstanceIsSharedOrOrphaned | hub/vm/service.py:50-67 | over all users and shared reboots, no instance is orphaned and none is mapped for two users |
| VmService.OthersLeaveHolder | hub/vm/service.py:98-99 | while one caller holds the lock, no event of the others moves it |
| VmService.VMService.StartOrResume | hub/vm/service.py:206-286 | cases A to D, whatever is answered, do what the protocol does, whose choice of snapshot is `VmHistory.StartsFromLastSaved`; an exception leaves with the protocol already handling it |
| VmService.VMService.Wake | hub/vm/service.py:96-157 | for every interleaving and every sequence of answers, the state at any point the script ends is the protocol's after the same events, and the result is the protocol's, so what `VmHistory` and `VmAnswers` say of snapshot and answer is said of this code |
| VmService.VMService.Drain | hub/vm/service.py:171-202 | the same for drain; come to its end it returns true if and only if an instance was mapped at the call and no call it acted on raised, and false if and only if none was mapped or the one thing that raised was the snapshot or the stop, with VMProviderError; on true the registry maps nothing |
| VmService.CallKeepsInv | hub/vm/service.py:96-202 | a wake or drain begun in a state of the invariant leaves one, wherever it stops |
| BacktestEngine.Run | user-server/user_server/backtest/engine.py:91-233 | the run ends in an exception if and only if some candle opens a position with a level that is no number; otherwise it reports the recursive replay, with the drawdown, return, win rate and count of its own curve and trades |
| BacktestEngine.ReplayAll | user-server/user_server/backtest/engine.py:137-214 | the loop over the candles computes the recursive book, or stops at the first exception |
| BacktestEngine.ClosePosition | user-server/user_server/backtest/engine.py:47-75 | cash gains the size and the pnl, whose size is `BacktestTrades.PnlOfGain`, and pays the fee, and exactly one trade is appended |
| BacktestLaws.NoLookAhead | user-server/user_server/backtest/engine.py:137-221 | a run on a prefix of the candles has the full run's curve before its last point, differs there by the forced closing fee alone, and made a prefix of its trades |
| BacktestLaws.BreaksIgnoreFuture | user-server/user_server/backtest/engine.py:137-211 | whether a run breaks off at a candle does not depend on later candles |
| BacktestLaws.FinalEquityIsAccountedFor | user-server/user_server/backtest/engine.py:119-223 | final equity is initial cash plus all pnl less two fees a trade; the curve starts at the initial cash and has one point for every candle after the twentieth |
| BacktestLaws.LoopConserves | user-server/user_server/backtest/engine.py:137-214 | at every candle cash plus open size is initial cash plus realised pnl less fees paid |
| BacktestLaws.ActionsOnlyCostFees | user-server/user_server/backtest/engine.py:185-211 | acting on a signal moves the marked equity by nothing but the fee of what was opened or closed |
| BacktestLaws.TradesWereAskedFor | user-server/user_server/backtest/engine.py:137-221 | every trade of a replay was asked for at some candle by an answer with that very action, with a flat book, on its side, entered at that close and no larger than the cash there was |
| BacktestLaws.OpensWhenAsked | user-server/user_server/backtest/engine.py:175-207 | a position appears if and only if a flat book with cash is told to open a positive fraction; it takes that fraction of the cash, all of it at most, with the levels of the signal |
| BacktestLaws.ClosesWhenAsked | user-server/user_server/backtest/engine.py:208-211 | a position is closed at the close if and only if the answer is CLOSE; any other answer, an exception included, leaves the book alone |
| BacktestTrades.PnlOfGain | user-server/user_server/backtest/engine.py:55-62 | with the price a fraction g above the entry a long has gained g of its size and a short has lost it, whatever the entry |
| BacktestTrades.TradesEndForTheirReason | user-server/user_server/backtest/engine.py:143-221 | every trade of a replay earned what the way of the price over its entry makes of its size, and ended at a candle that touched its stop, or its target and not its stop, or where the answer was CLOSE and neither was touched, or at the last close with the position still open |
| BacktestTrades.TouchedBySomePrice | user-server/user_server/backtest/engine.py:147-158 | a level counts as touched if and only if some price of the candle is at or beyond it |
| BacktestTrades.WindowEndsNow | user-server/user_server/backtest/engine.py:164-167 | the strategy sees the present candle and up to a hundred before it, and nothing else |
| BacktestUnits.ReplayHasNoUnit | user-server/user_server/backtest/engine.py:47-233 | with every price of the market in another unit a strategy that does not look at the unit has the same curve and the same pnl from every trade |
| BacktestUnits.BreaksHaveNoUnit | user-server/user_server/backtest/engine.py:143-207 | nor does it break off at another candle |
| BacktestLaws.StopsLoseTargetsWin | user-server/user_server/backtest/engine.py:143-161 | with levels on the proper sides a stop books a loss and a target a gain, a candle spanning both books the loss, and one that reaches neither books nothing |
| BacktestLaws.StopsAreSymmetric | user-server/user_server/backtest/engine.py:149-158 | prices upside down turn a long's hits into a short's |
| BacktestLaws.ReplayScales | user-server/user_server/backtest/engine.py:119-233 | k times the money gives a size-blind strategy the same trades and curve, k times as large |
| BacktestLaws.BreaksScale | user-server/user_server/backtest/engine.py:164-207 | nor on the amount of money |
| BacktestLaws.FiguresAreScaleFree | user-server/user_server/backtest/engine.py:223-233 | drawdown, total return, win rate and every step return do not change with the money |
| BacktestLaws.ShortLosesMoreThanAll | user-server/user_server/backtest/engine.py:47-88 | a replay in which a short loses more than the account: equity ends below zero and the drawdown exceeds 1 |
| BacktestLaws.LongOwesItsFees | user-server/user_server/backtest/engine.py:186-196 | the same for a full-size long that cannot pay its fees |
| Metrics.MaxDrawdown | user-server/user_server/backtest/metrics.py:36-49 | the single pass finds the greatest drop below a running peak |
| Metrics.MaxDrawdownIsUnique | user-server/user_server/backtest/metrics.py:36-49 | that description determines the number |
| Metrics.PeakIsMaximum | user-server/user_server/backtest/metrics.py:40-44 | the running peak is the maximum of the prefix |
| Metrics.SinglePassIsAllPairs | user-server/user_server/backtest/metrics.py:36-49 | on a curve that is never negative after a positive value it is the worst drop over all pairs of points, within 0..1 |
| Metrics.SinglePassIsAllPairsIff | user-server/user_server/backtest/metrics.py:36-49 | on any curve it is the worst of all pairs if and only if every fall below zero from an earlier positive value is matched by one from a running peak |
| Metrics.SinglePassNeverOverstates | user-server/user_server/backtest/metrics.py:36-49 | it is never more than the worst of all pairs |
| Metrics.InsolventCurves | user-server/user_server/backtest/metrics.py:36-49 | two curves that go negative, one on which the definitions agree and one on which they part |
| Metrics.DrawdownRange | user-server/user_server/backtest/metrics.py:37-48 | the documented 0..1 holds if and only if no value after a positive one is negative |
| Metrics.Returns | user-server/user_server/backtest/metrics.py:8-17 | one simple return per step, 0 after a zero |
| Metrics.ReturnsCompound | user-server/user_server/backtest/metrics.py:8-17 | the step returns of a curve without zeros compound to its total return |
| Metrics.WinRateRange | user-server/user_server/backtest/metrics.py:52-58 | the share of trades with a positive pnl; within 0..1, 1 exactly if every trade gained, 0 exactly if none did |
| PaperTrading.PaperPosition.ComputePnl | app/executor/paper.py:66-81 | the unrealised pnl of the position as it stands, 0 when flat |
| PaperTrading.PaperPosition.Close | app/executor/paper.py:50-59 | nothing of the position is left |
| PaperTrading.PercentAndPriceStopsAgree | app/engine.py:644-654 | the percentage stops of the paper position and the price levels sent with the live order fire at the same prices for the same reason, both sides |
| Trading.TradingEngine.Tick | app/engine.py:301-363 | one pass of the loop, with every failed fetch, raising supervisor or signal, makes the specified move of position, prices and reports; when that opens or closes, and on which side, is in `TradingSignals` |
| Trading.TradingEngine.ExecuteAction | app/engine.py:527-630 | opens with the configured and computed levels, or closes with the pnl at the price, and reports just that |
| Trading.TradingEngine.Stop | app/engine.py:259-287 | a tick under way ends first; then the position is closed without a report, and it stays open if and only if asked to or the final price fetch raises |
| Trading.TradingEngine.Start | app/engine.py:112-257 | refused while running; otherwise installs settings and plan, runs if there is a price to begin with, and keeps a position the last stop kept |
| TradingLaws.ActionsAlternate | app/engine.py:301-350 | over whole sessions of starts, ticks, reloads and stops opens and closes strictly alternate; the silent close of stop is the only one not reported |
| TradingLaws.EventAlternates | app/engine.py:301-350 | at most one action a tick, an open exactly when flat |
| TradingLaws.RunKeepsSafe | app/engine.py:316-350 | while a fixed-mode engine with a constant stop runs, never started below the stop of a kept position, a position still open is above its stop at the last price |
| TradingLaws.LossIsBounded | app/engine.py:316-350 | in such sessions, if the price moved at most g of the entry since the last fetch, no close by the loop loses sl + g of the notional |
| TradingLaws.StartsIntoLossIff | app/engine.py:159-174 | a position kept over a stop is closed at the very price of the next start with a loss of sl or more if and only if that price is not above its stop |
| TradingSignals.OpensOnSignal | app/engine.py:498-526 | a flat engine with a price reports a long if and only if the signal is above the threshold, and a short if and only if it is below the negated threshold and not above the threshold; what it reports is what it holds |
| TradingSignals.FirstOpenUsesPlan | app/engine.py:233-236 | the first position after a start has the stop of the start, or the loss limit of the plan if it named none |
| TradingSignals.ClosesIff | app/engine.py:316-350 | a tick closes a position if and only if its stops fire, or a supervisor that is due says so, or the signal passes the threshold against its side with the stops quiet and no supervisor raising |
| TradingSignals.HeldIsUntouched | app/engine.py:324-333 | a held position keeps everything but its dynamic levels, which only a supervisor that is due may move, and the supervisor is asked again only after its interval |
| TradingSignals.DecisionIsSymmetric | app/engine.py:498-526 | the negated signal on the mirrored position gives the mirrored action, unless, and only unless, the engine is flat with a signal between a negative threshold and its negation |
| TradingSignals.StopsFireAtTheirGains | app/executor/paper.py:105-110 | the percentage stops fire at exactly their share of the entry gained or lost, whatever size and leverage, the target before the stop |
| TradingSignals.ReloadedStopFires | app/main.py:245-258 | a stop changed by a reload closes the position already open at the next tick that finds it lost |
| TradingLaws.DynamicLevelsBracketEntry | app/engine.py:403-418 | dynamic levels lie on both sides of the entry, the stop atr_mult true ranges away or 3 percent of the entry without one, the target rr_ratio times as far |
| TradingLaws.OrientedIff | app/engine.py:411-417 | they are on the right sides if and only if the side's text spells long exactly for longs |
| TradingLaws.EngineLevelsOrientedIff | app/engine.py:536-538 | with the argument the engine passes: if and only if the position is a short; the stop is two true ranges away, or 3 percent of the entry without one, the target twice as far |
| TradingLaws.DynamicLongAlwaysTriggers | app/executor/paper.py:92-98 | the levels of a dynamic long fire at every price |
| TradingLaws.DynamicLongLivesOneTick | app/engine.py:316-323 | a dynamic long is closed at the next fetched price, whatever it is |
| TradeLog.HubCallback.ReportTrade | app/hub_callback.py:64-107 | an open gets a fresh id that is remembered; a close takes it, forgets it and posts under it |
| TradeLog.CloseTakesItsOpen | app/hub_callback.py:64-87 | the close of an agent goes out under the id and time of its open whatever other agents report in between, is forgotten then, and the id reported last is the one a later hash finds |
| TradeLog.TradesTable.PushTrade | user-server/user_server/agents/push_router.py:87-120 | inserts a new trade, or overwrites the closing fields and fills the two late ones only when empty |
| TradeLog.TradesTable.PatchTradeTxHash | user-server/user_server/agents/push_router.py:127-137 | sets the hash of a known trade and nothing of an unknown one |
| TradeLog.RedeliveryIsIdempotent | user-server/user_server/agents/push_router.py:87-120 | any positive number of copies of a POST is as good as one |
| TradeLog.CloseSettles | user-server/user_server/agents/push_router.py:87-118 | whether the open was lost, delivered or repeated, the row is the close in every field but tx_hash, reasoning_cid and, if the open arrived, its strategy and hash |
| TradeLog.OpenMayBeLostIff | user-server/user_server/agents/push_router.py:110-118 | the row tells whether the open was lost unless, and only unless, the close names the same strategy and hash |
| TradeLog.FirstHashStays | user-server/user_server/agents/push_router.py:114-118 | of any number of POSTs about a trade, the first with a transaction hash decides the hash of the row |
| TradePipeline.CloseCarriesItsOpen | app/hub_callback.py:71-79 | in every session, kept positions included, a close by the loop carries the id, open time and description of its own open, the price of the tick as its exit, the pnl the way from entry to exit makes of size and leverage, and the reason; the fresh-id fallback never fires |
| TradePipeline.OpenStartsATrade | app/hub_callback.py:71-107 | an open is posted without exit, pnl, close time or reason, under a fresh id, describing the position the engine has just taken |
| TradePipeline.TableConverges | user-server/user_server/agents/push_router.py:87-120 | whatever was lost or repeated and whichever plans were in charge, the row of a delivered close is that close but for tx_hash and reasoning_cid, under the strategy and hash of its open if that arrived; so it is independent of the open's fate if and only if both name the same plan |
| TradePipeline.ClosedOnlyGrows | app/hub_callback.py:64-107 | a delivered close is never replaced by another |
| LeastSquares.DenominatorClosedForm | app/strategies/quant_algos/statistical_algos.py:20-22 | den is n^2 (n^2 - 1) / 12, zero exactly for at most one point |
| LeastSquares.NormalEquations | app/strategies/quant_algos/statistical_algos.py:23-26 | the residuals of the fit sum to zero and are orthogonal to x |
| LeastSquares.FitIsOptimal | app/strategies/quant_algos/statistical_algos.py:14-26 | no line has a smaller sum of squared residuals, and no other line ties |
| LeastSquares.StraightLineIsRecovered | app/strategies/quant_algos/statistical_algos.py:8-32 | prices on a line are fitted exactly and give no signal |
| LeastSquares.NeverSingular | app/strategies/signals.py:74-107 | no lookback the dispatcher passes reaches the singular answer |
| LeastSquares.SignalPointsToLine | app/strategies/quant_algos/statistical_algos.py:29-32 | the signal is long exactly below the line and short exactly above it, within two |
| LeastSquares.ChannelClampNeverBinds | app/strategies/quant_algos/statistical_algos.py:26-32 | divided by the deviation of its own residuals, the signal of up to four prices is never cut |
| Sums.ClampIsNearest | app/strategies/quant_algos/statistical_algos.py:32 | a cut signal is the one number between the bounds nearest to the uncut one |
| Kalman.Filter | app/strategies/quant_algos/statistical_algos.py:41-51 | the loop computes the recursive estimate and variance |
| Kalman.KalmanFairValue | app/strategies/quant_algos/statistical_algos.py:35-55 | warming up under five prices; then the clamped gap in units of the root of the variance, pointing to the fair value |
| Kalman.FairIsConvexCombination | app/strategies/quant_algos/statistical_algos.py:45-51 | the fair value is a weighted sum of the prices with positive weights summing to one in which no price occurs |
| Kalman.FairStaysInHull | app/strategies/quant_algos/statistical_algos.py:45-51 | it stays between the least and greatest price |
| Kalman.FairIsAffine | app/strategies/quant_algos/statistical_algos.py:45-51 | it shifts and scales with the prices |
| Kalman.VarianceSettles | app/strategies/quant_algos/statistical_algos.py:43-50 | after the first update the variance is strictly between 0 and R, and keeps the direction of its first change |
| Kalman.DefaultVarianceNeverGrows | app/strategies/quant_algos/statistical_algos.py:36-50 | with the default parameters it never grows |
| Kalman.FirstUpdate | app/strategies/quant_algos/statistical_algos.py:41-51 | the filter starts from the first price with variance 1; the second moves it by (1 + q) / (1 + q + r) of the gap |
| Kalman.GainIsOptimal | app/strategies/quant_algos/statistical_algos.py:46-50 | of all gains the one used at each update leaves the least variance, and no other one ties |
| MeanReversion.LastPriceBound | app/strategies/quant_algos/mean_reversion_algos.py:22-26 | the last price is within sqrt(n - 1) population deviations of its own window's mean |
| MeanReversion.ClampNeverBinds | app/strategies/quant_algos/mean_reversion_algos.py:25-28 | up to five prices the clamp of the z-score changes nothing |
| MeanReversion.ClampBindsBeyondFive | app/strategies/quant_algos/mean_reversion_algos.py:25-28 | for every longer window there are prices that reach the bound and are cut |
| MeanReversion.ZScoreIsOdd | app/strategies/quant_algos/mean_reversion_algos.py:18-28 | prices upside down give the negated signal, the cut included |
| MeanReversion.MirroredSpikeIsCut | app/strategies/quant_algos/mean_reversion_algos.py:25-28 | a spike upside down is cut at plus two |
| MeanReversion.BollingerIsHalfZScore | app/strategies/quant_algos/mean_reversion_algos.py:31-49 | for equal windows and two deviations the Bollinger signal is half the z-score on every input, and its flat branch is dead |
| MovingAverages.Ema | app/strategies/quant_algos/momentum_algos.py:104-111 | None for fewer prices than the period; otherwise the recursive average of the last period prices |
| MovingAverages.EmaWithin | app/strategies/quant_algos/momentum_algos.py:104-111 | an EMA lies between the least and greatest price of its window |
| MovingAverages.PositivePricesGiveSignal | app/strategies/quant_algos/momentum_algos.py:118-125 | positive prices never reach the invalid answer |
| MovingAverages.ConstantCrossover | app/strategies/quant_algos/momentum_algos.py:114-125 | constant prices give a crossover of zero |
| MovingAverages.DispatchedCrossover | app/strategies/signals.py:74-91 | whatever the plan's lookback, fast and slow are ordered and at least two, and positive prices give a signal as soon as there are enough |
| MovingAverages.EmaSeries | app/strategies/quant_algos/momentum_algos.py:135-143 | entry j is the running average of the first period + j prices |
| MovingAverages.MacdSignal | app/strategies/quant_algos/momentum_algos.py:128-156 | every index is in bounds, both averages of an entry have consumed the same prices, and the macd-warmup branch is dead |
| MovingAverages.MacdIsCausal | app/strategies/quant_algos/momentum_algos.py:146-147 | an entry of the line depends on the prices up to its own index alone |
| MovingAverages.ConstantMacd | app/strategies/quant_algos/momentum_algos.py:146-156 | constant prices give a MACD signal of zero |
| Trends.RisingCrossover | app/strategies/quant_algos/momentum_algos.py:104-125 | on strictly rising positive prices the crossover is positive, for every pair of periods fast < slow |
| Trends.FallingCrossover | app/strategies/quant_algos/momentum_algos.py:104-125 | on strictly falling ones it is negative |
| Trends.TwoPriceEma | app/strategies/quant_algos/momentum_algos.py:104-111 | over two prices the EMA weighs the newer one five times the older |
| Trends.RisingMacd | app/strategies/quant_algos/momentum_algos.py:135-147 | on strictly rising prices every entry of the MACD line is positive |
| Trends.MacdSignalPoints | app/strategies/quant_algos/momentum_algos.py:148-156 | the signal has the sign of the last entry less the mean of the last signal period, as a share of one percent of the price, cut at one |
| LruCache.Cache.Lookup | user-server/user_server/strategies/cache.py:22-27 | the first critical section is the lookup step of the interleaving model: a hit answers the very handle filed under the hash and makes its key the newest, a miss leaves the cache alone |
| LruCache.Cache.Insert | user-server/user_server/strategies/cache.py:30-34 | the second is its insert step: the handle is filed under the hash of its source as the newest entry and the 256 newest keys are kept |
| LruCache.Cache.Evict | user-server/user_server/strategies/cache.py:33-34 | drops the oldest keys, and only them, until 256 are left |
| LruCache.Cache.GetOrLoad | user-server/user_server/strategies/cache.py:19-35 | for anything other threads do while this one loads, the object ends where the model ends on the same events; whatever is returned has the hash of the source and is the newest entry of the cache |
| LruCache.RecencyIsLastUseOrder | user-server/user_server/strategies/cache.py:23-32 | the recency list holds every used key once, sorted by its last use |
| LruCache.NewestAbsorbs | user-server/user_server/strategies/cache.py:26-34 | using a key commutes with forgetting all but the newest |
| LruCache.CacheIsMostRecentlyUsed | user-server/user_server/strategies/cache.py:19-41 | under every interleaving of lookups, inserts, failing loads and clears the keys are the 256 most recently used since the last clear, in last-use order, each filed under its own hash; a use is told by the events alone |
| LruCache.InsertedIsFound | user-server/user_server/strategies/cache.py:22-34 | what a thread has loaded and inserted is the newest entry, and looking it up at once finds that very handle |
| LruCache.ReturnedHandleMatchesSource | user-server/user_server/strategies/cache.py:19-35 | whoever returns from get_or_load has a handle with the hash of its source, also when threads miss together |
| RateLimit.TokenBucket.TakeTokens | user-server/user_server/llm/rate_limit.py:23-31 | refills, then grants if and only if the tokens cover the cost, which is then taken |
| RateLimit.RateLimiter.CheckAndCount | user-server/user_server/llm/rate_limit.py:38-42 | a call is counted for the agent it names if and only if it was granted, and the counters never gate |
| RateLimit.TokensStayInRange | user-server/user_server/llm/rate_limit.py:23-31 | tokens stay in [0, capacity] in every run with a monotone clock |
| RateLimit.GrantsAreRateLimited | user-server/user_server/llm/rate_limit.py:15-31 | over any stretch of any run the granted cost is at most the capacity plus the refill over its time |
| RateLimit.IdleBucketGrants | user-server/user_server/llm/rate_limit.py:23-31 | a bucket of positive rate left idle for the time its rate needs for the cost grants it, whatever was left in it |
| RateLimit.DeniedCallWaits | user-server/user_server/llm/rate_limit.py:23-31 | after a denied call the same cost is granted if and only if the time for what it lacked has passed |
| RateLimit.DeniedCallsLeaveNoTrace | user-server/user_server/llm/rate_limit.py:23-31 | deleting the denied calls of a history leaves every grant and every later level as they were |

## Left out

- Concurrent drains, and a drain while a wake holds the lock: the code does not serialise them; here a drain begins only when no wake is inside the lock, and none enters while it runs.
- VmService.VMService.Wake: models one user's slot; the object's other users are separate slots joined in `VmSystem`. Taking the lock is one event, at a moment it is free; asyncio's queue order is not modelled.
- VmProtocol: the wallet lookup and `launch_user_server` are one awaited call; the two halves of `touch` are independent events; provider ids and endpoints are never empty strings; closing a database session raises nothing.
- BacktestEngine.ClosePosition: returns the extended list of trades; the aliasing of an append in place is not modelled.
- BacktestEngine.Run: does not report `sharpe`, which needs a square root; closes are not zero and `tick_fn` is a deterministic function of its window and position that does not change its context.
- Annualised volatility needs square roots; where another signal divides by one, it is a parameter constrained to be that root.
- Float rounding, and the Decimal text of the numbers posted as strings.
- LeastSquares.SignalPointsToLine: holds for every positive divisor; only `ChannelClampNeverBinds` ties the divisor to the residuals.
- TradingLaws.LossIsBounded: needs fixed mode, a stop percentage that reloads and starts do not change, positive size and leverage, positive prices, and no start below the stop of a kept position (`TradingLaws.StartsIntoLossIff` says what happens otherwise).
- VmCalls.StartedWakeRuns: one caller alone; what holds in every interleaving is in `VmCalls.RunningAnswers` and `VmProgress`.
- VmCalls.DrainUndoesWake: one caller alone; what holds in every interleaving is in `VmCalls.DrainedIsForgotten`.
- Trading.TradingEngine.Tick: the average true range, the candle cache, the supervisor's answer and the signal are inputs of the tick; on-chain logging, status pushes, the log buffer and the live order's network part are not part of this model.
- TradePipeline.TableConverges: the agent's id does not change; POSTs of one agent arrive in order, any may be lost or repeated; `uuid4` never repeats; one agent per pipeline.
- LruCache.ReturnedHandleMatchesSource: sha256 and the loader are uninterpreted; of the loader only that it records the hash of its source is used.
- The other signal algorithms (RSI, stochastic, Donchian, supertrend and the like) would only add easy members.
- The agent service and its cap, the AST sandbox, auth, marketplace, on-chain clients, HTTP, Docker and the web client.
