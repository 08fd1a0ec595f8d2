# A verified model of the backtester core

This project models, in Dafny, the parts of the trading system whose
correctness depends on state kept across calls, and proves what they promise
over all inputs and all runs.

- **Matching engine** (`Orders`, `SlotQueues`, `PrintMatching`, `CancelSpread`,
  `BookWalk`, `FillAccounts`, `LatencyLegs`, `EngineModel`, `EngineInvariants`,
  `EngineSteps`, `EngineRuns`, `EngineSchedule`, `EnginePriority`, `EngineSeeding`,
  `EnginePrints`, `EngineArrivals`, `EngineSnapshots`, `CancelForms`, `EngineBooks`,
  `EngineDelays`, `EngineTurns`, `EngineMakers`, `EngineQuiet`, `MatchingEngine`):
  synthetic L3 slot queues per price level, reconciled against L2 snapshots,
  consumed by trade prints, joined by resting orders; crossing orders that walk
  the book; and a scheduler with a submit leg and a report leg. `EngineModel`
  gives each call as a function on the state; the class in `MatchingEngine` has
  the source's fields and loops and is proved against those functions; the other
  modules prove what every step and every run does, told from the inputs.
- **In-process order gateway** (`GatewayModel`, `GatewayRuns`,
  `GatewayPromises`, `GatewayReports`, `GatewayTerms`, `GatewayAnswers`,
  `OrderGateway`): the live-order map and the execution
  report stream in front of an engine without latency.
- **Profit and loss** (`AverageCost`, `MapSums`, `ResultsModel`, `ResultsRuns`,
  `ResultsTrips`, `ResultsExamples`, `ResultsCollector`): two average-cost implementations, tied
  to cash and to each other; equity, round trips, markouts, drawdown.
- **All three together** (`BacktestRuns`): what the collector's numbers say about
  the fills the engine made. `ExampleRuns` has the runs, from the initial state,
  in which a promise fails.
- **Canon files** (`CanonFormat`, `CanonLayout`, `CanonFiles`, `CanonMerge`): byte format,
  buffered writer, reader, k-way merge.
- **Smaller cores**: `KsDistance`, `RealizedVol`, `OrderFlowImbalance`,
  `TradeFlow`, and the WebSocket snapshot/replay protocol (`WsProtocol`,
  `WsServer`). `Reals` holds facts about products and quotients.

How values are modelled: quantities, money and features are exact reals, with
the source's tolerances as named constants. Engine prices are integers in units
of 1e-8, the gateway's own scale, which is coarser than the engine's 1e-9
tolerances, so its tolerant price comparisons are exact here. Order ids are
numbers (the gateway prints and parses them as such). Latency is any function
from the number of the draw to a delay, which covers any dependence on venue
and leg. `log`, `exp` and `sqrt` are function parameters; the exponential is
required to multiply over sums. Ghost fields and the `log`, `pushed`, `served`,
`dropped` and `enqueued` parts of states are history that no operation reads.

What the engine asks of its callers, as its own comments and callers have it:
a submitted order has more than dust to fill and an id that is not live, and
event times do not go back. Everything else - empty books, unknown levels,
zero-size quotes, cancels of unknown orders, prints at unknown prices - is
handled as the code handles it. The gateway asks that order ids are not reused,
and that a modify asks for more than is filled; `ModifyKeepsIff` says exactly
what happens otherwise.

Where the code and its comments differ, the model follows the code, and a lemma
says exactly when the comment holds:

- `bpt-backtester/include/backtester/matching/open_order.h:76-80` says an order
  is seeded only if its price was visible in the top five levels;
  `bpt-backtester/src/matching/matching_engine_fills.cpp:63-80` seeds every
  order that finds a book (`InvisiblePriceIsSeeded`). An order that rests is
  seeded if and only if its book was known when it was matched
  (`SeededIffBookKnown`).
- `bpt-backtester/src/matching/matching_engine.cpp:128-130` says an order without
  latency drains on the next market event; lines 145-146 drain it before the
  submit returns (`QuietSubmit`).
- `bpt-backtester/include/backtester/matching/open_order.h:105` says a report
  carries the type of its order; a post-only order is reported as LIMIT
  (`bpt-backtester/src/matching/matching_engine_fills.cpp:275`). Reports carry
  their order's type if and only if it is not post-only (`ReportedKinds`,
  `PostOnlyReportedAsLimit`).
- `bpt-backtester/include/backtester/matching/open_order.h:116-120` says a maker
  fill is at the resting limit; the backstop
  (`bpt-backtester/src/matching/matching_engine_fills.cpp:227-231`) reports a
  maker at the touch. A maker report is at its order's limit if and only if a
  print made it or the touch was at that limit (`MakerAtLimitIff`,
  `MakerBelowLimit`).
- `bpt-backtester/src/matching/matching_engine_fills.cpp:37-38` says the backstop
  picks up every order that was queued before its book; it does if and only if
  the order is a limit order and the touch reaches its limit (`PickedUpIff`); a
  post-only order waits until it is cancelled (`UnseededFate`,
  `PostOnlyNotPickedUp`).
- `bpt-backtester/include/backtester/results/results_collector.h:94-97` says the
  collector is called on every market event; the harness
  (`bpt-backtester/src/harness/strategy_harness.cpp:204-208`) passes it fills
  only. Then nothing is marked to market and no markout is taken
  (`WithoutSnapshots`).
- The gateway computes the remaining quantity of a fill report from the fill's
  own quantity
  (`bpt-backtester/src/harness/inprocess_order_gateway_client.cpp:373-383` and
  421), so it is always 0 (`PublishAllFills`). It is right if and only if the
  count has reached the order's quantity (`RemainingRightIff`,
  `PartialFillSaysNothingRemains`).
- `scripts/validate_lib/metrics.py:37-40` says a distance of 1 means disjoint
  supports; it means that one sample lies wholly below the other (`OneIff`,
  `InterleavedIsNotOne`).

Three results are conditions rather than plain promises. The collector drops a
flip residual of at most 1e-12 (`DustIsDropped`): its books and the bridge's
tracker agree, and its books hold what was bought less what was sold, if and
only if that never happens (`NetFollows`, `TrackersAgree`); with dust,
`BooksFollowCash`, `DeviationMeans` and `TripsOfRun` say by how much they
differ (`EquityDeviates`, `ProfitForgotten`). A modify to a quantity that is
already filled strands the order (`ModifyKeepsIff`, `ModifyStrandsAtOnce`).
Every fill is rounded to wire units by itself, so the reports of an order can
come to more than the order (`HalvesReportedWhole`); `FilledTotalOfRun` bounds by
how much, and promises equality where every fill is a whole number of units.

## Model

| member | source | states |
|---|---|---|
| `PrintMatching.PrintClosedForm` | bpt-backtester/src/matching/matching_engine_fills.cpp:253-292 | what a print leaves at a level: slot i loses exactly the part of it that lies past the quantity queued ahead and within the print, at most one slot's dust is dropped, the rest of the queue is untouched |
| `PrintMatching.PrintConserves` | bpt-backtester/src/matching/matching_engine_fills.cpp:257-292 | a print takes min(print, level total) from the level, apart from the dust of at most one slot |
| `PrintMatching.PrintReports` | bpt-backtester/src/matching/matching_engine_fills.cpp:264-288 | the reports of a print are exactly the own slots it reaches, in queue order, each with what it took: no own slot is eaten in silence, no report is made up |
| `PrintMatching.PrintKeepsClaims` | bpt-backtester/src/matching/matching_engine_fills.cpp:257-303 | a print keeps own slots and resting orders of the level in step and touches no other order; the clean-up drops exactly the seeded orders with nothing left and keeps them in step |
| `PrintMatching.PrintAccounts` | bpt-backtester/src/matching/matching_engine_fills.cpp:264-303 | a print keeps the fill accounts of the level's orders and touches no other account |
| `PrintMatching.PrintReportsAtLevel` | bpt-backtester/src/matching/matching_engine_fills.cpp:245-287 | every report of a print is for the level's own side and price |
| `CancelSpread.SpreadBounds` | bpt-backtester/src/matching/matching_engine_book.cpp:40-102 | attribution leaves own slots alone, keeps every slot non-negative, removes at most the cancels asked for, and leaves at most half of the first pass's residual, or dust |
| `CancelSpread.NeverCapped` | bpt-backtester/src/matching/matching_engine_book.cpp:84-101 | the second pass never hits its per-slot cap: without the cap the outcome is the same |
| `CancelSpread.ProportionalTrims` | bpt-backtester/src/matching/matching_engine_book.cpp:84-101 | the second pass only shrinks venue slots, by exactly what it places |
| `CancelSpread.SecondPassHalves` | bpt-backtester/src/matching/matching_engine_book.cpp:84-101 | at most half of a residual survives the second pass |
| `CancelSpread.SurviveBound` | bpt-backtester/src/matching/matching_engine_book.cpp:90-100 | the surviving part of a residual, the product of (1 - x_i), is at most 1 / (1 + sum of x_i) |
| `CancelSpread.SecondPassExactIff` | bpt-backtester/src/matching/matching_engine_book.cpp:84-101 | the second pass places a whole residual if and only if one venue slot holds all the venue volume that is left |
| `CancelSpread.SpreadExactOneVenueSlot` | bpt-backtester/src/matching/matching_engine_book.cpp:59-102 | with one venue slot the whole amount is cancelled, up to the skip threshold |
| `CancelSpread.SpreadExactNoOwn` | bpt-backtester/src/matching/matching_engine_book.cpp:59-77 | without own slots, and with at most half of the queue cancelled, the first pass alone is exact and every slot loses its end-weighted share |
| `CancelSpread.DistributeKeeps` | bpt-backtester/src/matching/matching_engine_book.cpp:104-109 | own slots come out as they went in and in order, and no empty slot is left behind |
| `CancelSpread.DropDustLoses` | bpt-backtester/src/matching/matching_engine_book.cpp:107-108 | erasing dust costs at most the tolerance per slot |
| `CancelForms.FirstPassForm` | bpt-backtester/src/matching/matching_engine_book.cpp:51-77 | the first pass takes of every venue slot min(its size, its end-weighted share), the share written out: cancels x (end squared - front squared) / total squared; no slot is cut short by the running remainder |
| `CancelForms.SecondPassForm` | bpt-backtester/src/matching/matching_engine_book.cpp:84-101 | the second pass takes of every venue slot, front to back, what is still to be cancelled times the slot's part of the venue volume |
| `CancelForms.DistributeForm` | bpt-backtester/src/matching/matching_engine_book.cpp:40-109 | the whole attribution, slot by slot: first pass, second pass on a residual above dust, dust dropped |
| `EngineSteps.ReconciledVenue` | bpt-backtester/src/matching/matching_engine_book.cpp:116-139 | where reconciling leaves the venue volume of a level: at the displayed size after growth, unchanged within the tolerance, and after shrinkage above the displayed size by at most dust or half of the shrinkage, and below it by dropped dust only |
| `EngineSnapshots.SnapshotStands` | bpt-backtester/src/matching/matching_engine_book.cpp:111-147 | a snapshot, in any reachable state: every queue is brought in line with what its own side displays at its price, and every other queue of any book is as it was |
| `EngineSnapshots.SnapshotStandsOnce` | bpt-backtester/src/matching/matching_engine_book.cpp:116-139 | a level displayed once: growth joins at the back, shrinkage is attributed as cancels slot by slot, own slots stay, and the venue volume ends up as bounded |
| `EngineSnapshots.SnapshotPicks` | bpt-backtester/src/matching/matching_engine_fills.cpp:176-239 | a snapshot fills exactly the waiting limit orders of its own book that its touch has reached, asks for buyers and bids for sellers, in order, whole and at the touch, and leaves all others |
| `BookWalk.WalkFills` | bpt-backtester/src/matching/matching_engine_fills.cpp:116-168 | a crossing order fills the smaller of what it needs and what the book shows within its limit, up to dust, and exactly the latter if more than dust is left; nothing else about it changes |
| `BookWalk.WalkSteps` | bpt-backtester/src/matching/matching_engine_fills.cpp:144-166 | every report of the walk is a correct next fill of the order, at a price within its limit |
| `BookWalk.WalkShape` | bpt-backtester/src/matching/matching_engine_fills.cpp:123-167 | one report per level, best level first, every level but the last taken whole |
| `BookWalk.BackstopAccounts` | bpt-backtester/src/matching/matching_engine_fills.cpp:184-238 | the backstop closes the accounts of exactly the orders it removes and keeps the others |
| `BookWalk.BackstopClaims` | bpt-backtester/src/matching/matching_engine_fills.cpp:198-199 | no own slot loses its order to the backstop |
| `FillAccounts.ChainTotals` | bpt-backtester/include/backtester/matching/open_order.h:121-127 | a chain of correct fills: last quantities add up to the growth of the filled quantity, cumulative quantities climb strictly and stay within the order, only the last report closes it |
| `EngineSteps.MatchKeeps` | bpt-backtester/src/matching/matching_engine_fills.cpp:20-91 | matching an order keeps the engine invariant: slots and orders in step, accounts in order, no order lost |
| `EngineSteps.TakeSnapshotKeeps` | bpt-backtester/src/matching/matching_engine.cpp:62-74 | a snapshot keeps the engine invariant |
| `EngineSteps.TakePrintKeeps` | bpt-backtester/src/matching/matching_engine.cpp:75-79 | a print keeps the engine invariant |
| `EngineSteps.AcceptKeeps` | bpt-backtester/src/matching/matching_engine.cpp:135-138 | taking a fresh order into flight keeps the engine invariant |
| `EngineSteps.CancelKeeps` | bpt-backtester/src/matching/matching_engine.cpp:156-192 | cancelling, resting or in flight, keeps the engine invariant |
| `EngineSteps.DrainSubmitsKeeps` | bpt-backtester/src/matching/matching_engine.cpp:196-223 | matching everything that is due keeps the engine invariant |
| `EngineRuns.RunKeeps` | bpt-backtester/src/matching/matching_engine.cpp:46-192 | every state reached by any valid run of snapshots, prints, submits and cancels, under any latency draws, satisfies the invariant |
| `EngineRuns.OrderHasSlot` | bpt-backtester/src/matching/matching_engine_fills.cpp:63-81 | in every reachable state a seeded resting order has exactly one slot at its own level, holding exactly what it has left |
| `EngineRuns.SlotHasOrder` | bpt-backtester/src/matching/matching_engine_fills.cpp:264-267 | in every reachable state an own slot belongs to exactly one resting order, at that level, with exactly the slot's quantity, more than dust, left |
| `EngineRuns.SlotsAreDistinct` | bpt-backtester/src/matching/matching_engine_fills.cpp:79-81 | no two own slots of a level belong to the same order |
| `EngineRuns.LifetimeAccounts` | bpt-backtester/include/backtester/matching/open_order.h:91-127 | over all fill paths of a run the reported quantities of one submission add up to the growth of its filled quantity and stay within it; only the last report is closing, and then the engine holds no order under that id |
| `EngineRuns.RestingFilled` | bpt-backtester/src/matching/matching_engine_fills.cpp:269-282 | what a resting order has filled is what its reports since acceptance add up to |
| `EngineRuns.HeldWhileOpen` | bpt-backtester/src/matching/matching_engine.cpp:156-223 | an order that can rest is held by the engine, resting or in flight, exactly while its account is open: none is lost |
| `EngineRuns.ReportedKinds` | bpt-backtester/include/backtester/matching/open_order.h:105-106 | in every reachable state the reports of an order carry its own kind if and only if it is not post-only |
| `ExampleRuns.PostOnlyReportedAsLimit` | bpt-backtester/src/matching/matching_engine_fills.cpp:269-275 | a run in which a post-only order is filled by a print, and reported as a limit order |
| `EngineRuns.ReportedRoles` | bpt-backtester/include/backtester/matching/open_order.h:109-114 | in every reachable state the taker reports of an order come before its maker reports; a post-only order has no taker report, a market order no maker report; all carry the order's limit |
| `EngineMakers.MakersOfRun` | bpt-backtester/src/matching/matching_engine_fills.cpp:207-282 | over any run, every maker report was made by a print or by a snapshot |
| `EngineMakers.MakerAtLimitIff` | bpt-backtester/include/backtester/matching/open_order.h:116-120 | in every run a maker report carries its order's limit as its price if and only if a print made it, or a snapshot whose touch was at that limit |
| `EngineMakers.SnapshotAtTouch` | bpt-backtester/src/matching/matching_engine_fills.cpp:203-231 | what a snapshot fills is reported as a maker at the touch, which is at the order's limit or better |
| `ExampleRuns.MakerBelowLimit` | bpt-backtester/src/matching/matching_engine_fills.cpp:203-231 | a run in which a resting bid is reported as a maker below its limit |
| `EngineRuns.PrintFillsItsLevel` | bpt-backtester/src/matching/matching_engine_fills.cpp:242-284 | a print fills only orders of the opposite side, at exactly the print's price, as makers at their own limit |
| `EnginePrints.PrintStep` | bpt-backtester/src/matching/matching_engine_fills.cpp:242-303 | a print of either aggressor, in any reachable state: a buyer's eats the asks at its price, a seller's the bids; every slot there loses max(0, min(its size, print - ahead)) up to one slot's dust; the reports are exactly the own slots reached with what each lost; no other level or book changes |
| `EnginePrints.PrintReaches` | bpt-backtester/src/matching/matching_engine_fills.cpp:253-288 | a resting order is reported by a print at its price if and only if the print is larger than what is queued ahead of it, and then with what reaches it; what is due before the print adds nothing ahead |
| `EngineArrivals.MatchTakes` | bpt-backtester/src/matching/matching_engine_fills.cpp:35-59 | an order takes from the asks if it buys and from the bids if it sells: report i at the price of level i, levels before the last whole, in all the smaller of what it has left and what the leading levels show within its limit, up to dust; a post-only order takes nothing |
| `EngineArrivals.MatchTakesNothing` | bpt-backtester/src/matching/matching_engine_fills.cpp:20-41 | an order whose book has not been seen takes nothing |
| `EngineArrivals.MatchRests` | bpt-backtester/src/matching/matching_engine_fills.cpp:58-91 | what is left joins the back of the queue at its own side and price, behind the slots there and, if none is venue volume, behind the displayed size; a market order's rest is gone; no other queue or book changes |
| `EngineBooks.StepBooks` | bpt-backtester/src/matching/matching_engine.cpp:73-73 | a snapshot replaces its own book and nothing else touches the books |
| `EngineBooks.BooksOfRun` | bpt-backtester/src/matching/matching_engine.cpp:73-73 | over every run the engine knows of each instrument exactly its last snapshot, read off the inputs alone, and of no other instrument anything |
| `EngineBooks.ClockOfRun` | bpt-backtester/src/matching/matching_engine.cpp:46-80 | over every run the clock is the time of the last snapshot or print, read off the inputs alone |
| `EngineBooks.AcceptedIff` | bpt-backtester/src/matching/matching_engine.cpp:91-151 | over every run an order is turned away if and only if it is post-only and meets the last snapshot of its instrument, sides written out, and then nothing changes; any other is accepted, stamped with the clock |
| `EngineBooks.DueTakes` | bpt-backtester/src/matching/matching_engine.cpp:196-223 | over every run each order that comes due takes from the last snapshot of its instrument |
| `EngineBooks.DrainFilled` | bpt-backtester/src/matching/matching_engine.cpp:196-223 | what a drain fills is what its due orders take, one after the other |
| `EngineBooks.SubmitTakes` | bpt-backtester/src/matching/matching_engine.cpp:91-151 | without latency what a submit hands out is what the order takes from the last snapshot of its instrument |
| `EngineDelays.DelaysOfRun` | bpt-backtester/src/matching/matching_engine.cpp:135-138 | over every run each order is due at its acceptance plus a delay of its own, and each report at its fill plus a delay of its own; every delay drawn belongs to one of them |
| `EngineDelays.SubmitDue` | bpt-backtester/src/matching/matching_engine.cpp:135-138 | the delay of an accepted order is the next one drawn |
| `EngineDelays.CancelTakesOut` | bpt-backtester/src/matching/matching_engine.cpp:156-192 | a cancel takes out the order resting in that book under that id, with exactly its one slot, or else the one on its way there; if there is neither it changes nothing and says so |
| `LatencyLegs.SortInOrder` | bpt-backtester/src/matching/matching_engine.cpp:202-205 | sorting by due time keeps entries with equal times in the order they were pushed |
| `LatencyLegs.ServeKeeps` | bpt-backtester/src/matching/matching_engine.cpp:196-238 | serving what is due keeps the whole service record in due order, loses and duplicates nothing, and leaves only later entries waiting |
| `EngineSchedule.RunPunctual` | bpt-backtester/src/matching/matching_engine.cpp:46-238 | the scheduler invariant holds over every valid run with non-decreasing event times, and between calls nothing waits that is due |
| `EngineSchedule.DeliveriesOfRun` | bpt-backtester/src/matching/matching_engine.cpp:225-238 | every report of a fill is delivered or on its way exactly once; the deliveries of the whole run are in order of scheduled time, ties in order of the fills; and after every call the delivered ones are exactly those that are due, each served between its scheduled time and now: none early, none kept back |
| `EngineSchedule.MatchesOfRun` | bpt-backtester/src/matching/matching_engine.cpp:196-223 | every accepted order is matched, on its way or cancelled in flight exactly once; matches are in order of scheduled time, ties in submission order; and after every call nothing is matched that was not due and nothing due is left on its way |
| `EngineSchedule.MatchClock` | bpt-backtester/src/matching/matching_engine.cpp:212-217 | the clock at each match is the later of the engine's clock and the order's scheduled time |
| `EngineSchedule.OnlyCancelDrops` | bpt-backtester/src/matching/matching_engine.cpp:182-189 | only a cancel takes an order out of flight |
| `EnginePriority.StepAdvances` | bpt-backtester/src/matching/matching_engine_book.cpp:40-147 | one step of any kind only shrinks or removes slots and appends newcomers at the back |
| `EnginePriority.PriorityNeverLost` | bpt-backtester/src/matching/matching_engine_fills.cpp:68-79 | from resting until fill or cancel, the quantity ahead of an own slot never grows, under any mix of steps |
| `EnginePriority.NoOvertaking` | bpt-backtester/src/matching/matching_engine_fills.cpp:257-292 | two own slots of one level never swap |
| `EngineTurns.TradeInTurn` | bpt-backtester/src/matching/matching_engine_fills.cpp:257-292 | in any reachable state, a print reports the order behind only after a closing report for the order in front |
| `EngineTurns.LeavesWhenDone` | bpt-backtester/src/matching/matching_engine_fills.cpp:257-303 | a slot goes only when its order is filled to within dust or cancelled, whatever the step |
| `EngineTurns.FilledInTurn` | bpt-backtester/src/matching/matching_engine_fills.cpp:257-292 | time priority over any run: an order queued behind another at the same level is filled by a print only after the one in front is filled or cancelled, or is closed first by that same print |
| `EngineSeeding.MatchSeedsIff` | bpt-backtester/src/matching/matching_engine_fills.cpp:35-81 | an order that rests after its match is seeded if and only if its book was known |
| `EngineSeeding.InvisiblePriceIsSeeded` | bpt-backtester/include/backtester/matching/open_order.h:76-80 | an order at a price the book does not show is seeded all the same |
| `EngineSeeding.StepSeeds` | bpt-backtester/src/matching/matching_engine_fills.cpp:35-81 | one step of any kind: orders that rested keep or lack their slot as before, newcomers are seeded if and only if their book was known |
| `EngineSeeding.SeededIffBookKnown` | bpt-backtester/src/matching/matching_engine_fills.cpp:35-81 | in every run, an order that rests has a slot if and only if its book was known when it came to rest |
| `EngineSeeding.UnseededStep` | bpt-backtester/src/matching/matching_engine_fills.cpp:184-238 | one step leaves an order without a slot exactly as it is, or ends it: by a cancel, or, for a limit order, by one fill of everything it has left |
| `EngineSeeding.PickedUpIff` | bpt-backtester/src/matching/matching_engine_fills.cpp:184-238 | a snapshot picks up an order without a slot if and only if it is of the order's book, the order is a limit order and the touch is at its limit or better |
| `EngineSeeding.UnseededFate` | bpt-backtester/src/matching/matching_engine_fills.cpp:184-238 | over any run an order without a slot is never touched until it ends in one of these two ways; a post-only order only by a cancel |
| `ExampleRuns.PostOnlyNotPickedUp` | bpt-backtester/src/matching/matching_engine_fills.cpp:36-40 | a run in which a book arrives that crosses a waiting post-only order, and leaves it |
| `EngineQuiet.QuietSnapshot` | bpt-backtester/src/matching/matching_engine.cpp:46-89 | without latency a snapshot leaves nothing waiting and hands out exactly what it filled |
| `EngineQuiet.QuietTrade` | bpt-backtester/src/matching/matching_engine.cpp:46-89 | the same for a print |
| `EngineQuiet.QuietSubmit` | bpt-backtester/src/matching/matching_engine.cpp:140-151 | without latency a submit is matched at once, its fills are handed out before it returns, and a refused one leaves no trace |
| `EngineQuiet.QuietCancel` | bpt-backtester/src/matching/matching_engine.cpp:156-192 | without latency a cancel succeeds exactly if the order rests in its book |
| `MatchingEngine.VenueQuantity` | bpt-backtester/src/matching/matching_engine_book.cpp:124-127 | the venue part of a slot queue |
| `MatchingEngine.CancelByDepth` | bpt-backtester/src/matching/matching_engine_book.cpp:57-77 | the first pass of the attribution, loop against specification |
| `MatchingEngine.CancelByRemainder` | bpt-backtester/src/matching/matching_engine_book.cpp:84-101 | the second pass, loop against specification |
| `MatchingEngine.DistributeCancels` | bpt-backtester/src/matching/matching_engine_book.cpp:40-109 | the whole attribution, against the specification that the bounds above are proved of |
| `MatchingEngine.BookQtyAtPrice` | bpt-backtester/src/matching/matching_engine_book.cpp:149-167 | displayed size at a price, 0 if the price is not displayed |
| `MatchingEngine.FillBookUntil` | bpt-backtester/src/matching/matching_engine_fills.cpp:116-168 | the level walk, against the specification that WalkFills, WalkSteps and WalkShape are proved of |
| `MatchingEngine.CreditOrder` | bpt-backtester/src/matching/matching_engine_fills.cpp:265-287 | credits the first order with the id and reports it |
| `MatchingEngine.FillUnseeded` | bpt-backtester/src/matching/matching_engine_fills.cpp:184-238 | the backstop's partition of a book's orders |
| `MatchingEngine.EatQueue` | bpt-backtester/src/matching/matching_engine_fills.cpp:257-292 | the slot loop of a print, against the specification of the closed form |
| `MatchingEngine.Engine.OnOrderBook` | bpt-backtester/src/matching/matching_engine.cpp:46-89 | a snapshot updates the fields as the state function says and hands out the reports that are due |
| `MatchingEngine.Engine.OnPrint` | bpt-backtester/src/matching/matching_engine.cpp:46-89 | the same for a print |
| `MatchingEngine.Engine.SubmitOrder` | bpt-backtester/src/matching/matching_engine.cpp:93-154 | accepts or refuses, stamps, schedules, drains; returns the order as stamped |
| `MatchingEngine.Engine.CancelOrder` | bpt-backtester/src/matching/matching_engine.cpp:156-192 | removes a resting order and its slot, or an order in flight; says whether there was one |
| `MatchingEngine.Engine.DrainPendingSubmits` | bpt-backtester/src/matching/matching_engine.cpp:196-223 | the drain loop, in due order, advancing the clock |
| `MatchingEngine.Engine.ProcessPendingSubmit` | bpt-backtester/src/matching/matching_engine_fills.cpp:20-91 | matching one order: market, unknown book, crossing, resting |
| `MatchingEngine.Engine.RestWithSlot` | bpt-backtester/src/matching/matching_engine_fills.cpp:58-81 | seeds the level if needed and appends the order's slot at the back |
| `MatchingEngine.Engine.ScheduleFills` | bpt-backtester/src/matching/matching_engine_fills.cpp:93-101 | puts reports on the way back, each with its own delay |
| `MatchingEngine.Engine.DrainPendingFills` | bpt-backtester/src/matching/matching_engine.cpp:225-238 | hands out what is due, in due order |
| `MatchingEngine.Engine.ReconcileOne` | bpt-backtester/src/matching/matching_engine_book.cpp:116-139 | one displayed level |
| `MatchingEngine.Engine.ReconcileL2Snapshot` | bpt-backtester/src/matching/matching_engine_book.cpp:111-147 | all displayed levels, both sides |
| `MatchingEngine.Engine.FillCrossingLimits` | bpt-backtester/src/matching/matching_engine_fills.cpp:170-239 | the backstop on the book's orders |
| `MatchingEngine.Engine.FillAgainstTrade` | bpt-backtester/src/matching/matching_engine_fills.cpp:241-304 | a print against its level and its orders |
| `GatewayRuns.PublishKeeps` | bpt-backtester/src/harness/inprocess_order_gateway_client.cpp:339-388 | a fill of the engine always finds its order live, and publishing it keeps map, reports and accounts coupled |
| `GatewayRuns.NewKeeps` | bpt-backtester/src/harness/inprocess_order_gateway_client.cpp:86-192 | a new order, malformed, refused or accepted, keeps the coupling; a refusal leaves only the counter changed and emits nothing |
| `GatewayRuns.LiveIsFound` | bpt-backtester/src/harness/inprocess_order_gateway_client.cpp:199-204 | the engine finds a live order to cancel if and only if it is not what is left of a market order |
| `GatewayRuns.SendCancelKeeps` | bpt-backtester/src/harness/inprocess_order_gateway_client.cpp:194-224 | a cancel keeps the coupling |
| `GatewayRuns.ModifyKeeps` | bpt-backtester/src/harness/inprocess_order_gateway_client.cpp:241-297 | a modify to more than is filled keeps the coupling |
| `GatewayRuns.RefusedModifyKeeps` | bpt-backtester/src/harness/inprocess_order_gateway_client.cpp:283-296 | a modify that the engine refuses ends the order and keeps the coupling, whatever it asked for |
| `GatewayRuns.GateRunKeeps` | bpt-backtester/src/harness/inprocess_order_gateway_client.cpp:86-388 | the coupling holds after every call of every run |
| `GatewayPromises.LiveIsResting` | bpt-backtester/src/harness/inprocess_order_gateway_client.cpp:86-297 | the ids resting in the engine are exactly the live ids, but for unfilled rests of market orders, and each rests on the terms the gateway remembers, with the filled quantity within half a wire unit per fill that is not a whole number of them |
| `GatewayPromises.LifecycleOfRun` | bpt-backtester/src/harness/inprocess_order_gateway_client.cpp:339-431 | in every run nothing follows a complete fill or a cancel of an order; it is live exactly while reported on and not ended; reported fills add up to the counted quantity |
| `GatewayPromises.FillsAllBooked` | bpt-backtester/src/harness/inprocess_order_gateway_client.cpp:347-364 | every fill of the engine reaches the results collector once, in order: the unknown-order branch is never taken |
| `GatewayPromises.FilledTotalOfRun` | bpt-backtester/src/harness/inprocess_order_gateway_client.cpp:366-371 | over any run the reports of a completely filled order add up to the quantity it was last submitted for, to half a wire unit per fill that was not a whole number of them, and exactly if all were |
| `ExampleRuns.HalvesReportedWhole` | bpt-backtester/src/harness/inprocess_order_gateway_client.cpp:366-371 | a run in which one wire unit filled in two halves is reported as two units |
| `GatewayPromises.AckedOnceOverRun` | bpt-backtester/src/harness/inprocess_order_gateway_client.cpp:172-190 | no order is acknowledged twice |
| `GatewayPromises.PublishAllFills` | bpt-backtester/src/harness/inprocess_order_gateway_client.cpp:373-383 | what a batch of fills adds to the report stream is fills only, each announcing a remaining quantity of 0 even when the order is not finished |
| `GatewayPromises.RemainingRightIff` | bpt-backtester/src/harness/inprocess_order_gateway_client.cpp:373-383 | a fill report's remaining quantity is what the order has left if and only if the count has reached its quantity |
| `ExampleRuns.PartialFillSaysNothingRemains` | bpt-backtester/src/harness/inprocess_order_gateway_client.cpp:373-383 | a run in which half of an order is filled, and the report says that nothing remains |
| `GatewayPromises.CancelEnds` | bpt-backtester/src/harness/inprocess_order_gateway_client.cpp:194-224 | a cancel ends a live order unless it is the rest of a market order |
| `GatewayPromises.CancelAllEnds` | bpt-backtester/src/harness/inprocess_order_gateway_client.cpp:226-239 | cancel-all, in any order of its targets, ends exactly the instrument's live orders that are not rests of market orders and leaves the others as they were |
| `GatewayPromises.ModifyStrands` | bpt-backtester/src/harness/inprocess_order_gateway_client.cpp:259-278 | a modify to a quantity already filled leaves the order live in the gateway with nothing open in the engine |
| `GatewayPromises.ModifyStrandsAtOnce` | bpt-backtester/src/harness/inprocess_order_gateway_client.cpp:241-278 | the first order of a run, modified to a quantity of 0: an example of a modify that strands its order |
| `GatewayPromises.ModifyKeepsIff` | bpt-backtester/src/harness/inprocess_order_gateway_client.cpp:241-297 | a modify keeps gateway and engine coupled if and only if it asks for more than is filled or is refused |
| `GatewayReports.FillsReported` | bpt-backtester/src/harness/inprocess_order_gateway_client.cpp:339-388 | over every run the fill reports are in step with the engine's fills, one for one and in order: same order and side, the fill's price, its quantity to the nearest wire unit, complete iff the fill was |
| `GatewayTerms.TermsOfRun` | bpt-backtester/src/harness/inprocess_order_gateway_client.cpp:86-297 | over every run a live order is the one last sent under its id, on the terms last asked for, which are those the engine last accepted: exchange, symbol, side, kind, price, quantity; every report names the venue and instrument its order was sent with, a cancel those its caller gave |
| `GatewayAnswers.BooksOfCalls` | bpt-backtester/src/harness/inprocess_order_gateway_client.cpp:86-297 | over every run the engine behind the gateway knows of each instrument exactly its last snapshot |
| `GatewayAnswers.TakenIff` | bpt-backtester/src/harness/inprocess_order_gateway_client.cpp:99-168 | a new order is taken if and only if it has a quantity and a symbol, a price if it is a limit order, and is not a post-only order that meets the last snapshot of its instrument; if not, nothing is reported, and a well-formed one is counted |
| `GatewayAnswers.NewAnswered` | bpt-backtester/src/harness/inprocess_order_gateway_client.cpp:170-191 | a new order is told its fills and then, if still live and not all reported as filled, one acknowledgement that repeats it and says what remains |
| `GatewayAnswers.CancelAnswered` | bpt-backtester/src/harness/inprocess_order_gateway_client.cpp:194-218 | a cancel that ends an order is answered by one report with its side and kind, the price last asked for and the quantity last asked for less what was reported as filled; any other cancel by nothing |
| `GatewayAnswers.ModifyAnswered` | bpt-backtester/src/harness/inprocess_order_gateway_client.cpp:241-297 | a modify is answered by its fills alone, or, if the order is post-only and meets the last snapshot at its new price, by one report that ends it |
| `OrderGateway.Gateway.PublishFill` | bpt-backtester/src/harness/inprocess_order_gateway_client.cpp:339-388 | books a fill, reports it, ends the order when it is complete |
| `OrderGateway.Gateway.PublishFills` | bpt-backtester/src/harness/inprocess_order_gateway_client.cpp:82-84 | the fill callback over everything one engine call hands out |
| `OrderGateway.Gateway.SendNewOrder` | bpt-backtester/src/harness/inprocess_order_gateway_client.cpp:86-192 | validation, submission, refusal and acknowledgement, as the state function says |
| `OrderGateway.Gateway.AcknowledgeOrder` | bpt-backtester/src/harness/inprocess_order_gateway_client.cpp:172-190 | acknowledges an accepted order that still has something to fill |
| `OrderGateway.Gateway.CancelOrder` | bpt-backtester/src/harness/inprocess_order_gateway_client.cpp:194-224 | cancel of one order |
| `OrderGateway.Gateway.CancelAll` | bpt-backtester/src/harness/inprocess_order_gateway_client.cpp:226-239 | cancels the instrument's live orders in some order, which it returns |
| `OrderGateway.Gateway.Modify` | bpt-backtester/src/harness/inprocess_order_gateway_client.cpp:241-297 | cancel and resubmission under the same id |
| `OrderGateway.Gateway.OnOrderBook` | bpt-backtester/src/harness/inprocess_order_gateway_client.cpp:82-84 | a snapshot passed to the engine, its fills published |
| `OrderGateway.Gateway.OnPrint` | bpt-backtester/src/harness/inprocess_order_gateway_client.cpp:82-84 | a print passed to the engine, its fills published |
| `AverageCost.FillMovesCash` | bpt-backtester/src/results/results_collector.cpp:67-110 | a fill moves realized profit less cost of holding by exactly the cash it moved, plus the value of any dust dropped |
| `AverageCost.FillCases` | bpt-backtester/src/results/results_collector.cpp:67-110 | what each kind of fill does: adding realizes nothing and adds its cost; taking realizes the quantity's move from the average, which stays; going through flat realizes the whole holding's move and holds the rest at the fill's price, unless it is dust |
| `AverageCost.BooksFollowCash` | bpt-backtester/src/results/results_collector.cpp:67-110 | for any fills: realized profit is cash received plus cost of holding plus dust dropped |
| `AverageCost.NetFollows` | bpt-backtester/src/results/results_collector.cpp:67-110 | the books hold bought less sold all along if and only if no flip leaves a residual of dust size; then no dust value is lost |
| `AverageCost.DustIsDropped` | bpt-backtester/src/results/results_collector.cpp:82-87 | two fills after which the books are flat and the fills are not: an example of dropped dust |
| `AverageCost.ClearNoDust` | bpt-backtester/src/results/results_collector.cpp:86-106 | if the running holding is always flat or more than dust, no dust is dropped |
| `AverageCost.TrackFollowsCash` | bpt-bridge/src/state/position_tracker.cpp:7-38 | the bridge's tracker follows the cash and the quantity for any fills |
| `AverageCost.FillAgrees` | bpt-bridge/src/state/position_tracker.cpp:7-38 | from agreeing books one fill realizes the same profit in both trackers, and they agree again if and only if the collector drops no dust |
| `AverageCost.TrackersAgree` | bpt-bridge/src/state/position_tracker.cpp:7-38 | on any fills the two trackers agree at every step if and only if no dust is dropped, with the same profit fill by fill |
| `AverageCost.PositionTracker.Apply` | bpt-bridge/src/state/position_tracker.cpp:7-38 | the bridge's in-place update, against the specification |
| `MapSums.SumRemove` | bpt-backtester/src/results/results_collector.cpp:112-134 | the sum over a hash map does not depend on the order of its entries |
| `ResultsRuns.PositionsFollow` | bpt-backtester/src/results/results_collector.cpp:138-146 | every position is the average-cost books of its own instrument's fills |
| `ResultsRuns.EquityOfRun` | bpt-backtester/src/results/results_collector.cpp:112-186 | equity of any run: starting capital plus every fill marked to mid less fees, plus each instrument's deviation |
| `ResultsRuns.DeviationMeans` | bpt-backtester/src/results/results_collector.cpp:112-130 | the deviation: an instrument without a mid contributes its realized profit; one with a mid deviates by the dust it dropped and by the skipped paper profit of a dust holding, and not at all if its running holding was never dust |
| `ResultsRuns.EquityWhenClear` | bpt-backtester/src/results/results_collector.cpp:112-186 | equity is path-independent, with no deviation, if no running holding was dust and every traded instrument has a mid |
| `ResultsRuns.FeesOfRun` | bpt-backtester/src/results/results_collector.cpp:156-173 | the fees of any run, venue by venue: taker turnover at the taker rate and maker turnover at the maker rate, in basis points, nothing for a venue without rates |
| `ResultsRuns.CurveOfRun` | bpt-backtester/src/results/results_collector.cpp:189-212 | the equity curve starts with the capital and has one point per fill, each the equity once that fill was booked, as has its row |
| `ResultsRuns.TripsOfRun` | bpt-backtester/src/results/results_collector.cpp:169-184 | closed round trips, open profit and the profit forgotten when a holding is opened on dust come to the total realized profit, for any fills |
| `ResultsRuns.TripsWhenClear` | bpt-backtester/src/results/results_collector.cpp:169-184 | nothing is forgotten if no running holding was dust, and nothing is open where nothing is held |
| `ResultsTrips.TripsOfFills` | bpt-backtester/src/results/results_collector.cpp:169-184 | the collector's round trips are those the fills make: when each holding was opened, when it was closed, what was realized in between; and what is open is what was realized since |
| `ResultsRuns.RowsOfRun` | bpt-backtester/src/results/results_collector.cpp:189-212 | one row per fill in order, each with the fee of its venue and role, and their profits add up to the total, dust or no dust |
| `ResultsRuns.MarkoutsOfRun` | bpt-backtester/src/results/results_collector.cpp:214-266 | the markout of a fill at a horizon is taken once, by the first snapshot of any instrument at or after its target, against its own instrument's mid then, or never |
| `ResultsExamples.ProfitForgotten` | bpt-backtester/src/results/results_collector.cpp:169-184 | a run in which the profit of closing a dust holding is forgotten |
| `ResultsExamples.EquityDeviates` | bpt-backtester/src/results/results_collector.cpp:67-110 | a run in which a flip drops dust and equity is off by the dust's move to the mid |
| `BacktestRuns.ResultsOfRun` | bpt-backtester/src/harness/inprocess_order_gateway_client.cpp:347-371 | from engine to results: a collector fed what the gateway books, with any snapshots between, ends with the equity of the engine's own fills, and holds what they bought less sold as long as that was never dust |
| `BacktestRuns.WithoutSnapshots` | bpt-backtester/src/results/results_collector.cpp:112-134 | fed fills only, as the harness does: equity is capital and realized profit less fees, and no markout is ever taken |
| `ResultsCollector.Collector.BookFill` | bpt-backtester/src/results/results_collector.cpp:67-110 | the in-place average-cost update, against the specification |
| `ResultsCollector.Collector.TotalRealized` | bpt-backtester/src/results/results_collector.cpp:112-117 | the sum over the positions, in any order |
| `ResultsCollector.Collector.TotalUnrealized` | bpt-backtester/src/results/results_collector.cpp:119-130 | paper profit of the positions that have a mid, in any order |
| `ResultsCollector.Collector.CurrentEquity` | bpt-backtester/src/results/results_collector.cpp:132-134 | equity by its definition |
| `ResultsCollector.Collector.Book` | bpt-backtester/src/results/results_collector.cpp:138-184 | position, fee and round trip of one fill |
| `ResultsCollector.Collector.HandleFill` | bpt-backtester/src/results/results_collector.cpp:138-223 | the whole fill handler, with row, curve point and scheduled markouts |
| `ResultsCollector.Collector.HandleTouch` | bpt-backtester/src/results/results_collector.cpp:225-267 | mid update and the in-place compaction of the pending markouts: due ones resolved, the others kept in order |
| `ResultsCollector.Collector.ResolveEntry` | bpt-backtester/src/results/results_collector.cpp:249-264 | one markout, or none without a mid or a positive price |
| `ResultsCollector.Collector.MaxDrawdown` | bpt-backtester/src/results/results_collector.cpp:271-291 | the result bounds the fall between any two points of the cumulative profit, as a share of the capital, and is attained |
| `CanonFormat.DecodeEncode` | bpt-canon/include/canon/canon_format.h:68-90 | little-endian fields read back |
| `CanonFormat.HeaderRoundTrip` | bpt-canon/include/canon/canon_format.h:73-84 | a header is 96 bytes and reads back |
| `CanonFormat.HeaderReRead` | bpt-canon/include/canon/canon_format.h:73-84 | any 96 bytes are the encoding of the header read from them |
| `CanonLayout.HeaderLayout` | bpt-canon/include/canon/canon_format.h:73-84 | the 96 bytes of a header, byte by byte: BPTC, schema 1, family 1, venue, no flags, date, kind, revision, zeros; little-endian |
| `CanonLayout.RecordLayout` | bpt-canon/include/canon/canon_format.h:87-92 | a record, byte by byte: time, event, length, and that many bytes; little-endian |
| `CanonLayout.ReadableIff` | bpt-canon/include/canon/canon_reader.h:77-88 | a reader accepts a file if and only if it has 96 bytes that begin with BPTC, a schema of at most 1 and family 1 |
| `CanonFormat.RoundTrip` | bpt-canon/include/canon/canon_reader.h:60-74 | encoded records read back as exactly those records |
| `CanonFormat.ReadIsPrefix` | bpt-canon/include/canon/canon_reader.h:60-74 | for any bytes, what is read, encoded again, is how they begin |
| `CanonFormat.CompleteIsLongest` | bpt-canon/include/canon/canon_reader.h:58-74 | the number of complete records in the first k bytes is the largest that fits |
| `CanonFormat.Truncated` | bpt-canon/include/canon/canon_reader.h:58-74 | cut at any byte, the records read are the longest prefix of complete ones |
| `CanonFiles.PaddedReadsBack` | bpt-canon/src/canon_writer.cpp:59-67 | what is read back from a header's text field is what of the text fits it, and it is the text if and only if the text fits and does not end in a zero |
| `CanonFiles.Writer.constructor` | bpt-canon/src/canon_writer.cpp:14-18 | a buffer size of 0 means one mebibyte |
| `CanonFiles.Writer.Open` | bpt-canon/src/canon_writer.cpp:24-48 | starts the file with its header; an open file is left alone |
| `CanonFiles.Writer.FlushBuffer` | bpt-canon/src/canon_writer.cpp:81-94 | moves the buffer to the file, file and buffer together unchanged |
| `CanonFiles.Writer.Put` | bpt-canon/src/canon_writer.cpp:144-149 | copies bytes into the buffer |
| `CanonFiles.Writer.Append` | bpt-canon/src/canon_writer.cpp:116-149 | flush, direct write or buffering: file and buffer together grow by the record, whatever the buffer size |
| `CanonFiles.Writer.WriteEvent` | bpt-canon/src/canon_writer.cpp:96-155 | accepts exactly open files and payloads that fit the length field; file and buffer are always header plus accepted events; counters |
| `CanonFiles.Writer.Flush` | bpt-canon/src/canon_writer.cpp:157-162 | afterwards the file is header plus accepted events |
| `CanonFiles.Writer.Close` | bpt-canon/src/canon_writer.cpp:164-171 | afterwards the file is closed and is header plus accepted events |
| `CanonFiles.Reader.constructor` | bpt-canon/include/canon/canon_reader.h:37-88 | accepts exactly files with a whole header of this format and no newer schema |
| `CanonFiles.Reader.Next` | bpt-canon/include/canon/canon_reader.h:60-74 | returns the next complete record, or nothing for good |
| `CanonFiles.FileReadsBack` | bpt-canon/include/canon/canon_reader.h:37-88 | a finished file reads back as exactly the accepted events; cut anywhere past its header, as the longest prefix of whole ones |
| `CanonFiles.CutReadableIff` | bpt-canon/include/canon/canon_reader.h:77-88 | a finished file cut anywhere is readable if and only if its header is whole |
| `CanonMerge.PickIsFirstSmallest` | bpt-canon/src/merge_main.cpp:100-111 | the input picked has the smallest head, and is the first that has |
| `CanonMerge.MergeKeepsInputs` | bpt-canon/src/merge_main.cpp:99-132 | the output is an interleaving: every input is there whole and in order, nothing is lost or invented |
| `CanonMerge.MergeSorts` | bpt-canon/src/merge_main.cpp:99-132 | if every input is sorted the output is, and equal times go to the earlier input |
| `CanonMerge.SortedIff` | bpt-canon/src/merge_main.cpp:116-125 | the output is sorted if and only if every input is |
| `CanonMerge.TakeHead` | bpt-canon/src/merge_main.cpp:126-131 | writes the picked head and replaces it by the next record of its input |
| `CanonMerge.FindPick` | bpt-canon/src/merge_main.cpp:100-111 | the scan over the heads, against the specification |
| `CanonMerge.MergeHeads` | bpt-canon/src/merge_main.cpp:99-135 | the merge loop over readers and writer, from heads to the finished file |
| `CanonMerge.MergeFiles` | bpt-canon/src/merge_main.cpp:52-135 | merges exactly if all inputs are readable and of the first one's venue; the output file is header plus merged records |
| `CanonMerge.MergedFileReads` | bpt-canon/src/merge_main.cpp:52-135 | reading the merged file gives the merge of what the inputs read as |
| `KsDistance.KsOf` | scripts/validate_lib/metrics.py:50-96 | the merge walk returns the largest gap between the empirical distributions: an upper bound, and attained; 0 and 1 for empty samples |
| `KsDistance.InUnitInterval` | scripts/validate_lib/metrics.py:37-40 | the distance lies between 0 and 1 |
| `KsDistance.Symmetric` | scripts/validate_lib/metrics.py:50-96 | the distance is symmetric |
| `KsDistance.Unique` | scripts/validate_lib/metrics.py:37-40 | there is only one distance |
| `KsDistance.ZeroIff` | scripts/validate_lib/metrics.py:37-40 | it is 0 if and only if the empirical distributions coincide |
| `KsDistance.OneIff` | scripts/validate_lib/metrics.py:37-40 | it is 1 if and only if one sample lies wholly below the other |
| `KsDistance.InterleavedIsNotOne` | scripts/validate_lib/metrics.py:37-40 | disjoint supports alone do not give 1: an example |
| `RealizedVol.WindowMoves` | bpt-features/src/realized_vol.cpp:39-51 | how the window of the last samples moves with one more |
| `RealizedVol.CauchySchwarz` | bpt-features/src/realized_vol.cpp:56-62 | the square of a sum is at most n times the sum of squares |
| `RealizedVol.VarianceNonNegative` | bpt-features/src/realized_vol.cpp:60-65 | the variance from the sums is never negative, so the clamp changes nothing |
| `RealizedVol.VarianceIs` | bpt-features/src/realized_vol.cpp:58-63 | the variance from the sums is the mean squared distance from the mean |
| `RealizedVol.ReturnsOfTicks` | bpt-features/src/realized_vol.cpp:20-37 | over any ticks what is sampled is the log of the ratio of each price taken to the one before; taken are the first price and then each that comes an interval after the last one taken |
| `RealizedVol.ElapsedIs` | bpt-features/src/realized_vol.cpp:31-32 | elapsed time is the unsigned difference, around the end of the word if need be |
| `RealizedVol.Estimator.Update` | bpt-features/src/realized_vol.cpp:20-54 | ignores, records or samples a price; the ring and its sums stay those of the last samples, for any timestamps |
| `RealizedVol.Estimator.Push` | bpt-features/src/realized_vol.cpp:39-51 | the ring-buffer step: oldest out, newest in, sums exact |
| `RealizedVol.Estimator.Volatility` | bpt-features/src/realized_vol.cpp:56-66 | the annualized deviation of exactly the window, without a clamp |
| `RealizedVol.Estimator.Reset` | bpt-features/src/realized_vol.cpp:68-76 | back to the initial state |
| `OrderFlowImbalance.BuyPressure` | bpt-features/src/ofi.cpp:12-23 | bids rising or growing with asks rising or shrinking contribute at least 0 |
| `OrderFlowImbalance.LevelEventIs` | bpt-features/src/ofi.cpp:12-38 | a level event is the quantity now, if the price is no worse, less the quantity before, if the price is no better |
| `OrderFlowImbalance.LevelsIs` | bpt-features/src/ofi.cpp:65-72 | a level counts if it is among the first maxLevels and on either side of the book |
| `OrderFlowImbalance.WindowIs` | bpt-features/src/ofi.cpp:88-96 | the window holds the samples at most its length older than the last snapshot |
| `OrderFlowImbalance.OneLevelContributes` | bpt-features/src/ofi.cpp:65-86 | a level that alone moves contributes its event over its depth counted from 1, up for a bid, down for an ask |
| `OrderFlowImbalance.DepthIs` | bpt-features/src/ofi.cpp:65-86 | the depth of a snapshot is the quantity of the first levels of both sides |
| `OrderFlowImbalance.ImbalanceIs` | bpt-features/src/ofi.cpp:104-121 | the value times the window's average depth is what the window contributed, and it is 0 where there is next to no depth |
| `OrderFlowImbalance.WindowMoves` | bpt-features/src/ofi.cpp:88-96 | evicting from the front and appending gives exactly the post-warm-up samples not older than the cutoff |
| `OrderFlowImbalance.Calculator.Update` | bpt-features/src/ofi.cpp:56-115 | the running value equals the one computed from all snapshots, while timestamps do not go back |
| `OrderFlowImbalance.Calculator.Measure` | bpt-features/src/ofi.cpp:65-86 | contribution and depth of one snapshot against the previous one |
| `OrderFlowImbalance.Calculator.EvictOld` | bpt-features/src/ofi.cpp:88-94 | evicts from the front and keeps the sums those of the window |
| `OrderFlowImbalance.Calculator.Reset` | bpt-features/src/ofi.cpp:46-54 | back to the initial state |
| `TradeFlow.DecayFurther` | bpt-research/ic/features.py:101-103 | decaying a sum further decays every part of it |
| `TradeFlow.DecayedIsFlow` | bpt-research/ic/features.py:107-117 | the flows up to a time, found by the look-up, are the direct sum over prints |
| `TradeFlow.States` | bpt-research/ic/features.py:96-105 | the running state after each flow is the decayed sum so far |
| `TradeFlow.TradeFlowEwma` | bpt-research/ic/features.py:63-118 | every sampled value is the direct sum over all earlier prints of known side, decayed since they came |
| `WsProtocol.SnapshotMeans` | bpt-bridge/src/ws/ws_server.cpp:219-246 | the snapshot holds the latest message of each kind kept that way and the last 500 fills; order events leave no trace |
| `WsProtocol.ReplayRestores` | bpt-bridge/src/ws/ws_server.cpp:248-267 | replaying a snapshot gives exactly that snapshot |
| `WsProtocol.LateJoinerCatchesUp` | bpt-bridge/src/ws/ws_server.cpp:269-277 | replay plus what is published since gives the view of a client that was there from the start |
| `WsProtocol.HappenKeeps` | bpt-bridge/src/ws/ws_server.cpp:94-282 | every step keeps the invariant: sent then queued is what was enqueued, a write is under way exactly while a healthy queue is not empty, a live session has been queued its replay and everything since |
| `WsProtocol.RunKeeps` | bpt-bridge/src/ws/ws_server.cpp:94-282 | the same over every interleaving |
| `WsProtocol.Converges` | bpt-bridge/src/ws/ws_server.cpp:248-277 | a live session that has drained has exactly the server's snapshot, whenever it joined |
| `WsProtocol.Drains` | bpt-bridge/src/ws/ws_server.cpp:94-106 | a healthy session drains after as many completed writes as it has messages queued |
| `WsProtocol.FailedIsSilent` | bpt-bridge/src/ws/ws_server.cpp:97-101 | after a failed write nothing more is sent |
| `WsServer.WsSession.Push` | bpt-bridge/src/ws/ws_server.cpp:52-56 | queues a message; the first in the queue starts a write |
| `WsServer.WsSession.OnWritten` | bpt-bridge/src/ws/ws_server.cpp:102-104 | pops the front and starts the next write |
| `WsServer.Server.UpdateSnapshot` | bpt-bridge/src/ws/ws_server.cpp:219-246 | stores a message by kind, keeping the last 500 fills |
| `WsServer.Server.Publish` | bpt-bridge/src/ws/ws_server.cpp:199-217 | snapshot and every live session, in any order |
| `WsServer.Server.ReplayTo` | bpt-bridge/src/ws/ws_server.cpp:248-267 | queues the snapshot in replay order |
| `WsServer.Server.AddSession` | bpt-bridge/src/ws/ws_server.cpp:269-277 | replay first, then broadcast |
| `WsServer.Server.RemoveSession` | bpt-bridge/src/ws/ws_server.cpp:279-282 | leaves the broadcast |
| `WsServer.Server.WriteCompleted` | bpt-bridge/src/ws/ws_server.cpp:97-105 | next write, or removal on an error with the queue left as it is |

## Left out

- IEEE rounding everywhere: arithmetic is exact, so cancellation and order of summation do not matter.
- Overflow of 64-bit times, quantities and counters, except the unsigned difference in `RealizedVol`, the canon field widths and the 16-bit payload length.
- Mutexes, and strategy callbacks that call back into engine or gateway from inside a report: each public call is one step.
- Log output, the one-shot fee warning, and the slot's inferred timestamp, which nothing reads.
- Generated message codecs: execution reports are records, and their time, fee and sequence fields are not modelled.
- The gateway's simulated clock, heartbeats, account snapshots and time-in-force, which its order handling does not read.
- A gateway over an engine with a latency model: the harness never installs one.
- Decrease of displayed book sizes by the model's own fills: the source never does that.
- Market orders whose unfilled rest stays in the gateway's live map are modelled, but nothing is promised about ending them: `LiveIsFound` and `CancelEnds` say that no cancel can.
- MatchingEngine.Engine: the map from book to two price maps is one map keyed by book, side and price; deques, vectors and maps are fields that the methods reassign.
- AverageCost.Position: a value in the collector's map that the handler replaces, not an object updated by reference.
- ResultsCollector: Sharpe ratio, run identifiers and the three output files.
- CanonFiles.Writer: directory creation, file-system failures and durability; a write always succeeds.
- The producer-specific ingest and replay programs of the canon tools.
- KsDistance: the scalar and mean differences beside the distance, and Python's sort, which is an insertion sort here.
- OrderFlowImbalance.Calculator.Update: with timestamps that go back only the sums are promised, not the window's contents.
- WsServer: sockets, accepting, inbound commands and stop(); order events are broadcast but not kept, so a late joiner never sees earlier ones.
- TradeFlow: the data-frame plumbing and numpy's search, which is a function with its own contract.
