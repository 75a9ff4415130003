# Verified model of the trading core

This project models, in Dafny 4.11, how the repository turns market data into trade plans, how it replays those plans
against daily bars, and how its worker shares one upstream between many callers. It proves what those parts promise:
for all inputs, for every run over any bars, and for every interleaving of callers.

| file | what it holds |
|---|---|
| `PriceTicks.dfy`, `IdxGrid.dfy` | the tiered price grid: rounding for any aligned table; the exchange's own table with its prices numbered |
| `Options.dfy`, `Reals.dfy`, `Sequences.dfy` | optional values, order facts about products, slicing and one stable sort |
| `RiskEngine.dfy` | stop search, lot sizing and the trade plan |
| `FillSimulation.dfy` | entry fill, the mutable exit walk and the function it computes, causality of the walk |
| `ExitTraces.dfy` | lot conservation, the language of exit reasons, prices that really traded |
| `PlanBounds.dfy` | simulated profit and loss against the figures the plan quotes |
| `IntradayPaths.dfy` | the one-bar rule against every path the price may have taken that day |
| `RunPaths.dfy`, `RunVerdicts.dfy` | whole runs of the rule against runs with a path for every day: result and win |
| `SingleFlight.dfy`, `RequestBudget.dfy` | the cache lease and the request counter as step machines over shared keys |
| `CircuitBreaker.dfy`, `HttpClient.dfy` | the breaker against its log of outcomes; the retry loop that drives it |
| `BrokerConcentration.dfy` | concentration of net buying, and what it forces on the concentration gate |
| `Scoring.dfy`, `DeepFunnel.dfy` | gates, categories, signals, and the score-plan-score-plan run |
| `AverageRanks.dfy` | average ranks with ties, written into an array, and quintiles |
| `MarketData.dfy`, `Baselines.dfy`, `Replay.dfy` | the fixture source, the leak guard, the two baselines and the replay |

Conventions. Prices, rates and volumes are `real` (floating-point rounding is not modelled), `Math.round` is
`floor(x + 1/2)`, dates are integers in ISO order and an instant is a date with a time of day. Code that mutates state
is a class or a method with the source's loops, proved equal to a function of its inputs; the theorems are about that
function. `Product(a, b)` is a * b. The cache and the budget are machines whose steps are single key operations, so that every interleaving of
any number of callers is a run.

## What the proofs say beyond, or against, the source's comments

- **The same-bar rule can overstate a run.** The comment at `packages/backtest/src/fillSimulation.ts:154-163` says that
  resolving an ambiguous bar as SL-first never overstates. Against runs in which every day follows a price path of its own
  consistent with its bar, `RunVerdicts.RunNeverOverstatesIff` gives the exact condition for the result of a run, expiry
  included and for every fill: no bar of it may flatter. Only the one bar that reaches TP1 from below, with lots on both
  targets, can. If the stop holds on it, it flatters when the day also reaches breakeven and the second half is later sold
  above it: the rule does not look back at the stop it has just moved. If the stop is touched too, SL-first itself
  flatters when selling everything there beats TP1 followed by what a runner would get, which takes a fill below the stop.
  - From a fill at or above the stop a run that never skips that one re-check is never overstated
    (`WithoutSkippingNeverOverstated`). Whether a run can still turn out overstated is decided on the day TP1 is reached
    (`ExposedIff`).
  - Bars cannot be judged one at a time. `BookedIsPessimisticIff` does so, valuing what is held at the bar's close, and is
    the run that ends there (`OneBarIsARun`); but a bar it passes, which ends below breakeven with the second half still
    held (`HeldBelowBreakeven`), is an overstating one as soon as the price recovers: `RecoveryIsCounted` books 5600 where
    every choice of paths ends at 5300.
  - The comment speaks of the win rate, and a win is a positive net result. A booked win is a loss on some paths exactly
    when turning at TP1 is one (`WinNeverOverstatedIff`). Before the run, for a fill at or above the stop, no run at all can
    overstate its win iff TP1 followed by breakeven is a win or cannot happen; for a fill below it, iff the stop is no win
    or the first half pays for everything or cannot be sold apart (`WinIsSafeIff`). One engine plan is safe by this, another is not (`SafeAndUnsafePlans`).
- **One bar's booked value is the minimum over its paths** exactly when the bar is not optimistic and does not hold a
  second half below breakeven (`BookedIsTheMinimumIff`).
- **TP1 and TP2 may coincide**: they differ iff a valid price separates what they are rounded from (`TargetsDifferIff`);
  entry 498 with stop 494 has both at 510 (`TargetsCanCoincide`).
- **A gap can lose more than the planned risk**, before TP1 or after it, but need not: a cheap fill, or what TP1 earned,
  can outweigh it. `GapBreaksTheBoundIff` says exactly when, for every outcome; `GapAfterTp1BreaksTheBound` loses more than
  three planned risks after TP1.
- **The deep funnel scores nothing above AVOID at the default limits**: it hands one day of broker data to a gate that
  asks for three days of persistence (`DeepFunnel.OneDayNeverBuys`); of the shipped limits it is this one that decides
  (`DeepFunnel.OneDayCanBuyIff`).
- **An AVOID signal keeps its plan.** The comment at `packages/domain/src/engine/signal.ts:24-26` names NO_TRADE and
  AVOID, the code drops the plan for NO_TRADE only (`SignalCarriesPlanIff`). With the previous point, at the default
  limits every plan a signal carries belongs to an AVOID signal (`CarriedPlansAreAvoided`), and `AvoidKeepsItsPlan` gives
  a quote for which there is one, tradeable by its own flag. A NO_TRADE signal's plan is dropped from the signal but still
  stored (`Assemble`, `RunDeepFunnel`).
- **A pending rollback can refuse a caller although the budget is free** (`RequestBudget.RefusalCanBeSpurious`); over
  every continuation of a run a caller is refused exactly as `RefusedIffCounterFull` says.
- **After the cooldown every caller passes**, not one trial call (`CircuitBreaker.CooldownAdmitsEveryone`).
- **The fixture serves a day's closing bar at any hour of that day**; the leak guard rejects it exactly before 16:00
  (`MarketData.GuardIsTransparentIff`).
- **The stop loop's iteration guard can run out** for raw stops far above the entry; `StopIsGreatestValidPriceIff` says
  exactly when, and `StopBelowEntry` that a raw stop at or below the entry gets there only with a minimum distance of
  more than 9975 rupiah.

## Model

| member | source | states |
|---|---|---|
| PriceTicks.RoundDownOnGrid | packages/config/src/priceFraction.ts:29-32 | for every table whose tiers agree at their boundaries, rounding down gives a valid price at or below the input, also across a boundary |
| PriceTicks.RoundDownGreatest | packages/config/src/priceFraction.ts:29-32 | no valid price lies between the result of rounding down and the input |
| PriceTicks.RoundUpOnGrid | packages/config/src/priceFraction.ts:34-37 | rounding up gives a valid price at or above the input |
| PriceTicks.RoundUpLeast | packages/config/src/priceFraction.ts:34-37 | rounding up never passes a valid price |
| PriceTicks.RoundingIsAdjoint | packages/config/src/priceFraction.ts:29-37 | for valid q: q <= p iff q <= down(p), and p <= q iff up(p) <= q |
| PriceTicks.RoundingIsMonotone | packages/config/src/priceFraction.ts:29-37 | both roundings keep order through every tier boundary |
| PriceTicks.RoundingFixesGrid | packages/config/src/priceFraction.ts:29-37 | the fixed points of either rounding are exactly the valid prices, hence both are idempotent |
| PriceTicks.IdxTableAligned | packages/config/src/priceFraction.ts:12-18 | the exchange's table meets the boundary condition the grid laws need |
| IdxGrid.TickByTier | packages/config/src/priceFraction.ts:20-27 | the table search returns 1, 2, 5, 10 or 25 with inclusive upper bounds 200, 500, 2000 and 5000 |
| IdxGrid.IndexBelowIsAdjoint | packages/config/src/priceFraction.ts:20-32 | numbering the valid prices in order, the i-th lies at or below p iff i is at most the number of the rounded price |
| IdxGrid.StepDownIsPredecessor | packages/domain/src/engine/risk.ts:38-42 | one pass of the stop loop moves to the previous valid price, whatever the tiers |
| IdxGrid.StepUpIsSuccessor | packages/domain/src/engine/risk.ts:52-55 | adding one tick to a valid price and rounding up gives the next valid price |
| RiskEngine.DefaultsAreSane | packages/config/src/strategyConfig.ts:108-132 | the shipped configuration satisfies what the theorems ask of one |
| RiskEngine.DistanceByTier | packages/domain/src/engine/risk.ts:30-36 | the minimum stop distance is minTicks times 1, 2, 5, 10 or 25, by the tier of the entry |
| RiskEngine.ResolveStopLoss | packages/domain/src/engine/risk.ts:28-44 | the loop with its guard returns the closed form: the greatest valid price meeting both limits, or the one 10000 prices below the start if that is higher |
| RiskEngine.StopIsGreatestValidPriceIff | packages/domain/src/engine/risk.ts:28-44 | the result is round-down of the tighter limit iff at most 10000 valid prices lie in between |
| RiskEngine.StopBelowEntry | packages/domain/src/engine/risk.ts:28-44 | from a raw stop at or below the entry the loop needs fewer steps than the minimum distance in rupiah plus 25; up to a distance of 9975 the guard is never exhausted and the distance is kept |
| RiskEngine.GuardCanRunOut | packages/domain/src/engine/risk.ts:37-38 | a raw stop far above the entry exhausts the guard and leaves the stop above the entry |
| RiskEngine.MaxBuyIsSuccessor | packages/domain/src/engine/risk.ts:52-55 | the chase limit is above the entry and, for a valid entry, is the very next valid price |
| RiskEngine.PlanIsWellShaped | packages/domain/src/engine/risk.ts:81-156 | every plan with lots has sl < entry < tp1 <= tp2, entry < maxBuy and two lot counts, none negative, that add up; from an allocation of one half up the first has at least half of the lots and at least one |
| RiskEngine.TargetsDifferIff | packages/domain/src/engine/risk.ts:146-149 | tp1 < tp2 iff some valid price lies in [entry + m1 * risk, entry + m2 * risk) |
| RiskEngine.TargetsCanCoincide | packages/domain/src/engine/risk.ts:146-149 | for entry 498 and stop 494 the shipped configuration puts both targets at 510 |
| RiskEngine.PlanWithinBudgets | packages/domain/src/engine/risk.ts:124-188 | planned loss is positive and at most the risk budget, capital at most the deployable capital, without tolerance |
| RiskEngine.AffordableIsWithinBoth | packages/domain/src/engine/risk.ts:127-131 | a lot count is affordable iff it fits both budgets |
| RiskEngine.SizeIsMaximal | packages/domain/src/engine/risk.ts:117-134 | at full size the lots, times the lot size and entry - sl + both fees at the entry + slippage, fit total capital times risk percentage; their cost with the buy fee fits the deployable capital; one more lot, from zero on, breaks one of the two |
| RiskEngine.SpeculativeIsReduced | packages/domain/src/engine/risk.ts:67-71 | a speculative plan has six tenths of the full lots, rounded down |
| RiskEngine.FirstTargetShare | packages/domain/src/engine/risk.ts:154-155 | rounding leaves no negative share on either target, and from an allocation of one half up at least half of the lots and at least one on the first |
| RiskEngine.FirstTargetIsNearest | packages/domain/src/engine/risk.ts:154-155 | the first target's lots are the whole number nearest to allocation times lots, halves up, or all lots for an allocation above one; the second target has the rest |
| RiskEngine.PlanIsAsAsked | packages/domain/src/engine/risk.ts:73-122 | a plan carries its input, the resolved stop, the chase limit and lots * lotSize * entry * (1 + buy fee) of capital; without lots every figure is zero and it is refused |
| RiskEngine.TargetsAreLeast | packages/domain/src/engine/risk.ts:146-149 | each target is the least valid price at or above the entry plus its multiple of the risk |
| FillSimulation.EntryIsRealizable | packages/backtest/src/fillSimulation.ts:96-130 | exactly when the entry fills and which note it leaves otherwise; the price traded that day and is at most the trigger and the chase limit; the lots are all, or the most that volume times fraction holds |
| FillSimulation.FirstTargetKeepsALotIff | packages/backtest/src/fillSimulation.ts:135-143 | scaled lots add up to the filled lots, and the first target keeps a lot iff its share is at least half a lot |
| FillSimulation.ScaledShareIsNearest | packages/backtest/src/fillSimulation.ts:135-143 | after a partial fill the first target has the whole number of lots nearest to tp1Lots * filled / totalLots, halves up, and the second the rest |
| FillSimulation.FirstTargetKeepsALot | packages/backtest/src/fillSimulation.ts:135-143 | a plan with at least half of its lots on the first target keeps a lot there after every partial fill |
| FillSimulation.ExitState.constructor | packages/backtest/src/fillSimulation.ts:170-178 | the walk starts with the scaled lots, the plan's stop and nothing booked |
| FillSimulation.ExitState.CloseAll | packages/backtest/src/fillSimulation.ts:198-206 | the whole new state after closing out |
| FillSimulation.ExitState.FillTp1 | packages/backtest/src/fillSimulation.ts:208-216 | the whole new state after the first target, stop at breakeven; nothing changes without lots |
| FillSimulation.ExitState.FillTp2 | packages/backtest/src/fillSimulation.ts:218-222 | the whole new state after the second target; nothing changes without lots |
| FillSimulation.ExitState.StepBar | packages/backtest/src/fillSimulation.ts:224-294 | one bar takes the state to the specified next position in every gap and intrabar case |
| FillSimulation.SimulateExit | packages/backtest/src/fillSimulation.ts:164-196 | the loop with early exit and expiry computes the specified exit legs |
| FillSimulation.ClosedStaysClosed | packages/backtest/src/fillSimulation.ts:180-183 | once closed, no later bar changes anything |
| FillSimulation.WalkIsCausal | packages/backtest/src/fillSimulation.ts:164-196 | the legs a prefix books before expiry are a prefix of the legs of every extension; a closed walk has the same legs on every extension |
| ExitTraces.StepFromUntouched | packages/backtest/src/fillSimulation.ts:224-277 | from an untouched position every bar leads to a legal phase with legs realized on that bar |
| ExitTraces.StepAfterTp1 | packages/backtest/src/fillSimulation.ts:245-293 | the same once the first target is done, with the stop at breakeven |
| ExitTraces.WalkKeepsInvariant | packages/backtest/src/fillSimulation.ts:180-183 | every reachable position is untouched, past the first target, or finished, with all its legs realized |
| ExitTraces.EveryRunIsComplete | packages/backtest/src/fillSimulation.ts:164-196 | over any non-empty walk the legs sum to the scaled lots, each has a lot, reasons form [sl], [expiry], [tp1, x], [tp1] alone iff the second target has no lots, or [tp2] only if the first has none; every price traded on the bar the leg is dated to, on the right side of its level; a second leg is on no earlier bar than the first and an expiry on the last |
| ExitTraces.LotsAreConserved | packages/backtest/src/fillSimulation.ts:164-196 | for engine plans of any allocation from zero up and any partial fill, the exits sell exactly the filled lots |
| ExitTraces.ConservedOverAllWalksIff | packages/backtest/src/fillSimulation.ts:135-196 | the filled lots are sold over every walk iff scaling leaves no negative share on the first target |
| ExitTraces.LanguageNeedsAFirstTargetLotIff | packages/backtest/src/fillSimulation.ts:208-222 | no walk sells first at the second target iff the first target has a lot |
| ExitTraces.FirstTargetSellsItsShare | packages/backtest/src/fillSimulation.ts:135-216 | over every run the TP1 leg sells the planned lots, or after a partial fill that nearest share |
| PlanBounds.SimulateTradePlan | packages/backtest/src/fillSimulation.ts:297-357 | fill, walk and the accumulating loop produce the specified outcome |
| PlanBounds.NetIsLegSum | packages/backtest/src/fillSimulation.ts:329-339 | net result is the sum over legs of the net result of a share times its shares |
| PlanBounds.PlanAndSimulatorAgree | packages/domain/src/engine/risk.ts:158-188 | sold at both targets the simulated gross, fees, slippage and net are the plan's quoted ones; sold out at the stop the simulated net is minus its worst loss |
| PlanBounds.OutcomeIsOfItsExits | packages/backtest/src/fillSimulation.ts:297-357 | net is gross less fees less slippage; the exits are a complete trace over the first maxHoldingBars bars, expiring on the last of them, and sell what was filled |
| PlanBounds.LossIsBounded | packages/backtest/src/fillSimulation.ts:329-342 | any run, also over no bars, loses at most the planned loss per share plus what gapped stop-outs cost below the stop |
| PlanBounds.PlannedLossBoundsEveryOutcome | packages/backtest/src/fillSimulation.ts:297-357 | for every engine plan, entry bar and walk: net result + gap shortfall >= -scaled planned loss, and netRR >= -1 unless a leg is a gapped stop-out |
| PlanBounds.GapBreaksTheBoundIff | packages/backtest/src/fillSimulation.ts:226-231 | a filled outcome has netRR < -1 iff it is a gapped stop-out at p with K(p) < 0, or TP1 at p1 and then a gapped stop-out at p with a K(p1) + b K(p) < 0 over their lots, where K(x) = (1 + buy fee)(entry - fill) - (1 - sell fee)(stop - x) |
| PlanBounds.GapSellsTheRest | packages/backtest/src/fillSimulation.ts:226-231 | a bar that opens at or below the active stop, before TP1 or after, sells whatever is left there and ends the run |
| PlanBounds.GapAfterTp1BreaksTheBound | packages/backtest/src/fillSimulation.ts:226-231 | an engine plan whose outcome sells three lots at TP1 and two in a gap, with netRR < -3 |
| PlanBounds.WinEarnsThePlan | packages/domain/src/engine/risk.ts:160-179 | a fully filled run that leaves at its targets nets at least the plan's quoted net reward |
| PlanBounds.QuotedRatio | packages/domain/src/engine/risk.ts:188-192 | the quoted reward-to-risk is net reward over planned loss, and a plan that is not refused meets the minimum |
| PlanBounds.TradeablePlanPaysItsMinimum | packages/domain/src/engine/risk.ts:190-192 | a fully filled winning run of a plan that is not refused nets at least the minimum multiple of its planned loss |
| IntradayPaths.BookedIsPessimisticIff | packages/backtest/src/fillSimulation.ts:224-294 | for one bar, with what is still held valued at its close and for every fill: every path of the day is worth at least the booked result iff the bar is in neither of two families |
| IntradayPaths.BookedIsTheMinimumIff | packages/backtest/src/fillSimulation.ts:224-294 | for one bar valued at its close: the booked result is the minimum over all paths, attained by one, iff the bar is in neither family and does not hold the second half below breakeven after TP1 |
| IntradayPaths.EveryWalkBarIsJudged | packages/backtest/src/fillSimulation.ts:180-183 | both one-bar verdicts hold at the position any walk has reached, whatever the fill below TP1; they say nothing about later bars |
| IntradayPaths.PathIsNoWorse | packages/backtest/src/fillSimulation.ts:224-294 | outside the families no path, opening gaps included, ends below the booked value |
| IntradayPaths.OptimisticHasAWorsePath | packages/backtest/src/fillSimulation.ts:254-275 | inside the families a path that turns down at TP1 ends strictly below the booked value |
| IntradayPaths.BreakevenCanBeMissed | packages/backtest/src/fillSimulation.ts:266-275 | an engine plan, a fill at the trigger and a first bar for which the rule books 5460 and a path ends at 5300 |
| IntradayPaths.StopFirstCanFlatter | packages/backtest/src/fillSimulation.ts:254-261 | an engine plan, a fill under the stop and a first bar for which SL-first books 6790 and a path ends at 6775 |
| IntradayPaths.StopFirstIsOpenLowHighClose | packages/backtest/src/fillSimulation.ts:254-285 | a bar touching the active stop books, leg for leg, the open-low-high-close day |
| RunPaths.RunnerRun | packages/backtest/src/fillSimulation.ts:279-293 | over any bars the rule sells a runner at a price computed from the bars alone; no choice of paths brings less, and the one that always goes down first brings the same |
| RunPaths.PathsEndNoLower | packages/backtest/src/fillSimulation.ts:164-196 | no choice of paths is worth less than both the booked run and the run that turns down on the day it reaches TP1 |
| RunPaths.TurnIsReached | packages/backtest/src/fillSimulation.ts:266-275 | some choice of paths is worth exactly what that turn is |
| RunVerdicts.RunNeverOverstatesIff | packages/backtest/src/fillSimulation.ts:154-196 | for every fill and every run: no choice of paths, one for every bar, ends with lower proceeds than the booked run, expiry included, iff no bar with the bars after it flatters |
| RunVerdicts.WithoutSkippingNeverOverstated | packages/backtest/src/fillSimulation.ts:266-275 | from a fill at or above the stop a run is never overstated if no bar reaches TP1 with the stop untouched and breakeven touched |
| RunVerdicts.ExposedIff | packages/backtest/src/fillSimulation.ts:254-275 | on the day TP1 is reached: some days to come make the run overstated iff breakeven was within the day (stop untouched), or TP1 and then breakeven, or TP1 alone, is worth less than the stop (stop touched) |
| RunVerdicts.OneBarIsARun | packages/backtest/src/fillSimulation.ts:224-294 | the one-bar verdict is the run verdict for a run that ends with that bar |
| RunVerdicts.RecoveryIsCounted | packages/backtest/src/fillSimulation.ts:266-293 | an engine plan and two bars, neither optimistic by itself, that book 5600 where every choice of paths ends at 5300 |
| RunVerdicts.WinNeverOverstatedIff | packages/backtest/src/metrics.ts:65-65 | a booked win (positive net result) is a win on every choice of paths unless turning on the day that reaches TP1 is not a win |
| RunVerdicts.WinIsSafeIff | packages/backtest/src/fillSimulation.ts:161-162 | before any bar: no run over positive prices overstates its win iff a target has no lots, the targets coincide, the fill is the stop, or: TP1 then breakeven wins (fill above the stop), the stop does not win or the first half alone does not lose (fill below it) |
| RunVerdicts.SafeAndUnsafePlans | packages/backtest/src/fillSimulation.ts:161-162 | an engine plan filled at its trigger that meets this condition, and one filled below its stop that does not |
| SingleFlight.StepIsAccounted | apps/worker/src/cache/cache.ts:77-98 | every key operation keeps: callers in the fetch section = lease present + lease expiries - releases that found no key |
| SingleFlight.ConcurrentLeadersBounded | apps/worker/src/cache/cache.ts:77-98 | under every interleaving at most 1 + expiries callers fetch at once; with no expiry the lease excludes all others |
| SingleFlight.BoundIsAttained | apps/worker/src/cache/cache.ts:77-98 | for every n some run has n expiries and n + 1 concurrent leaders |
| SingleFlight.StepIsGood | apps/worker/src/cache/cache.ts:69-120 | every operation keeps entries fetched and within their lifetimes and every caller's stage lawful |
| SingleFlight.RepliesHaveProvenance | apps/worker/src/cache/cache.ts:69-119 | replies were fetched by someone; hits are younger than the ttl, never with ttl 0; a stale copy goes only to a leader whose own fetch failed, within the stale lifetime |
| SingleFlight.KeysAreTheirHistory | apps/worker/src/cache/cache.ts:69-98 | in every run the main entry, the stale copy and the lease hold their last write, told from the stores, purges, grants and releases of the run, as long as it has not outlived its lifetime |
| SingleFlight.DecisionsFollowHistory | apps/worker/src/cache/cache.ts:69-119 | each look at a key has the outcome that history calls for: a fresh entry is served, a free lease taken, a living stale copy served after a failure, a follower sleeps one interval at a time until the lease is gone or its time is up |
| SingleFlight.FailedLeaderIsServedStale | apps/worker/src/cache/cache.ts:88-98 | over every continuation a leader whose fetch failed leaves with the last stale store of the run if that is less than the stale lifetime old when it looks, and with an error exactly if there is none |
| SingleFlight.LeaderDelivers | apps/worker/src/cache/cache.ts:79-87 | over every continuation a leader that fetched v leaves with v and, with caching on, has stored v in both entries by then |
| SingleFlight.NewcomerIsServedFresh | apps/worker/src/cache/cache.ts:69-77 | a newcomer is served the last main store of the run exactly if it is neither purged nor ttl old when it looks, and goes for the lease otherwise |
| SingleFlight.FetchingAloneEnds | apps/worker/src/cache/cache.ts:116-119 | a follower that fetches for itself passes on its value, or its error without a look at the stale copy |
| SingleFlight.PollsAreBounded | apps/worker/src/cache/cache.ts:102-114 | a follower polls at most ceil(leaseWait / pollInterval) times |
| SingleFlight.OwnStepsRunOut | apps/worker/src/cache/cache.ts:69-120 | each own step brings a caller strictly nearer its reply and nobody else moves it |
| SingleFlight.EveryCallEnds | apps/worker/src/cache/cache.ts:55-120 | from every reachable state any caller gets its reply by waiting and by own steps alone, nobody else moving |
| RequestBudget.DayCounters.ReserveRequest | apps/worker/src/cache/budget.ts:62-93 | undisturbed: admitted iff the counter is below the ceiling, the counter moves only on admission, the endpoint counter always |
| RequestBudget.StepIsBalanced | apps/worker/src/cache/budget.ts:79-90 | every operation keeps counter = admitted + incremented and not yet settled |
| RequestBudget.StepIsWithinBudget | apps/worker/src/cache/budget.ts:79-92 | every operation keeps the callers sure of admission within the larger ceiling, normal ones within budget less reserve, for any reserve |
| RequestBudget.BudgetIsSafe | apps/worker/src/cache/budget.ts:62-93 | over every interleaving admissions stay within both ceilings, the whole budget unless the reserve is negative; when settled, the counter counts admissions and the endpoint counter all calls |
| RequestBudget.AloneIsTheMethod | apps/worker/src/cache/budget.ts:37-53 | a caller running alone does what the method does; the displayed `allowed` holds iff such a normal caller is admitted, and a remaining reserve is displayed iff a reserve caller is |
| RequestBudget.RefusedIffCounterFull | apps/worker/src/cache/budget.ts:79-90 | however a run goes on after a caller increments, once settled the caller is refused iff admissions plus unsettled increments filled its ceiling when it incremented, and admitted otherwise |
| RequestBudget.RefusalCanBeSpurious | apps/worker/src/cache/budget.ts:74-90 | a run in which a reserve caller is refused with nothing admitted |
| CircuitBreaker.Breaker.IsOpen | apps/worker/src/adapter/circuitBreaker.ts:37-44 | open iff failures since the last success reach the threshold and the last failure is within the cooldown |
| CircuitBreaker.Breaker.RecordSuccess | apps/worker/src/adapter/circuitBreaker.ts:46-50 | appends a success to the log and keeps the invariant |
| CircuitBreaker.Breaker.RecordFailure | apps/worker/src/adapter/circuitBreaker.ts:52-64 | appends a failure to the log and keeps the invariant, reopening after a failed trial |
| CircuitBreaker.CooldownAdmitsEveryone | apps/worker/src/adapter/circuitBreaker.ts:35-43 | once the cooldown has elapsed no call is stopped at any later time until an outcome is recorded; before that, a streak at the threshold stops every call |
| CircuitBreaker.FailuresAddUp | apps/worker/src/adapter/circuitBreaker.ts:52-53 | consecutive failures extend the streak one for one |
| HttpClient.TryRepeatedly | apps/worker/src/adapter/httpClient.ts:57-104 | the retry loop makes the specified tries, sleeps the specified delays, reports each try once and returns the last verdict |
| HttpClient.CallUpstream | apps/worker/src/adapter/httpClient.ts:26-104 | an open breaker stops the call untouched. Otherwise, after k answers that were network errors, 5xx or unreadable bodies below 400: a 4xx (or 6xx and up) ends the call at once as not transient, a good body below 400 is the result and the one success reported, anything else is followed by a sleep and another try while one is left, and is the transient result if none is; every try is reported once |
| HttpClient.TriesStopAtFirstAnswer | apps/worker/src/adapter/httpClient.ts:57-101 | all tries but the last were transient, so a rejected or delivered answer is never retried |
| HttpClient.TriesContinue | apps/worker/src/adapter/httpClient.ts:57-101 | after transient answers only, the next try is made while any is left |
| HttpClient.StatusesDecide | apps/worker/src/adapter/httpClient.ts:26-101 | the same about the specified tries, delays, reports and result, in terms of statuses |
| HttpClient.SleepIsBounded | apps/worker/src/adapter/httpClient.ts:106-110 | n tries sleep from base(2^(n-1) - 1) to less than (n - 1) bases more |
| HttpClient.DelaysDouble | apps/worker/src/adapter/httpClient.ts:106-110 | the delays double from one base on, with the drawn part of one base on top of each |
| HttpClient.OutageTrips | apps/worker/src/adapter/httpClient.ts:66-74 | after a call with only transient answers the breaker is open iff the streak reaches the threshold |
| BrokerConcentration.OrderOfRowsIsIrrelevant | packages/domain/src/engine/feature.ts:76-93 | concentration does not depend on the order of the broker rows |
| BrokerConcentration.ConcentrationInequalities | packages/domain/src/engine/feature.ts:76-93 | with n positive buyers: top1 <= top3 <= 1, top1^2 <= HHI <= top1, n HHI >= 1, n top1 >= 1, and n top3 >= 3 from three buyers on |
| BrokerConcentration.BuyersAreThePositiveRows | packages/domain/src/engine/feature.ts:80-81 | the net buyers are the rows with a positive volume, each as often as it occurs |
| BrokerConcentration.FiguresOfVolumes | packages/domain/src/engine/feature.ts:76-93 | times the total T: top1 is the largest volume, top3 the sum of the three largest, HHI * T^2 the sum of all squares; meaningful buyers are those with at least minShare * T |
| BrokerConcentration.DayQualifiesIff | packages/domain/src/engine/feature.ts:130-133 | a day counts for persistence iff its largest net buyer is meaningful |
| BrokerConcentration.PersistenceBounded | packages/domain/src/engine/feature.ts:140-147 | persistence is at most the days given and at most a positive window |
| BrokerConcentration.PersistenceIsOfRecentDays | packages/domain/src/engine/feature.ts:140-147 | persistence is the number of qualifying days among the most recent windowDays |
| BrokerConcentration.GateForcesBreadth | packages/domain/src/engine/scoring.ts:219-225 | a passing gate forces n times each share ceiling to be at least one, or three for the top three |
| BrokerConcentration.DefaultGateNeedsFiveBuyers | packages/domain/src/engine/scoring.ts:219-225 | at the default limits a pass needs five net buyers and three days of data |
| BrokerConcentration.OneDayNeverPersists | packages/domain/src/engine/scoring.ts:224-224 | with one day of data a gate asking for more than one never passes |
| BrokerConcentration.FiveEqualBuyers | packages/domain/src/engine/feature.ts:76-93 | five equal buyers have shares of a fifth, all meaningful, on a day that counts |
| Scoring.GateFailsIff | packages/domain/src/engine/scoring.ts:144-234 | when each of the nine gates fails, in terms of the input |
| Scoring.CategoryObeysGates | packages/domain/src/engine/scoring.ts:236-266 | NO_TRADE iff a forcing gate fails; a category to buy or watch only if no gate fails, whatever the score |
| Scoring.ScoreInWords | packages/domain/src/engine/scoring.ts:144-300 | composite, reported gate (the first forcing one) and category (NO_TRADE, AVOID, then the bands) in terms of the input |
| DeepFunnel.EntryIsTheQuote | apps/worker/src/funnel/deep.ts:186-189 | the entry rebuilt from the broker average and the distance is the quoted price |
| DeepFunnel.EntryIsAtItsDistance | apps/worker/src/funnel/deep.ts:186-189 | with an average and a distance the entry lies that distance from the average, else at the quote |
| DeepFunnel.SecondPassRepeatsFirst | apps/worker/src/funnel/deep.ts:192-222 | a plan that keeps the assumed reward-to-risk leads to the same score, gates and category |
| DeepFunnel.BrokenPromiseIsNoTrade | apps/worker/src/funnel/deep.ts:214-222 | a plan that falls short makes the second score NO_TRADE |
| DeepFunnel.NoTradePlanIff | packages/domain/src/engine/risk.ts:192-197 | a plan refuses itself iff it has no lots or misses the minimum reward-to-risk |
| DeepFunnel.CarriedPlanIsTradeable | apps/worker/src/funnel/deep.ts:185-252 | a plan a signal carries is the preliminary plan and meets the minimum; it refuses itself iff it is empty, impossible for a positive minimum |
| DeepFunnel.EmptyPlanSlipsThrough | packages/domain/src/engine/signal.ts:27-27 | with a minimum of zero and no capital a signal carries an empty, refused plan |
| DeepFunnel.SignalCarriesPlanIff | packages/domain/src/engine/signal.ts:24-27 | a signal carries a plan iff one was computed and its category is not NO_TRADE, and it is that plan |
| DeepFunnel.OneDayNeverBuys | apps/worker/src/funnel/deep.ts:166-166 | features from one day of broker data never score above AVOID while the gate wants more than one day |
| DeepFunnel.OneDayCanBuyIff | apps/worker/src/funnel/deep.ts:166-166 | with the other shipped limits some one-day candidate scores above AVOID iff the gate asks for at most one day |
| DeepFunnel.CarriedPlansAreAvoided | packages/domain/src/engine/signal.ts:24-27 | from one day of broker data every plan a signal carries belongs to an AVOID signal |
| DeepFunnel.AvoidKeepsItsPlan | packages/domain/src/engine/signal.ts:24-27 | whatever that day held, a quote of 1000 under the shipped configuration gives an AVOID signal with a plan of five lots that is not refused |
| DeepFunnel.Assemble | apps/worker/src/funnel/deep.ts:227-263 | the loop gives every watchlist entry its signal and stores its plan, computed iff its symbol is among the best |
| DeepFunnel.RankedSorts | apps/worker/src/funnel/deep.ts:227-227 | ranking permutes the candidates into non-increasing composite order |
| DeepFunnel.PlansGoToTheBest | apps/worker/src/funnel/deep.ts:229-237 | with distinct symbols exactly the first planMax of the watchlist are planned for |
| DeepFunnel.RunDeepFunnel | apps/worker/src/funnel/deep.ts:185-263 | there is an order of the candidates, best composite first and ties as given, whose first watchlistMax get one signal each, in that order: with the symbol, composite and category of their second scoring, at the reward-to-risk of the preliminary plan; a plan is stored iff the symbol is among the first planMax of them, and the signal carries it unless it is NO_TRADE; a carried plan meets the minimum and, if that is positive, has lots and is not refused |
| DeepFunnel.SlotsGoToTheFirst | apps/worker/src/funnel/deep.ts:229-237 | with one candidate a symbol exactly the first planMax of that order are planned for |
| Sequences.SortIsStable | apps/worker/src/funnel/deep.ts:227-227 | sorting permutes, puts nothing behind what it comes before, and keeps the order of ties |
| AverageRanks.Ranks | packages/backtest/src/phase0e.ts:71-82 | the tie-group scan writes for every i the number of smaller values plus half of one more than the equal ones |
| AverageRanks.SortingPermutes | packages/backtest/src/phase0e.ts:72-72 | the sorted index list holds every position once, in ascending order of value |
| AverageRanks.GroupRank | packages/backtest/src/phase0e.ts:75-78 | the average position of a tie group is its counted rank |
| AverageRanks.RanksKeepOrder | packages/backtest/src/phase0e.ts:70-82 | ranks order values strictly, ties and only ties share a rank, all lie in 1..n |
| AverageRanks.RanksSumUp | packages/backtest/src/phase0e.ts:70-82 | ranks sum to n(n+1)/2 whatever the ties |
| AverageRanks.QuintilesFollowValues | packages/backtest/src/phase0e.ts:209-213 | the bucket index is 0..4 and monotone in the value |
| AverageRanks.QuintileIsAFifth | packages/backtest/src/phase0e.ts:209-213 | bucket q holds the ranks r with q n <= 5 (r - 1) < (q + 1) n |
| AverageRanks.QuintilesAreEven | packages/backtest/src/phase0e.ts:209-213 | of the ranks 1 to n each bucket gets n / 5 rounded down, or one more |
| MarketData.CutCommutesWithSort | packages/backtest/src/dataSource/fixture.ts:18-34 | cutting off the future commutes with the stable sort by date |
| MarketData.SamePastSameBars | packages/backtest/src/dataSource/fixture.ts:16-34 | fixtures with the same past, future listings aside, serve the same visible bars |
| MarketData.HistoryIsThePast | packages/backtest/src/dataSource/fixture.ts:31-56 | a history is every bar of the symbol up to that day, as often as given, in date order, stamped 16:00 of its last day; there is none iff there is no such bar |
| MarketData.LastEntryServesBars | packages/backtest/src/dataSource/fixture.ts:17-18 | a symbol is served the bars of its last entry, sorted, and nothing iff it has none |
| MarketData.SymbolsAreThoseMentioned | packages/backtest/src/dataSource/fixture.ts:17-18 | the symbols listed are those of the entries, each once |
| MarketData.FirstOnIsFirst | packages/backtest/src/dataSource/fixture.ts:82-87 | the bar on a date is the first of that date, and missing iff there is none |
| Replay.SamePastSameUniverse | packages/backtest/src/dataSource/fixture.ts:58-72 | and the same universe, averages and order included |
| MarketData.NotFromFuture | packages/backtest/src/dataSource/leakGuard.ts:29-53 | the guard passes an envelope iff receipt, publication and every bar are not after the instant |
| MarketData.GuardIsTransparentIff | packages/backtest/src/dataSource/leakGuard.ts:62-72 | a fixture history passes iff its last bar is of an earlier day or it is 16:00 or later; at the end of the day always |
| Baselines.Pick | packages/backtest/src/baselines.ts:35-44 | the splicing loop draws the specified sample |
| Baselines.PickNIsASample | packages/backtest/src/baselines.ts:35-44 | the sample is without replacement and has min(n, size) members |
| Baselines.EverySampleCanBePicked | packages/backtest/src/baselines.ts:35-44 | every sample of that size, in every order, is picked for some draws |
| Baselines.FirstByVolume | packages/backtest/src/baselines.ts:165-165 | the ranking is a permutation by falling volume, and nobody outside the first n trades more than anyone inside |
| Baselines.LiquidAreLiquid | packages/backtest/src/baselines.ts:18-22 | exactly the entries with an average turnover of at least 500 million are liquid |
| Baselines.LiquidAppend | packages/backtest/src/baselines.ts:18-22 | in the order of the universe and as often as they occur there |
| Baselines.EntryIsOfRecentBars | packages/backtest/src/dataSource/fixture.ts:58-72 | a symbol is in the universe iff it has five visible bars, with its last close and averages that multiply out to the totals of its last twenty or fewer |
| Baselines.UniverseIsOfTheSymbols | packages/backtest/src/dataSource/fixture.ts:58-72 | the universe holds exactly the entries of the symbols listed |
| Baselines.PlanFromHistoryIff | packages/backtest/src/baselines.ts:110-136 | the plan buys at the last close with the lowest low of the last five bars as raw stop, at full size, and exists iff that is below the close |
| Baselines.PlansAppend | packages/backtest/src/baselines.ts:149-174 | each pick adds its plan iff it has a history and a plan that is not refused |
| Baselines.BaselinePlansAreTradeable | packages/backtest/src/baselines.ts:149-174 | every baseline plan has lots, is not refused, is well shaped and within the risk budget and the deployable capital |
| Replay.DecisionsSeeOnlyThePast | packages/backtest/src/replayEngine.ts:113-141 | fixtures that agree on all bars up to a date, whatever symbols or bars come later, give both baselines identical plans for it |
| Replay.PlansAreOfTheLiquid | packages/backtest/src/replayEngine.ts:113-141 | the random plans are those of a sample, the volume plans those of the first by volume, of the liquid universe of the date |
| Replay.SimulateForDate | packages/backtest/src/replayEngine.ts:67-88 | the loop simulates each plan under the chosen entry convention |
| Replay.ConventionsChooseTheBars | packages/backtest/src/replayEngine.ts:75-87 | next session: the entry is tried on the first bar after the plan date and the walk is over the bars behind it; same bar: on the plan date itself, with the later bars as the walk |
| Replay.TradesFollowDecisions | packages/backtest/src/replayEngine.ts:81-85 | next-session fills are after the plan date, exits not before the fill, and strictly after it with one bar a day |
| Replay.SameBarFillsOnDecisionDay | packages/backtest/src/replayEngine.ts:77-80 | the same-bar convention fills on the day that decided the plan |
| Replay.ReplayedTradeIsSound | packages/backtest/src/replayEngine.ts:81-85 | a replayed engine plan is filled after its decision and, short of a gapped stop-out, loses at most one risk |
| Replay.RunBaselines | packages/backtest/src/replayEngine.ts:113-141 | over any dates the run books the specified outcomes of both baselines and every one of them is sound |
| Replay.OutcomesByDate | packages/backtest/src/replayEngine.ts:98-141 | one more date adds exactly one outcome for each of its plans, in order |

## Left out

- Floating-point rounding: all arithmetic is exact; statistics on floats (correlations, t-statistics) are not modelled.
- PriceTicks.RoundDown: is defined for tables whose tiers agree at their boundaries; the error for an empty table is not modelled, no caller passes a table of its own.
- RiskEngine.BuildRiskPlan: asks for a positive entry price, a positive lot size and a buy fee of at least zero, where JavaScript would divide by zero or go negative; the reason text and version fields of a plan are dropped.
- RiskEngine.PlanIsWellShaped: asks for target multiples in order above zero and an allocation that is not negative; the source accepts any numbers, and ConservedOverAllWalksIff says what a negative share on the first target does.
- RiskEngine.StopBelowEntry: promises the distance only up to 9975 rupiah, because beyond that the iteration guard may be exhausted.
- DeepFunnel.RunDeepFunnel: promises nothing about the stored plan of a NO_TRADE signal beyond that it is the computed one.
- MarketData.HistoryAsOf: keeps neither the 20-day median volume nor the source, segment and revision fields, which no baseline reads; bars are well formed with positive closes.
- Scoring.ScoreCandidate: takes the composite score as a given function of the features (the component formulas and the confidence label are each settled by one function) and names the failed gate instead of its message.
- Scoring.EvaluateGates: writes the nine gate results as one list where the source pushes them one by one.
- MarketData.BarsOf: recomputes the sorted bars of a symbol where the source keeps them in a map; the list of trading dates is an argument of the replay.
- SingleFlight.Advance: a key operation itself never fails, and a value is stored in the instant its step is taken.
- RequestBudget.Apply: one day's counter; its three-day expiry outlives the day and is not modelled, and the endpoint counter is one counter.
- The breaker's clock: readings are nondecreasing.
- Baselines.StopFor: the other stop rules and the average true range, which neither baseline uses, are not modelled.
- HttpClient.CallUpstream: covers a call during which no other call reports to the shared breaker; calls interleaved at the awaits are not modelled.
- CircuitBreaker and retries: the random jitter, the clock and the upstream's answers are parameters.
- The seeded generator: an arbitrary sequence of draws in [0, 1) for each date.
- The signal-from-history strategy, persisted plans, metrics and segmentation of a replay: they add no rule about decisions or fills.
- Broker flip, suspected transfer, B-Avg, seller share and the price response features: inputs of the gates here.
- Database, archive, HTTP schemas, user interface, backfill scripts and session calendars: input and output.
