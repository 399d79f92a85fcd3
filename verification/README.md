# Verified models of the decision, backtest and agent core

A Dafny model of the parts of the repository whose correctness rests on state that many steps share: the
A-share backtest ledger, the specialist task graph and its budget, the fenced store of conclusion runs, the model
gateway, the trading calendar, decision replay, and three small text and number routines. Classes and loops follow
the code that updates state in place; each method is tied to a specification function, and the laws are proved about
those functions for every input, run, schedule or completion order. Money, shares and prices are exact reals that
keep the explicit thresholds of the code (`1e-9`, `1e-12`, `5` yuan); every law over runs takes the thresholds as a
parameter, so it holds for the code's values and, with zero thresholds, exactly.

| file | models |
|---|---|
| `Wrappers.dfy`, `Text.dfy` | options, minima and maxima; trimming of strings |
| `Execution.dfy`, `WinRate.dfy` | position lots under T+1, trading cost, the FIFO win-rate matcher |
| `Ledger.dfy`, `LedgerLaws.dfy` | the buy and sell routines as orders, and the laws of every run of orders |
| `Selection.dfy`, `Portfolio.dfy`, `Backtest.dfy` | ranking, the rebalance, the day loop |
| `SelfFinancing.dfy`, `Overdraft.dfy` | conservation of net worth; a backtest that ends in debt |
| `PriceLimits.dfy` | price-limit rules and limit prices on the tick grid |
| `TaskGraph.dfy`, `SharedContext.dfy`, `Supervisor.dfy` | layering, the shared budget, the layered run with futures in any order |
| `ConclusionStore.dfy` | compare-and-swap store of conclusion runs under interleaved workers |
| `CircuitBreaker.dfy`, `ModelGateway.dfy`, `MetricStore.dfy` | breaker, budget, retries, routes, bounded metric store |
| `Sessions.dfy`, `TradingClock.dfy` | session algebra, weekday, snapshot and cached calendars |
| `Replay.dfy`, `ReplayAliases.dfy` | what a replay's runner may change, and what its record says and leaves out |
| `PathMetrics.dfy`, `Frontmatter.dfy` | forward-filled drawdown, header printing and parsing |

`dafny verify dfyconfig.toml` checks everything.

## What the proofs say about the code

- The re-rounding branch of `buy` (`engines/backtest/portfolio_backtest.py:117-122`) cannot run in exact
  arithmetic (`Ledger.SecondRoundingNeverRuns`).
- Cash can fall below zero: a trim of a few yuan pays the minimum commission. `Overdraft.CashCanGoNegative` is a
  backtest of six ordinary days that ends in debt, `LedgerLaws.OverdrawsIff` says exactly which order overdraws an
  account, `LedgerLaws.SolventIff` carries that over whole runs, and `LedgerLaws.CashLedger` bounds the deficit.
- `TaskGraph.add_task` registers a task before it checks the dependencies. A refused duplicate is harmless; a refused
  unknown dependency leaves a task no one can depend on; a refused self-dependency blocks every later addition
  (`AgentGraph.AdditionKeepsWellBuiltIff`, `AgentGraph.RefusedTaskPoisonsGraph`,
  `AgentGraph.SelfDependencyPoisonsGraph`).
- When an artifact exceeds the budget at commit, or cannot be persisted, its reservation is released twice
  (`agent/supervisor.py:66-77`); `SharedContexts.SettleKeepsLawIff` says exactly when the ledger law survives, and
  `SharedContexts.OverspendHidesUsage` shows recorded usage disappearing.
- A seal digest captured together with the version fences nothing the version does not
  (`ConclusionStore.CapturedDigestNeverFences`).
- The cached calendar's `normalize` never refetches, unlike its neighbours: on a weekend at the edge of the loaded
  window it raises although the Friday before is open (`TradingClock.NormalizeCanMiss`).
- A provider that reports negative tokens gets past the total cap (`ModelGateways.NegativeUsageBreaksTotalCap`); the
  cap laws therefore assume non-negative usage.
- A share whose daily move is worth less than half a tick cannot be bought at its previous close, and at exactly half
  a tick it can be bought but not sold (`PriceLimits.LimitsBracketClose`).
- A null override of a field the baseline lacks is listed as changed though nothing differs
  (`Replay.ListedDiffersIff`).
- Identities, the policy and the workflow are kept under two names, and the second ones (`model`, `skill`, `policy`,
  `workflow`) are compared by nothing: a result accepted for any component may change one that its record does not
  list. `ReplayAliases.UnlistedChangeIff` says exactly when, `ReplayAliases.SilentChangeIff` when neither name is
  listed, and `ReplayAliases.SilentWorkflow` is such a replay.

## Model

| member | source | states |
|---|---|---|
| Execution.PositionBook.Add | engines/backtest/execution.py:212-214 | a lot goes to the back, released the day after it was bought |
| Execution.PositionBook.AvailableShares | engines/backtest/execution.py:220-222 | the loop sums exactly the released lots |
| Execution.PositionBook.PopAvailable | engines/backtest/execution.py:224-237 | the in-place drain and sweep leave the lots of `AfterPop` and report the smaller of request and released shares |
| Execution.DrainTakes | engines/backtest/execution.py:229-235 | seen from any later day, a drain takes the request to within one stopping threshold |
| Execution.DrainLeavesOnePartial | engines/backtest/execution.py:229-236 | dropping near-empty lots after a drain loses at most one threshold in total, not one per lot |
| Execution.PopAccuracy | engines/backtest/execution.py:224-237 | each pop's error, total and per later day, lies between minus the drop threshold (1e-9 for the whole pop, not per lot) and plus the stop threshold (1e-12); every kept lot stays above the drop threshold |
| Execution.PopKeepsOrder | engines/backtest/execution.py:224-237 | lots stay in release order through a pop |
| Ledger.CostMonotone | engines/backtest/execution.py:185-195 | trading cost is non-negative and never falls as the value grows, minimum commission and stamp tax included |
| Ledger.RoundingBounds | engines/backtest/portfolio_backtest.py:535-539 | rounding to 100-share lots brackets the amount: at most the amount, less than one lot below it |
| Ledger.ShrinkSettles | engines/backtest/portfolio_backtest.py:104-109 | one pass of the two-pass fit to cash already settles: affordable, and a second pass changes nothing |
| Ledger.SecondRoundingNeverRuns | engines/backtest/portfolio_backtest.py:112-122 | a rounded fill is always affordable in exact arithmetic, so the re-rounding branch is unreachable |
| Ledger.SecondRoundingFailsOnlyOnZeroShares | engines/backtest/portfolio_backtest.py:117-122 | entered with any unaffordable fill, the branch gives up exactly when less than one lot fits the remaining cash |
| Ledger.BuyIsLargestAffordableLot | engines/backtest/portfolio_backtest.py:97-132 | a fill is a positive multiple of 100 shares, the largest within the spend limit, never above the request, and leaves cash at least -1e-9 |
| Ledger.BuyRefusedIff | engines/backtest/portfolio_backtest.py:97-124 | exactly when a buy is refused |
| Ledger.OrderIsAtomic | engines/backtest/portfolio_backtest.py:76-132 | an order changes nothing, or records one trade with the matching cash and book moves and touches no other book |
| Ledger.ApplyAllConcat | engines/backtest/portfolio_backtest.py:739-772 | playing two batches of orders is playing their concatenation |
| Ledger.RunShares | engines/backtest/portfolio_backtest.py:76-132 | over any run, what a book can release by a day tracks shares bought earlier minus shares sold, up to one threshold per sale; lots stay ordered and above dust |
| LedgerLaws.RunStep | engines/backtest/portfolio_backtest.py:76-132 | the last order of a run changes nothing or executes one trade |
| LedgerLaws.BookHoldsBoughtMinusSold | engines/backtest/execution.py:206-237 | after any run each book holds bought minus sold shares, within one threshold per sale |
| LedgerLaws.SellsNeverOutrunEarlierBuys | engines/backtest/execution.py:206-237 | T+1: up to any day, no more is sold than was bought on earlier days (plus the stop threshold per sale) |
| LedgerLaws.SaleLowersCashIff | engines/backtest/execution.py:185-195 | a sale lowers cash exactly below the break-even value 5/0.9985, and then by less than 5 |
| LedgerLaws.CashLedger | engines/backtest/portfolio_backtest.py:76-132 | cash is initial cash plus the flows of the trade log, and never below -1e-9 less 5 per below-break-even sale since the last buy |
| LedgerLaws.OverdrawsIff | engines/backtest/portfolio_backtest.py:76-132 | from any account within the slack of a buy, an order leads below it exactly when it is an executed sale whose proceeds, less tax and slippage, and the cash do not cover the minimum commission |
| LedgerLaws.SolventIff | engines/backtest/portfolio_backtest.py:76-132 | a whole run never falls below the slack exactly when none of its orders overdraws the account it meets |
| Overdraft.OneNameDay | engines/backtest/portfolio_backtest.py:542-772 | a rebalance of one name trading inside its limits is its trim or its fill, computed from the account |
| Overdraft.PanelKeepsLimits | engines/backtest/execution.py:144-171 | every day of that panel trades within the price limits of the previous close |
| Overdraft.CashCanGoNegative | engines/backtest/portfolio_backtest.py:227-266 | a whole backtest of six ordinary days, one name rebalanced at 3, 6 and 3.3, that ends 1.70 yuan in debt |
| WinRate.RoundTripWinRate | engines/backtest/metrics.py:49-80 | the loop over the log computes the win share of `Replay`, rounded to four digits with ties to even; none without a closed trade |
| WinRate.RateIsShare | engines/backtest/metrics.py:80 | the reported rate is a share of the closed trades, within half a digit of the exact one |
| WinRate.MatchFront | engines/backtest/metrics.py:62-75 | the inner matching loop computes `MatchSell` |
| WinRate.MatchAccuracy | engines/backtest/metrics.py:62-75 | a match removes what it reports, to within one threshold, and leaves shares unmatched only when the queue ran out |
| WinRate.ExactMatchConservesCost | engines/backtest/metrics.py:62-75 | cost charged to the sale plus cost still queued is the cost queued before |
| LedgerLaws.PopIsMatch | engines/backtest/metrics.py:62-75 | released lots are a prefix, so the matcher consumes the same lots in the same amounts as the book and matches the sale in full |
| LedgerLaws.FifosAgree | engines/backtest/metrics.py:49-80 | after every exact run the matcher's queue and the position book hold the same lots, symbol by symbol |
| LedgerLaws.SaleRealises | engines/backtest/metrics.py:62-79 | a sale's proceeds are its profit plus the outlay released from the queue |
| LedgerLaws.CashIsRealisedProfit | engines/backtest/metrics.py:49-80 | over every exact run each sale is matched in full, closed trades count the sales, and cash plus queued outlay is initial cash plus realised profit |
| LedgerLaws.FifosWithinDust | engines/backtest/metrics.py:49-80 | with the source's thresholds the two FIFOs stay within the stated dust bound per sale, and every sale of the log is matched up to the dust of the sales before it |
| Selection.RankingIsSorted | engines/backtest/portfolio_backtest.py:582-587 | the ranking is exactly the eligible names by score, ties in panel order |
| Selection.TargetsAreFilteredTopK | engines/backtest/portfolio_backtest.py:720-726 | moving a blocked name's slot on equals filtering first |
| Selection.TargetsAreBest | engines/backtest/portfolio_backtest.py:582-588 | the targets are the k best obtainable names: no better candidate is left out and no slot is wasted |
| Portfolio.PortfolioState.SharesOf | engines/backtest/portfolio_backtest.py:72-74 | held shares, zero without a book |
| Portfolio.PortfolioState.SellShares | engines/backtest/portfolio_backtest.py:76-95 | the in-place sale is one order of the ledger, answered by the execution callback |
| Portfolio.PortfolioState.BuyValue | engines/backtest/portfolio_backtest.py:97-132 | the in-place purchase is one order of the ledger, answered by the execution callback |
| Portfolio.PortfolioState.ChooseFill | engines/backtest/portfolio_backtest.py:97-122 | the shrink, round and re-round steps compute `PlanBuy` |
| Portfolio.PortfolioState.SellExits | engines/backtest/portfolio_backtest.py:728-734 | step one orders exactly the sellable holdings outside the targets, in full, in book order |
| Portfolio.PortfolioState.OpenEquity | engines/backtest/portfolio_backtest.py:739-747 | step two values every holding above dust at the execution price or last close |
| Portfolio.PortfolioState.TrimTargets | engines/backtest/portfolio_backtest.py:754-761 | step three sells exactly the overweight sellable targets back to their share, best score first |
| Portfolio.PortfolioState.BuyTargets | engines/backtest/portfolio_backtest.py:763-770 | step four fills exactly the underweight buyable targets, best score first, and nothing bought ends above its share |
| Portfolio.PortfolioState.Reweight | engines/backtest/portfolio_backtest.py:739-772 | steps two to four share 99% of the open equity equally |
| Portfolio.PortfolioState.Rebalance | engines/backtest/portfolio_backtest.py:542-772 | one rebalance: targets, exits, trims and buys in sequence, and turnover equal to the value of the trades it logged |
| Portfolio.OtherBooks | engines/backtest/portfolio_backtest.py:76-132 | an order moves no other name's holding |
| Portfolio.BuyReachesAtMost | engines/backtest/portfolio_backtest.py:97-132 | a buy raises its holding by at most the requested value at the execution price |
| Backtest.RunsAreLawful | engines/backtest/portfolio_backtest.py:135-266 | every run of orders keeps the cash law, and with distinct symbols the T+1 and two-FIFO laws, with the source's thresholds |
| Backtest.NextDay | engines/backtest/portfolio_backtest.py:227-266 | a day's orders extend a chronological run |
| Backtest.RunTopKBacktest | engines/backtest/portfolio_backtest.py:227-266 | the day loop: each account follows from the one before by a full rebalance on rebalance days and by nothing on the others, and the final account is lawful; a mask of the wrong length is refused |
| SelfFinancing.OrderIsFinanced | engines/backtest/portfolio_backtest.py:76-132 | one order at the marking price lowers net worth by its cost, up to the thresholds of a sale |
| SelfFinancing.OrdersAreFinanced | engines/backtest/portfolio_backtest.py:76-132 | any sequence of orders at the marking prices loses exactly the trading costs, up to one threshold per sale |
| SelfFinancing.ExactOrdersCostOnly | engines/backtest/portfolio_backtest.py:76-132 | with exact thresholds net worth plus paid costs never moves |
| SelfFinancing.RebalanceIsSelfFinancing | engines/backtest/portfolio_backtest.py:542-772 | a whole rebalance trades at its own marks and is self-financing |
| SelfFinancing.BacktestIsSelfFinancing | engines/backtest/portfolio_backtest.py:227-266 | so is every day of a backtest's history, from the initial cash on |
| PriceLimits.ResolvedIsLawful | engines/market/price_limit_rules.py:72-130 | resolution fails exactly without a readable date or on an unreadable quoted rate outside limit-free stages; otherwise the rule is limit-free or has both rates in (0, 1] |
| PriceLimits.PercentIsFraction | engines/market/price_limit_rules.py:119-130 | a percentage and its fraction normalise alike exactly above 1%; 1 itself reads as 100% |
| PriceLimits.RoundingIsNearest | engines/market/price_limit_rules.py:66-69 | rounding stays within half a tick, and no other multiple is nearer; ties go up |
| PriceLimits.RoundingIsMonotone | engines/market/price_limit_rules.py:66-69 | rounding to the tick is monotone |
| PriceLimits.RoundingIsIdempotent | engines/market/price_limit_rules.py:66-69 | rounding twice is rounding once |
| PriceLimits.LimitsBracketClose | engines/backtest/execution.py:144-171 | for a previous close on the grid, lower limit <= close <= upper limit; the close is buyable exactly when the move is at least half a tick and sellable exactly when it is more |
| AgentGraph.TaskGraph.AddTask | agent/task_graph.py:18-27 | the method is `Add`, including what a refused call leaves behind |
| AgentGraph.TaskGraph.TopologicalLayers | agent/task_graph.py:32-44 | the loop raises exactly when `Layer` is cyclic, and otherwise lists each layer in sorted order |
| AgentGraph.WaitersNeverReady | agent/task_graph.py:32-44 | tasks that wait for each other, or for an unregistered id, are never layered |
| AgentGraph.CyclicIffBroken | agent/task_graph.py:32-44 | on any dependency map layering fails exactly when there is a cycle or an edge to an unregistered id |
| AgentGraph.LayersPartition | agent/task_graph.py:32-44 | the layers are nonempty, disjoint and cover every task |
| AgentGraph.LayerIsLongestChain | agent/task_graph.py:32-44 | a task's layer index is the length of its longest dependency chain |
| AgentGraph.DependenciesComeEarlier | agent/task_graph.py:32-44 | a dependency lies in a strictly earlier layer |
| AgentGraph.AddSucceedsIff | agent/task_graph.py:18-27 | on a well-built graph an addition succeeds exactly for a fresh id with registered dependencies, and keeps the graph well built |
| AgentGraph.AdditionKeepsWellBuiltIff | agent/task_graph.py:18-27 | an addition leaves the graph well built exactly when the task is a duplicate or all its dependencies were registered before it |
| AgentGraph.RefusedTaskPoisonsGraph | agent/task_graph.py:18-27 | after an unknown dependency the refused task can never be added, and exactly the fresh tasks that depend on earlier ones alone still can |
| AgentGraph.SelfDependencyPoisonsGraph | agent/task_graph.py:18-27 | a task that depends on itself is refused as a cycle but stored, and every later addition is refused |
| AgentGraph.ListingUnique | agent/task_graph.py:36 | sorting makes the order of a layer unique |
| SharedContexts.SharedContext.RecordArtifact | agent/shared_context.py:23-31 | records and charges, or raises and changes nothing |
| SharedContexts.SharedContext.ReserveBudget | agent/shared_context.py:33-39 | charges both counters, or raises and changes nothing |
| SharedContexts.SharedContext.CommitBudget | agent/shared_context.py:41-46 | gives the reservation back even when recording then raises |
| SharedContexts.SharedContext.ReleaseBudget | agent/shared_context.py:48-51 | subtracts, clamped at zero |
| SharedContexts.SharedContext.DependencyArtifacts | agent/shared_context.py:57-59 | exactly the recorded artifacts of the dependencies |
| SharedContexts.ReserveKeepsLaw | agent/shared_context.py:33-39 | an accepted reservation keeps used == recorded + outstanding within [0, max] |
| SharedContexts.SettleKeepsLawIff | agent/supervisor.py:63-81 | settling keeps the ledger law exactly when the worker raised, or the artifact fits and persists, or the second release finds nothing: a condition on the counters, the reservation and the artifact before the call |
| SharedContexts.WithinReservationCommits | agent/shared_context.py:41-46 | an artifact within its reservation always commits |
| SharedContexts.OverspendHidesUsage | agent/supervisor.py:68-72 | a run of two tasks where one overspends: its reservation is released twice and the other's recorded usage disappears from the total |
| Supervisors.NetCommutes | agent/supervisor.py:63-81 | settling two futures in either order gives the same state |
| Supervisors.FinishInAnyOrder | agent/supervisor.py:63-81 | whichever future completes first, the layer ends in the same state |
| Supervisors.FinishLeavesActualUsage | agent/supervisor.py:63-81 | once all futures are settled the counters hold actual usage instead of reservations |
| Supervisors.Supervisor.RunOne | agent/supervisor.py:110-123 | an artifact is returned only for a registered role with the task's own identity |
| Supervisors.Supervisor.ReserveLayer | agent/supervisor.py:54-62 | reserving in layer order gives the deterministic reservation; each task is started once or rejected and settled once, the failures are exactly the rejected ones, and the ledger law holds |
| Supervisors.Supervisor.DrainStep | agent/supervisor.py:63-81 | settling any open future next keeps the trace, the artifact table, the failures and, on budget, the ledger and the order-free outcome on course |
| Supervisors.Supervisor.DrainFutures | agent/supervisor.py:63-81 | for every completion order: each future settles exactly once, the failures are exactly the futures not both recorded and persisted, and if what these futures deliver stays within their reservations the result is the order-free `Finish` |
| Supervisors.Supervisor.RunLayer | agent/supervisor.py:54-81 | if what the layer's reserved tasks deliver stays within their reservations, the layer's result is a function of the state before it |
| Supervisors.Supervisor.HandleFuture | agent/supervisor.py:64-81 | commit and persist, or release and mark failed or exhausted |
| Supervisors.Supervisor.RunLayers | agent/supervisor.py:53-81 | the loop over the layers, each started only after the one before it settled |
| Supervisors.FrugalWorkersStayOnBudget | agent/supervisor.py:54-81 | workers that never exceed the reservations of the graph's own tasks make every run stay on budget |
| Supervisors.Supervisor.Run | agent/supervisor.py:40-95 | raises exactly above the agent limit or on a broken graph; otherwise every task of the dependency table settles exactly once, none starts before its dependencies settled, a registered task without an entry stays pending, the errors name exactly the tasks not both recorded and persisted, the recorded artifacts are the stored ones, and if every artifact of this run stays within its own reservation, usage is the sum over them and the outcome does not depend on completion order |
| Supervisors.DependencySettledEarlier | agent/supervisor.py:54-81 | a task's dependencies all lie in earlier layers |
| Supervisors.LayerIsReady | agent/supervisor.py:54-81 | when a layer starts, its tasks are new and all their dependencies lie in the layers already run |
| Supervisors.AddKeepsRegistered | agent/task_graph.py:18-27 | additions, refused ones included, leave only registered ids in the dependency table |
| ConclusionStore.InMemoryRepository.Reserve | app/ports/knowledge_conclusion_repository.py:54-64 | first reservation stores, a repeat returns the stored run, another request under the key conflicts |
| ConclusionStore.InMemoryRepository.Save | app/ports/knowledge_conclusion_repository.py:70-80 | writes only if version and, when given, seal digest match |
| ConclusionStore.InMemoryRepository.CommitResult | app/ports/knowledge_conclusion_repository.py:82-98 | run and citations change together or not at all; a succeeded run is returned unchanged, duplicate citations raise |
| ConclusionStore.KeyCount | app/ports/knowledge_conclusion_repository.py:92-93 | the set-size test is exactly pairwise distinct citation rows |
| ConclusionStore.PassingReadIsCurrent | app/ports/knowledge_conclusion_repository.py:70-80 | a write that passes the version fence was computed from the run now stored |
| ConclusionStore.CapturedDigestNeverFences | app/ports/knowledge_conclusion_repository.py:124-138 | comparing the digest captured with the same read adds nothing to the version fence |
| ConclusionStore.AbsentMarkerFences | app/ports/knowledge_conclusion_repository.py:136-138 | expecting an empty slot passes exactly while no seal is stored, unless a digest collides with the marker |
| ConclusionStore.StepShape | app/ports/knowledge_conclusion_repository.py:54-98 | every step of any worker changes nothing, opens a fresh run, or appends one legal transition to the current run |
| ConclusionStore.StepKeepsInv | app/ports/knowledge_conclusion_repository.py:54-98 | every step of any worker keeps the path, key and citation invariants |
| ConclusionStore.EveryScheduleKeepsOrder | app/ports/knowledge_conclusion_repository.py:54-98 | under every interleaving from an empty repository the runs of an id form a path of transitions whose versions count the writes, one key leads to it, and citations exist exactly for succeeded runs |
| ConclusionStore.TerminalRunsStay | app/domain/knowledge_conclusion_run.py:25-33 | finished runs never change |
| ConclusionStore.SecondWriterIsFenced | app/ports/knowledge_conclusion_repository.py:70-98 | of two writers that read one version, the write after the winning one is fenced |
| ConclusionStore.OutdatedStaysFenced | app/ports/knowledge_conclusion_repository.py:70-98 | a write from an outdated read stays fenced under every later interleaving |
| ConclusionStore.SecondWriterStaysFenced | app/ports/knowledge_conclusion_repository.py:70-98 | of two writers that read one version, at most one ever changes the store, whatever happens between their writes |
| ConclusionStore.Play | app/ports/knowledge_conclusion_repository.py:54-98 | the invariant holds after every schedule of enabled actions |
| ConclusionStore.PlayPreserves | app/ports/knowledge_conclusion_repository.py:54-98 | over every schedule histories only grow, keys keep their conclusion and finished runs stay |
| ConclusionStore.HeldKeyAnswers | app/ports/knowledge_conclusion_repository.py:54-62 | while a key is held, a reservation returns the held conclusion, or conflicts on another request hash |
| ConclusionStore.ReservationsOfOneKeyAgree | app/ports/knowledge_conclusion_repository.py:54-62 | after a successful reservation its key is held for that conclusion under every later interleaving |
| Sessions.DistanceAdds | engines/market/trading_clock.py:101-131 | signed session counts add up over any three days |
| Sessions.AdvanceUnique | engines/market/trading_clock.py:126-131 | only one open day lies n sessions away |
| Sessions.AdvanceComposes | engines/market/trading_clock.py:126-131 | advancing m then n is advancing m + n, for all signs |
| Sessions.AdvanceInverts | engines/market/trading_clock.py:126-131 | advancing n then -n returns to the base day |
| Sessions.AnswerUnique | engines/market/trading_clock.py:126-131 | there is at most one answer |
| Sessions.AnswersCompose | engines/market/trading_clock.py:126-131 | answers compose: m then n answers m + n, for all signs and from any day |
| Sessions.AnswersInvert | engines/market/trading_clock.py:126-131 | n then -n answers the normalised day |
| Sessions.DeadEnd | engines/market/trading_clock.py:126-131 | once the steps run out of open days there is no answer |
| TradingClock.WeekdayCalendar.Normalize | engines/market/trading_clock.py:31-35 | the loop ends on the latest weekday not after the day |
| TradingClock.WeekdayCalendar.NextSession | engines/market/trading_clock.py:40-45 | the loop ends on the next weekday |
| TradingClock.WeekdayCalendar.PreviousSession | engines/market/trading_clock.py:47-52 | the loop ends on the previous weekday |
| TradingClock.WeekdayCalendar.AdvanceSessions | engines/market/trading_clock.py:54-59 | the day reached is n sessions from the normalised day |
| TradingClock.NormalizeIn | engines/market/trading_clock.py:101-106 | the largest open day not after the day, none exactly when there is none |
| TradingClock.NextIn | engines/market/trading_clock.py:112-117 | the smallest later open day |
| TradingClock.PreviousIn | engines/market/trading_clock.py:119-124 | the largest earlier open day |
| TradingClock.AdvanceInSnapshot | engines/market/trading_clock.py:126-131 | an answer is the open day n sessions from the normalised day; it raises exactly when the snapshot holds none |
| TradingClock.QuantCalendar.Refresh | engines/market/trading_clock.py:151-163 | the cached window always mirrors the full calendar, and is kept or replaced as the range test says |
| TradingClock.QuantCalendar.IsTradingDay | engines/market/trading_clock.py:165-167 | every answer is the full calendar's |
| TradingClock.QuantCalendar.Normalize | engines/market/trading_clock.py:196-199 | every answer is the full calendar's; it raises exactly when the window shows no open day up to the day |
| TradingClock.QuantCalendar.NextSession | engines/market/trading_clock.py:169-177 | every answer is the full calendar's; it raises exactly when neither the cached window nor the following 61 days has an open day |
| TradingClock.QuantCalendar.PreviousSession | engines/market/trading_clock.py:179-187 | every answer is the full calendar's; it raises exactly when neither the cached window nor the preceding 371 days has an open day |
| TradingClock.QuantCalendar.AdvanceSessions | engines/market/trading_clock.py:189-194 | every answer is the full calendar's; when each open day the steps pass has a next one within reach in their direction (61 days ahead, 371 back), it raises exactly when the first normalisation does |
| TradingClock.NormalizeCanMiss | engines/market/trading_clock.py:196-199 | two queries on plain weekdays after which `normalize` raises on a Sunday at the window's edge although Friday is open |
| CircuitBreakers.CircuitBreaker.BeforeCall | app/model_gateway/circuit_breaker.py:30-40 | admits unless open and too recent; a late call turns the breaker half open |
| CircuitBreakers.CircuitBreaker.RecordSuccess | app/model_gateway/circuit_breaker.py:42-45 | back to the initial state |
| CircuitBreakers.CircuitBreaker.RecordFailure | app/model_gateway/circuit_breaker.py:47-51 | counts the failure, and opens at the threshold or from half open |
| CircuitBreakers.BreakerInvariant | app/model_gateway/circuit_breaker.py:21-51 | after any history: closed exactly below the threshold, the opening time set exactly when not closed, and equal to the last recorded failure |
| CircuitBreakers.RejectedIff | app/model_gateway/circuit_breaker.py:30-51 | a call is rejected exactly while open and less than the recovery time after the last failure, however many calls were rejected meanwhile |
| CircuitBreakers.RejectedByHistoryIff | app/model_gateway/circuit_breaker.py:30-51 | with a monotone clock the history alone decides: rejected exactly when the failures since the last success reach the threshold and the last is more recent than the recovery time |
| CircuitBreakers.ProbeDecides | app/model_gateway/circuit_breaker.py:42-51 | in the half-open state one failure reopens and one success resets |
| ModelGateways.TokenCostBudget.Check | app/model_gateway/budget.py:24-33 | all four caps |
| ModelGateways.TokenCostBudget.Charge | app/model_gateway/budget.py:35-42 | adds clamped amounts, or raises and changes nothing |
| ModelGateways.ChargeKeepsCapsIff | app/model_gateway/budget.py:24-42 | an accepted charge keeps every cap exactly when the clamped total fits; always for non-negative usage |
| ModelGateways.NegativeUsageBreaksTotalCap | app/model_gateway/budget.py:35-42 | a response reporting negative input tokens is accepted and breaks the total cap |
| ModelGateways.ModelGateway.RetryCall | app/model_gateway/retry.py:47-66 | at most max(1, max_attempts) calls, all but the last retryable errors, and a retryable error is raised only when no attempts are left |
| ModelGateways.ModelGateway.StructuredAttempts | app/model_gateway/gateway.py:133-174 | charges every response in order, valid or not, stops at the first valid one, and calls nothing unless the estimate fits |
| ModelGateways.ModelGateway.TryRoute | app/model_gateway/gateway.py:122-190 | one route: a failed budget check or an open breaker makes no call; the breaker records exactly one success or failure, and nothing when rejected or when the endpoint itself raises the budget or circuit error |
| ModelGateways.ModelGateway.PassRoute | app/model_gateway/gateway.py:122-190 | one pass moves the breaker of its own route and no other |
| ModelGateways.ModelGateway.Complete | app/model_gateway/gateway.py:110-193 | the budget moves by the sum over all charged responses, which are all responses of all routes tried but possibly a last one that did not fit; a result reports that sum; if the responses of this call are honest all caps hold on every exit; calls number at most routes x structured attempts x attempts; routes are tried until one answers or the budget stops; pass by pass only the tried route's breaker moves, by at most one success or failure |
| MetricStores.MetricStore.constructor | app/model_gateway/metrics.py:55-59 | the size limit is at least one |
| MetricStores.MetricStore.Observe | app/model_gateway/metrics.py:89-96 | accumulate, move to the end and evict in the loop compute `Observed` |
| MetricStores.AgeAppend | app/model_gateway/metrics.py:89-96 | one observation ages exactly the keys used after which the observed key had not been seen |
| MetricStores.StoreRefinesHistory | app/model_gateway/metrics.py:89-96 | after any history the store holds exactly the max_series most recently observed keys, oldest use first, each with the sum of its observations since it last entered |
| Replay.ApplyRunnerResult | engines/decision/replay.py:502-559 | the key-by-key update computes `Applied` |
| Replay.AppliedSettles | engines/decision/replay.py:502-559 | a closed form, read off the runner's result alone, for each input field after the update: which fields a runner can move, and to what |
| Replay.ApplyOverrides | engines/decision/replay.py:389-394 | the counterfactual update computes `Overridden` |
| Replay.KeepsFixedIff | engines/decision/replay.py:562-573 | a result gets past the fixed-field check exactly when it neither names nor implies another fixed input |
| Replay.ChangedExactly | engines/decision/replay.py:585-587 | a field is reported changed exactly when declared or compared and different, or declared and new to the baseline |
| Replay.SuccessMeetsContract | contracts/replay.py:155-166 | every success record passes the validators of `ReplayResult` and `ReplayDiff`, and matches exactly when no listed field differs |
| Replay.RejectionMeetsContractIff | contracts/replay.py:155-166 | a rejection record is valid exactly for a non-empty decision id |
| Replay.PassedReplayContract | engines/decision/replay.py:234-286 | a replay that passes succeeds, equals the baseline on every fixed field of its mode, lists all of them as fixed, and carries exactly the requested replacement or overrides |
| Replay.ExactSucceedsIff | engines/decision/replay.py:241-250 | an exact replay with a runner succeeds exactly when no compared field of the baseline differs; then nothing is listed as changed |
| Replay.ListedDiffersIff | engines/decision/replay.py:585-599 | every listed field of a counterfactual differs exactly when no override is null for a field the baseline lacks |
| Replay.RunnerSegments | engines/decision/replay.py:242-280 | a result is applied exactly when it passes every check before the record is built |
| Replay.ReplayV2 | engines/decision/replay.py:234-286 | which record each request, anchor and runner outcome yields; it raises exactly on an empty decision id, and every record it returns passes the validators |
| ReplayAliases.AppliedAlias | engines/decision/replay.py:502-559 | a closed form for the second names (`model`, `skill`, `policy`, `workflow`) after any result |
| ReplayAliases.AliasDiffersIff | engines/decision/replay.py:234-286 | in a replay that succeeds a second name differs from the record exactly when the result, or the replacement, does not leave it alone |
| ReplayAliases.UnlistedChangeIff | engines/decision/replay.py:576-620 | a replay that succeeds changes a recorded segment its record does not list exactly when some second name is not left alone and is no declared override; no other segment ever changes unlisted |
| ReplayAliases.SilentChangeIff | engines/decision/replay.py:576-620 | neither name of a changed segment is listed exactly when the result reports the second name changed beside an identity it does not report, or a policy beside an unchanged evaluation |
| ReplayAliases.SilentWorkflow | engines/decision/replay.py:234-286 | for any record and any requested model, a complete accepted result that also reports another workflow changes that segment under no listed name |
| PathMetrics.BuildPoints | engines/decision/outcome_evaluator.py:176-183 | the loop fills the table of normalised closes |
| PathMetrics.PointsStartAtEntry | engines/decision/outcome_evaluator.py:180-183 | every series has a point on the entry date and none before it |
| PathMetrics.LastKnown | engines/decision/outcome_evaluator.py:192-193 | the value at the latest known date |
| PathMetrics.LastKnownIsForward | engines/decision/outcome_evaluator.py:190-193 | that value is the forward fill along the calendar, and the default 1.0 is never used |
| PathMetrics.AllDates | engines/decision/outcome_evaluator.py:187 | all dates, each once, in order |
| PathMetrics.CalendarStarts | engines/decision/outcome_evaluator.py:187 | the calendar starts on the entry date |
| PathMetrics.Mean | engines/decision/outcome_evaluator.py:189-194 | the equal-weight mean of the forward-filled series |
| PathMetrics.Drawdown | engines/decision/outcome_evaluator.py:195-199 | the one-pass loop computes the running drawdown, and divides by zero exactly when some peak is zero |
| PathMetrics.RunningIsWorstPair | engines/decision/outcome_evaluator.py:195-199 | on positive values it is the worst change between any day and any later one |
| PathMetrics.Evaluate | engines/decision/outcome_evaluator.py:172-200 | no path exactly without windows or an entry price; otherwise drawdown, lowest and highest value of the forward-filled basket |
| PathMetrics.PositivePath | engines/decision/outcome_evaluator.py:172-200 | positive closes never divide by zero, and the reported drawdown is the worst pair |
| Frontmatter.FormatFrontmatter | app/admin_service.py:150-155 | the joined lines are `Printed` |
| Frontmatter.ParseFrontmatter | app/admin_service.py:134-147 | the line loop computes `Parsed` |
| Frontmatter.BodyReturns | app/admin_service.py:147-154 | the printed body trims back to the stripped body, whatever it contains |
| Frontmatter.PrintedParses | app/admin_service.py:134-155 | with printable keys and dash-free values the parser sees every field, its value trimmed, and the stripped body |
| Frontmatter.ParsedBackIsPlain | app/admin_service.py:134-147 | whatever was printed, what comes back has printable keys and one-line, dash-free values |
| Frontmatter.RoundTripIff | app/admin_service.py:134-155 | printing then parsing returns the dictionary and the stripped body exactly when every key and value prints: one line, no `---`, unchanged by trimming, no colon in keys |
| Frontmatter.PrintsOnce | app/admin_service.py:150-155 | printing the stripped body gives the same text |

## Left out

- Execution.PopAccuracy: real numbers, not IEEE doubles; only the thresholds written in the code appear.
- WinRate.RoundTripWinRate: rounding is of the exact share, not of its double; logged buys have positive shares, as the ledger guarantees.
- Portfolio.PortfolioState.Rebalance: the execution callback is a pure function of side, name, quantity and price; its bar data, event log and trade dates beyond day numbers are not modelled; the errors raised on ambiguous or invalid limit metadata abort a backtest and are left out.
- Portfolio.PortfolioState.SellShares: the trade log is a field of the state instead of a list passed along.
- Backtest.RunTopKBacktest: equity, benchmark, turnover and holdings series, score-time contracts, ambiguous-rule errors and price-limit coverage counts are left out; previous close, last close and limit prices are inputs of each day's panel.
- PriceLimits.ResolvedIsLawful: the share code, upper-cased listing stage, parsed rates and the risk flag are inputs; extracting them from quote dictionaries and dates from text is left out.
- PriceLimits.RoundingIsNearest: decimal conversion of floats is left out; prices and ticks are reals.
- AgentGraph.TaskGraph.TopologicalLayers: task ids are numbered, so sorting compares numbers instead of strings.
- Supervisors.Supervisor.Run: specialists are functions of the task and the artifacts of its dependencies, which is all of the shared context they see here; `max_parallel_agents`, conflict detection, quality scoring, agent-run records and an exception from storing a failed subtask are left out. The budget is touched by the supervising thread only, so commit is one step.
- ConclusionStore.StepKeepsInv: a worker writes what one transition, or one seal attempt at the same state, makes of a run it has read; payloads and the digest are abstract, audit lists are left out, and a reservation brings a fresh conclusion id.
- TradingClock.QuantCalendar.Refresh: the fetcher returns the true sessions of the range it is asked for, or raises; row parsing, contract versions, session times and time zones are left out. Days are integers.
- TradingClock.QuantCalendar.AdvanceSessions: whether it raises is stated for calendars whose closures on the way are within reach; a longer closure may still be answered from a window loaded earlier.
- ModelGateways.ModelGateway.RetryCall: the back-off sleep between attempts is left out; it changes no state.
- ModelGateways.ModelGateway.Complete: an endpoint that raises the gateway's own structured-output error is not among the replies; the network, response parsing, and token estimation are oracles; caps are proved for calls whose responses report non-negative usage.
- CircuitBreakers.CircuitBreaker.BeforeCall: the clock is a reading passed in; `call` is left out.
- MetricStores.StoreRefinesHistory: label normalisation and the shared process-wide store are left out.
- Replay.ReplayV2: anchor validation is one yes-or-no input, runners do not modify the baseline they are given, hashes are an abstract function, identifiers of snapshot and bundle are left out, and JSON numbers and booleans are distinct.
- PathMetrics.Evaluate: the caller's check of a positive entry price is its precondition; row dates are given.
- Frontmatter.RoundTripIff: dictionaries are field lists without repeated keys; file access is left out.
- HTTP routers, SQL storage, prompts, skills, chat history and deployment scripts: plumbing around these parts.
- Legacy replay modes, opportunity ranking, portfolio construction and benchmark routing: data mappings without a law across calls.
