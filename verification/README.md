# Verified models of a trading system's hard parts

This project models the parts of the repository where correctness rests on state, order of steps or
exact arithmetic, and proves what each of them keeps over all inputs and all runs.

| part | modules |
|---|---|
| Daily backtest engine: T+1 fills, exits, slots, sizing, trade log, analyzer | `Market`, `Config`, `Fees`, `Exits`, `ExitTable`, `ExitFacts`, `Engine`, `EngineClass`, `EntryTable`, `Ranking`, `TradeTable`, `Analyzer`, `Books`, `BooksOverRuns`, `LookAhead`, `Limits`, `LimitsOverRuns`, `EquityCurve` |
| The channel exit, written three times, and its comparison arm | `ChannelGate`, `EngineGate`, `GateTable` |
| One-shot activation with receipt, lock, rollback and a point of no return | `Activation`, `ActivationProgress` |
| All-or-nothing file swap and the preparation around it | `ReplaceSet`, `Preparation` |
| Inter-process singleton lock | `SingletonLock` |
| Offline policy simulator: fractional ladder, greedy sample filter | `PolicyLadder`, `PolicyTable`, `PolicyLadderFacts`, `Dedupe` |
| Uniform quote placement, busiest minute, scan/quote merge | `QuoteSchedule` |
| Risk-ledger exporter and its auditor | `RiskLedger`, `LedgerTable` |
| Sell, cancel, re-read, fallback | `SellProtocol` |

`Basics` and `Sums` are shared vocabulary. Prices and money are `real`, shares are integers, `int()` is
truncation toward zero, and whole-won fees are rounded half up as the calculator does. A price history
is a map from symbol and day to a bar. Objects whose methods update them (`BTPosition`, `BTExitManager`,
`BacktestEngine`, the disk of the swap, the preparation host, the sell script's account) are classes,
and each method is proved against a function of the old state; loops over local variables are loops
with invariants. What spans processes or crashes (`Activation`, `SingletonLock`) is a step machine:
any number of processes, any interleaving, any step failing, a crash between any two steps.

Decisions are stated twice. The functions follow the program's branches; the modules named `...Table` state
what is documented, from prices, settings and states alone: for every reason its condition, its price and
its place in the order, for every step what it leaves behind. That the two agree on all inputs is proved,
so a decision taken on the wrong side of a comparison contradicts its table.

Results a reader would not get from one body:

* **Five properties hold only under a condition, which is proved exact.** A trailing exit of the policy
  simulator that is not a gap is a gain after fees exactly for entry prices of at least 1/37 won
  (below that, whole-won rounding on 1,000 shares eats it). Rollback of an activation deletes its own
  drop-in exactly when no event swapped the file between the identity check and the unlink; a run in
  which it deletes a stranger's file is constructed. One step of an activation failing between checkout
  and restart, with a clean way back, is rolled back in full exactly when it was not the reading of the
  new drop-in's identity; then the file stays, and the rollback is reported as failed. The risk cap on a
  quantity is the largest within its budget exactly when one share above its first guess is not; 3,000 won
  at 5 per cent with a budget of 150 is a case where it is not, and it is never more than one share short.
  A swap of files that raises leaves every original standing exactly when no interrupt struck between a
  rename that was carried out and its being noted (or the one file's new bytes are its old ones).
* **Exporter and auditor disagree in two families**, both characterised: a closed trade without a
  readable sale is exported without a net result, which the auditor refuses together with the whole
  ledger; and readable sale legs that contradict the recorded result by more than a won are disputed.
  Over the initial risk of a confirmed entry they do not disagree, however many parts it was filled in:
  the exact condition for that dispute is one that an entry confirmed over its fills never meets.
* A capacity plan that is accepted has a scan and a candidate, and then publishes exactly as many records
  as the qualifier expects.
* `check_exit` and the plain channel walk part company exactly at the 999th day.
* Unlinking the lock file would admit two holders; that variant is modelled and the run is given.

Three corners are kept as coded. `risk_quantity_cap` documents the largest quantity within the budget
(`src/utils/sizing.py:42-48`), but only ever shrinks a guess made with the unrounded fee. Rollback means
to clean up only the activation's own drop-in (`scripts/ops/entry_capture_activate.py:789-791`), but it
checks the identity and then unlinks by path, so the model has the gap between the two. And the budget
check counts what a strategy bought earlier the same day twice, once as a position and once as the day's
fills (`scripts/backtest_strategies.py:1650-1666`); the exposure bound is stated with that double count.

## Model

| member | source | states |
|---|---|---|
| Exits.RunChannelExit | scripts/backtest_strategies.py:1068-1092 | In place on the position: gap, stop or channel decides, in that order, and only stop and runner change |
| Exits.BTExitManager.RunHoldingRules | scripts/backtest_strategies.py:1100-1132 | Time, stagnation and lost-trend rules each sell the whole rest; otherwise nothing moves |
| Exits.BTExitManager.RunLadderExit | scripts/backtest_strategies.py:1192-1347 | The ladder's checks in the program's order on the mutable position, tied to the value semantics used by every later theorem |
| Exits.BTExitManager.RunCheckExit | scripts/backtest_strategies.py:1134-1347 | One bar on a position, both policies, equal to the value semantics in new state and in actions |
| ExitTable.CheckExitByTable | scripts/backtest_strategies.py:1134-1347 | A position is sold out for the first reason of the documented order whose condition on position and bar is met, at that reason's price, after at most one rung; else it lives on; and every field it is left with is given |
| ExitTable.LadderSurvivor | scripts/backtest_strategies.py:1192-1347 | A ladder position left alive traded above the day's stop and, once old enough, closed above breakeven and an armed trailing stop, and within composite, low-efficiency and holding rules |
| ExitTable.ChannelSurvivor | scripts/backtest_strategies.py:1068-1092 | A channel position left alive stayed above its hard stop and closed above the channel its runner state calls for, and its stop is raised to just under it |
| ExitTable.NetIsNetPnlPct | scripts/backtest_strategies.py:322-342 | The net result of a share in per cent, both fees written out |
| ExitFacts.CheckExitConserves | scripts/backtest_strategies.py:1134-1347 | Whatever fires, shares sold plus shares left are shares held, no action is negative, the stage never goes back |
| ExitFacts.CheckExitFair | scripts/backtest_strategies.py:1134-1347 | With stop distances of at most the whole price, non-negative bars never lead to a sale below zero |
| ExitFacts.SlotWeightMonotone | scripts/backtest_strategies.py:233-245 | Fewer shares or a later stage never weigh more |
| ExitFacts.ExitNeverAddsWeight | scripts/backtest_strategies.py:233-245 | No bar ever raises a position's slot weight |
| Fees.TotalCostAdds | scripts/backtest_strategies.py:322-342 | However a purchase is split, its parts cost what the whole costs |
| Fees.ShrinkMeetsBudget | src/utils/sizing.py:55-58 | The correction loop ends within the budget or with no order, and everything it passed over was beyond it |
| Fees.LargestExactlyWhen | src/utils/sizing.py:42-58 | The cap is the largest quantity within the budget if and only if one share above the first guess is not within it |
| Fees.AtMostOneShareShort | src/utils/sizing.py:42-58 | For prices from half a won, nothing more than one share above the cap is within the budget |
| Fees.RoundedFeeLeavesRoom | src/utils/sizing.py:42-58 | A concrete order for which the cap is not the largest quantity within the budget |
| Fees.PlannedRiskMonotone | src/utils/sizing.py:30-39 | Fewer shares never plan a larger loss, whole-won fee rounding included |
| Market.LastBarAgrees | scripts/backtest_strategies.py:761-795 | What the look-up of past bars returns depends on bars up to its day alone |
| EntryTable.LastBarIsLatest | scripts/backtest_strategies.py:761-795 | The look-up finds a bar of the symbol with none between it and the day, and nothing only where there is none |
| EntryTable.MarksAre | scripts/backtest_strategies.py:1861-1885 | Positions are valued at the last close up to the day; at the open at the day's open, else the last close before |
| EntryTable.EquityIs | scripts/backtest_strategies.py:1861-1885 | Equity is cash plus every share held at its mark |
| EntryTable.HeldAtCostIs | scripts/backtest_strategies.py:1650-1666 | A strategy's exposure is what the shares still held had cost |
| EntryTable.SlotIs | scripts/backtest_strategies.py:1668-1676 | A weighted slot is the part still held, scaled with the stage, within its floor and one |
| EntryTable.OrderValueIsLeast | scripts/backtest_strategies.py:1837-1859 | An order is sized from the least of its ceilings: share of equity or of risk, cap, free cash, budget left |
| EntryTable.SizedToTheLimit | scripts/backtest_strategies.py:1557-1612 | It gets as many shares as that and the risk cap pay for, or as the cash pays for with one per cent kept back, never one fewer |
| EntryTable.NoOrderOnlyWhen | scripts/backtest_strategies.py:1557-1612 | It gets none only for a ceiling below minimum or one share, a risk cap that leaves too little, too little cash, or the reserve |
| EntryTable.FillByTable | scripts/backtest_strategies.py:1526-1648 | An admitted order is filled at the day's own open or close, unless that is no price, gapped down too far, or sized to nothing; every field of the position it opens |
| TradeTable.OrderByTable | scripts/backtest_strategies.py:1510-1648 | Which orders are passed over, which raise, and what a fill changes about cash, log, positions, slots and the day's budget |
| TradeTable.SettleByTable | scripts/backtest_strategies.py:1678-1716 | The exits of a position are logged one for one with amount, fee and net result, paid in, and a loss among them locks |
| TradeTable.DayByTable | scripts/backtest_strategies.py:1426-1455 | A day in order: orders at the open, exits, signals unless an exit was a loss, same-day fills, equity and its peak |
| TradeTable.CloseAllByTable | scripts/backtest_strategies.py:1887-1908 | Liquidation sells every position left, whole, in order, at its last close, and leaves none |
| TradeTable.TripsByTable | scripts/backtest_strategies.py:1974-2012 | Every round trip is one purchase with exactly the sales of its symbol up to the one that reaches its quantity, with their sums, its result, percentage and multiple of risk |
| Ranking.SortRanks | scripts/backtest_strategies.py:1507-1509 | Orders go best first, and in the order of arrival among equals |
| Ranking.SlotsGoToTheBest | scripts/backtest_strategies.py:1511-1523 | On every day of every run, an order that finds no slot scores no more than any order of its pool that got one |
| Ranking.ShortPicksAreTheBest | scripts/backtest_strategies.py:1733-1766 | The day's short-term orders are the best admissible signals, one per symbol, as many as there are seats |
| Ranking.CorePicksAreTheBest | scripts/backtest_strategies.py:1768-1784 | Core orders come on a month's first trading day only, the best admissible, as many as there are seats |
| EntryTable.MonthStartIs | scripts/backtest_strategies.py:1825-1835 | A month's first trading day: within five days and after a bar of another month, or within three without a bar |
| Ranking.OneCoreDayAMonth | scripts/backtest_strategies.py:1825-1835 | No later day of a month is its first trading day as well |
| EngineClass.BacktestEngine.constructor | scripts/backtest_strategies.py:1351-1374 | A new engine holds the capital, no positions, no orders, no log |
| EngineClass.BacktestEngine.ExecutePendingBuys | scripts/backtest_strategies.py:1486-1648 | The mutable fill loop with its running slot, core and day counters raises, fills and logs as the state function of the step says |
| EngineClass.BacktestEngine.RunCheckExits | scripts/backtest_strategies.py:1678-1716 | The exit loop settles every positive action, locks on a loss, and keeps the surviving positions in order |
| EngineClass.BacktestEngine.RunGenerateSignals | scripts/backtest_strategies.py:1718-1785 | The selection loops append to the pending orders and change nothing else |
| EngineClass.BacktestEngine.RunOneDay | scripts/backtest_strategies.py:1426-1455 | A whole day on the object equals the day function, raise included |
| EngineClass.BacktestEngine.RunCloseAll | scripts/backtest_strategies.py:1887-1908 | Liquidation on the object equals the liquidation function |
| EngineClass.BacktestEngine.Run | scripts/backtest_strategies.py:1376-1471 | The run loop over any list of days, then liquidation, equals the composed state function |
| Analyzer.Positions | scripts/backtest_strategies.py:1974-2012 | The one-pass reader of the log with its running dict equals the ledger fold the book-keeping theorems speak of |
| Books.BuyKeepsBalance | scripts/backtest_strategies.py:1611-1642 | A fill keeps cash, log and open round trips in balance |
| Books.SaleKeepsBalance | scripts/backtest_strategies.py:1689-1712 | A sale of any part of a position keeps them in balance, closing the round trip exactly when nothing is left |
| Books.BoughtMinusSoldIsHeld | scripts/backtest_strategies.py:1611-1716 | Per symbol, shares bought minus shares sold in the log are the shares held |
| BooksOverRuns.BooksBalanceEveryDay | scripts/backtest_strategies.py:1426-1455 | After every day of every run, cash equals capital plus logged flows and every open round trip mirrors its position |
| BooksOverRuns.BooksBalanceEndToEnd | scripts/backtest_strategies.py:1887-2012 | After liquidation: one round trip per buy, none open, and round-trip profit, sell-event profit and change of cash are one number |
| LookAhead.MorningAgrees | scripts/backtest_strategies.py:1486-1648 | Two histories equal before a day and in that day's opens fill the same orders |
| LookAhead.DayAgrees | scripts/backtest_strategies.py:1426-1455 | Two histories equal up to a day's close give the same evening |
| LookAhead.NoLookAhead | scripts/backtest_strategies.py:1426-1648 | Two-run property over whole runs: nothing after the morning's opens can influence the morning's state |
| LookAhead.NoLookAheadOnOwnCalendars | scripts/backtest_strategies.py:1426-1484 | The same with each history's days taken from its own bars, whatever comes later in either |
| LookAhead.NeverRaises | scripts/backtest_strategies.py:1528-1540 | Over increasing days the information-time error never occurs, and waiting orders carry only past dates |
| LookAhead.RealRunsNeverRaise | scripts/backtest_strategies.py:1473-1484 | The engine's own calendar is increasing, so no real run raises |
| LookAhead.TradingDaysAgree | scripts/backtest_strategies.py:1473-1484 | Which days are visited before a day does not depend on later bars |
| Limits.FillRespectsLimits | scripts/backtest_strategies.py:1557-1612 | However an order was downsized: reserve kept, risk share respected gross and with the rounded fee, budget respected up to the order's fee |
| Limits.FilledOrderWithinLimits | scripts/backtest_strategies.py:1650-1666 | The same seen after the fill: total exposure of the strategy at cost, the same-day double count included |
| LimitsOverRuns.PurchaseTrace | scripts/backtest_strategies.py:1611-1642 | Every buy in a run's log was made by one order of one day's fills, at the open or at the close |
| LimitsOverRuns.EveryPurchaseWithinLimits | scripts/backtest_strategies.py:1557-1666 | Every buy in the log of every run left its desk within reserve, risk share and budget |
| Limits.CashNeverNegative | scripts/backtest_strategies.py:1426-1455 | With a non-negative reserve and stop distances up to the whole price, cash is not negative at the end of any day of any run |
| LimitsOverRuns.CashNeverNegativeAtAnyFill | scripts/backtest_strategies.py:1594-1612 | Nor after any number of a day's orders, at the open or at the close, where it is lowest |
| LimitsOverRuns.CashNeverNegativeAtAnySale | scripts/backtest_strategies.py:1678-1716 | Nor after any number of a day's exits or of the final liquidation's |
| Limits.OrderKeepsSlots | scripts/backtest_strategies.py:1499-1523 | The loop's running counters stay equal to the recomputed usage, and within the caps |
| Limits.SlotBoundOverRuns | scripts/backtest_strategies.py:1426-1455 | At the end of every day of every run weighted usage is below cap plus one, and at most the cap when slots are whole |
| LimitsOverRuns.SlotsBoundedAtAnyFill | scripts/backtest_strategies.py:1499-1648 | So it is after any number of a day's orders, where usage peaks, with the running counters equal to the recomputed usage |
| LimitsOverRuns.BooksBalanceAtAnyFill | scripts/backtest_strategies.py:1611-1642 | The books also balance after any number of a day's orders, at the open or at the close |
| LimitsOverRuns.BooksBalanceAtAnySale | scripts/backtest_strategies.py:1678-1716 | And after any number of positions the exits of a day, or the liquidation, have gone through |
| LimitsOverRuns.SlotsBoundedAfterExits | scripts/backtest_strategies.py:1668-1716 | And after the morning's fills and after the exits of every day |
| EquityCurve.CalcMdd | scripts/backtest_strategies.py:2112-2127 | The running peak finds the worst fall over all ordered pairs of days, with the dates of a pair that attains it |
| EquityCurve.MonthlyReturns | scripts/backtest_strategies.py:2139-2153 | The month loop with its dict equals the fold the compounding theorem speaks of |
| EquityCurve.MonthlyReturnsCompound | scripts/backtest_strategies.py:2139-2153 | On a date-sorted positive curve the months compound exactly to last over first, each month later than those before it |
| EquityCurve.OneReturnAMonth | scripts/backtest_strategies.py:2139-2153 | On any positive curve, sorted or not, no month has two returns |
| ChannelGate.SimulateExit | scripts/backtest_t1_gate.py:121-147 | The study's own loop leaves at the bar and price at which calling the channel exit daily leaves |
| ChannelGate.CheckExitIsChannelWalk | scripts/backtest_strategies.py:1181-1190 | Under the policy without holding rules, check_exit leaves where the walk leaves, and at day 999 otherwise; on shorter data they never differ |
| ChannelGate.StopNeverFalls | scripts/backtest_strategies.py:1068-1092 | Over well-formed bars the stop is a ratchet, also when the channel widens, and lies at or below every surviving close |
| ChannelGate.WalkAboveStop | scripts/backtest_t1_gate.py:121-147 | Every exit that is no gap, and the last close otherwise, is at or above the first stop |
| ChannelGate.LossIsBounded | scripts/backtest_t1_gate.py:121-147 | With a later bar the result is at least minus risk minus cost unless the exit gapped |
| EngineGate.SimulateExitEngine | scripts/backtest_t1_gate.py:150-188 | The comparison loop's accumulated result is the weighted gain of the legs of the walk, less cost |
| GateTable.ChannelArmByTable | scripts/backtest_t1_gate.py:121-147 | The channel arm ends on the first bar that gaps, touches or closes under, at that price, else at the last close, and reports its change less 0.6 |
| GateTable.EngineArmByTable | scripts/backtest_t1_gate.py:150-188 | The comparison arm ends on the first of 20 bars at or below its stop or trailing line, at that price, and reports its rungs' gain and the rest's, less 0.6 |
| EngineGate.SameRiskAsTheChannel | scripts/backtest_t1_gate.py:150-188 | Its legs weigh one in all, and it shares the channel arm's loss bound unless a bar opened through the stop |
| Activation.AtMostOneRestart | scripts/ops/entry_capture_activate.py:648-917 | Any number of activations, any failures and crashes: at most one restart command, in the window, after the receipt, under the lock, with HEAD seen new and nothing pending |
| ActivationProgress.UndisturbedCompletes | scripts/ops/entry_capture_activate.py:648-917 | With every step a success inside the window it completes, in 24 or 26 steps, with exactly one restart of its own, HEAD at the new commit, its drop-in in place and the status file written |
| ActivationProgress.OneFailureLeaves | scripts/ops/entry_capture_activate.py:648-917 | For each step that may fail and each way: what is reported, where HEAD is, whether the drop-in stays, whether the restart went out; between checkout and restart everything is rolled back, except a drop-in whose identity could not be read |
| ActivationProgress.UnwrittenStatusFails | scripts/ops/entry_capture_activate.py:904-917 | A status file that cannot be written anew turns the report into a failure and changes nothing else |
| Activation.SpentReceiptAdmitsNobody | scripts/ops/entry_capture_activate.py:731-735 | An existing receipt lets nobody through: no restart, no removal, HEAD untouched |
| Activation.RollbackContract | scripts/ops/entry_capture_activate.py:886-917 | A reported rollback means HEAD back and own drop-in gone; none after a restart attempt; a changed state never goes unreported; completion implies readiness seen and the status file written |
| Activation.RollbackDeletesItsOwn | scripts/ops/entry_capture_activate.py:892-900 | Each removal hits the own file exactly when no event of the run swapped the path while its process stood between check and unlink |
| Activation.AStrangersFileCanBeDeleted | scripts/ops/entry_capture_activate.py:892-900 | From an initial machine there is a run that deletes a file of another identity |
| Activation.RunKeepsSound | scripts/ops/entry_capture_activate.py:648-917 | The invariant of every reachable state, outsiders included |
| ReplaceSet.Disk.WriteNew | scripts/ops/entry_capture_prepare_20261007.py:156-163 | Existing files survive every outcome, and success leaves exactly the given bytes |
| ReplaceSet.Disk.ReplaceSet | scripts/ops/entry_capture_prepare_20261007.py:200-222 | Return: all new. Raise other than incomplete: all as at the start, except for one file exactly when an interrupt struck after a rename that was carried out and before its note. At every moment each target is old or new, no target no rename reached is new, and every other file that was there is untouched. Only a fault, a target that is not as expected, a stage path in use or an interrupt keeps it from returning, and only a fault or a restore path in use from rolling back |
| ReplaceSet.Disk.SwapAll | scripts/ops/entry_capture_prepare_20261007.py:204-212 | The loop leaves exactly the noted targets new, and at most one more: the file of the interrupted round |
| ReplaceSet.Disk.Restore | scripts/ops/entry_capture_prepare_20261007.py:213-222 | The handler restores all it can, and everything unless it reports failure |
| Preparation.Host.Disarm | scripts/ops/entry_capture_prepare_20261007.py:528-538 | Both disable commands are given, the activation's first, whatever fails; nothing is armed, and success leaves both timers off |
| Preparation.Host.Apply | scripts/ops/entry_capture_prepare_20261007.py:478-526 | Every change of the disk is recorded with the timers as they stood, and in every recorded situation an armed new timer stands over a complete new set of files |
| Preparation.Host.Prepare | scripts/ops/entry_capture_prepare_20261007.py:438-543 | One attempt for ever: an existing backup directory is refused untouched; each outcome fixes timers, records, files and the commands given; without a fault it applies |
| SingletonLock.MutualExclusion | scripts/run_trader.py:51-108 | In every interleaving with crashes at most one process is between its flock and its release |
| SingletonLock.HolderRecordStands | scripts/run_trader.py:63-88 | Nothing others do, failed acquires included, alters the holder's recorded pid |
| SingletonLock.OnlyOwnPidFileRemoved | scripts/run_trader.py:91-108 | A release never removes a successor's PID file |
| SingletonLock.CrashFreesTheLock | scripts/run_trader.py:51-108 | When the holder dies, the next process that tries gets the lock |
| SingletonLock.UnlinkingAdmitsTwoHolders | scripts/run_trader.py:107-108 | The rejected variant reaches a state with two holders |
| PolicyLadder.SimulateExit | scripts/team_policy_ab.py:511-605 | The loop with its running remaining, realized, stage and high-water mark reports what the leg-by-leg scan reports |
| PolicyTable.ReportByTable | scripts/team_policy_ab.py:511-605 | The position ends on the first bar that gaps through or touches stop or trailing line, at the open or that line, else at the last close of 20 days; date, age, reason and net result with the rungs reached by the highest high |
| PolicyTable.RoundingMovesLittle | src/utils/fee_calculator.py:68-92 | Rounding fees and result to whole won moves the result on 1,000 shares by at most 1.5 won |
| PolicyLadder.ClimbRungs | scripts/team_policy_ab.py:578-588 | The rung loop accumulates exactly the net of the legs it sells |
| PolicyLadderFacts.EveryReportSellsEverything | scripts/team_policy_ab.py:511-605 | Remaining is a function of the stage, leg weights add to one, no take-profit exit ever ends a position, and it is held fewer than 20 days |
| PolicyLadderFacts.LaterBarsNeverMatter | scripts/team_policy_ab.py:511-605 | Any history that agrees up to a triggered exit reports the same exit |
| PolicyLadderFacts.TrailingExitGains | scripts/team_policy_ab.py:592-597 | From an entry of 1/37 on, every trailing exit at its line is a gain after fees |
| PolicyLadderFacts.TinyEntryGainsNothing | scripts/team_policy_ab.py:496-500 | Below that, a concrete one-bar history trails out at a net of zero |
| PolicyLadderFacts.TrailingGainsExactlyFrom | scripts/team_policy_ab.py:592-597 | The two together: the exact condition on the entry price |
| PolicyLadderFacts.SmallestTrailingGain | src/utils/fee_calculator.py:68-92 | Whole-won rounding of both fees and of the result leaves at least one won on 1,000 shares |
| Dedupe.DedupeCorrelated | scripts/team_policy_ab.py:685-716 | The loop with its list, dict and set keeps and drops what the greedy pass over the sorted input does |
| Dedupe.KeptPlusExcludedIsInput | scripts/team_policy_ab.py:697-716 | Kept and excluded candidates are the input, one for one |
| Dedupe.KeptAreSpacedAndWeekNeverMatters | scripts/team_policy_ab.py:672-716 | Kept candidates of a symbol are more than 28 days apart, and the calendar-week test decides nothing |
| Dedupe.GreedyIsOptimal | scripts/team_policy_ab.py:685-716 | No choice of candidates with that spacing is larger |
| QuoteSchedule.QuoteBeforeSecond | scripts/qualify_order_ready_window_capacity.py:74-76 | Which quotes precede a second, in closed form |
| QuoteSchedule.ScansAreEven | scripts/qualify_order_ready_window_capacity.py:69-71 | Scans are spread evenly, down to the second, from the start to the last second of the admission window |
| QuoteSchedule.Rolling60Peak | scripts/qualify_order_ready_window_capacity.py:79-83 | The bucket array and window sums give the total over 81, rounded up, for every total |
| QuoteSchedule.PeakIsTheBusiestMinute | scripts/qualify_order_ready_window_capacity.py:74-83 | That number is the size of the fullest set of quotes within a minute |
| QuoteSchedule.Capture | scripts/qualify_order_ready_window_capacity.py:200-234 | Every quote once and in order, every scan once and in order, all on schedule, times never decrease, a quote precedes a scan only if strictly earlier, the close is last, every scan's records are the given ones, and for an accepted plan the stream is as long as the qualifier expects |
| QuoteSchedule.PublishScan | scripts/qualify_order_ready_window_capacity.py:207-222 | A scan's records, the buffer's own admissions included, extend the stream by their exact number without disturbing it |
| QuoteSchedule.MetaCountFormula | scripts/qualify_order_ready_window_capacity.py:207-222 | In closed form: the number of scan and control records of a stream |
| QuoteSchedule.ExpectedIsPublished | scripts/qualify_order_ready_window_capacity.py:278-283 | For every plan that validates, which has 1 to 100 scans and candidates, that number is the one the qualifier expects |
| RiskLedger.FillsAndExits | scripts/export_risk_ledger.py:146-205 | The leg loop and its fallback produce the rows the agreement theorems speak of |
| RiskLedger.RowsAreTheLegs | scripts/export_risk_ledger.py:165-179 | One sale row a usable leg, in order, with its price, its quantity and the rounded charge on their product |
| LedgerTable.RowsByTable | scripts/export_risk_ledger.py:128-205 | For every trade: the one buy row's amount and fee, and which of four ways the sale is exported |
| LedgerTable.ResultByTable | scripts/export_risk_ledger.py:208-291 | The exported result: the recorded one, else legs or total less the entry, else none |
| LedgerTable.RiskByTable | scripts/export_risk_ledger.py:240-264 | Stop and initial risk: confirmed, else held while open, else planned on the exported entry |
| LedgerTable.MergedByTable | src/utils/entry_risk.py:135-180 | Exactly which snapshots, values and fills confirm, and with what; all others leave the snapshot as it was |
| RiskLedger.ReconstructionIsExact | scripts/export_risk_ledger.py:105-125 | A reconstructed sale nets the recorded result exactly, whatever its rounded price |
| RiskLedger.QuantizeIsNearestEven | scripts/export_risk_ledger.py:115-117 | The reconstructed price is the nearest multiple of 1/10000, the even one of two |
| RiskLedger.ResidualFeeNearTheRate | scripts/export_risk_ledger.py:105-125 | Its residual fee is the sell rate on the unrounded gross within half a price step per share |
| RiskLedger.ExporterAndAuditorAgree | scripts/export_risk_ledger.py:146-223 | Without readable legs the two programs agree within a won, exactly when reconstructed or derived |
| RiskLedger.DisputedExactlyWhen | scripts/review_risk_canary.py:110-144 | For every closed trade: refused, unverifiable or disputed under exactly these conditions on the legs' own prices and quantities |
| RiskLedger.ConfirmInitialRisk | src/utils/entry_risk.py:106-132 | The loop over an order's fills confirms cost times stop, or nothing without a stop, shares or cost |
| RiskLedger.MergeConfirmedRisk | src/utils/entry_risk.py:135-180 | A snapshot takes the confirmed values of all fills once, and is kept when they are invalid or it has them |
| RiskLedger.InitialRiskDisputedExactlyWhen | scripts/review_risk_canary.py:242-263 | For every confirmed snapshot: disputed exactly when the confirmed quantity is the journal's but the journal's cost is more than a won of risk off |
| RiskLedger.EntryInPartsNeverDisputed | scripts/export_risk_ledger.py:128-143 | With a journal that knows the first fill only and a snapshot confirmed over all of them, the initial risk is never disputed |
| RiskLedger.UnconfirmedNeverDisputed | scripts/export_risk_ledger.py:247-264 | Nor is that of a closed trade whose snapshot was never confirmed |
| RiskLedger.RecomputeNetPnl | scripts/review_risk_canary.py:180-188 | The auditor's row sums, from its loops |
| RiskLedger.ReconstructedNeverSampled | scripts/review_risk_canary.py:208-225 | A reconstructed position is excluded for every cohort, commit and date |
| RiskLedger.PartitionSample | scripts/review_risk_canary.py:379-396 | The report loop yields the sample in order and the five exclusion counts |
| LedgerTable.ExcludedByTable | scripts/review_risk_canary.py:208-225 | A position is left out for the first exclusion of the documented order that applies, and judged when none does |
| RiskLedger.SampleAndExclusionsAreEverything | scripts/review_risk_canary.py:264-396 | Sample and exclusions add up to all positions, and membership in the sample is characterised |
| SellProtocol.FallbackFitsTheRest | scripts/sell_specific.py:33-41 | A fallback is the whole unsold rest or, where that is less, the whole holding, and nothing exactly when there is no snapshot, no holding or no rest |
| SellProtocol.MergeRequests | scripts/sell_specific.py:58-62 | Same-symbol arguments become one request of their sum, in the order of first appearance |
| SellProtocol.Script.Run | scripts/sell_specific.py:52-136 | What is asked of the broker, call by call: read, every request, every cancel, read, the second orders of those that may follow. Against any fills: sold plus still live never exceeds the request, and shares are conserved |
| SellProtocol.FallbacksFollowCancels | scripts/sell_specific.py:109-124 | A second order is only ever for a symbol of which the broker reported a cancel |

## Left out

- Activation.AtMostOneRestart: assumes that nobody deletes the receipt and that the lock path keeps its inode.
- Activation.RollbackContract: the statement about HEAD is for runs in which nobody outside moves HEAD; file identities are taken as never reused.
- Activation.RollbackDeletesItsOwn: ownership, mode and link-count checks are one check that may fail.
- SingletonLock.MutualExclusion: assumes that no other program unlinks the lock file; order command-line tools that take the same lock are further processes of the model.
- ReplaceSet.Disk.ReplaceSet: assumes that nobody else writes the directory between the second check and the rename; a further interrupt that strikes the handler between its own steps is not modelled.
- Preparation.Host.Prepare: backups, release tree, inventory, static checks and runtime guards are steps that may fail.
- Dedupe.KeptAreSpacedAndWeekNeverMatters: for dates that parse and whose text order is their day order; that a calendar week is seven days from a Monday is taken from the calendar.
- Dedupe.GreedyIsOptimal: for the same dates; a date text that does not parse is kept apart from every real week.
- PolicyLadder.SimulateExit: prices that are not a number or infinite are not modelled; a missing field is.
- QuoteSchedule.Capture: the stream holds what is offered to the buffer, and an admission after every order that becomes ready, as while nothing is dropped; which records the buffer drops is not modelled, nor is a rejected scan admission.
- RiskLedger.ExporterAndAuditorAgree: decimals are exact, without the 28-digit context.
- RiskLedger.DisputedExactlyWhen: the net-result check of one position; that the audit skips positions outside the cohort or with missing snapshot fields is not modelled.
- RiskLedger.InitialRiskDisputedExactlyWhen: likewise one position of the cohort whose snapshot has its required fields.
- RiskLedger.EntryInPartsNeverDisputed: that the journal holds the order's first fill, and that confirmation sees every fill, is assumed.
- RiskLedger.UnconfirmedNeverDisputed: of an open trade the risk may come from the exit manager, whose values are inputs.
- RiskLedger.PartitionSample: whether the lots of a trade overlap with another trade's is an input.
- SellProtocol.Script.Run: assumes no trades from outside, position reads that reflect all fills, and a reported cancel that leaves nothing of the order.
- Limits.CashNeverNegative: for non-negative prices; the same holds for LimitsOverRuns.CashNeverNegativeAtAnyFill and LimitsOverRuns.CashNeverNegativeAtAnySale.
- EquityCurve.CalcMdd: for positive equity, where the program divides by the running peak.
- Floating-point rounding and NaN prices: all prices and money are exact reals; a missing indicator is modelled, a missing price is not.
- Entry scores and regime classification: inputs that belong to the bar and the day.
- The daily loss lock at the end of a day: the next morning clears it before anything reads it.
- The engine's fallback calendar from the KOSPI index: the sample symbol's own bars are used.
- Dictionary iteration: insertion-ordered sequences stand for dicts keyed by symbol or month.
- Texts of reasons, log lines, reports, statistics, Sharpe ratio, CAGR, and the timing experiment's counters.
- Which lots overlap (`_ambiguous_ids`), the remaining audit checks, benchmarks and metrics.
- Data loading, caches, brokers, dashboards, messaging and the bot's asynchronous wiring.
- The later preparation scripts: near copies of the modelled one.
