# NeuroTrader: verified models of the trading core

This project models the parts of NeuroTrader that decide what is traded, how much, and what the
reports say about it, and proves properties of them for every input, every run and every behaviour of
the components around them (language model, plugin hooks, stores, price data). Where the Python or
TypeScript code works by changing variables step by step, the model has a method with the same loop or a
class with the same fields, proved equal to a specification function; the theorems are then about that
function.

| files | what they model |
|---|---|
| `CrossSectional`, `CapWeights`, `PortfolioReport` | the portfolio backtester: guards, ranking, weights and their cap, exposure, day loop, evaluated window, metrics |
| `PortfolioEarnings`, `PortfolioMeaning` | what a day earns and costs, what is chosen, weighted and scaled, and what every number of a report means, over closes and curves alone |
| `PortfolioSafety`, `PortfolioCausality`, `PortfolioLookahead`, `PortfolioInvariance` | further theorems about it: solvency, what a run reads and when it looks ahead, window isolation, scale |
| `WalkForward`, `WalkForwardProofs` | walk-forward windows over that backtester, and why the guards suffice |
| `SignalEngine`, `SignalMeaning`, `EngineProofs`, `SignalPipeline` | the signal backtester's ledger, its second (mark-to-market) account, the signal generator, and the backtest of several symbols together |
| `OrderedDict`, `ExposureLayer`, `RiskPipeline`, `RiskMeaning` | the four risk layers, the hook that chains them, and what leaves it |
| `GovernedTurn` | one governed turn of the agent: gate, dispatch, debate, budgets, failing audit writes |
| `VetoLayer` | the fold over discipline hooks and the ledger of its decisions |
| `ParamGovernor` | the parameter journal, its lock and weekly limit, and the chain that changes a setting |
| `Resampler`, `Vwap`, `Kalman` | bar resampling, session VWAP, the Kalman recursion |

Conventions. Prices, weights and money are exact `real`; dates are `int` days (the journal's stamps whole
seconds). Python dictionaries whose order or sum matters are insertion-ordered sequences (`OrderedDict`).
`sqrt`, the correlation of two series, date parsing, period keys, `analyze`, hooks, the model's tool calls,
the yearly growth of a factor, every store answer and whether each audit write goes through are parameters,
constrained only where a theorem says so. An exception the source does not catch is an outcome of its own: `Raised`, `Aborted`, `None` or the
flag `raised`. A record bundling a loop's local variables (`State`, `Book`, `Tracker`) stands for those variables.

## What the proofs found

- **When a portfolio looks ahead, exactly.** With `skip >= 0` no run ever depends on bars it has not
  reached. With a negative `skip`, which the guards let through, every run of a configuration that can hold
  something does on its way (`NoLookaheadExactly`); a call that gets to its last bar does exactly when
  moreover `rebalance_days` is larger than `-skip`, because otherwise whoever rebalances ends in the index
  error (`CompletedLooksAheadExactly`). The position that earns bar i is settled by the bars before i exactly
  when nothing can ever be held; or, with `skip <= 0`, what the last rebalance up to i read lies before i; or,
  with `skip >= 1`, no rebalance is due at i or vol targeting is off (`PositionIsCausalExactly`, for every
  configuration and bar). Both failures have witnesses wherever they can occur: with `skip <= 0` the names are
  chosen by bar i - skip's close and held from then on (`PositionLooksAhead`), and with vol targeting
  on, whose comments call the estimate past-only, bar i's return scales the exposure applied to bar i
  (`ExposureReadsItsOwnBar`; `cross_sectional.py:196`, `:329`, `:344`). A strategy can hold something when
  `top_n` is not zero and the regime filter is off or asks for a breadth of at most one.
- **Exits larger than the tracked position** make the exposure counter and the sum of positions drift
  apart (`OversizedExitDrifts`). Over a whole batch, with any limits and any book, the two stay equal
  throughout exactly when every sized exit fits the book it meets (`BatchInStepExactly`).
- **The position limit sees only buys of untracked symbols.** A short entry (with `allow_shorts` on) and a
  buy through a tracked short open a positive position past the limit (`ShortEntryDefeatsTheCount`,
  `ShortPositionDefeatsTheCount`). `StepCountExactly` and `BatchCountExactly` say exactly when; with
  shorts off and no short tracked the limit always holds (`BatchCount`).
- **Exit fees raise the profit of shorts** (`ExitFeeBySide`), because the fee reduces the proceeds that are
  subtracted.
- **An open position is valued before fees.** The curve marks it by the move of the close alone, so its fees
  show only on the day it closes (`CurveMarksEveryLeg`; `engine.py:288-292`). A trade records the signal's date
  as its exit date where its leg has the fill's (`ExitCloses`).
- **The counter advance is never stored.** The parameter hook advances a copy of the journal and returns
  only signals and logs (`param-discipline/hooks/cycle.py:31-49`), and the tuning chain stores the
  unadvanced one. With a positive lock, a plugin is then changed once and locked for good
  (`WithoutAdvancesOneChange`). The header of the core script describes a lock of N cycles.
- **Ties defeat the lock.** Of two entries with one stamp the lock consults the older (`TieDefeatsTheLock`);
  `LatestIsLastExactly` says when the lock is judged on the last change. The run of `TieDefeatsTheLock`
  needs a stored counter advance, which by the previous point nothing deployed produces.
- **The hook's lock report** differs from the gate's verdict one cycle before a lock runs out
  (`HookIsOneCycleAhead`), given the same journal. Nothing in the repository copies the stored journal
  into the hook's context, so as deployed the hook reads an empty one and reports no lock at all.
- **A ledger row can say "approved" for a match without an action** (`MissingActionIsApproved`);
  `ApprovedSameActionExactly` gives the exact condition.
- **A hook that invents signals undoes the fail-safe** of an earlier failure (`AddingHookDefeatsFailSafe`).
  The fail-safe holds for all teams over a set of hooks, whatever fails, exactly when every hook but the
  ML one, which runs first, returns no signal when none is pending (`FailSafeExactly`).
- **A failing audit write can lose an exit.** The debate cannot: whatever it comes to, a dispatched exit
  reaches its tool (`ExitDispatchExactly`). But audit writes are not guarded (`audit.service.ts:92-109`), and
  the one about skipped searches stands between the searches and the trade calls, under a comment that says it
  never throws and never blocks the trade path (`agents.service.ts:3181-3195`). With four searches, one exit
  the budget allows and that one write failing, the exit is never dispatched (`SkippedSearchLosesTheExit`).
  `ExitReachesToolExactly` gives the exact condition for one iteration and `ExitFate` for a whole turn; where
  the writes it names go through, every validated exit the budget allows gets to its tool
  (`ExitsGetThroughTheTurn`). Likewise one failed write about a dropped call empties the whole validated list
  (`ValidatedExactly`).
- **`get_ohlcv(limit=0)` returns everything**, since the slice starts at -0, and a negative limit drops the
  oldest bars instead of keeping the newest (`TailLimitExactly`).
- **Chat turns** get no tool schema, but a `web_search` call still passes the gate and is dispatched
  (`GateGuarantee`); a comment says chat has no tools. The stored turn limit defaults to 2 where a comment
  says 4.

## Model

| member | source | states |
|---|---|---|
| `CapWeights.CapLoop` | plugins/backtester/scripts/cross_sectional.py:262-291 | the capping loop with its two breaks computes the fuelled iteration `Capped` |
| `CapWeights.Rebuild` | plugins/backtester/scripts/cross_sectional.py:281-290 | one pass: violators at the cap, the rest of the budget shared in proportion |
| `CapWeights.RedistributeOnce` | plugins/backtester/scripts/cross_sectional.py:270-290 | for positive weights summing to one, a single redistribution leaves nobody over the cap, sums to one again, and scales all non-violators by one factor |
| `CapWeights.SettlesAfterOneRound` | plugins/backtester/scripts/cross_sectional.py:269-290 | at most one name can be over the cap, and the loop makes at most one changing round whatever its bound |
| `CapWeights.CappedWeights` | plugins/backtester/scripts/cross_sectional.py:257-291 | two or more names: result positive, sums to exactly one, each at most 0.5 + 1e-12, order of the uncapped weights kept |
| `CrossSectional.ComputeNameReturns` | plugins/backtester/scripts/cross_sectional.py:243-248 | the per-name return loop skips bars without two usable prices and collects the others |
| `CrossSectional.ComputeExposure` | plugins/backtester/scripts/cross_sectional.py:191-212 | the vol-target loop computes the exposure the theorems are about |
| `ChoiceMeaning.ScaleMeetsTarget` | plugins/backtester/scripts/cross_sectional.py:205-212 | the scale brings the yearly deviation of the recent returns to the target where the leverage allows it, and never above it |
| `CrossSectional.ComputeShares` | plugins/backtester/scripts/cross_sectional.py:228-291 | equal or capped inverse-vol weights, with the flag for the fallback |
| `CrossSectional.ComputeWeightedReturn` | plugins/backtester/scripts/cross_sectional.py:334-342 | weighted return over holdings with usable prices, and whether there was any |
| `CrossSectional.ComputeRebalance` | plugins/backtester/scripts/cross_sectional.py:297-329 | a rebalance: new holdings, weights, cost on traded notional, exposure, cost event, fallback count |
| `CrossSectional.ComputeStep` | plugins/backtester/scripts/cross_sectional.py:293-351 | one pass of the day loop |
| `CrossSectional.Simulate` | plugins/backtester/scripts/cross_sectional.py:181-351 | the whole day loop: the step-by-step specification `Run`, or the index error of a rebalance that a negative skip sends past the last bar |
| `CrossSectional.RunKeeps` | plugins/backtester/scripts/cross_sectional.py:293-351 | induction principle of the day loop: an invariant of the start and every step holds after every run |
| `PortfolioSafety.RankedIsSortedPermutation` | plugins/backtester/scripts/cross_sectional.py:298-302 | the ranking is a permutation of the scored universe in descending order, unknown scores last |
| `PortfolioSafety.SelectIsDistinct` | plugins/backtester/scripts/cross_sectional.py:305-309 | holdings are distinct universe members, each with known positive momentum |
| `PortfolioSafety.SelectIsTop` | plugins/backtester/scripts/cross_sectional.py:298-309 | if a positive name is left out, all the places the slice gives are taken (top_n of them, or all but -top_n when it is negative) and nothing held has lower momentum |
| `ChoiceMeaning.HeldRoseMost` | plugins/backtester/scripts/cross_sectional.py:181-189 | what is held rose from lookback to skip bars ago; a name left out that rose too rose by no larger a factor, and all places are taken |
| `PortfolioSafety.InverseVolIsCapped` | plugins/backtester/scripts/cross_sectional.py:257-291 | inverse-vol weights of two or more names meet the hypotheses and hence the conclusions of the cap theorem |
| `ChoiceMeaning.RiskParity` | plugins/backtester/scripts/cross_sectional.py:228-291 | inverse-vol weights of two or more names: weight times deviation of the returns before the bar is the same for all, but for one name at most, which then has exactly one half |
| `ChoiceMeaning.EqualOtherwise` | plugins/backtester/scripts/cross_sectional.py:228-261 | with equal weighting, or when a deviation is missing, everyone gets one over the number of names, and the fallback is counted only for inverse-vol |
| `PortfolioSafety.SoleName` | plugins/backtester/scripts/cross_sectional.py:273-280 | a single holding keeps weight one: the cap has nobody to pass the rest to |
| `PortfolioSafety.SharesSumToOne` | plugins/backtester/scripts/cross_sectional.py:228-291 | whatever the weighting mode or fallback, weights are positive and sum to one |
| `PortfolioSafety.RebalanceAllocates` | plugins/backtester/scripts/cross_sectional.py:297-329 | after any rebalance: distinct holdings, non-negative weights summing to one (zero in cash), exposure in [0, 1] |
| `PortfolioSafety.TurnoverAtMostTwo` | plugins/backtester/scripts/cross_sectional.py:319-322 | a rebalance trades at most twice the notional |
| `PortfolioSafety.RebalanceSolvent` | plugins/backtester/scripts/cross_sectional.py:319-327 | the cost is below equity, so the clamp at a rebalance never fires |
| `PortfolioSafety.HoldingSolvent` | plugins/backtester/scripts/cross_sectional.py:334-346 | a day's scaled return leaves equity positive, so the daily clamp never fires |
| `PortfolioSafety.NoRuin` | plugins/backtester/scripts/cross_sectional.py:293-365 | positive prices, cost below one half, leverage at most one: equity is positive on every bar of every run |
| `PortfolioEarnings.EquityFollowsPrices` | plugins/backtester/scripts/cross_sectional.py:293-351 | every bar of every run: the equity is the one before, less the cost rate on every change of weight on a rebalance bar, times one plus the exposure times the sum of weight times close-to-close move over the holdings, and never below zero |
| `PortfolioEarnings.SoleHoldingTracksPrice` | plugins/backtester/scripts/cross_sectional.py:334-351 | held alone at full weight and exposure and free of charge, a name moves the curve exactly as its close moves |
| `WalkForwardProofs.EquityIsNeverDepleted` | plugins/backtester/scripts/cross_sectional.py:358-366 | under the same conditions, any universe past the guards gives a report (or the index error of a negative skip): "Equity depleted" is unreachable |
| `PortfolioCausality.ChoiceAgrees` | plugins/backtester/scripts/cross_sectional.py:181-189 | the names chosen at bar i depend on bars up to i - skip only |
| `PortfolioCausality.SharesAgree` | plugins/backtester/scripts/cross_sectional.py:228-261 | their weights depend on bars before i only |
| `PortfolioCausality.NoLookahead` | plugins/backtester/scripts/cross_sectional.py:293-351 | with skip >= 0, price tables equal up to bar i give the same whole state, raw equity included, up to bar i |
| `PortfolioCausality.PositionIsCausal` | plugins/backtester/scripts/cross_sectional.py:297-344 | with skip >= 1 the holdings and weights earning bar i depend only on earlier bars, and so does the exposure unless vol targeting is on at a rebalance bar |
| `PortfolioCausality.IdleRun` | plugins/backtester/scripts/cross_sectional.py:305-309 | a strategy with top_n = 0 or an unmeetable regime filter never holds anything and never looks at a price |
| `SparseUniverse.XIsHeldExactly` | plugins/backtester/scripts/cross_sectional.py:298-309 | where one symbol alone has prices, a strategy that can hold something holds it if and only if its momentum is positive, whatever top_n and the regime filter are |
| `VolTargetLookahead.ExposureReadsItsOwnBar` | plugins/backtester/scripts/cross_sectional.py:191-212 | with skip >= 1 and vol targeting on, on every rebalance bar of a strategy that can hold something there are two positive histories past the guards, equal before it, with different exposures |
| `PositionLookahead.ChoiceLooksAhead` | plugins/backtester/scripts/cross_sectional.py:181-189 | with skip <= 0, on every rebalance bar of such a strategy two positive histories past the guards that agree before bar i - skip give different holdings |
| `PositionLookahead.PositionLooksAhead` | plugins/backtester/scripts/cross_sectional.py:297-344 | with skip <= 0, whatever bar i was last chosen with is still held at i: while that lies at i or later, two such histories equal before i give different positions at i |
| `PositionLookahead.PositionIsCausalExactly` | plugins/backtester/scripts/cross_sectional.py:297-344 | for every configuration and bar: the position earning bar i ignores bar i and later ones if and only if nothing can be held, or (skip <= 0) what the last rebalance up to i read lies before i, or (skip >= 1) no rebalance is due at i or vol targeting is off |
| `PositionLookahead.NoLookaheadExactly` | plugins/backtester/scripts/cross_sectional.py:78-82 | no run looks ahead on its way if and only if skip is not negative or nothing can be held |
| `PositionLookahead.CompletedLooksAheadExactly` | plugins/backtester/scripts/cross_sectional.py:158-189 | no call that passes the guards and gets to its last bar looks ahead if and only if skip is not negative, nothing can be held, or rebalance_days is at most -skip |
| `PortfolioReport.ComputeMaxDrawdown` | plugins/backtester/scripts/cross_sectional.py:49-59 | the running-peak loop computes the greatest drawdown |
| `ReportMeaning.MaxDrawdownIsGreatest` | plugins/backtester/scripts/cross_sectional.py:49-59 | for every curve and capital: no fall from the highest value so far is greater in percent, and one is as great unless there is none |
| `PortfolioReport.ComputeBenchmark` | plugins/backtester/scripts/cross_sectional.py:390-399 | the daily-compounded equal-weight benchmark over the evaluated bars |
| `ReportMeaning.BenchmarkAverages` | plugins/backtester/scripts/cross_sectional.py:390-399 | each day multiplies the benchmark by one plus the average move of the symbols with usable closes, if any |
| `ReportMeaning.BenchmarkOfOne` | plugins/backtester/scripts/cross_sectional.py:390-399 | over a universe of one the benchmark is the ratio of the last close to the first |
| `ReportMeaning.CostsAreCharges` | plugins/backtester/scripts/cross_sectional.py:319-327 | every rebalance is recorded on its bar with the rate times the changes of weight times the equity before it, and the total is the sum |
| `ReportMeaning.FallbacksAreCounted` | plugins/backtester/scripts/cross_sectional.py:228-261 | the count of fallbacks is the number of rebalances at which inverse-vol weights were asked for and some chosen name had no usable deviation |
| `PortfolioReport.RunBacktest` | plugins/backtester/scripts/cross_sectional.py:69-419 | the whole call for every configuration: the error returns in their order, the index error of a negative skip, or the report of the run |
| `MarketMeaning.CalendarExactly` | plugins/backtester/scripts/cross_sectional.py:160-163 | the calendar holds, in increasing order, exactly the days on which every series with bars has one |
| `MarketMeaning.PriceIsLastClose` | plugins/backtester/scripts/cross_sectional.py:178-178 | the close read for a symbol on a bar is the last one its series has for that day |
| `MarketMeaning.WorkingExactly` | plugins/backtester/scripts/cross_sectional.py:142-158 | the run works on the series with at least lookback + skip + 2 bars if there are two such, and reports the others with their lengths; otherwise it works on all |
| `MarketMeaning.GuardExactly` | plugins/backtester/scripts/cross_sectional.py:69-173 | which calls are refused up front and with which error, and that no other is |
| `ReportMeaning.EveryReportSays` | plugins/backtester/scripts/cross_sectional.py:353-419 | every report: its dates are the evaluated ones, total return and benchmark return grow the capital to the last value and by the benchmark, drawdown is the greatest fall, Sharpe times deviation is the yearly mean, alpha is the difference, costs are those of the window |
| `BuyAndHold.CurveIsTheName` | plugins/backtester/scripts/cross_sectional.py:293-351 | one name that has risen at every rebalance, no costs, no scaling: from the first rebalance on the curve moves exactly as its close |
| `BuyAndHold.NoAlpha` | plugins/backtester/scripts/cross_sectional.py:353-402 | such a strategy, evaluated from the first rebalance on, is reported with an alpha of exactly zero |
| `PortfolioInvariance.RunRecorded` | plugins/backtester/scripts/cross_sectional.py:346-351 | after any run the recorded daily returns are those of the raw curve, bar by bar |
| `PortfolioInvariance.WindowReturns` | plugins/backtester/scripts/cross_sectional.py:367-375 | renormalising a tail leaves its daily returns as they were |
| `PortfolioInvariance.WindowIsolation` | plugins/backtester/scripts/cross_sectional.py:353-377 | the evaluated curve starts at the capital, is a constant times the raw tail, and its returns are exactly the full run's returns after the start bar |
| `PortfolioInvariance.ScaleInvariance` | plugins/backtester/scripts/cross_sectional.py:293-351 | k times the capital gives k times the equity and costs, and the same holdings, weights and returns |
| `PortfolioInvariance.MetricsScale` | plugins/backtester/scripts/cross_sectional.py:20-66 | no percentage metric changes with the capital: total return, CAGR, Sharpe, drawdown, cost, benchmark and alpha |
| `PortfolioInvariance.EvaluationScales` | plugins/backtester/scripts/cross_sectional.py:353-383 | the evaluated curve scales, its returns and cost percentage do not, and depletion is the same |
| `PortfolioInvariance.BacktestScales` | plugins/backtester/scripts/cross_sectional.py:69-419 | the whole call with k times the capital: same error, same exception, or the same report with the curve k times as high |
| `WalkForward.RunWindow` | plugins/backtester/scripts/walk_forward.py:428-482 | one window: skipped, an in-sample and a warmed-up out-of-sample run, or the exception one of them raises |
| `WalkForward.RunWalkForward` | plugins/backtester/scripts/walk_forward.py:374-525 | guards, window loop, counts and verdict for every configuration, with the division by a zero n_windows and the engine's exceptions as outcomes |
| `WalkForwardProofs.Tiling` | plugins/backtester/scripts/walk_forward.py:401-430 | out-of-sample windows have equal length, are adjacent, end at n and begin at the smallest in-sample length |
| `WalkForwardProofs.Disjoint` | plugins/backtester/scripts/walk_forward.py:427-430 | any two out-of-sample windows are disjoint and in order |
| `WalkForwardProofs.GuardsLeaveRoom` | plugins/backtester/scripts/walk_forward.py:401-440 | past the guards every window has room for the warmup prefix (start at least 1) and 21 evaluated bars |
| `WalkForwardProofs.AlignedGuard` | plugins/backtester/scripts/cross_sectional.py:142-176 | an aligned universe with enough bars drops nobody, keeps its calendar and trips no guard |
| `WalkForwardProofs.AlignedBacktestSucceeds` | plugins/backtester/scripts/cross_sectional.py:134-419 | then the backtest succeeds and evaluates exactly the dates from the start bar on |
| `WalkForwardProofs.SliceSucceeds` | plugins/backtester/scripts/walk_forward.py:236-240 | the same for every index slice long enough for warmup and evaluation |
| `WalkForwardProofs.WindowSucceeds` | plugins/backtester/scripts/walk_forward.py:427-455 | past the guards exactly the windows with under 20 in-sample bars are skipped, and both runs of every other one succeed on exactly their own dates |
| `WalkForwardProofs.EveryReportedWindowIsValid` | plugins/backtester/scripts/walk_forward.py:374-525 | in a judged run every window is complete and valid, and the verdict is "robust" exactly when at least two windows exist and half of them are robust |
| `WalkForwardProofs.VerdictFollowsSharpe` | plugins/backtester/scripts/walk_forward.py:428-503 | any prices and configuration: every judged window holds the engine's two runs on its own slices; a window counts as robust if and only if both ran and the out-of-sample Sharpe is at least half the in-sample one (at most half of a negative one) and that is beyond the threshold; the verdict follows from the counts |
| `WalkForwardProofs.NeverAborts` | plugins/backtester/scripts/walk_forward.py:374-525 | on an aligned universe with safe parameters and n_windows other than zero nothing is ever raised |
| `SignalEngine.Ledger.constructor` | plugins/backtester/scripts/engine.py:129-135 | the ledger starts with the capital and nothing else |
| `SignalEngine.Ledger.Close` | plugins/backtester/scripts/engine.py:137-176 | closing returns cost plus profit to cash, appends one trade and one leg, and frees the symbol |
| `SignalEngine.Ledger.OpenNew` | plugins/backtester/scripts/engine.py:203-228 | opening: slot limit, risk sizing with the cash cap, no position of zero cost, and the division by zero at a free slot |
| `SignalEngine.Ledger.Process` | plugins/backtester/scripts/engine.py:178-232 | one signal: ignore, hold, flip, open or exit, or the division by zero that ends the run |
| `SignalMeaning.ExitCloses` | plugins/backtester/scripts/engine.py:137-176 | an exit closes what is open in its symbol: the symbol is free, cash gains cost and profit, one trade and one leg with that position's entry, the next bar's open and date; otherwise nothing |
| `SignalMeaning.DirectionOpens` | plugins/backtester/scripts/engine.py:189-228 | a direction with nothing open in its symbol does nothing, or adds one position at the next bar's open whose cost is its shares at that price with fees, taken from cash, sized by the risk fraction or by all the cash |
| `SignalMeaning.DirectionOpensWhenFree` | plugins/backtester/scripts/engine.py:189-228 | with a free slot, cash, a positive price and fees that are not negative it always opens |
| `SignalMeaning.DirectionReverses` | plugins/backtester/scripts/engine.py:189-228 | the direction already held changes nothing; the opposite one closes the position and then opens the other way or stays out, both at the same open |
| `SignalMeaning.OpenFollowsLastSignal` | plugins/backtester/scripts/engine.py:178-232 | after any signals every open position holds the direction its symbol's last filled signal asked for |
| `SignalMeaning.ExitedIsClosed` | plugins/backtester/scripts/engine.py:178-232 | a symbol whose last filled signal is an exit is not open |
| `SignalMeaning.EveryTradeIsPaidFor` | plugins/backtester/scripts/engine.py:137-273 | every trade a backtest reports made what its entry, exit, size and direction say, fees taken on both amounts |
| `SignalMeaning.RunClosesOut` | plugins/backtester/scripts/engine.py:234-273 | at the end every position still open, and nothing else, is closed at its symbol's last close |
| `SignalEngine.Ledger.ProcessAll` | plugins/backtester/scripts/engine.py:178-232 | the signal loop is the fold of single signals, up to the first that raises |
| `SignalEngine.Ledger.CloseRemaining` | plugins/backtester/scripts/engine.py:234-273 | the forced close realises every remaining position at its last close |
| `SignalEngine.ComputeMtm` | plugins/backtester/scripts/engine.py:275-300 | the second account: every date values realised and open legs, floored at zero |
| `SignalMeaning.CurveMarksEveryLeg` | plugins/backtester/scripts/engine.py:283-300 | on every date the curve is the capital plus what each leg is worth then (nothing yet, the move of that day's close without fees, or what it made), never below zero, and the returns are its relative changes from positive values |
| `SignalEngine.RunBacktest` | plugins/backtester/scripts/engine.py:88-302 | sort, fold, forced close, mark-to-market, for all inputs |
| `EngineProofs.ApplyKeeps` | plugins/backtester/scripts/engine.py:137-232 | every signal keeps cash + tied costs = capital + realised profit, legs in step with trades, and every fill on a bar of its symbol |
| `EngineProofs.LedgerInvariant` | plugins/backtester/scripts/engine.py:178-232 | after any signals that raise nothing the ledger balances, at most max_positions are open, every open cost is positive, symbols are distinct |
| `EngineProofs.NeverRaises` | plugins/backtester/scripts/engine.py:206-214 | only an opening whose price or fees make a divisor zero raises; exits, held and ignored signals never do |
| `EngineProofs.SortIsStable` | plugins/backtester/scripts/engine.py:127-127 | signals are taken in date order, none lost, each day's in the order they came in |
| `EngineProofs.SettleRealisesAll` | plugins/backtester/scripts/engine.py:234-273 | the forced close turns tied costs into cash without gain or loss beyond the booked profit |
| `EngineProofs.LastValuation` | plugins/backtester/scripts/engine.py:283-296 | on the last date every leg is realised, so the second account shows capital plus all leg profit |
| `EngineProofs.TwoLedgersAgree` | plugins/backtester/scripts/engine.py:178-302 | final cash is capital plus all profit, and the last curve point is that cash floored at zero |
| `EngineProofs.LongOnlyCash` | plugins/backtester/scripts/engine.py:206-232 | without short signals cash is never negative at any step |
| `EngineProofs.LongOnlyRun` | plugins/backtester/scripts/engine.py:234-302 | a long-only run ends without debt and its curve ends on the cash itself |
| `EngineProofs.ExitFeeBySide` | plugins/backtester/scripts/engine.py:143-146 | the exit fee lowers a long's profit and raises a short's |
| `SignalPipeline.Generate` | plugins/backtester/scripts/generate.py:99-118 | the sliding loop collects one signal at most per bar from the bounded window ending there |
| `SignalPipeline.SignalsExactly` | plugins/backtester/scripts/generate.py:99-118 | a signal comes out if and only if the strategy acts on the window of some bar past the minimum, and it carries that bar's date |
| `SignalPipeline.TruncationGivesPrefix` | plugins/backtester/scripts/generate.py:99-118 | for any `analyze`, a truncated history gives a prefix of the signals |
| `SignalPipeline.FillIsLater` | plugins/backtester/scripts/engine.py:107-113 | every fill is on a date strictly after its signal's, for any bars |
| `SignalPipeline.IndexKeepsLast` | plugins/backtester/scripts/engine.py:88-101 | the price index has a bar for exactly the dates given, and of a repeated date the last one |
| `SignalMeaning.FillIsNextBar` | plugins/backtester/scripts/engine.py:104-113 | a signal fills on the bar right after its own, and not at all without one |
| `SignalPipeline.LedgerIgnoresFuture` | plugins/backtester/scripts/engine.py:178-232 | the ledger after signals dated before d is the same whether or not later bars exist |
| `BatchPipeline.BacktestWindow` | plugins/backtester/scripts/walk_forward.py:252-260 | all symbols' signals generated and concatenated, then one backtest |
| `BatchPipeline.SortSplits` | plugins/backtester/scripts/engine.py:127-127 | the sorted list is the sorted signals before a date followed by the sorted others |
| `BatchPipeline.PipelineIgnoresFuture` | plugins/backtester/scripts/walk_forward.py:243-260 | any strategy, any number of symbols, cut at a day all of them trade: the whole backtest of the cut histories does what the full run's ledger does with the signals before that day, and those come first in the full run |
| `OrderedDict.PutTotal` | plugins/risk-manager/scripts/risk_manager_core.py:68-76 | writing one key moves the sum and the count of positive values by that key's change |
| `ExposureLayer.ApplyExposureLayer` | plugins/risk-manager/scripts/risk_manager_core.py:36-195 | the layer's loop over a batch with its running totals |
| `ExposureLayer.BeginIsConsistent` | plugins/risk-manager/scripts/risk_manager_core.py:68-76 | the tracker a batch starts from has distinct symbols and a counter equal to its sum |
| `ExposureLayer.SizeEntryFits` | plugins/risk-manager/scripts/risk_manager_core.py:125-193 | an approved size is positive, never above what was asked, and inside the trade, asset, total and count limits |
| `ExposureMeaning.SizedEntryIsSent` | plugins/risk-manager/scripts/risk_manager_core.py:115-193 | a sized entry is cancelled and nothing booked, or sent on for what is booked, up to the rounding tolerance, and that is all the room the four limits leave |
| `ExposureMeaning.RefusalExactly` | plugins/risk-manager/scripts/risk_manager_core.py:100-183 | which entry is refused and with which reason, in the order of the limits |
| `ExposureLayer.RejectionIsDue` | plugins/risk-manager/scripts/risk_manager_core.py:132-180 | an entry is rejected if and only if the asset limit, the count limit or the total limit is used up |
| `ExposureLayer.ExitInStepExactly` | plugins/risk-manager/scripts/risk_manager_core.py:88-98 | a sized exit keeps counter and sum equal if and only if it is no larger than the tracked position and the total, or the symbol is the whole book |
| `ExposureLayer.OversizedExitDrifts` | plugins/risk-manager/scripts/risk_manager_core.py:96-97 | an exit of 15 from a position of 10 leaves the counter at 5 and the positions at 10 |
| `ExposureLayer.BatchInStepExactly` | plugins/risk-manager/scripts/risk_manager_core.py:84-195 | any limits, book and batch starting with the counter equal to the sum: the two stay equal at every turn if and only if every sized exit fits the book it meets |
| `ExposureLayer.LongBookFits` | plugins/risk-manager/scripts/risk_manager_core.py:84-195 | a long book never oversold meets that condition |
| `ExposureLayer.BatchWithinBudget` | plugins/risk-manager/scripts/risk_manager_core.py:84-195 | any batch: total and every symbol end at most at max(start, cap) |
| `ExposureMeaning.OrdersWithinCaps` | plugins/risk-manager/scripts/risk_manager_core.py:84-195 | the orders that come out: with the start they stay within the total cap and every symbol's cap, up to the tolerance, over any batch without exits |
| `ExposureMeaning.OrdersWithinTradeCap` | plugins/risk-manager/scripts/risk_manager_core.py:84-195 | every order that comes out stays within the trade cap where there is one, up to the tolerance |
| `ExposureLayer.BatchCount` | plugins/risk-manager/scripts/risk_manager_core.py:154-164 | shorts off and no short tracked: the count of positive positions never passes max(start, limit) |
| `ExposureLayer.StepRaisesExactly` | plugins/risk-manager/scripts/risk_manager_core.py:88-193 | a signal adds at most one positive position, and adds one if and only if it is a sized entry that lifts a holding from zero or below to above zero |
| `ExposureLayer.StepCountExactly` | plugins/risk-manager/scripts/risk_manager_core.py:154-193 | a signal takes the count past max(before, limit) if and only if the book is at the limit and the entry is a short one, or a buy through a short of at least EPS, that opens a position |
| `ExposureLayer.BatchCountExactly` | plugins/risk-manager/scripts/risk_manager_core.py:84-195 | for any limits, book and batch the count stays within max(start, limit) throughout if and only if no signal is such an entry when its turn comes |
| `ExposureLayer.ShortPositionDefeatsTheCount` | plugins/risk-manager/scripts/risk_manager_core.py:154-164 | a concrete buy through a tracked short passes the limit |
| `ExposureLayer.ShortEntryDefeatsTheCount` | plugins/risk-manager/scripts/risk_manager_core.py:154-193 | a concrete short entry passes the limit with no short tracked |
| `ExposureLayer.StepFate` | plugins/risk-manager/scripts/risk_manager_core.py:84-195 | no rule raises a quantity, a non-entry is untouched, only action, quantity and reason can change, and a change of action is a cancellation |
| `ConcentrationLayer.ApplyConcentrationLayer` | plugins/risk-manager/scripts/risk_manager_core.py:273-376 | the layer's loop over a batch with sector, total and count trackers |
| `ConcentrationLayer.BeginIsKeyed` | plugins/risk-manager/scripts/risk_manager_core.py:303-310 | the layer starts with one sum for each sector, that of the holdings in it |
| `ConcentrationLayer.BatchWithinLimits` | plugins/risk-manager/scripts/risk_manager_core.py:314-376 | any batch: sectors, total exposure and position count end inside max(start, limit) |
| `ConcentrationLayer.LayerWithinLimits` | plugins/risk-manager/scripts/risk_manager_core.py:314-376 | the layer as called, from any portfolio: sectors, total exposure and position count end inside max(holdings, limit) |
| `ConcentrationMeaning.EntryIsSent` | plugins/risk-manager/scripts/risk_manager_core.py:314-376 | an entry is refused exactly when its symbol would be one too many or its sector or the cash is used up, and otherwise sent on with all it may take, which is what is booked |
| `ConcentrationMeaning.RefusalExactly` | plugins/risk-manager/scripts/risk_manager_core.py:314-376 | the reason it is refused with |
| `ConcentrationMeaning.SizesWithinLimits` | plugins/risk-manager/scripts/risk_manager_core.py:303-376 | the sizes that come out: with the holdings they stay inside every sector limit and above the cash reserve |
| `CorrelationLayer.ApplyCorrelationLayer` | plugins/risk-manager/scripts/risk_manager_core.py:414-481 | entries tied to an open position above the threshold are cancelled, everything else passes |
| `PipelineMeaning.CorrelationExactly` | plugins/risk-manager/scripts/risk_manager_core.py:414-481 | a long is cancelled if and only if there are two series at least and some held symbol's correlates with its own to the limit; nothing else changes |
| `DrawdownLayer.ApplyDrawdownLayer` | plugins/risk-manager/scripts/risk_manager_core.py:565-646 | entries cancelled or reduced by the circuit grade |
| `DrawdownLayer.GradeIsMonotone` | plugins/risk-manager/scripts/risk_manager_core.py:504-562 | deeper drawdown or larger daily loss never loosens the breaker, recovery lock included |
| `DrawdownMeaning.EntryFateExactly` | plugins/risk-manager/scripts/risk_manager_core.py:504-646 | for any history and thresholds: an entry is stopped if and only if the day's loss or the fall from the highest equity reaches its limit or a tripped breaker has not recovered; otherwise its money is cut to a quarter, a half or not at all |
| `RiskPipeline.OnCycle` | plugins/risk-manager/hooks/cycle.py:94-218 | the hook chains the four layers over the active part of the batch |
| `RiskPipeline.StageConserves` | plugins/risk-manager/hooks/cycle.py:114-200 | splitting off the cancelled part and putting it in front loses and duplicates nothing |
| `RiskPipeline.PipelineConserves` | plugins/risk-manager/hooks/cycle.py:94-218 | all four layers, any flags: outputs are the inputs up to action and size fields, cancelled stays cancelled, non-entries (every exit) are unchanged and in order, survivors keep their order and action, none with a larger quantity |
| `PipelineMeaning.PipelineWithinCaps` | plugins/risk-manager/hooks/cycle.py:94-218 | the orders that leave the hook stay within the exposure caps, whatever the other layers do |
| `PipelineMeaning.PipelineWithinShares` | plugins/risk-manager/hooks/cycle.py:94-218 | the sizes that leave the hook stay within the sector and cash limits, whatever the other layers do |
| `PipelineMeaning.SurvivorsTradeOn` | plugins/risk-manager/hooks/cycle.py:180-200 | no entry leaves the hook while the breaker stops trading |
| `PipelineMeaning.SurvivorsAreUncorrelated` | plugins/risk-manager/hooks/cycle.py:150-180 | no long leaves the hook that correlates with a holding |
| `PipelineMeaning.EachLayerAlone` | plugins/risk-manager/hooks/cycle.py:94-218 | with one layer switched on the hook is that layer, with none it changes nothing |
| `ToolGate.ValidateToolCalls` | apps/api/src/agents/agents.service.ts:2078-2136 | the gate keeps exactly the passing calls, in order, or nothing once a lookup or a write throws, or raises when the write of that failure throws too; a reported drop is a call that does not pass, and if nothing goes wrong every call is kept or reported |
| `ToolGate.ValidatedPass` | apps/api/src/agents/agents.service.ts:2078-2136 | the kept calls are those asked for to which no drop reason applies |
| `ToolGate.ValidatedExactly` | apps/api/src/agents/agents.service.ts:2078-2136 | a call comes out of the gate if and only if it was asked for, passes, and the plugin list loads and every drop gets written; the gate raises if and only if one of these and then the write of the failure fails |
| `ToolGate.GateGuarantee` | apps/api/src/agents/agents.service.ts:2029-2070 | what passing means: no provider call in virtual turns, no kernel call but web_search outside reflection, only declared tools |
| `ToolGate.PassesExactly` | apps/api/src/agents/agents.service.ts:2029-2070 | a call passes if and only if it is a search, or a kernel tool in reflection, or of an active plugin that is no provider in a virtual turn and declares it |
| `ToolGate.ReasonExactly` | apps/api/src/agents/agents.service.ts:2029-2070 | which reason a call is dropped for |
| `ToolDispatch.ExecuteToolCalls` | apps/api/src/agents/agents.service.ts:3076-3224 | searches, the write about skipped ones, trade calls, the write about skipped ones, up to the first exception that escapes; a selected exit reaches its tool if and only if nothing before it escapes |
| `ToolDispatch.PrioritisedIsPermutation` | apps/api/src/agents/agents.service.ts:3058-3068 | putting exits first only reorders |
| `ToolDispatch.ExecutionAccounts` | apps/api/src/agents/agents.service.ts:3143-3224 | executed plus dropped calls are the budgeted ones, and the audited drop counts are exact |
| `ToolDispatch.DispatchedWereValid` | apps/api/src/agents/agents.service.ts:3143-3224 | nothing is dispatched that was not validated |
| `ToolDispatch.ExitsFirst` | apps/api/src/agents/agents.service.ts:3171-3215 | no non-exit runs in an iteration that drops an exit |
| `ToolDispatch.AllExitsSelected` | apps/api/src/agents/agents.service.ts:3171-3215 | with budget for the exits, each of them is among the calls selected for dispatch |
| `ToolDispatch.ExitDispatchExactly` | apps/api/src/agents/agents.service.ts:3002-3139 | a dispatched exit always reaches its tool whatever the debate does; its intent is handed on if and only if it names a symbol, the tool accepts it and its signal gets written; it ends the iteration if and only if its tool or that write throws and the write of the failure throws too |
| `ToolDispatch.DispatchExactly` | apps/api/src/agents/agents.service.ts:3002-3139 | any call: blocked if and only if the debate is on, has roles, judges such calls, its writes go through and the panel rejects, or throws in block mode; lost if and only if one of these writes fails; and exactly when the tool or the signal's write throws |
| `ToolDispatch.DispatchedExactly` | apps/api/src/agents/agents.service.ts:3143-3224 | a selected trade call is dispatched if and only if no search and no earlier trade call raises past its catch block and the write about skipped searches, if due, goes through |
| `ToolDispatch.CarryRaisesExactly` | apps/api/src/agents/agents.service.ts:3143-3224 | the dispatches of an iteration raise if and only if one of them does past its catch block or a due write about skipped calls fails |
| `ToolDispatch.ExitReachesToolExactly` | apps/api/src/agents/agents.service.ts:3076-3224 | under exactly that condition a selected exit reaches its tool, and under it and the condition of its own dispatch its intent is handed on |
| `ToolDispatch.SkippedSearchLosesTheExit` | apps/api/src/agents/agents.service.ts:3181-3195 | four searches and an exit: if only the write about the skipped search fails, the exit is selected and never dispatched |
| `ToolDispatch.ExitsGetThrough` | apps/api/src/agents/agents.service.ts:3076-3224 | any validated list, budgets and outside answers: where the write about skipped searches and those of failed dispatches go through, every exit is dropped for want of budget or reaches its tool |
| `GovernedTurn.RunSingleIteration` | apps/api/src/agents/agents.service.ts:604-763 | one iteration under the budgets left to it, with a throwing model call, gate, dispatch or turn log as an outcome |
| `GovernedTurn.RunGovernedTurn` | apps/api/src/agents/agents.service.ts:783-925 | the turn under the ceilings read from the store: what was dispatched, and whether it returns or raises |
| `GovernedTurn.RunLoop` | apps/api/src/agents/agents.service.ts:834-925 | the loop with its running counters equals the recursive turn, reports exactly what was dispatched, and raises exactly when the last iteration or a trace write of the loop does |
| `GovernedTurn.TurnIsBounded` | apps/api/src/agents/agents.service.ts:507-925 | any model, stores and failures: at most maxTurns (at most 10) iterations, at least one unless the reads before the loop fail, maxToolCalls (at most 20) trade calls in all, 5 searches in all and 3 per iteration, and no more dispatches than these |
| `GovernedTurn.LimitsExactly` | apps/api/src/agents/agents.service.ts:507-530 | the stored limits: two turns and three calls by default, a number cut to a whole one within 1 to 10 and 1 to 20 |
| `GovernedTurn.DispatchedCallsAreAllowed` | apps/api/src/agents/agents.service.ts:783-925 | every call dispatched anywhere in the turn is one the gate allows for this kind of turn |
| `GovernedTurn.ExitFate` | apps/api/src/agents/agents.service.ts:834-925 | over a whole turn a validated exit is dropped in an iteration that selects nothing but exits, or is selected, and then reaches its tool and hands on its intent under exactly the conditions above |
| `GovernedTurn.ExitsGetThroughTheTurn` | apps/api/src/agents/agents.service.ts:834-925 | in an iteration whose named audit writes go through, every validated exit is dropped for want of budget or reaches its tool |
| `GovernedTurn.PanelDecides` | apps/api/src/agents/agents.service.ts:834-925 | over a whole turn: a call the panel rejected never reaches its tool, one it approved does as far as that gets written, and one it does not judge always does |
| `GovernedTurn.IterationExactly` | apps/api/src/agents/agents.service.ts:604-763 | what an iteration works on, and that it raises if and only if the model, the gate, a dispatch or the log of a chat or pretest turn does |
| `GovernedTurn.StopsOnlyForCause` | apps/api/src/agents/agents.service.ts:834-925 | the loop ends only when a ceiling is reached, nothing valid was asked, or an exception escapes |
| `VetoLayer.RunVetoLayer` | apps/api/src/agents/agents.service.ts:1656-1769 | the fold over hooks with its summary counts |
| `VetoLayer.MlRunsFirst` | apps/api/src/agents/agents.service.ts:1667-1674 | the order is a permutation with ML plugins first and the rest in their given order |
| `VetoLayer.FailureIsFinal` | apps/api/src/agents/agents.service.ts:1722-1741 | after a failure nothing comes back through hooks that add nothing |
| `VetoLayer.DegradedExactly` | apps/api/src/agents/agents.service.ts:1676-1741 | the cycle is marked degraded if and only if some hook failed |
| `VetoLayer.ReasonsExactly` | apps/api/src/agents/agents.service.ts:1697-1741 | the reasons of a cycle are exactly the texts its hooks returned and the errors they failed with |
| `VetoLayer.LastAdditionStands` | apps/api/src/agents/agents.service.ts:1697-1741 | a context field is what the last hook to add it gave, or as it was when none did; the two injected keys of the ML hook excepted |
| `VetoLayer.OneFailureVetoesAll` | apps/api/src/agents/agents.service.ts:1656-1769 | if every hook returns a sub-list, one failure anywhere approves nothing |
| `VetoLayer.SafeBehindFailureExactly` | apps/api/src/agents/agents.service.ts:1697-1741 | one hook behind a failed one keeps everything vetoed in every context if and only if it returns no signal when none is pending |
| `VetoLayer.FailSafeExactly` | apps/api/src/agents/agents.service.ts:1656-1769 | the fail-safe holds for every team over a set of hooks, in every order, context and pattern of failures, if and only if every hook but the ML one returns no signal when none is pending |
| `VetoLayer.AddingHookDefeatsFailSafe` | apps/api/src/agents/agents.service.ts:1676-1741 | a later hook that makes signals of its own gets them approved in a degraded cycle |
| `VetoLayer.InjectionIsPrivate` | apps/api/src/agents/agents.service.ts:1677-1718 | the two injected keys never appear in the context any other hook is shown |
| `VetoLayer.NonInterference` | apps/api/src/agents/agents.service.ts:1677-1742 | two injections the ML hook answers alike, but for those keys, give the same cycle: what is injected reaches the rest only through what that hook computes from it |
| `VetoLedger.PersistVetoDecisions` | apps/api/src/agents/agents.service.ts:1976-2022 | one row per proposed signal, a failed write losing that row only |
| `VetoLedger.MatchIsFromList` | apps/api/src/agents/agents.service.ts:1802-1822 | a match is found if and only if the final list has the symbol, and it comes from that list; an exact match has the source too |
| `VetoLedger.ApprovedIsHonest` | apps/api/src/agents/agents.service.ts:1828-1886 | an approved row is backed by a final signal of the same symbol and equal known quantity that is not cancelled and has the same action or none |
| `VetoLedger.MissingIsBlocked` | apps/api/src/agents/agents.service.ts:1850-1886 | a symbol gone from the final list is reported blocked |
| `VetoLedger.ApprovedSameActionExactly` | apps/api/src/agents/agents.service.ts:1850-1886 | the matched action is the proposed one if and only if the match has an action |
| `VetoLedger.MissingActionIsApproved` | apps/api/src/agents/agents.service.ts:1850-1886 | a match without an action really is reported approved |
| `VetoLedger.RowExactly` | apps/api/src/agents/agents.service.ts:1850-1886 | every row from the proposal and its match alone: blocked, approved or modified if and only if, and with which action and quantity |
| `VetoLedger.EffectiveExactly` | apps/api/src/agents/agents.service.ts:1828-1841 | the quantity compared is the first nested one that is there, then shares, then qty |
| `ParamJournal.LatestIsFirstMaximal` | plugins/param-discipline/scripts/param_discipline.py:119-124 | the entry the lock consults has the greatest stamp, and is the first of those |
| `ParamJournal.LatestIsLastExactly` | plugins/param-discipline/scripts/param_discipline.py:119-125 | the lock consults the last change if and only if no earlier change of the plugin has as great a stamp |
| `ParamJournal.HookIsOneCycleAhead` | plugins/param-discipline/hooks/cycle.py:30-36 | on the journal it is handed, the hook's report differs from the gate's verdict if and only if the lock has one cycle left |
| `TuneChain.Governor.RunTuneChain` | apps/api/src/agents/agents.service.ts:2757-2826 | the chain on both stores under every pattern of call and write failures |
| `TuneChain.AttemptOutcomes` | apps/api/src/agents/agents.service.ts:2770-2826 | an attempt leaves the stores alone, or adds one journal entry that was unlocked, argued and within the limit, or does that and sets the parameter |
| `GovernorProofs.LockedExactly` | plugins/param-discipline/scripts/param_discipline.py:115-144 | a plugin is locked if and only if its change with the latest stamp, the first of those, is fewer cycles old than the lock |
| `GovernorProofs.TunedExactly` | apps/api/src/agents/agents.service.ts:2757-2826 | an attempt is reported tuned, adds an entry and sets the parameter if and only if the calls go through, the lock is open, the hypothesis is long enough, the week has room and the writes succeed so far |
| `GovernorProofs.EntrySays` | plugins/param-discipline/scripts/param_discipline.py:75-112 | the new entry carries the request, the value it replaces, the second it was made and no cycles |
| `GovernorProofs.ChangesAreOnRecord` | apps/api/src/agents/agents.service.ts:2802-2819 | after any run and any failures, a setting that differs from its first value has the stored journal entry that set it |
| `GovernorProofs.WeeklyLimit` | plugins/param-discipline/scripts/param_discipline.py:75-89 | over any run every seven-day window of every plugin holds at most the limit; only each attempt's own two clock readings must be in order |
| `GovernorProofs.LockDistance` | plugins/param-discipline/scripts/param_discipline.py:115-144 | over any run whose stamps of a plugin strictly increase, its changes are at least the lock length of counter advances apart |
| `GovernorProofs.CountersCountCycles` | plugins/param-discipline/scripts/param_discipline.py:147-149 | entries are never lost or rewritten, and a counter is the number of advances since |
| `GovernorProofs.TieDefeatsTheLock` | plugins/param-discipline/scripts/param_discipline.py:124 | a run with equal stamps in which two changes are zero advances apart under a lock of one |
| `GovernorProofs.WithoutAdvancesOneChange` | plugins/param-discipline/hooks/cycle.py:31-49 | if nothing stores the advanced journal and the lock is positive, a plugin is changed at most once ever |
| `Resampler.FillGroups` | apps/sandbox/runner.py:101-110 | the dictionary and the key order after the pass hold exactly each period's bars |
| `Resampler.ResampleBars` | apps/sandbox/runner.py:80-123 | the resampling loop computes one merged bar per period in order of arrival |
| `Resampler.GetOhlcv` | apps/sandbox/runner.py:879-884 | the tool: resampled series, then the tail limit |
| `ResamplerProofs.PeriodExactly` | apps/sandbox/runner.py:33-98 | which texts ask for months and weeks, in any case and with blanks around; everything else is daily |
| `ResamplerProofs.NothingLost` | apps/sandbox/runner.py:112-123 | for every input, total volume, highest high and lowest low of the dated bars survive |
| `ResamplerProofs.OpensAndCloses` | apps/sandbox/runner.py:112-123 | every output bar opens as the first bar of its period, closes as the last and carries that one's date |
| `ResamplerProofs.StampCounts` | apps/sandbox/runner.py:101-110 | a bar without a date falls in the period of its time stamp |
| `ResamplerProofs.KeysIncrease` | apps/sandbox/runner.py:101-110 | for bars in date order period keys strictly increase |
| `ResamplerProofs.GroupsConcatenate` | apps/sandbox/runner.py:101-110 | for bars in date order the groups concatenate to the dated input |
| `ResamplerProofs.NoRepaint` | apps/sandbox/runner.py:80-123 | however many later bars arrive, every output bar but the newest stays as it was |
| `ResamplerProofs.LateBarRepaintsItsPeriod` | apps/sandbox/runner.py:101-110 | a bar out of order changes the period it belongs to and no other |
| `ResamplerProofs.Idempotent` | apps/sandbox/runner.py:80-123 | resampling twice equals once, for every input |
| `ResamplerProofs.TailLimitExactly` | apps/sandbox/runner.py:882-884 | for every integer limit: it is respected if and only if it is positive, or zero with nothing to cut; positive keeps the newest, zero keeps everything, negative drops that many of the oldest |
| `Vwap.ComputeVwapSession` | plugins/vwap-reversion/scripts/vwap.py:54-94 | every bar carries the two-pass VWAP and deviation of its prefix, computed from three running sums; lists are cut to the shortest |
| `Vwap.TradesAre` | plugins/vwap-reversion/scripts/vwap.py:54-72 | the session sees as many bars as the shortest list has, each at the mean of high, low and close |
| `Vwap.OnePassIsTwoPass` | plugins/vwap-reversion/scripts/vwap.py:73-75 | with positive cumulative volume the running-sum variance is the volume-weighted mean squared deviation |
| `Vwap.ClampIsDead` | plugins/vwap-reversion/scripts/vwap.py:74-75 | with non-negative volumes the clamp at zero never acts |
| `Vwap.VwapIsWithinPrices` | plugins/vwap-reversion/scripts/vwap.py:73 | VWAP lies within any bounds of the typical prices seen |
| `Vwap.VwapIsTheBestCentre` | plugins/vwap-reversion/scripts/vwap.py:8-15 | VWAP is the unique centre of least volume-weighted squared distance |
| `Kalman.KalmanFilter` | plugins/kalman-filter/scripts/kalman.py:47-85 | the loop computes the recursion, or reports the zero denominator |
| `KalmanProofs.GainsAndVariances` | plugins/kalman-filter/scripts/kalman.py:68-83 | Q >= 0, R > 0, P0 >= 0: every gain is in [0, 1), every variance in [0, R), and the filter never fails |
| `KalmanProofs.EveryStateFuses` | plugins/kalman-filter/scripts/kalman.py:68-83 | every state: gain, variance and estimate part prior and price in proportion to prior variance plus Q and to R |
| `KalmanProofs.EstimateIsBest` | plugins/kalman-filter/scripts/kalman.py:68-83 | every estimate is the unique one with the least squared misfit to the previous estimate and the price, each weighed by the other's variance |
| `KalmanProofs.PricesDoNotMatter` | plugins/kalman-filter/scripts/kalman.py:68-81 | variances and gains are fixed by the noise settings and the position alone |
| `KalmanProofs.VarianceNeverTurns` | plugins/kalman-filter/scripts/kalman.py:71-81 | the variances keep the direction of their first step |
| `KalmanProofs.VarianceNeverOvershoots` | plugins/kalman-filter/scripts/kalman.py:71-81 | no variance crosses a fixed point of the recursion |
| `KalmanProofs.EstimateWithinPrices` | plugins/kalman-filter/scripts/kalman.py:65-83 | every estimate is within any bounds of the prices seen so far |
| `KalmanProofs.CommutesWithAffine` | plugins/kalman-filter/scripts/kalman.py:65-83 | an affine change of prices changes the estimates alike and nothing else |

## Left out

- Rounding of reported fields and of rescaled quantities, and floating-point error: all arithmetic is exact.
- The value of CAGR and of a calendar span: the yearly growth of a factor between two dates is a parameter, so only what does not depend on it is proved.
- The rounding of the robustness ratio to three decimals before it is compared with one half: a ratio between 0.4995 and 0.5 counts as robust in the source.
- The per-symbol `run_walk_forward`: the same window arithmetic over a different engine.
- Symbols with unequal calendars in walk-forward: slices are by index, so the window theorems assume one calendar.
- The percentages the signal backtester derives from its capital at the end, which divide by a zero capital.
- Sums over a set of symbols are taken in universe order; over exact reals the order does not matter.
- Correlation of log returns: `pearson_correlation` is a parameter of the correlation layer.
- Calendar arithmetic: period keys are any monotone function of the day where a theorem needs order, and date parsing any function that refuses the empty text.
- Letter case of timeframes beyond ASCII.
- Two tuning attempts interleaved on the journal: the chain is modelled as one step. A process that dies between its writes leaves the same stores as a write that throws.
- The gates before the tuning chain (plugin lookup, schema and value validation, activation of the discipline plugin).
- The plugin settings the chain is handed are taken to be the stored ones.
- What the trade-intent service makes of an intent, and the audit writes inside kernel tools: part of the answer of the dispatched call.
- What dispatched tools do, prompts, observations, sanitising and audit text; tool and plugin names are data with an arbitrary naming function.
- Persistence of plugin alerts and the veto reasons' text.
- Sandbox process limits, module loading, controllers, authentication, backups, market-data fetching: effects, not logic.
- The paper-trading ledger: it rounds the stored cost, so exact conservation fails there.
- Entry signals of the strategies (`analyze`) and the threshold cascades of the other plugins: parameters here.
