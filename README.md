# ClaudeQuant backtester core, modelled in Dafny

This project models the core of the ClaudeQuant single-instrument backtester and proves
properties of that model. The backtester replays daily price bars through a strategy, turns
the strategy's signals into broker orders, keeps cash and positions, records a
portfolio-value series and reports performance metrics. Around that loop sit the
moving-average crossover strategy, the indicator series it uses, the technical and
fundamental scoring rules, the symbol and date normalisation shared by the data providers,
the nested configuration tree, and the bar store with its cache rules.

Money and prices are exact `real`s, so float rounding is not modelled. Dates are day numbers
(`Types.Date`). Pandas frames become sequences of `Types.Bar` rows. A column that pandas
would hold as NaN becomes an `Option`.

Modules, one per source file:

- `Types` (src/core/types.py): Position, Order and Trade, and the backtest result.
  Position and Order are classes because the source updates their fields in place.
- `Brokerage` (src/backtest/broker.py): the broker is a class with `cash` and the
  append-only `orders` and `trades` lists. Commission, buy cost and execution price are
  functions.
- `Engine` (src/backtest/engine.py): the event loop as a class. Each signal is also
  specified on plain values (`AfterSignal`), and the method `ProcessSignal` is proved
  against that function. One bar is the mark to the close followed by that signal
  (`AfterBar`), and a whole run is proved against the replay of `AfterBar` over the bars
  (`StateAfter`, with the recorded values `ValuesAfter`).
- `Metrics` (src/backtest/metrics.py): total return, drawdown, Calmar ratio and the guard
  branches of the other ratios. `pandas.Series.std`, `sqrt` and `**` are uninterpreted
  functions passed in as `Metrics.Numerics`.
- `StrategyBase` (src/strategy/base.py) and `MACross` (strategies/templates/ma_cross.py):
  the strategy's state is a class. Its `init` and `next` are function values, so that the
  engine treats the strategy as an abstract decision function. `NewMACross` installs `next`
  as written; `NewCorrectedMACross` installs the corrected one (see Findings).
- `Indicators` (src/strategy/indicators.py): the moving average, the crossover series and
  the `add_indicators_to_data` dispatch.
- `Analyzer` (src/analysis/analyzer.py): the technical report and its weighted vote.
- `Fundamental` (src/market/fundamental.py): the symbol code, the net-change
  accumulation and the scoring and rating block. The fetched tables are inputs.
- `Providers` (src/data/providers/base.py): `normalize_symbol`, `normalize_date` and
  `validate_dataframe`.
- `Configuration` (src/utils/config.py): deep merge and dotted-key get and set over a
  nested value tree. The environment is a parameter.
- `Storage` (src/data/storage.py): the parquet directory becomes a map from file key to
  frame. It has specification functions `Saved` and `Updated`, and the `DataStorage` class
  is proved against them.
- `Loader` (src/data/loader.py): the 7-day completeness check and the cache-or-fetch
  decision. The provider's download is a function value.
- `Wrappers` and `Text` are support modules: `Option`/`Result`, and the string operations
  Python provides (`split`, `replace`, `upper`, ordering).

Where the documentation and the code disagree, the model follows the code:

- The broker does not record a BUY that it rejects for insufficient funds. The exception is
  raised before the append at src/backtest/broker.py:97.
- The engine never calls `on_order_filled` (src/backtest/engine.py:115-174), so the
  strategy's `current_position` stays 0 during a run.
- Cash is not proved to stay non-negative, because the code does not guarantee it. The funds
  check uses the submitted price, while the fill uses the close plus slippage.

## Model

| member | source | states |
|---|---|---|
| Types.Trade.Amount | src/core/types.py:158-161 | the amount of a trade with non-negative quantity and price is non-negative |
| Types.Trade.TotalCost | src/core/types.py:164-166 | total cost exceeds the amount by exactly the commission |
| Types.Order.constructor | src/core/types.py:49-67 | a new order is PENDING with nothing filled and no commission |
| Types.Order.IsFilled | src/core/types.py:68-70 | an order is filled exactly when its status is FILLED |
| Types.Order.FilledAmount | src/core/types.py:72-75 | the filled quantity times the fill price, without commission |
| Types.AvgCostAfterAdd | src/core/types.py:122-127 | the new average cost times the new quantity is the old cost basis plus the bought cost; it is 0 when the new quantity is not positive |
| Types.AvgCostStaysBetween | src/core/types.py:122-127 | averaging a non-negative holding with a purchase keeps the cost between any bounds on both prices |
| Types.Position.constructor | src/core/types.py:83-94 | the fields are the arguments, with the current price defaulting to 0 |
| Types.Position.UnrealizedPnl | src/core/types.py:95-108 | unrealized P&L is quantity × (current price − average cost), i.e. market value minus cost basis |
| Types.Position.MarketValue | src/core/types.py:95-98 | the quantity times the current price |
| Types.Position.CostBasis | src/core/types.py:100-103 | the quantity times the average cost |
| Types.Position.UnrealizedPnlPct | src/core/types.py:110-115 | 0 for a zero cost basis, otherwise the percentage of P&L over cost basis |
| Types.Position.UpdatePrice | src/core/types.py:117-120 | only the current price changes |
| Types.Position.Add | src/core/types.py:122-127 | quantity grows by q, the average cost is re-averaged, the cost basis grows by q × p, and the mark is kept |
| Types.Position.Reduce | src/core/types.py:129-137 | over-selling is a ValueError that leaves the position unchanged; otherwise quantity falls by q, the cost is kept, and the realized P&L plus the remaining unrealized P&L equals the old unrealized P&L |
| Types.BacktestResult.TotalReturn | src/core/types.py:199-201 | a ZeroDivisionError exactly when the initial capital is 0; otherwise the initial capital times the return is the gain, and an unchanged capital gives 0 |
| Types.BacktestResult.TotalReturnPct | src/core/types.py:203-206 | the same error exactly for a zero initial capital; otherwise the initial capital times the percentage is 100 times the gain |
| Types.FirstDate | src/backtest/engine.py:203 | the earliest date of the data: a lower bound that some row attains |
| Types.LastDate | src/backtest/engine.py:204 | the latest date of the data: an upper bound that some row attains |
| Brokerage.Commission | src/backtest/broker.py:165-183 | the larger of rate × notional and the minimum, so never below either |
| Brokerage.BuyCost | src/backtest/broker.py:185-189 | notional plus commission, hence at least notional × (1 + rate) and notional + minimum |
| Brokerage.ExecutionPrice | src/backtest/broker.py:116-123 | the base price moved up by slippage for BUY and down for SELL; unchanged at zero slippage |
| Brokerage.SumCommissionAtLeast | src/backtest/broker.py:203-205 | the commissions of n trades are at least n minimums |
| Brokerage.Broker.constructor | src/backtest/broker.py:18-47 | cash is the initial capital, the settings are the arguments, and there are no orders or trades |
| Brokerage.Broker.SubmitOrder | src/backtest/broker.py:49-100 | a non-positive quantity or price is InvalidOrder, and an unaffordable BUY is InsufficientFunds; both leave the broker unchanged. Otherwise exactly one PENDING order is appended, and SELL is never funds-checked |
| Brokerage.Broker.FillOrder | src/backtest/broker.py:102-163 | a non-pending order is InvalidOrder with nothing changed. Otherwise the order is FILLED at the execution price, and one matching trade is appended. Cash falls by amount + commission on BUY, and rises by amount − commission − stamp tax on SELL |
| Brokerage.Broker.TotalCommissionAtLeast | src/backtest/broker.py:203-209 | total commission is at least trade count × minimum commission |
| Brokerage.Broker.Cash | src/backtest/broker.py:199-201 | the broker's current cash |
| Brokerage.Broker.TotalCommission | src/backtest/broker.py:203-205 | the sum of the commissions of the recorded trades |
| Brokerage.Broker.TradeCount | src/backtest/broker.py:207-209 | the number of recorded trades |
| Brokerage.CashChangeOfTrade | src/backtest/broker.py:135-146 | a BUY costs exactly the trade's total cost, and a SELL brings in at most its amount |
| Brokerage.ExampleBuy | src/backtest/broker.py:49-163 | buying 100 at 10 from 100000 pays the 5.0 minimum commission and leaves 98995 |
| Brokerage.ExampleRefusedBuy | src/backtest/broker.py:87-97 | buying 100 at 10 with 100 of cash is InsufficientFunds, and no order is recorded |
| Configuration.DeepMerge | src/utils/config.py:46-53 | the keys are the union; base-only keys are kept; update values replace unless both sides are dicts, which merge recursively |
| Configuration.MergeWithItself | src/utils/config.py:46-53 | merging a tree into itself changes nothing |
| Configuration.MergeIdempotent | src/utils/config.py:46-53 | merging the same update twice equals merging it once |
| Configuration.Walk | src/utils/config.py:55-66 | a walk that succeeds never ends on a null, except for an empty path from a null |
| Configuration.Lookup | src/utils/config.py:55-76 | a missing or null path, or a path through a non-dict, gives the default; a `${NAME}` string gives the environment's value of NAME, or the default when NAME is unset; any other value is returned as stored |
| Configuration.SetPath | src/utils/config.py:78-88 | a type error exactly when an existing intermediate is not a dict; otherwise the first key is added and other top-level keys are kept |
| Configuration.WalkAfterSet | src/utils/config.py:55-88 | after a set, walking the same path finds the value that was set (nothing for null) |
| Configuration.WalkElsewhereAfterSet | src/utils/config.py:78-88 | a set leaves every path with a different first key unchanged |
| Configuration.ToFloat | src/utils/config.py:112-126 | `float()` of an int or real value succeeds; a string is a ValueError, and null, list or dict a TypeError |
| Configuration.Config.constructor | src/utils/config.py:15-32 | the tree starts as the given defaults |
| Configuration.Config.LoadConfig | src/utils/config.py:34-44 | the tree becomes the deep merge of the old tree with the loaded one |
| Configuration.Config.Get | src/utils/config.py:55-76 | the result is the lookup of the key in the tree |
| Configuration.Config.Set | src/utils/config.py:78-88 | the tree becomes the set path, or stays unchanged with a TypeError |
| Configuration.Config.GetItem | src/utils/config.py:128-133 | ConfigNotFound exactly when the lookup gives null; otherwise the looked-up value |
| Configuration.Config.InitialCapital | src/utils/config.py:112-114 | 100000.0 when the key is missing |
| Configuration.Config.CommissionRate | src/utils/config.py:116-118 | 0.0003 when the key is missing |
| Configuration.Config.MinCommission | src/utils/config.py:120-122 | 5.0 when the key is missing |
| Configuration.Config.Slippage | src/utils/config.py:124-126 | 0.0001 when the key is missing |
| Configuration.GetAfterSet | src/utils/config.py:55-88 | a get after a successful set of a non-null, non-reference value returns that value |
| Configuration.ContainsIffGetItem | src/utils/config.py:128-137 | `key in config` holds exactly when `config[key]` succeeds |
| Configuration.Config.Contains | src/utils/config.py:135-137 | `key in config`: `get` with no default gives a value that is not None |
| Indicators.CalculateMA | src/strategy/indicators.py:12-23 | same length as the input; defined exactly from index period − 1 on |
| Indicators.MAWithinWindowBounds | src/strategy/indicators.py:12-23 | each defined average lies within any bounds on its window |
| Indicators.MAOfConstantSeries | src/strategy/indicators.py:12-23 | the average of a constant series is that constant |
| Indicators.MAOfPeriodOne | src/strategy/indicators.py:12-23 | a one-bar average is the series itself |
| Indicators.CalculateVolumeMA | src/strategy/indicators.py:156-167 | same length as the volume, and defined exactly from index period − 1 on |
| Indicators.CalculateCrossover | src/strategy/indicators.py:170-194 | same length; 1 exactly at a golden cross, −1 exactly at a death cross, and 0 elsewhere, including the first index and undefined inputs |
| Indicators.GoldenDeathExclusive | src/strategy/indicators.py:185-188 | no index is both golden and death |
| Indicators.NoConsecutiveCrosses | src/strategy/indicators.py:170-194 | two golden (or two death) crosses never fall on adjacent bars |
| Indicators.AddIndicator | src/strategy/indicators.py:217-248 | the known indicator's columns are added, all other columns are kept, and an unknown type adds nothing; "ma" writes the simple moving average over `period` (default 20) and fails with a value error for a negative or non-integer period; "ema" and "rsi" write the calculator's column (period defaults 20 and 14) or pass its error on; "macd" writes the line, signal and histogram to `_macd`, `_signal` and `_histogram` in that order; "bollinger" writes middle, upper and lower bands (period 20, `std_dev` 2.0 by default) or passes the error on |
| Indicators.AddAllKeepsColumns | src/strategy/indicators.py:197-249 | after the whole dispatch every input column is still present, and unchanged unless overwritten |
| Indicators.AddAllUnknownTypes | src/strategy/indicators.py:217-248 | a configuration of unknown types returns the table unchanged |
| Indicators.AddIndicatorsToData | src/strategy/indicators.py:197-249 | the loop computes the dispatch over every configured indicator |
| StrategyBase.GetCurrentBar | src/strategy/base.py:91-95 | None exactly when there is no data or the index is past its end; otherwise a row of the data |
| StrategyBase.GetPreviousBar | src/strategy/base.py:97-110 | None exactly when index − n lies outside the data; otherwise a row of the data |
| StrategyBase.PreviousBarZeroIsCurrent | src/strategy/base.py:91-110 | the bar 0 back is the current bar |
| StrategyBase.GetHistoricalData | src/strategy/base.py:112-131 | None exactly when there is no data or n ≤ 0; at most n rows otherwise |
| StrategyBase.HistoryEndsAtCurrentBar | src/strategy/base.py:97-131 | the k-th row of the window is the bar (length − 1 − k) back, so the window ends at the current bar |
| StrategyBase.CreateSignal | src/strategy/base.py:133-166 | the fields are copied and the symbol is the current bar's; a missing current bar is the TypeError of subscripting None |
| StrategyBase.Strategy.constructor | src/strategy/base.py:16-26 | position 0, index 0, no data, and params `{}` when none are given |
| StrategyBase.Strategy.Init | src/strategy/base.py:31-44 | the prepared data is stored, or the preparation error is returned and the stored data is left as it was (see Left out) |
| StrategyBase.Strategy.Next | src/strategy/base.py:46-60 | the result is the strategy's decision on its own view and the bar |
| StrategyBase.Strategy.OnOrderFilled | src/strategy/base.py:62-75 | the position counter grows by the filled quantity on BUY and shrinks on SELL; nothing else changes |
| MACross.MergeParams | strategies/templates/ma_cross.py:28-42 | user params override the defaults 5, 20 and 1.0 key by key |
| MACross.Prepared | strategies/templates/ma_cross.py:50-60 | the rows keep the data and carry the fast and slow averages of the close and their crossover |
| MACross.Prepare | strategies/templates/ma_cross.py:46-60 | `init` returns the prepared copy, or an error when a period is not a usable window |
| MACross.Next | strategies/templates/ma_cross.py:64-107 | `next` as written: a KeyError for a missing `ma_fast`, then for a missing `ma_slow` once `ma_fast` is defined, then for a missing `crossover` once both are defined; None when `ma_fast`, or else `ma_slow`, is NaN; with both averages defined, a BUY of 100 at the close exactly on crossover 1 while flat and a SELL of the whole position exactly on crossover −1 while long (given a current bar), and never any other action; with every column present and a current bar it never fails |
| MACross.RawBarRaisesKeyError | strategies/templates/ma_cross.py:69 | a raw bar, which is what the engine passes, makes `next` fail with a KeyError |
| MACross.NextOnPrepared | strategies/templates/ma_cross.py:64-107 | the corrected `next` reads the indicators from the strategy's prepared row |
| MACross.NextOnPreparedNeverFails | strategies/templates/ma_cross.py:64-107 | on prepared data with the index in range, the corrected `next` never fails |
| MACross.NeverSellsWhileFlat | strategies/templates/ma_cross.py:75-107 | no SELL while flat, and any signal is for the current symbol at its close |
| MACross.BuyExactlyOnGoldenCrossWhileFlat | strategies/templates/ma_cross.py:75-88 | a BUY of 100 at the close exactly when both averages are defined, the crossover is 1 and the position is 0 |
| MACross.SellAllExactlyOnDeathCrossWhileLong | strategies/templates/ma_cross.py:91-104 | a SELL of the whole position at the close exactly when both averages are defined, the crossover is −1 and the position is positive |
| MACross.SignalsFollowCrossovers | strategies/templates/ma_cross.py:46-107 | on prepared data a signal is given only at a golden or death cross of the two averages of the close |
| MACross.NewMACross | strategies/templates/ma_cross.py:28-44 | a fresh strategy with the merged params, `init` = Prepare, `next` as written (Next), and no data, position 0 and index 0 |
| MACross.NewCorrectedMACross | strategies/templates/ma_cross.py:28-44 | the same fresh strategy with the corrected `next` (NextOnPrepared) installed |
| Metrics.ChangeRestoresValue | src/backtest/engine.py:193 | applying the change from a non-zero value gives back the new value |
| Metrics.PctChange | src/backtest/engine.py:190-193 | same length; the first return is 0, and each later one is the change from the previous value |
| Metrics.TotalReturn | src/backtest/metrics.py:62-81 | 0 for an empty series or a zero first value; otherwise 0 exactly when the last value equals the first, and, from a positive first value, positive exactly when the last value is higher |
| Metrics.OnePlusTotalReturn | src/backtest/metrics.py:62-81 | one plus the total return is the last value over the first |
| Metrics.ConstantSeriesHasNoReturn | src/backtest/metrics.py:72-81 | a constant series has total return 0 |
| Metrics.CompoundTelescopes | src/backtest/metrics.py:62-81 | growth factors that carry each value to the next multiply the first value into the last |
| Metrics.PctChangeCarries | src/backtest/engine.py:190-193 | with no zero values, each daily return carries the previous value to the next |
| Metrics.CompoundOfPctChange | src/backtest/engine.py:190-193 | compounding the daily returns of a zero-free series gives the last value over the first |
| Metrics.CompoundedReturnsGiveTotalReturn | src/backtest/metrics.py:62-81 | compounding the daily returns of a zero-free series gives 1 + its total return |
| Metrics.AnnualReturn | src/backtest/metrics.py:94-101 | 0 for an empty series (the power itself is uninterpreted) |
| Metrics.Volatility | src/backtest/metrics.py:109-128 | 0 for no returns; otherwise, when not annualized, the deviation of the returns |
| Metrics.SharpeRatio | src/backtest/metrics.py:156-185 | 0 for no returns or a zero deviation; otherwise the annualized excess mean over the deviation |
| Metrics.Downside | src/backtest/metrics.py:205 | exactly the strictly negative returns, each as often as it occurs and no other value |
| Metrics.DownsideAppend | src/backtest/metrics.py:205 | the filter keeps row order: the downside of a concatenation is the concatenation of the downsides |
| Metrics.SortinoRatio | src/backtest/metrics.py:188-219 | 0 for no returns, no negative return or a zero downside deviation; otherwise the ratio times the downside deviation is the annualized excess mean |
| Metrics.Peak | src/backtest/metrics.py:145 | the running maximum is at least every value up to t |
| Metrics.PeakIsAttained | src/backtest/metrics.py:145 | the running maximum is one of the values up to t |
| Metrics.Drawdown | src/backtest/metrics.py:148 | undefined exactly for a zero peak; 0 for a value at its peak; at most 0 under a positive peak |
| Metrics.DrawdownScalesPeak | src/backtest/metrics.py:148 | a defined drawdown times its peak is the value minus the peak |
| Metrics.MinDrawdown | src/backtest/metrics.py:151 | undefined exactly when no drawdown is defined; otherwise at most every defined drawdown |
| Metrics.MaxDrawdown | src/backtest/metrics.py:131-153 | never negative; 0 for an empty series; otherwise the absolute value of the smallest defined drawdown |
| Metrics.PeakOfNonDecreasing | src/backtest/metrics.py:145 | on a non-decreasing series every value is its own peak |
| Metrics.DrawdownAtPeak | src/backtest/metrics.py:148 | a value at a positive peak has drawdown 0 |
| Metrics.DrawdownBelowPeak | src/backtest/metrics.py:148 | a value below its positive peak has a negative drawdown |
| Metrics.DrawdownOfPositive | src/backtest/metrics.py:145-148 | on a positive series every drawdown is defined and at most 0 |
| Metrics.MinDrawdownWithin | src/backtest/metrics.py:151 | the minimum lies within any bounds on the defined drawdowns |
| Metrics.NonDecreasingHasNoDrawdown | src/backtest/metrics.py:141-153 | a positive non-decreasing series has maximum drawdown 0 |
| Metrics.FallHasDrawdown | src/backtest/metrics.py:141-153 | a positive series that falls somewhere has a positive maximum drawdown |
| Metrics.MaxDrawdownZeroIffNonDecreasing | src/backtest/metrics.py:145-151 | a positive series has maximum drawdown 0 exactly when it is non-decreasing |
| Metrics.MaxDrawdownExample | src/backtest/metrics.py:145-151 | [100, 110, 90, 120] has maximum drawdown 20/110 |
| Metrics.CalmarRatio | src/backtest/metrics.py:222-238 | 0 when there is no drawdown; otherwise it has the sign of the annual return: positive exactly when that is positive, 0 exactly when that is 0 |
| Metrics.CalculateAll | src/backtest/metrics.py:25-59 | always the same eight keys, each holding its metric, with trading_days = the number of values |
| Metrics.FlatSeriesHasZeroReturns | src/backtest/engine.py:190-193 | a constant series has only zero daily returns |
| Metrics.NoDownside | src/backtest/metrics.py:205 | with no negative return the downside is empty |
| Metrics.FlatCurveHasNoAnnualReturn | src/backtest/metrics.py:84-106 | a flat curve has annual return 0 when 1 to any power is 1 |
| Metrics.FlatCurveHasNoRatios | src/backtest/metrics.py:156-219 | a flat curve of two or more values has volatility, Sharpe and Sortino 0 when a zero series of two or more values has zero deviation |
| Metrics.FlatCurveScoresZero | src/backtest/metrics.py:25-59 | a positive flat curve of two or more values scores 0 on every metric except the day count |
| Engine.HoldingsValueUpdate | src/backtest/engine.py:176-180 | changing one listed holding changes the summed value by the change in that holding |
| Engine.HoldingsValueUnlisted | src/backtest/engine.py:176-180 | an unlisted holding does not count |
| Engine.HoldingsValueAppend | src/backtest/engine.py:176-180 | listing one more holding adds its market value |
| Engine.OrElse | src/backtest/engine.py:38-41 | Python's `x or fallback`: the argument unless it is missing or zero |
| Engine.SellQuantity | src/backtest/engine.py:154 | min(signal quantity, held): at most each, and equal to one of them (0 with no position) |
| Engine.AfterSignal | src/backtest/engine.py:115-174 | `_process_signal` on values; its content is stated by BuyStep, SellStep, AfterSignalTouchesOnlyItsSymbol and AfterSignalKeepsValid |
| Engine.AfterSignalTouchesOnlyItsSymbol | src/backtest/engine.py:115-174 | a refused signal changes nothing; an executed one leaves every other position as it was, adds no other symbol, and lists its symbol at the end only when a BUY opens it |
| Engine.AccountValue | src/backtest/engine.py:176-180 | cash plus the market value of the listed positions; HoldingsValueUpdate, HoldingsValueAppend and ValueAfterReplace state how it moves |
| Engine.BuyStep | src/backtest/engine.py:119-145 | an executed BUY pays the buy cost at the slipped close and folds the shares into the position, opening one at the close if absent |
| Engine.SellStep | src/backtest/engine.py:147-174 | an executed SELL sells min(signal, held) at the slipped close, receives amount − commission − stamp tax, and reduces the position |
| Engine.AfterSignalKeepsValid | src/backtest/engine.py:115-174 | processing a signal keeps every position non-negative and listed once |
| Engine.SellIsCapped | src/backtest/engine.py:149-168 | a SELL never asks for more than is held, so the position ends at held − sold ≥ 0 |
| Engine.ValueAfterReplace | src/backtest/engine.py:176-180 | replacing one position changes the portfolio value by its change in value plus the change in cash |
| Engine.BuyCostsOnlyCommission | src/backtest/engine.py:119-145 | with no slippage, a BUY lowers the portfolio value by exactly its commission |
| Engine.AddedValue | src/core/types.py:122-127 | adding shares raises a holding's market value by their value at its mark |
| Engine.SellCostsOnlyCharges | src/backtest/engine.py:147-174 | with no slippage, a SELL lowers the portfolio value by exactly its commission and stamp tax |
| Engine.Marked | src/backtest/engine.py:90-92 | marking sets the run symbol's current price to the close, keeping its quantity and cost, and changes no other position, the cash or the listing |
| Engine.AfterBar | src/backtest/engine.py:90-100 | one bar on the books: the mark, then AfterSignal when `next` gave a signal |
| Engine.AfterBarKeepsValid | src/backtest/engine.py:90-100 | one bar keeps every position non-negative and listed once |
| Engine.StateAfter | src/backtest/engine.py:87-105 | the books after replaying the first n bars, one AfterBar each with the decision `next` gives on that bar |
| Engine.ValueAfter | src/backtest/engine.py:102-104 | the account value of the books after n bars |
| Engine.ValuesAfter | src/backtest/engine.py:87-105 | one recorded value per replayed bar |
| Engine.StateAfterValid | src/backtest/engine.py:87-105 | replaying any number of bars keeps the books valid |
| Engine.ValuesAfterAt | src/backtest/engine.py:102-104 | the k-th recorded value is the account value after bar k + 1 |
| Engine.LastValueAfter | src/backtest/engine.py:102-104 | the last recorded value is the value after the last bar |
| Engine.NoSignalsNoTrades | src/backtest/engine.py:87-105 | with no positions and no signal on any bar, the books do not move and every recorded value is the cash |
| Engine.BacktestEngine.Holdings | src/backtest/engine.py:176-180 | the positions as values, with the same symbols |
| Engine.BacktestEngine.constructor | src/backtest/engine.py:20-58 | the broker holds the initial capital with the engine's settings, and the books start empty |
| Engine.BacktestEngine.Create | src/backtest/engine.py:20-58 | each setting is the argument unless it is missing or zero, else the config getter; a failing getter is an error |
| Engine.BacktestEngine.ProcessSignal | src/backtest/engine.py:115-174 | the books move as AfterSignal says; an executed signal records one order and one trade, and a refused one records nothing |
| Engine.BacktestEngine.ExecuteBuy | src/backtest/engine.py:119-145 | the BUY branch moves the books as AfterSignal says |
| Engine.BacktestEngine.ExecuteSell | src/backtest/engine.py:147-174 | the SELL branch moves the books as AfterSignal says; a missing or empty position submits nothing |
| Engine.BacktestEngine.OpenPosition | src/backtest/engine.py:132-138 | a new empty position marked at the close is listed last |
| Engine.BacktestEngine.AddShares | src/backtest/engine.py:140 | the position becomes the re-averaged holding |
| Engine.BacktestEngine.RemoveShares | src/backtest/engine.py:168 | the position loses the sold shares and keeps its cost and mark |
| Engine.BacktestEngine.PlaceOrder | src/backtest/engine.py:121-129 | a trade exactly when quantity and price are positive, at the slipped close; no trade leaves the broker unchanged |
| Engine.BacktestEngine.BuyShares | src/backtest/engine.py:132-140 | the bought shares are folded into the position, which is opened at the close if absent |
| Engine.BacktestEngine.PortfolioValue | src/backtest/engine.py:176-180 | the cash plus the market value of every listed position, as AccountValue of the books |
| Engine.BacktestEngine.Mark | src/backtest/engine.py:90-92 | the books end as Marked says |
| Engine.BacktestEngine.Respond | src/backtest/engine.py:95-105 | asks `next`, processes a signal as AfterSignal says, and records; a failing `next` changes nothing |
| Engine.BacktestEngine.Step | src/backtest/engine.py:90-105 | one bar: the books end as AfterBar says (the run symbol marked to the close, then the signal processed), and exactly the new portfolio value and the bar's date are appended; a failing `next` leaves only the mark and appends nothing |
| Engine.BacktestEngine.Act | src/backtest/engine.py:99-100 | the books end as AfterSignal says for the signal at the close, and the series are unchanged |
| Engine.BacktestEngine.Record | src/backtest/engine.py:103-105 | appends the current portfolio value and the bar's date |
| Engine.BacktestEngine.Turn | src/backtest/engine.py:87-105 | one turn of the bar loop: with the strategy's index set to the bar's position, the books end as AfterBar says for the signal decided on that view, and the new value and the date are appended |
| Engine.BacktestEngine.RunBars | src/backtest/engine.py:87-105 | succeeds exactly when every `next` succeeds; then the books are the replay StateAfter of all bars, the appended values are ValuesAfter (the account value after each bar, in order) and the appended dates are the bars' dates |
| Engine.BacktestEngine.Run | src/backtest/engine.py:60-113 | empty data fails before anything changes, and an `init` error propagates. After a successful `init`, the run succeeds exactly when every `next` on the prepared view succeeds; the books are then the replay of all bars, the recorded values the replay's values, and the final capital the value after the last bar. The result carries the recorded series, its daily returns, the first and last dates, and the broker's lists |
| Engine.BacktestEngine.Reset | src/backtest/engine.py:216-227 | a fresh broker with the same settings and the initial capital; positions, values and dates are emptied |
| Analyzer.CrossOf | src/analysis/analyzer.py:100-105 | golden exactly when prev fast ≤ prev slow and now fast > slow, death for the mirror, else none |
| Analyzer.CrossAgreesWithCrossover | src/analysis/analyzer.py:100-105 | the analyzer's cross at the last bar agrees with the crossover series there |
| Analyzer.MaEntryOf | src/analysis/analyzer.py:75-84 | the average at the last bar, above exactly when the close exceeds it, and the distance in percent, which is defined only for a non-zero average |
| Analyzer.EntryDefinedWhenPeriodFits | src/analysis/analyzer.py:71-76 | a period no longer than the history gives a defined average |
| Analyzer.NoCrossOnTwentyRows | src/analysis/analyzer.py:91-105 | with exactly 20 rows no cross is seen |
| Analyzer.AnalyzeMA | src/analysis/analyzer.py:64-107 | an entry for exactly the configured periods that fit the history, each the entry for that period, and the 5/20 cross exactly when both are present |
| Analyzer.AnalyzeMACD | src/analysis/analyzer.py:109-138 | bullish exactly when the histogram is positive; the cross of MACD over its signal line |
| Analyzer.AnalyzeRSI | src/analysis/analyzer.py:140-163 | overbought above the upper line, oversold below the lower one, else normal |
| Analyzer.RsiStatusBySide | src/analysis/analyzer.py:155-161 | with ordered lines, overbought and oversold never hold together |
| Analyzer.AnalyzeBollinger | src/analysis/analyzer.py:165-190 | above the upper band, below the lower band, or within |
| Analyzer.VerdictOf | src/analysis/analyzer.py:239-244 | buy exactly when buy > sell + 1, sell exactly when sell > buy + 1, else hold |
| Analyzer.GenerateSignal | src/analysis/analyzer.py:192-244 | the vote counts carry the weights 2, 2, 1, 1, 1, and the verdict follows from them |
| Analyzer.VoteTotals | src/analysis/analyzer.py:202-236 | the two counts together are between 1 and 7 |
| Analyzer.VoteIsSymmetric | src/analysis/analyzer.py:192-244 | mirroring every indicator swaps buy and sell and keeps hold |
| Analyzer.Analyze | src/analysis/analyzer.py:25-62 | fewer than 20 rows is an error; otherwise a report on the last bar: its close and change; the MA entries for exactly the periods that fit, each the entry for that period over the closes, with the 5/20 cross exactly when both are present; the MACD, RSI and band reports; and the verdict of the votes of those four reports |
| Fundamental.SymbolCode | src/market/fundamental.py:32 | the text before the first '.', or the whole symbol when it has none |
| Fundamental.SymbolCodeOfSuffixed | src/market/fundamental.py:32 | a code with an exchange suffix gives back the code |
| Fundamental.SignedPct | src/market/fundamental.py:169-173 | + for an increase row, − for a decrease row, 0 for any other direction |
| Fundamental.NetChangeAppend | src/market/fundamental.py:160-173 | the net change of rows plus one row is the sum plus that row's signed change |
| Fundamental.NetChangeOfNeutralRows | src/market/fundamental.py:169-173 | rows in no recognised direction net to 0 |
| Fundamental.NetChangeOfIncreases | src/market/fundamental.py:169-173 | increase rows with non-negative changes never net to a negative change |
| Fundamental.GetHolderChanges | src/market/fundamental.py:131-180 | None exactly for an empty table; otherwise the first 10 rows and their net signed change |
| Fundamental.FundScore | src/market/fundamental.py:199-206 | 1, −1 or 0 by the sign of the net inflow, and 0 without data |
| Fundamental.HolderScore | src/market/fundamental.py:208-217 | 1 above a ratio of 0.5, 0.5 above 0.3, else 0 |
| Fundamental.HolderScoreFromCounts | src/market/fundamental.py:208-217 | the ratio uses max(total, 1); a majority of institutions scores 1 |
| Fundamental.ChangeScore | src/market/fundamental.py:219-228 | 1 above 1, 0.5 above 0, −1 below −1, else 0 |
| Fundamental.RatingOf | src/market/fundamental.py:230-242 | thresholds ≥ 2, ≥ 1, ≥ 0 and ≥ −1, else the lowest rating |
| Fundamental.RatingIsMonotone | src/market/fundamental.py:230-242 | a higher score never gets a lower rating |
| Fundamental.AnalyzeFundamental | src/market/fundamental.py:182-252 | the total is the sum of the three scores, lies in [−2, 3], and is rated by RatingOf |
| Fundamental.NoDataIsNeutral | src/market/fundamental.py:199-242 | no data at all is rated neutral |
| Fundamental.StronglyBearishNeedsOutflowAndSelling | src/market/fundamental.py:199-242 | the lowest rating exactly when there is an outflow, a net change below −1, and less than the full holder point |
| Fundamental.StronglyBullishNeedsTwoSources | src/market/fundamental.py:199-242 | the highest rating needs at least two positive scores |
| Providers.NormalizeSymbol | src/data/providers/base.py:77-98 | dotted codes are uppercased; 6 gets .SH, 0 or 3 .SZ, 4 or 8 .BJ; every other undotted code, the empty one included, is a ValueError |
| Providers.UpperOfNoLowercase | src/data/providers/base.py:87-88 | uppercasing leaves a string without lower-case letters unchanged |
| Providers.NormalizeSymbolIsIdempotent | src/data/providers/base.py:87-96 | normalising twice equals normalising once for inputs without lower-case letters |
| Providers.LowercaseCodeIsNotIdempotent | src/data/providers/base.py:87-96 | "6ab" normalises to "6ab.SH" and then to "6AB.SH" |
| Providers.NormalizeDate | src/data/providers/base.py:100-112 | no '-' remains, and a dash-free date is unchanged |
| Providers.RemoveDropsEvery | src/data/providers/base.py:110-112 | removing '-' leaves none |
| Providers.RemoveKeepsTheRest | src/data/providers/base.py:110-112 | removing '-' keeps every other character |
| Providers.RemoveAppend | src/data/providers/base.py:110-112 | removing '-' from a concatenation is the concatenation of the removals, so the kept characters stay in order |
| Providers.NormalizeDateOfDashed | src/data/providers/base.py:100-112 | a date "YYYY-MM-DD" whose parts hold no '-' becomes "YYYYMMDD", the three parts joined in order |
| Providers.NormalizeDateIsIdempotent | src/data/providers/base.py:100-112 | normalising a date twice equals once |
| Providers.Missing | src/data/providers/base.py:140 | exactly the required columns that are absent |
| Providers.ValidateDataframe | src/data/providers/base.py:129-142 | a ValueError exactly when some required column is absent |
| Providers.ValidateIsMonotone | src/data/providers/base.py:129-142 | adding columns never makes a valid frame invalid |
| Storage.FileKey | src/data/storage.py:61 | a key of the same length with no '.', keeping every other character |
| Storage.SymbolOfKey | src/data/storage.py:158-165 | a symbol of the same length with no '_' |
| Storage.KeyRoundTrip | src/data/storage.py:158-165 | a symbol without '_' survives the file-key round trip |
| Storage.UnderscoreDoesNotRoundTrip | src/data/storage.py:158-165 | a symbol with '_' does not survive it: "A_B" comes back as "A.B" |
| Storage.InsertByDate | src/data/storage.py:58 | inserting a row adds exactly that row to the multiset of rows |
| Storage.InsertByDateSorted | src/data/storage.py:58 | inserting into rows in date order keeps them in date order |
| Storage.SortByDate | src/data/storage.py:58 | a sorted permutation of the rows |
| Storage.SortKeepsSorted | src/data/storage.py:58 | sorting sorted rows changes nothing |
| Storage.SortIsIdempotent | src/data/storage.py:58 | sorting twice equals sorting once |
| Storage.InsertKeepsDistinctKeys | src/data/storage.py:145-153 | inserting a row with a new (symbol, date) keeps the keys distinct |
| Storage.SortKeepsDistinctKeys | src/data/storage.py:145-153 | sorting keeps the keys distinct |
| Storage.DedupKeepLast | src/data/storage.py:145-150 | one row per (symbol, date): exactly the last row of each key |
| Storage.MergeIsSortedAndDistinct | src/data/storage.py:145-153 | the merge is sorted by date with one row per key |
| Storage.MergeKeepsNewRows | src/data/storage.py:145-153 | every new row is in the merge |
| Storage.MergeTakesIncomingKeys | src/data/storage.py:145-150 | every merged row is an old or a new row, and one whose key occurs in the new data is a new row |
| Storage.FilterByDate | src/data/storage.py:92-102 | exactly the rows within the given bounds; no bounds keep every row |
| Storage.FilterByDateCounts | src/data/storage.py:92-102 | each row keeps its multiplicity when in range and is dropped otherwise |
| Storage.FilterByDateSorted | src/data/storage.py:92-102 | filtering sorted rows keeps them sorted |
| Storage.FirstAndLastOfSorted | src/data/storage.py:112-129 | the first row of sorted rows has the earliest date and the last row the latest |
| Storage.Saved | src/data/storage.py:35-64 | empty data stores nothing; a missing required column is a DataError; otherwise the file holds the sorted rows and other files are untouched |
| Storage.Updated | src/data/storage.py:131-156 | empty data changes nothing; a new symbol is saved; otherwise the file becomes the sorted keep-last merge of old and new, or a DataError for missing columns |
| Storage.SavedKeepsValid | src/data/storage.py:35-64 | saving keeps every file sorted with the required columns |
| Storage.UpdatedKeepsValid | src/data/storage.py:131-156 | updating keeps every file sorted with the required columns |
| Storage.DataStorage.constructor | src/data/storage.py:18-33 | the store starts with the given files |
| Storage.DataStorage.SaveDailyData | src/data/storage.py:35-64 | the files become Saved of the old files, or stay with the error |
| Storage.DataStorage.LoadDailyData | src/data/storage.py:66-105 | DataNotFound exactly for an unstored symbol; otherwise the stored rows within the bounds, and the whole frame when unbounded |
| Storage.DateRange | src/data/storage.py:129 | bounds every row's date, both bounds are dates of rows, and on rows in date order they are the first and last dates |
| Storage.DataStorage.GetDataDateRange | src/data/storage.py:112-129 | None exactly for a missing or empty file; otherwise the earliest and latest stored dates, which are the first and last rows of a valid store |
| Storage.DataStorage.UpdateDailyData | src/data/storage.py:131-156 | the files become Updated of the old files, or stay with the error |
| Storage.DataStorage.CollectSymbols | src/data/storage.py:158-165 | the loop collects the symbol of every stored file |
| Storage.DataStorage.ListSymbols | src/data/storage.py:158-165 | exactly the stored symbols, sorted, one per file |
| Storage.InsertString | src/data/storage.py:165 | inserting into sorted strings keeps them sorted and adds the one string |
| Storage.SortStrings | src/data/storage.py:165 | a sorted permutation of the strings |
| Storage.DataStorage.DeleteSymbolData | src/data/storage.py:167-174 | the symbol's file is removed and the others are kept |
| Loader.CheckDataComplete | src/data/loader.py:107-130 | false for empty data; otherwise true exactly when some row is dated ≤ start + 7 and some row ≥ end − 7 |
| Loader.CompleteForNarrowerWindow | src/data/loader.py:123-130 | rows that cover a window cover every window inside it |
| Loader.CacheHit | src/data/loader.py:86-93 | a hit exactly when the symbol is stored and its rows in the window pass the check; the hit holds exactly those rows |
| Loader.DataLoader.constructor | src/data/loader.py:19-57 | the loader holds the given provider and store |
| Loader.DataLoader.LoadDailyData | src/data/loader.py:59-105 | a cache hit returns the cached rows with the store unchanged. Otherwise the fetched rows are returned, and merged into the store only with caching on. Errors propagate, and the store stays valid |
| Loader.DataLoader.DownloadData | src/data/loader.py:132-148 | the fetched rows are saved over the store's, and errors propagate |
| Loader.DataLoader.UpdateData | src/data/loader.py:150-169 | the last `days` days are fetched and merged into the store |
| Loader.DataLoader.GetDataInfo | src/data/loader.py:175-202 | None exactly for an unstored or empty symbol; otherwise the code, the bar count and the first and last dates |
| Loader.DataLoader.ClearCache | src/data/loader.py:204-208 | the symbol's file is removed |

## Left out

- StrategyBase.Strategy.Init: when preparation fails, the model keeps the previously stored
  data. `MACrossStrategy.init` (strategies/templates/ma_cross.py:50-54) first stores a copy of
  the bars and then adds `ma_fast` before `ma_slow` is computed, so a failing period leaves
  that partial frame (with `ma_fast` when only the slow period is bad) on the strategy. The
  error ends the run, so nothing reads that frame afterwards.
- Float rounding, NaN and infinity: money is exact `real`. A column pandas would hold as
  NaN is an `Option`.
- Metrics.PctChange: a zero previous value gives a NaN that `fillna(0)` turns into 0; the
  infinity that pandas produces when the next value is non-zero is also modelled as 0.
- Metrics.MaxDrawdown: a zero peak gives no drawdown. pandas gives NaN there when the value
  is 0 as well, and a series whose every drawdown is NaN is given 0 instead of NaN. When the
  value under a zero peak is negative pandas gives minus infinity, so `[0.0, -1.0]` has a
  maximum drawdown of infinity in pandas and 0 in the model.
- Metrics.FlatCurveHasNoRatios: stated for two or more values. With one value the sample
  deviation of the single daily return is NaN, so volatility and Sharpe are NaN, not 0.
- Metrics.FlatCurveScoresZero: stated for two or more values, for the same reason.
- Providers.NormalizeSymbol: uppercases ASCII letters only (`Text.Upper`). Python's
  `str.upper` maps every cased Unicode letter, and some of them to longer strings ('ß' to
  "SS").
- Text.Upper: maps `a`-`z` to `A`-`Z` and keeps every other character, so it keeps the length;
  the Unicode case mapping of `str.upper` is not modelled.
- Metrics.CalmarRatio: the contract states the sign of the ratio against the annual return,
  not its size (the body computes the quotient itself).
- `pandas.Series.std`, `numpy.sqrt` and `**` are uninterpreted (`Metrics.Numerics`), so
  only the guard branches of annual return, volatility, Sharpe and Sortino are exact.
- Metrics.AnnualReturn: states only the empty case. For a non-empty series the value is
  `pow(1 + total return, 252 / n) - 1` with `pow` uninterpreted, so no property of it is
  promised beyond FlatCurveHasNoAnnualReturn.
- Metrics.Volatility: states the empty case and the unannualized deviation. The annualized
  value multiplies two uninterpreted results (`std` and `sqrt`), so no property of it is
  promised beyond FlatCurveHasNoRatios.
- `win_rate` (src/backtest/metrics.py:241-257) is not part of this model. It is never called
  by `calculate_all`.
- The EMA, MACD, RSI, Bollinger and ATR series are not computed. The analyzer takes their
  values as inputs, and `add_indicators_to_data` takes their functions as parameters.
- Analyzer.MaEntryOf: the distance percent for a zero average, an infinity or NaN in Python,
  is None.
- Analyzer.Analyze: the `{'error': ...}` dictionary becomes an error result. The report is
  a record, not a dictionary.
- `Strategy.get_indicator` (src/strategy/base.py:77-89) is not part of this model. It reads a
  named column at the current row, the same access as `get_current_bar`.
- Configuration.ToFloat: `float()` of a numeric string is modelled as a ValueError, since
  number parsing is not modelled.
- YAML and dotenv loading, and the global config singleton, are left out. The tree and the
  environment are parameters. `set` rebuilds the tree as a value, so aliasing of a nested
  dict by the caller is not modelled.
- Order ids come from a counter instead of a uuid and a clock; timestamps are not modelled.
- Logging, the CLI, the report generators, the network clients (akshare, tushare, the
  fund-flow, holder-info and news fetchers) are left out.
- Fundamental.GetHolderChanges: a NaN cell in the holder-change table and a missing column
  are read as 0.
- Fundamental.AnalyzeFundamental: the holder-info fetch enters only through its two counts.
- Storage.SortByDate: pandas' `sort_values` default is not a stable sort. The model sorts
  stably, so rows with equal dates stay in input order.
- Storage.Saved: an empty frame is one with no rows. Columns are a set of names.
- Parquet files, directories, file stats and `to_datetime` are left out. The store is a map
  from file key to frame. Dates are day numbers, not strings.
- `get_storage_stats`, `get_cached_symbols` (a plain delegation to `list_symbols`) and the
  loader's provider and token selection in its constructor are not part of this model.

## Findings

| source | as written | input that shows it | evidently intended | confidence | as-written member | corrected member |
|---|---|---|---|---|---|---|
| src/backtest/engine.py:88,96 with strategies/templates/ma_cross.py:69 | the engine passes the raw row `data.iloc[idx]` to `next`, which reads `bar['ma_fast']`; that column exists only in the strategy's own copy made by `init`, so `next` raises KeyError | any frame without `ma_fast`/`ma_slow`/`crossover` columns, e.g. the rows the loader returns | `next` reads the indicator values from the prepared row at `current_index` | not executed | MACross.RawBarRaisesKeyError | MACross.NextOnPreparedNeverFails |
