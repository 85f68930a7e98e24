# Supply-chain reorder agent: a verified model of its core

This project models the decision core of a supply-chain agent for retail inventory.
It covers three Python modules.

- `src/core/forecasting.py` holds the demand forecasters:
  - `DemandForecaster` groups the sales history by date, chooses Prophet seasonal components from the history's span, and cleans Prophet's predictions (clipped at zero, rounded to whole units);
  - `SimpleMovingAverage` is the fallback for short histories; it forecasts an exponentially weighted average of the history;
  - `get_forecaster` picks between the two.
- `src/core/inventory.py` holds `InventoryOptimizer`. It computes safety stock, the reorder point, the stockout day and the order quantity. It then decides urgency and reason for each product, collects recommendations for a batch and sorts them by urgency, and computes fleet health metrics.
- `src/utils/helpers.py` holds the display and classification helpers:
  - horizon text;
  - urgency colours and emojis;
  - fill rate and inventory turnover;
  - the product record check;
  - velocity classes;
  - seasonal peak months;
  - health score verdicts.

Files:

- `wrappers.dfy`: `Option`, `Result` and `Outcome`.
- `numeric.dfy`: ceiling and truncation, banker's rounding (Python's `round`), sums and means, and the laws of square root and exponential.
- `text.dfy`: decimal rendering of integers with its read-back, and ASCII lower-casing.
- `forecasting.dfy`, `inventory.dfy`, `helpers.dfy`: one module per source file.

Modelling choices:

- Floats are exact `real`s.
- A calendar day is an integer day number.
- An instant (`datetime.now()`, a forecast row's date) is a `real` on the same scale.
- The forecaster classes are Dafny classes, because `fit` updates their fields.
- `InventoryOptimizer` updates nothing, so it is a datatype `Optimizer` holding the safety factor. Its methods are functions.
- The loops in `estimate_stockout_date`, `batch_analyze`, `calculate_inventory_metrics` and `validate_product_data` become methods with loop invariants. The first three are proved equal to specification functions: `EstimateStockout` and `Collected` for the first two, and `CountRisk` for the two counters of `calculate_inventory_metrics`. That method's total value, total units and health score are the sum expressions of the source, computed after the loop by `StockValue`, `TotalUnits` and `HealthScore`. `ValidateProductData` is characterised instead by its `ensures` over `FirstMissing`, `Negative`, `Incomparable` and `Acceptable`, and the wording of its TypeError message is left unspecified.
- Python's exception paths become `Result`/`Option` values. One example: `int(np.ceil(NaN))` raises inside `analyze_product`, which then returns `None`.
- Calls that cannot be modelled become parameters:
  - Prophet's fit-and-predict is an uninterpreted function from a fitted model and a day to a prediction;
  - `np.sqrt` and `np.exp` are caller-supplied functions, constrained by `IsSqrt` and `IsExp` where a proof needs them;
  - the standard-normal draws, the current instant, the date formatter and the calendar month of a day number are parameters.

Where the code does something other than its comments, docstrings or names suggest, the model follows the code:

- `get_forecaster` counts raw rows, while `fit` counts distinct dates. So 14 rows on one day select the seasonal model, whose fit then raises (`Forecasting.SelectedSeasonalCanStillFail`).
- `DemandForecaster.forecast` returns the history dates as well as the future days, because `make_future_dataframe` includes history.
- `get_trend_analysis` compares the first and the last of the 7 days after the history, not today with a week ahead (`Forecasting.RecentTrendIsFutureWeek`).
- The recommended quantity is not always a multiple of 50: a larger minimum order wins (`Inventory.ReorderQuantity`).
- A missing stockout sorts as 999 days. It ties with a known 999 days, and a known 1000 days sorts after it (`Inventory.SentinelOrdering`).
- The urgency day rules come before the stock rules. So a stockout 20 days away can be more urgent than one 10 days away (`Inventory.UrgencyNotMonotoneInDays`).
- The reason uses a 7-day window while the urgency uses 14.
- Negative stock is not "out of stock": only exactly 0 is.
- The emoji literals in `urgency_emoji` are stored UTF-8-encoded twice, so the strings returned are that mojibake (for example four characters U+00F0 U+0178 U+0161 U+00A8 for the siren emoji, and the warning sign has lost its last byte). The model uses these stored characters (`Helpers.UrgencyEmojis`, `Helpers.DefaultEmoji`).
- Turnover is rounded to 2 places, and its `period_days` argument is unused.
- The fill rate uses only the number of sales rows, as the number of days.
- MAPE has no value when some actual day total is 0.
- Each month weighs the same in the overall average of `detect_seasonality_peaks`. With negative quantities every month with rows can be a peak, so `Helpers.NotEveryMonthPeaks` assumes non-negative quantities.
- `validate_product_data` raises a `TypeError` when an amount is `None` or a string; the model returns that as a `Failure`.

## Model

| member | source | states |
|---|---|---|
| Forecasting.AddSaleDates | supply-chain-agent/src/core/forecasting.py:34 | adding one row to the date-grouped series adds its date to the set of dates and no other date |
| Forecasting.AddSaleSorted | supply-chain-agent/src/core/forecasting.py:31-34 | adding one row keeps the grouped series in strictly increasing date order |
| Forecasting.AddSaleTotalOn | supply-chain-agent/src/core/forecasting.py:34 | adding one row adds its quantity to the total of its own date and leaves every other date's total unchanged |
| Forecasting.AddSaleGrandTotal | supply-chain-agent/src/core/forecasting.py:34 | adding one row adds its quantity to the sum of all totals |
| Forecasting.TotalOnAbsent | supply-chain-agent/src/core/forecasting.py:34 | a date missing from the grouped series has total 0 |
| Forecasting.EntryTotal | supply-chain-agent/src/core/forecasting.py:34 | in a date-ordered series, the total looked up for an entry's date is that entry's total, so each date occurs once |
| Forecasting.Aggregate | supply-chain-agent/src/core/forecasting.py:34 | the grouped history has no more entries than raw rows, and at least one when there are rows |
| Forecasting.AggregateSorted | supply-chain-agent/src/core/forecasting.py:31-34 | the grouped history is strictly increasing in date |
| Forecasting.AggregateDates | supply-chain-agent/src/core/forecasting.py:34 | the grouped history has exactly the dates of the raw rows |
| Forecasting.AggregateTotalOn | supply-chain-agent/src/core/forecasting.py:34 | each date's total is the sum of the quantities of all rows on that date |
| Forecasting.AggregateGrandTotal | supply-chain-agent/src/core/forecasting.py:34 | grouping keeps the total number of units sold |
| Forecasting.AggregateProperties | supply-chain-agent/src/core/forecasting.py:29-39 | everything `prepare_data` promises of the grouped frame: sorted, dates kept, per-day sums, total kept, one entry per date |
| Forecasting.PrepareData | supply-chain-agent/src/core/forecasting.py:21-39 | raises exactly on an empty history; otherwise a non-empty, strictly date-ordered series with the history's dates, each entry the day's total and the grand total kept |
| Forecasting.MaxDate | supply-chain-agent/src/core/forecasting.py:45 | the latest date of the series: no date is later, and some entry has it |
| Forecasting.MinDate | supply-chain-agent/src/core/forecasting.py:45 | the earliest date of the series: no date is earlier, and some entry has it |
| Forecasting.Span | supply-chain-agent/src/core/forecasting.py:45 | for a date-ordered series, the span is the last date minus the first |
| Forecasting.DetectSeasonality | supply-chain-agent/src/core/forecasting.py:41-54 | daily and weekly are on exactly when the span is at least 14 days, monthly at least 60, yearly at least 730 |
| Forecasting.SeasonalityMonotone | supply-chain-agent/src/core/forecasting.py:47-52 | a longer span never switches a component off, and yearly implies monthly implies weekly and daily |
| Forecasting.Configure | supply-chain-agent/src/core/forecasting.py:66-93 | the built Prophet configuration: seasonality switches from the span; the extra seasonalities are only the monthly one (iff the span is at least 60 days) and the new-year one (iff the category contains "fitness" in any case), once each, monthly first; multiplicative mode, changepoint prior 0.05, the given interval width |
| Forecasting.DemandForecaster.constructor | supply-chain-agent/src/core/forecasting.py:16-19 | a new forecaster keeps the confidence interval and is unfitted with no model |
| Forecasting.DemandForecaster.Fit | supply-chain-agent/src/core/forecasting.py:56-102 | fails exactly when the grouped history has fewer than 7 dates (the empty history with its own message), leaving the state unchanged; otherwise the forecaster is fitted on the grouped history with the configuration `Configure` builds |
| Forecasting.PredictionDays | supply-chain-agent/src/core/forecasting.py:112 | the history's dates followed by the given number of consecutive days after the last one |
| Forecasting.Clean | supply-chain-agent/src/core/forecasting.py:119-127 | a clipped and rounded value is a non-negative whole number, within half a unit of a non-negative input and 0 for a negative one |
| Forecasting.CleanMonotone | supply-chain-agent/src/core/forecasting.py:119-127 | clipping and rounding preserve order |
| Forecasting.CleanRow | supply-chain-agent/src/core/forecasting.py:116-127 | a cleaned row keeps its day; prediction, lower and upper bound are non-negative whole numbers, each within half a unit of Prophet's yhat, yhat_lower and yhat_upper when that is non-negative and 0 when it is negative |
| Forecasting.DemandForecaster.Forecast | supply-chain-agent/src/core/forecasting.py:104-129 | raises exactly when unfitted; otherwise one cleaned Prophet row for every history date and every future day, in that order, with no future day for a negative horizon |
| Forecasting.DemandForecaster.ForecastKeepsBoundsOrdered | supply-chain-agent/src/core/forecasting.py:119-127 | if the model's raw interval contains its central value, every cleaned row has lower <= predicted <= upper |
| Forecasting.DemandForecaster.ForecastAccuracy | supply-chain-agent/src/core/forecasting.py:131-157 | nothing when unfitted; raises on an empty actual history when fitted; otherwise exactly `AccuracyOf` the grouped actual history: MAPE is missing iff some actual date sums to 0 units, MAPE and MAE are non-negative, and RMSE is non-negative for a true square root |
| Forecasting.Errors | supply-chain-agent/src/core/forecasting.py:141-142 | one error per grouped actual date: actual minus predicted |
| Forecasting.AbsAll | supply-chain-agent/src/core/forecasting.py:145-151 | element-wise absolute values, all non-negative |
| Forecasting.Squares | supply-chain-agent/src/core/forecasting.py:148 | element-wise squares |
| Forecasting.RelativeErrors | supply-chain-agent/src/core/forecasting.py:145 | one non-negative relative error per actual date, equal to the absolute value of error / actual wherever the actual is non-zero |
| Forecasting.Mape | supply-chain-agent/src/core/forecasting.py:145 | missing exactly when some actual is zero, otherwise within 0.005 of 100 times the mean relative error (the rounding to 2 places) and non-negative |
| Forecasting.Rmse | supply-chain-agent/src/core/forecasting.py:148 | for a square root obeying its laws, within 0.005 of the non-negative number whose square is the mean squared error |
| Forecasting.Mae | supply-chain-agent/src/core/forecasting.py:151 | within 0.005 of the mean absolute error, and non-negative |
| Forecasting.AccuracyOf | supply-chain-agent/src/core/forecasting.py:144-157 | MAPE is missing exactly when some actual is zero; MAPE, MAE and RMSE are each within 0.005 of 100 × mean relative error, the mean absolute error and the root of the mean squared error of actual minus yhat |
| Forecasting.MetricsOfZeroErrors | supply-chain-agent/src/core/forecasting.py:144-151 | zero errors give zero MAE, zero RMSE and zero MAPE |
| Forecasting.ExactForecastScoresZero | supply-chain-agent/src/core/forecasting.py:138-157 | a model that predicts every actual exactly scores 0 on all three metrics |
| Forecasting.ZeroDayIff | supply-chain-agent/src/core/forecasting.py:138-145 | a zero actual in the grouped series is exactly a history date whose rows sum to zero |
| Forecasting.DemandForecaster.TrendAnalysis | supply-chain-agent/src/core/forecasting.py:159-178 | nothing exactly when unfitted; the direction is increasing iff the last of the 7 trend values exceeds the first; the strength is missing iff the first is zero and otherwise within 0.005 of the absolute change from first to last, over the first, × 100; the current value is within 0.005 of the last |
| Forecasting.RecentTrend | supply-chain-agent/src/core/forecasting.py:167-170 | seven trend values |
| Forecasting.RecentTrendIsFutureWeek | supply-chain-agent/src/core/forecasting.py:167-171 | the seven compared trend values are those of the 7 days after the history, not of the last day of history |
| Forecasting.Linspace | supply-chain-agent/src/core/forecasting.py:200 | n strictly increasing points from -1 to 0 (just -1 for one point) in equal steps |
| Forecasting.Quantities | supply-chain-agent/src/core/forecasting.py:203 | the quantity column, row by row |
| Forecasting.RawWeights | supply-chain-agent/src/core/forecasting.py:200 | n positive weights, strictly increasing toward the latest row |
| Forecasting.Weights | supply-chain-agent/src/core/forecasting.py:201 | each weight is its raw weight divided by the positive sum of the raw weights |
| Forecasting.WeightsProperties | supply-chain-agent/src/core/forecasting.py:199-201 | the normalised weights are positive, strictly increasing and sum to 1 |
| Forecasting.WeightPositive | supply-chain-agent/src/core/forecasting.py:200-201 | each normalised weight is positive |
| Forecasting.WeightsIncrease | supply-chain-agent/src/core/forecasting.py:200-201 | a later row weighs strictly more |
| Forecasting.WeightsSumToOne | supply-chain-agent/src/core/forecasting.py:201 | the normalised weights sum to 1 |
| Forecasting.SumPositive | supply-chain-agent/src/core/forecasting.py:201 | a non-empty sum of positive terms is positive |
| Forecasting.SumDivide | supply-chain-agent/src/core/forecasting.py:201 | dividing every term by c divides the sum by c |
| Forecasting.DotLower | supply-chain-agent/src/core/forecasting.py:203 | a weighted sum with non-negative weights is at least the lower bound times the weight sum |
| Forecasting.DotUpper | supply-chain-agent/src/core/forecasting.py:203 | a weighted sum with non-negative weights is at most the upper bound times the weight sum |
| Forecasting.WeightedAverageBounds | supply-chain-agent/src/core/forecasting.py:203 | an average with non-negative weights summing to 1 lies between any bounds of the values |
| Forecasting.MinQuantity | supply-chain-agent/src/core/forecasting.py:203 | the least quantity of the rows |
| Forecasting.MaxQuantity | supply-chain-agent/src/core/forecasting.py:203 | the greatest quantity of the rows |
| Forecasting.SimpleMovingAverage.constructor | supply-chain-agent/src/core/forecasting.py:187-189 | a new fallback has the given window and average 0 |
| Forecasting.SimpleMovingAverage.Fit | supply-chain-agent/src/core/forecasting.py:191-203 | average 0 for an empty history; otherwise the exponentially weighted average, which lies between the least and greatest quantity |
| Forecasting.ConstantHistoryAverage | supply-chain-agent/src/core/forecasting.py:199-203 | on a history whose every row sells c units, the weighted average is exactly c |
| Forecasting.Sample | supply-chain-agent/src/core/forecasting.py:216-218 | the draw avg + std·z floored at 0: never negative, never below the draw, and either 0 or the draw itself |
| Forecasting.FallbackRow | supply-chain-agent/src/core/forecasting.py:220-225 | non-negative whole values with lower <= predicted <= upper, each within half a unit of p, 0.8·p and 1.2·p |
| Forecasting.SimpleMovingAverage.Forecast | supply-chain-agent/src/core/forecasting.py:205-225 | fails exactly when the horizon is negative or the average is negative (NumPy rejects a negative size or scale); otherwise one row per day from `now`, each built from the sampled value, with ordered non-negative bounds |
| Forecasting.GetForecaster | supply-chain-agent/src/core/forecasting.py:228-236 | the seasonal forecaster exactly when the history has at least `min_data_points` rows, otherwise the fallback; both are fresh and unfitted |
| Forecasting.SelectedSeasonalCanStillFail | supply-chain-agent/src/core/forecasting.py:232 | 14 rows on one day select the seasonal forecaster although its fit needs 7 distinct dates |
| Inventory.Rank | supply-chain-agent/src/core/inventory.py:318 | the sort rank of `urgency_order`, 0 to 3 |
| Inventory.RankAndNameDistinguishLevels | supply-chain-agent/src/core/inventory.py:318 | distinct urgency levels have distinct ranks and distinct names |
| Inventory.SafetyStock | supply-chain-agent/src/core/inventory.py:52-69 | missing exactly for a negative lead time (NaN square root); otherwise the least integer at or above 1.65 * std * sqrt(lead) * safety factor, where a zero std becomes 20% of the mean |
| Numeric.ProductNonNegative | supply-chain-agent/src/core/inventory.py:67 | the product of two non-negative reals is non-negative |
| Numeric.ProductPositive | supply-chain-agent/src/core/inventory.py:67 | the product of two positive reals is positive |
| Inventory.SafetyStockNonNegative | supply-chain-agent/src/core/inventory.py:52-69 | with non-negative demand, std, factor and lead time the safety stock exists and is non-negative |
| Inventory.SafetyStockZeroStd | supply-chain-agent/src/core/inventory.py:62-63 | a zero std gives the same safety stock as an std of 20% of the mean demand, for non-zero demand |
| Inventory.SafetyStockZeroLead | supply-chain-agent/src/core/inventory.py:67-69 | a zero lead time gives safety stock 0 |
| Inventory.ReorderPoint | supply-chain-agent/src/core/inventory.py:71-81 | the least integer at or above demand * lead time + safety stock |
| Inventory.ReorderPointMonotone | supply-chain-agent/src/core/inventory.py:71-81 | the reorder point grows with demand, lead time and safety stock |
| Inventory.EffectiveHoldingCost | supply-chain-agent/src/core/inventory.py:93-94 | the holding cost actually divided by is never zero |
| Inventory.EconomicOrderQuantity | supply-chain-agent/src/core/inventory.py:83-97 | missing exactly when the radicand is negative |
| Inventory.MulMonotone | supply-chain-agent/src/core/inventory.py:96 | the product of non-negative reals is monotone in both factors |
| Inventory.EoqLeastSquareCover | supply-chain-agent/src/core/inventory.py:96-97 | the EOQ is the least non-negative integer whose square covers 2 * demand * ordering cost / holding cost |
| Inventory.SquareStrictlyMonotone | supply-chain-agent/src/core/inventory.py:96 | squaring is strictly monotone on non-negative reals |
| Inventory.EoqZeroHoldingCost | supply-chain-agent/src/core/inventory.py:93-94 | a zero holding cost is replaced by the absolute value 0.1 |
| Inventory.CumulativeNonNegative | supply-chain-agent/src/core/inventory.py:111-113 | the cumulative demand of non-negative predictions is non-negative |
| Inventory.FirstReach | supply-chain-agent/src/core/inventory.py:111-117 | the first row at which the cumulative demand reaches the stock, if any |
| Inventory.DaysFrom | supply-chain-agent/src/core/inventory.py:116-117 | `max(0, (date - now).days)`: for a date not before now, the whole days of the gap (at most the gap, and more than the gap less one day); for a past date, 0 |
| Inventory.EstimateStockout | supply-chain-agent/src/core/inventory.py:99-119 | no stock means a stockout now in 0 days; otherwise a stockout on the first row whose cumulative demand reaches the stock; "none in horizon" only if no prefix ever does |
| Inventory.FirstReachAt | supply-chain-agent/src/core/inventory.py:112-117 | the walk stops at the first row that reaches the stock |
| Inventory.EstimateStockoutDate | supply-chain-agent/src/core/inventory.py:99-119 | the iterating walk gives the same answer as `EstimateStockout` |
| Inventory.StockoutNotEarlierWithMoreStock | supply-chain-agent/src/core/inventory.py:111-117 | more stock never brings the stockout row earlier |
| Inventory.HeadLength | supply-chain-agent/src/core/inventory.py:139 | the length of `head(n)`, including pandas' rule for negative n |
| Inventory.ReorderQuantity | supply-chain-agent/src/core/inventory.py:121-151 | the larger of the minimum order and the least multiple of 50 covering the demand over lead time plus review period minus stock plus reorder point: it is at least both, it is one of the two, and it is at most any multiple of 50 that covers the need with less than one batch to spare |
| Inventory.ReorderQuantityLeastBatch | supply-chain-agent/src/core/inventory.py:144-149 | no multiple of 50 that covers the need and the minimum order is smaller than the result |
| Inventory.MinimumBelowRoundUp | supply-chain-agent/src/core/inventory.py:144-149 | a minimum order below the batch round-up does not win: a need of 40 with a minimum of 45 orders 50 |
| Inventory.DetermineUrgency | supply-chain-agent/src/core/inventory.py:153-178 | each level holds exactly under its conditions: critical for no stock or at most 3 days; the day rules before the stock rules |
| Inventory.NeedsReorder | supply-chain-agent/src/core/inventory.py:228-231 | for positive stock, a reorder is needed exactly when the urgency rule rates the product above low |
| Inventory.UrgencyMonotoneInStock | supply-chain-agent/src/core/inventory.py:162-178 | more stock never raises the urgency rank |
| Inventory.UrgencyNotMonotoneInDays | supply-chain-agent/src/core/inventory.py:165-176 | a later stockout can raise the urgency, because an empty day window falls through to the stock rules |
| Inventory.BuildReason | supply-chain-agent/src/core/inventory.py:273-296 | each reason kind holds exactly under its conditions, and carries the stockout date and days, or the stock and reorder point |
| Inventory.ReasonText | supply-chain-agent/src/core/inventory.py:272-296 | each reason text is at least six characters long and opens with its kind's own six characters ("out of", "stocko", "curren", "stock ", "preven") |
| Inventory.PrefixOfConcat | supply-chain-agent/src/core/inventory.py:288 | a prefix of a concatenation is the prefix of its first part |
| Inventory.ReasonTextDeterminesKind | supply-chain-agent/src/core/inventory.py:283-296 | two reasons with the same text are of the same kind |
| Inventory.ReasonAgreesWithUrgency | supply-chain-agent/src/core/inventory.py:162-178 | the reason's kind fits the urgency: out of stock is critical, a predicted stockout critical or high, critically below high or medium, below reorder point medium, preventive medium or low |
| Inventory.SquaredDeviations | supply-chain-agent/src/core/inventory.py:191 | the sum of squared deviations is non-negative |
| Inventory.DemandMean | supply-chain-agent/src/core/inventory.py:190 | the mean times the row count is the total predicted demand, as `Series.mean()` |
| Inventory.DemandStd | supply-chain-agent/src/core/inventory.py:191 | for a true square root, a non-negative spread whose square times (rows - 1) is the sum of squared deviations from the mean: the `ddof = 1` sample deviation of `Series.std()` |
| Inventory.ConstantForecastMean | supply-chain-agent/src/core/inventory.py:190 | a constant forecast has that constant as its mean |
| Inventory.ConstantForecastStdZero | supply-chain-agent/src/core/inventory.py:191 | a constant forecast has spread 0 |
| Inventory.ConstantForecastSafetyStock | supply-chain-agent/src/core/inventory.py:190-202 | on a constant forecast, the safety stock `analyze_product` computes uses 20% of the mean in place of the zero spread |
| Inventory.Recommend | supply-chain-agent/src/core/inventory.py:197-267 | each field of the recommendation is the value the analysis computes for it: safety stock, reorder point, stockout, urgency, quantity of at least the minimum order, cost, 7- and 30-day demand, reason |
| Inventory.AnalyzeProduct | supply-chain-agent/src/core/inventory.py:180-271 | nothing for fewer than 2 forecast rows, a zero mean or a negative lead time; otherwise a recommendation exactly when stock is below the reorder point or a stockout falls within 14 days |
| Inventory.OutOfStockIsCritical | supply-chain-agent/src/core/inventory.py:162-163 | a product without stock that can be analysed is recommended as critical, with the out-of-stock reason |
| Inventory.RecommendationRestoresReorderPoint | supply-chain-agent/src/core/inventory.py:142-149 | with non-negative predictions, stock plus the recommended quantity reaches the reorder point |
| Inventory.Analyses | supply-chain-agent/src/core/inventory.py:308-313 | one analysis per product, in order |
| Inventory.Present | supply-chain-agent/src/core/inventory.py:314-315 | the values of the options that are present, in order |
| Inventory.PresentSnoc | supply-chain-agent/src/core/inventory.py:314-315 | adding an option at the end adds its value if present |
| Inventory.PresentSound | supply-chain-agent/src/core/inventory.py:314-315 | every collected value came from some present option |
| Inventory.PresentComplete | supply-chain-agent/src/core/inventory.py:314-315 | every present option's value is collected |
| Inventory.Collected | supply-chain-agent/src/core/inventory.py:306-315 | no more recommendations than products |
| Inventory.CollectedSnoc | supply-chain-agent/src/core/inventory.py:308-315 | one more product adds its recommendation, if any, at the end |
| Inventory.CollectedStep | supply-chain-agent/src/core/inventory.py:308-315 | one loop step extends the collected list by the product's recommendation |
| Inventory.CollectedSound | supply-chain-agent/src/core/inventory.py:308-315 | every collected recommendation is one some product with a forecast yields |
| Inventory.CollectedComplete | supply-chain-agent/src/core/inventory.py:308-315 | every recommendation some product yields is collected |
| Inventory.CollectRecommendations | supply-chain-agent/src/core/inventory.py:306-315 | the loop collects exactly the recommendations of the products with forecasts, in product order |
| Inventory.InsertPermutes | supply-chain-agent/src/core/inventory.py:319-324 | inserting adds exactly the inserted element |
| Inventory.SortByUrgency | supply-chain-agent/src/core/inventory.py:318-324 | the sorted list has as many recommendations as the input |
| Inventory.SortByUrgencyPermutes | supply-chain-agent/src/core/inventory.py:319-324 | sorting is a permutation |
| Inventory.InsertAbove | supply-chain-agent/src/core/inventory.py:319-324 | inserting an element above a bound keeps every key above it |
| Inventory.InsertSorted | supply-chain-agent/src/core/inventory.py:319-324 | inserting into a sorted list keeps it sorted |
| Inventory.SortByUrgencySorted | supply-chain-agent/src/core/inventory.py:319-324 | the sorted list is ordered by (rank, days or 999) |
| Inventory.WithKeyAppend | supply-chain-agent/src/core/inventory.py:319-324 | the elements of one key in a concatenation are those of each part, in order |
| Inventory.WithKeyAbove | supply-chain-agent/src/core/inventory.py:319-324 | a sorted list whose first key is above k has no element with key k |
| Inventory.WithKeyCons | supply-chain-agent/src/core/inventory.py:319-324 | the elements with key k of a list with a first element |
| Inventory.SortedTail | supply-chain-agent/src/core/inventory.py:319-324 | the tail of a sorted list is sorted |
| Inventory.ConsKeepsKeyOrder | supply-chain-agent/src/core/inventory.py:319-324 | a common first element keeps the key-k subsequences related |
| Inventory.InsertStable | supply-chain-agent/src/core/inventory.py:319-324 | inserting puts the new element after every element of equal key |
| Inventory.SortByUrgencyStable | supply-chain-agent/src/core/inventory.py:319-324 | sorting keeps the input order among equal keys |
| Inventory.SortByUrgencyProperties | supply-chain-agent/src/core/inventory.py:317-324 | the sort is ordered, a permutation and stable |
| Inventory.BatchAnalyze | supply-chain-agent/src/core/inventory.py:298-326 | the result is the collected recommendations sorted by (rank, days or 999): ordered, a permutation of them, and stable |
| Inventory.SentinelOrdering | supply-chain-agent/src/core/inventory.py:322 | a missing stockout sorts as 999 days: tied with a known 999 and before a known 1000 |
| Inventory.CountRisk | supply-chain-agent/src/core/inventory.py:339-353 | a count of products never exceeds their number |
| Inventory.RiskCountsFit | supply-chain-agent/src/core/inventory.py:339-353 | at-risk and low-stock counts together never exceed the number of products |
| Inventory.HealthScore | supply-chain-agent/src/core/inventory.py:361 | within 0.05 of (1 - risks / products) * 100, the rounding to one place; between 0 and 100; 0 with no products, 100 with none at risk, 0 with all at risk |
| Inventory.HealthScoreAntitone | supply-chain-agent/src/core/inventory.py:361 | more products at risk never raise the health score |
| Inventory.Classify | supply-chain-agent/src/core/inventory.py:342-353 | a product with a forecast of positive mean demand is at risk iff its stock is at most 7 days of that demand; low on stock iff it covers more than 7 and at most 14 days; adequate iff more than 14; otherwise it is not assessed |
| Inventory.InventoryMetrics | supply-chain-agent/src/core/inventory.py:328-362 | the stock value rounded to 2 places, units, the two risk counts, the product count and the health score, with the counts fitting and the score in 0..100 |
| Helpers.DaysToText | supply-chain-agent/src/utils/helpers.py:32-35 | exactly 0 days reads "today" and exactly 1 day "tomorrow" |
| Helpers.SpaceIndex | supply-chain-agent/src/utils/helpers.py:37-43 | the position of the first space |
| Helpers.SpaceIndexAfter | supply-chain-agent/src/utils/helpers.py:37-43 | in "number unit" the first space follows the number |
| Helpers.ReadPhraseOf | supply-chain-agent/src/utils/helpers.py:37-43 | "number unit" reads back as that number and unit |
| Helpers.DaysToTextReadsBack | supply-chain-agent/src/utils/helpers.py:32-43 | every other day count reads back as count and unit; days lie in [count * unit, (count + 1) * unit), and the unit is 1 day below 7, a week below 30, a month from 30 |
| Helpers.ShortHorizonText | supply-chain-agent/src/utils/helpers.py:36-37 | below 7 days (negatives too) the text is the count in days |
| Helpers.WeeksText | supply-chain-agent/src/utils/helpers.py:38-40 | from 7 to 29 days the text is whole weeks, plural above one |
| Helpers.MonthsText | supply-chain-agent/src/utils/helpers.py:41-43 | from 30 days the text is whole months, plural above one |
| Helpers.UrgencyColor | supply-chain-agent/src/utils/helpers.py:45-55 | the default grey exactly for an unknown level, otherwise the level's colour |
| Helpers.UrgencyEmoji | supply-chain-agent/src/utils/helpers.py:57-67 | the default string exactly for an unknown level, otherwise the level's entry; the entries are the literals as stored in the file |
| Helpers.UrgencyTablesCoverLevels | supply-chain-agent/src/utils/helpers.py:49-66 | both tables have exactly the four urgency names as keys |
| Helpers.UrgencyDisplayDistinguishesLevels | supply-chain-agent/src/utils/helpers.py:49-66 | every level gets a non-default colour and emoji, and distinct levels get distinct ones |
| Helpers.CalculateFillRate | supply-chain-agent/src/utils/helpers.py:69-78 | 100 for no rows; otherwise the share of rows not stocked out as a percentage, to 2 places, within 0..100 when the stockout days fit and at the ends for 0 or all |
| Helpers.FillRateAntitone | supply-chain-agent/src/utils/helpers.py:76-78 | more stockout days never raise the fill rate |
| Helpers.CalculateInventoryTurnover | supply-chain-agent/src/utils/helpers.py:80-92 | 0 for zero inventory; otherwise sales / inventory to 2 places, non-negative for positive inventory and non-negative sales |
| Helpers.TurnoverMonotoneInSales | supply-chain-agent/src/utils/helpers.py:91-92 | more sales never lower the turnover |
| Helpers.LessThanZero | supply-chain-agent/src/utils/helpers.py:105-108 | `v < 0` raises for None and strings, and holds exactly for negative numbers |
| Helpers.FirstMissing | supply-chain-agent/src/utils/helpers.py:101-103 | the first required field that is absent or falsy |
| Helpers.ValidateProductData | supply-chain-agent/src/utils/helpers.py:94-111 | accepted iff both fields are present and neither amount is negative or uncomparable; each rejection message in the code's order; a TypeError exactly when the first failing amount cannot be compared |
| Helpers.CategorizeProductVelocity | supply-chain-agent/src/utils/helpers.py:120-129 | fast from 10 a day, medium from 3 below 10, slow below 3, each iff |
| Helpers.VelocityMonotone | supply-chain-agent/src/utils/helpers.py:124-129 | more sales never lower the category |
| Helpers.HealthScoreInterpretation | supply-chain-agent/src/utils/helpers.py:152-163 | each verdict exactly on its band: 90 and up, 75 to 90, 60 to 75, below 60 |
| Helpers.HealthScoreInterpretationMonotone | supply-chain-agent/src/utils/helpers.py:156-163 | a higher score never gets a worse verdict |
| Helpers.HealthOfExtremeInventories | supply-chain-agent/src/utils/helpers.py:156-163 | the health score of a fleet with no product at risk reads excellent, and with all at risk poor |
| Helpers.MonthName | supply-chain-agent/src/utils/helpers.py:144-150 | the name maps back to its month: `MonthNumber` inverts it |
| Helpers.MonthNameInjective | supply-chain-agent/src/utils/helpers.py:144-148 | distinct months have distinct names |
| Helpers.MonthCountOfRow | supply-chain-agent/src/utils/helpers.py:138-139 | the month of each row has at least one row |
| Helpers.MonthTotalNonNegative | supply-chain-agent/src/utils/helpers.py:139 | with non-negative quantities a month's total is non-negative |
| Helpers.MonthMeanNonNegative | supply-chain-agent/src/utils/helpers.py:139 | with non-negative quantities a month's mean is non-negative |
| Helpers.MonthsFrom | supply-chain-agent/src/utils/helpers.py:139 | the months from k on that have rows, in ascending order, and all of them |
| Helpers.PresentMonths | supply-chain-agent/src/utils/helpers.py:139 | exactly the months that have rows, ascending, and at least one for a non-empty history |
| Helpers.MonthlyAverages | supply-chain-agent/src/utils/helpers.py:139 | one mean per month, in order |
| Helpers.MonthsAboveMembers | supply-chain-agent/src/utils/helpers.py:142 | a month is kept iff it is listed, has rows and its mean exceeds the threshold |
| Helpers.MonthsAboveSorted | supply-chain-agent/src/utils/helpers.py:142 | filtering keeps the months ascending |
| Helpers.PeakMonthsMembers | supply-chain-agent/src/utils/helpers.py:141-142 | a month is a peak iff it has rows and its mean exceeds 1.3 times the mean of the monthly means |
| Helpers.PeakMonths | supply-chain-agent/src/utils/helpers.py:139-142 | the peak months are listed in strictly ascending calendar order |
| Helpers.DetectSeasonalityPeaks | supply-chain-agent/src/utils/helpers.py:131-150 | nothing below 30 rows; otherwise the names of the peak months, in calendar order |
| Helpers.PeakNamedIff | supply-chain-agent/src/utils/helpers.py:135-150 | from 30 rows, a month is named iff it has rows and its mean exceeds 1.3 times the mean of the monthly means |
| Helpers.SumAbove | supply-chain-agent/src/utils/helpers.py:142 | a sum of terms above c exceeds count * c |
| Helpers.NotAllAboveScaledMean | supply-chain-agent/src/utils/helpers.py:141-142 | among non-negative values some value is at most 1.3 times their mean |
| Helpers.NotEveryMonthPeaks | supply-chain-agent/src/utils/helpers.py:141-142 | with non-negative quantities some month with rows is not a peak |

## Left out

- Prophet itself (trend fitting, seasonality, uncertainty intervals): it is an uninterpreted prediction function; `ForecastKeepsBoundsOrdered` assumes its raw interval contains its central value.
- Forecasting.DemandForecaster.Fit: the `logger` calls, and the re-raise of Prophet's own fitting errors, which the uninterpreted model cannot produce.
- Forecasting.DemandForecaster.Forecast: for a negative horizon the model adds no future day, as Prophet's `make_future_dataframe` does for `periods=-1`; whether pandas' `date_range` raises for lower values instead depends on the library version, which is not part of this model.
- Forecasting.SimpleMovingAverage.Forecast: the standard-normal draws of `np.random.normal` are an input sequence; `pd.date_range` is modelled as `now + i`, with no calendar.
- Floating point: rounding errors, NaN and infinity are not modelled. Where the code reaches NaN or infinity, the model gives an explicit `None` or `Failure` instead. On two of these paths the NaN raises in the source, which the model follows as an error result: `int(np.ceil(NaN))` in the safety stock, for a negative lead time or a forecast of fewer than 2 rows (where `analyze_product` catches the exception and returns `None`); and `int()` of the NaN square root of a negative EOQ radicand, which raises ValueError. On two others the source raises nothing and carries inf or nan on as a value, which the model marks as `None`: the MAPE when some actual is 0, and the trend strength when the first trend value is 0.
- Inventory.EconomicOrderQuantity: it has no caller in the core. The replacement of a zero holding cost by the absolute 0.1, not 10% of the unit cost, is modelled as written.
- Inventory.ReasonText: `strftime('%Y-%m-%d')` is a caller-supplied `formatDate`; the lemmas pin down each reason's opening words, not the formatted date.
- Inventory.SortByUrgency: Python's Timsort is modelled as a stable insertion sort. Since a stable sort by a key has one possible result, the order matches; the running time does not.
- Helpers.DetectSeasonalityPeaks: the month of a date is the caller-supplied `monthOf`. The mutation that adds a `month` column to the caller's frame is not modelled.
- `format_currency`, `format_number` (thousands separators), `setup_logging` and `generate_po_number` (clock formatting) are output formatting, logging or clock access with nothing to prove.
- The data connector, API, dashboard, LLM prompt assembly, notifications, settings and demo data generator are outside the core and are not part of this model.
