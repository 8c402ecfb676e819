# Market microstructure engine: a Dafny model

This project models the quantitative core of a market-analysis web
application. It covers:

- the technical indicators: RSI, SMA, EMA and MACD;
- the four chart-pattern detectors: bull flag, head & shoulders, double bottom and golden cross;
- the heuristic prediction engine;
- the log-linear regression baseline forecaster;
- the random-forest forecaster with its lag-window training set and recursive rollout;
- the SMA-crossover backtester with its linear-regression forecast tail;
- the Fear & Greed banding and the mock quotes of the data fetchers;
- the forecast view's choice between the ensemble and the baseline.

Prices are exact reals. Python's `int()` on a float is truncation toward
zero (`Numeric.Trunc`). A Python exception is the `Raised` case of
`Outcomes.Outcome`, and the model says which exception it is
(ZeroDivisionError, IndexError, ValueError, ImportError). Some values come
from numerical libraries or the clock: `math.sqrt`, `np.log`, `np.exp`,
`np.sin`, `np.polyfit`, `LinearRegression.fit`, the random forest's
`predict`, the spread of its estimators' predictions, and the date of
`datetime.now()`. These are parameters of the functions that use them, and
the proofs assume only what a parameter predicate states (for example
`SqrtNonNegative`).

Modules, one per source file plus two shared ones:

| file | module | models |
|---|---|---|
| outcome.dfy | Outcomes | exceptions as values, `Option` |
| numeric.dfy | Numeric | sums, means, population variance, `int()` truncation, clamping |
| indicators.dfy | Indicators | `TechnicalIndicators` in core/pattern_detection.py |
| pattern_detection.dfy | PatternDetection | `PatternDetector` in core/pattern_detection.py |
| prediction_engine.dfy | PredictionEngine | core/prediction_engine.py |
| ml_baseline.dfy | MLBaseline | core/ml_baseline.py |
| better_ml.dfy | BetterML | core/better_ml.py (class `BetterMLForecast`) |
| backtester.dfy | Backtester | core/backtester.py |
| data_fetchers.dfy | DataFetchers | the banding, mocks and fallbacks of core/data_fetchers.py |
| forecast_chain.dfy | ForecastChain | the model fallback in forecast/views.py |

Each loop of the source is a `method` with a `while` or `for` loop. Each
such method is proved equal to a specification function, and the
properties are lemmas about those functions. `BetterMLForecast`, whose
`__init__` and `_train` set fields, is a `class`.

## Model

| member | source | states |
|---|---|---|
| Numeric.Variance | core/pattern_detection.py:91-92 | the population variance that `np.std` squares is never negative |
| Numeric.Trunc | core/pattern_detection.py:96 | `int(x)` rounds toward zero: for x >= 0, k <= x < k+1; for x < 0, k-1 < x <= k |
| Numeric.Clamp | core/prediction_engine.py:126 | `min(hi, max(lo, x))` lies in [lo, hi], is x inside the range and the nearer end outside it |
| Numeric.MeanBounds | core/pattern_detection.py:20-21 | a mean of values in [lo, hi] lies in [lo, hi] |
| Numeric.MeanZero | core/pattern_detection.py:21-23 | a mean of non-negative values is non-negative, and is 0 exactly when every value is 0 |
| Numeric.MeanConstant | core/prediction_engine.py:99-100 | the mean of a constant list is that constant |
| Indicators.Deltas | core/pattern_detection.py:16 | `np.diff`: one fewer element, each the next price minus this one |
| Indicators.Gains | core/pattern_detection.py:17 | each gain is the positive change or 0, never negative |
| Indicators.Losses | core/pattern_detection.py:18 | each loss is the negated negative change or 0, never negative |
| Indicators.RsiWindow | core/pattern_detection.py:16-21 | the last `period` changes, each the difference of two consecutive trailing prices |
| Indicators.RsiLossFree | core/pattern_detection.py:21-24 | the average loss is 0 exactly when no price falls over the last period+1 prices |
| Indicators.RsiFormulaRange | core/pattern_detection.py:26-27 | `100 - 100/(1+g/l)` lies in [0, 100) for g >= 0, l > 0 |
| Indicators.Rsi | core/pattern_detection.py:11-28 | 50 with fewer than period+1 prices; always within [0, 100]; 100 exactly when no trailing price falls |
| Indicators.SmaWindow | core/pattern_detection.py:65-67 | all prices below `period` of them, otherwise exactly the last `period` |
| Indicators.Sma | core/pattern_detection.py:63-67 | 0.0 for an empty list, otherwise the mean of its window |
| Indicators.SmaWithinWindow | core/pattern_detection.py:63-67 | the SMA lies between any bounds of the prices |
| Indicators.Alpha | core/pattern_detection.py:53 | the smoothing factor 2/(period+1) lies in (0, 1] |
| Indicators.Ema | core/pattern_detection.py:51-60 | the in-place loop yields one value per sample, each equal to the recurrence `ema[i] = a*x[i] + (1-a)*ema[i-1]` |
| Indicators.EmaWithinBounds | core/pattern_detection.py:55-58 | every EMA value stays within bounds of the inputs |
| Indicators.EmaOfConstant | core/pattern_detection.py:55-58 | a constant input has a constant EMA |
| Indicators.MacdLine | core/pattern_detection.py:37-40 | one MACD value per price |
| Indicators.Macd | core/pattern_detection.py:31-48 | all zeros below `slow` prices; histogram = macd - signal; macd = last fast EMA minus last slow EMA; signal = last value of the EMA of the MACD line |
| Indicators.MacdOfConstant | core/pattern_detection.py:31-48 | flat prices give a zero MACD, signal and histogram |
| PatternDetection.Last | core/pattern_detection.py:83 | `s[-k:]`: k elements, the last k of s in order |
| PatternDetection.Sort | core/pattern_detection.py:116 | `sorted` keeps the length and is a permutation of its input |
| PatternDetection.SortSorted | core/pattern_detection.py:116 | the result is ordered (descending for `reverse=True`) |
| PatternDetection.SortFirstIsExtreme | core/pattern_detection.py:116-119 | the first sorted value is in the input and is its extreme |
| PatternDetection.ExtremaExact | core/pattern_detection.py:110-112 | the scan lists exactly the strict interior peaks (troughs), in index order |
| PatternDetection.ScanExtrema | core/pattern_detection.py:108-112 | the scanning loop returns exactly that list |
| PatternDetection.DetectBullFlag | core/pattern_detection.py:77-99 | not detected below 20 prices; detected iff the first half trends up and the second half's deviation is below 0.7 of the first's; confidence in [70, 95], 0 when not detected |
| PatternDetection.BullFlagConfidenceRange | core/pattern_detection.py:93-96 | `60 + int((1 - s2/s1)*35)` lies in [70, 95] when s2 < 0.7*s1 |
| PatternDetection.BullFlagByVariance | core/pattern_detection.py:91-95 | with a true square root the deviation test is a variance test: var2 < 0.49*var1 |
| PatternDetection.HeadShouldersVerdict | core/pattern_detection.py:114-122 | detected iff there are at least three peaks; it can raise only ZeroDivisionError, and only when the highest peak is 0; confidence in [65, 85] for positive peaks |
| PatternDetection.HeadShouldersRatio | core/pattern_detection.py:119-120 | `65 + int(second/first*20)` lies in [65, 85] for 0 < second <= first |
| PatternDetection.DetectHeadShoulders | core/pattern_detection.py:101-122 | below 15 prices nothing; detected iff the last 15 have at least three peaks; confidence 0 when not detected, [65, 85] for positive prices |
| PatternDetection.RelativeGapPositive | core/pattern_detection.py:140-141 | for positive troughs, gap < 3% iff t1 - t0 < 0.03*t0 |
| PatternDetection.DoubleBottomVerdict | core/pattern_detection.py:136-145 | it can raise only ZeroDivisionError, and only when the lowest trough is 0; detected iff the two lowest troughs are within 3%; confidence in [87, 95] |
| PatternDetection.DoubleBottomConfidenceRange | core/pattern_detection.py:141-143 | `min(95, 70 + int((1 - 10*diff)*25))` lies in [87, 95] for diff < 0.03 |
| PatternDetection.DoubleBottomPositive | core/pattern_detection.py:136-145 | positive troughs never raise, and the test is second lowest < 1.03 * lowest |
| PatternDetection.DetectDoubleBottom | core/pattern_detection.py:124-145 | below 20 prices nothing; a detection needs two troughs in the last 20 and has confidence [87, 95]; positive prices never raise |
| PatternDetection.DetectGoldenCross | core/pattern_detection.py:147-164 | not detected below long+5 prices; detected iff previous short <= previous long and short > long; raises ZeroDivisionError iff that holds with long = 0; confidence in [75, 95] for positive prices |
| PatternDetection.GoldenCrossPositive | core/pattern_detection.py:160-162 | for positive prices a crossing has a positive long SMA and confidence in [75, 95] |
| PatternDetection.SmaPositive | core/pattern_detection.py:152-153 | the SMA of positive prices is positive |
| PatternDetection.Collect | core/pattern_detection.py:168-186 | at most four matches, in evaluation order, each reporting its detector's verdict and confidence |
| PatternDetection.CollectReports | core/pattern_detection.py:170-184 | a type is listed iff its detector fired, with that detector's confidence |
| PatternDetection.DetectAllPatterns | core/pattern_detection.py:166-186 | the method runs the detectors in order and equals the specification `AllPatterns` |
| PatternDetection.AllPatternsReport | core/pattern_detection.py:166-186 | a success lists each fired detector once, in order; it raises iff one of the detectors raises |
| PatternDetection.AllPatternsPositive | core/pattern_detection.py:101-164 | positive prices never divide by zero, so detection succeeds |
| Backtester.StripEnds | core/backtester.py:12 | what strip leaves has no whitespace at either end and is a slice of the input |
| Backtester.ParseShow | core/backtester.py:11-19 | `int(str(n)) == n` for every integer |
| Backtester.ParseInterval | core/backtester.py:9-21 | one day when the last character is not m/h/d; ValueError exactly when the prefix is not an integer |
| Backtester.ParseIntervalShow | core/backtester.py:11-19 | `str(n)` followed by m/h/d parses to n minutes, hours or days in seconds |
| Backtester.ToCandle | core/backtester.py:44-51 | a missing volume becomes 0; timestamp and close are kept |
| Backtester.ToCandles | core/backtester.py:44-51 | one candle per input, converted pointwise |
| Backtester.SortByTimeSorted | core/backtester.py:53 | `sort_values('timestamp')` is ordered by timestamp and a permutation of the candles |
| Backtester.SortByTimeSortedInput | core/backtester.py:53 | already ordered candles are left as they are |
| Backtester.RollingMeanWithin | core/backtester.py:56-57 | a rolling mean stays within bounds of the closes |
| Backtester.RollingMeanFirstRow | core/backtester.py:56-57 | with `min_periods=1` the first row's mean is its own close |
| Backtester.BuySizeExact | core/backtester.py:75 | the bought size is positive and spends exactly the cash net of commission at the slipped price |
| Backtester.BuyConsistent | core/backtester.py:73-79 | a buy from a flat account keeps the ledger invariant |
| Backtester.SellConsistent | core/backtester.py:82-89 | a sale of an open position keeps the ledger invariant |
| Backtester.StepConsistent | core/backtester.py:65-93 | every bar keeps the ledger invariant and only appends trades |
| Backtester.StateConsistent | core/backtester.py:65-93 | the invariant holds after every row: flat with the cash, or fully invested |
| Backtester.TradesGrow | core/backtester.py:79-86 | trades are only ever appended |
| Backtester.LedgerAlternates | core/backtester.py:73-89 | buys sit at even positions of the ledger, sales at odd ones |
| Backtester.EquityPositive | core/backtester.py:92-93 | with positive closes every equity value is positive |
| Backtester.NoTradesFlatEquity | core/backtester.py:63-93 | a run without trades keeps the initial capital on every row |
| Backtester.CountSellsHalf | core/backtester.py:100 | the SELL count is half the number of trades (round trips) |
| Backtester.RunningMax | core/backtester.py:104 | `cummax` at row i bounds the prefix and is attained in it |
| Backtester.MinDrawdownIsMin | core/backtester.py:105-106 | the minimum drawdown lies in (-1, 0] and is the least drawdown of the prefix |
| Backtester.MaxDrawdownRange | core/backtester.py:103-106 | the max drawdown percentage lies in (-100, 0] and is at most every row's drawdown |
| Backtester.NonDecreasingNoDrawdown | core/backtester.py:103-106 | an equity curve that never falls has no drawdown |
| Backtester.FlatMetrics | core/backtester.py:96-112 | a run without trades reports 0% return, no trades and no drawdown |
| Backtester.ForecastShape | core/backtester.py:130-135 | dates one interval apart, prices one slope apart, a ±2% band around each price |
| Backtester.ExpectedRunPromises | core/backtester.py:24-151 | a run has one equity row per candle starting at the capital, a well-formed ledger, num_trades = trades/2, drawdown in (-100, 0], and `forecast_days` points |
| Backtester.ExpectedRunCandles | core/backtester.py:138-141 | the output candles are the inputs ordered by timestamp |
| Backtester.RunFacts | core/backtester.py:65-112 | positive equity, ledger invariant, trade count, drawdown range, flat metrics without trades |
| Backtester.Simulate | core/backtester.py:59-93 | the trading loop's trades and equity equal the specification's |
| Backtester.Forecast | core/backtester.py:123-135 | one point per forecast day, point i `delta*(i+1)` after the last candle on the fitted line |
| Backtester.RunChecked | core/backtester.py:43-151 | the body of run_backtest equals the specification run |
| Backtester.RunBacktest | core/backtester.py:24-151 | empty input gives the empty result; succeeds iff windows >= 1, forecast_days >= 1 and the interval parses; failures are ValueError; a success equals the specification run and keeps its promises |
| PredictionEngine.Older | core/prediction_engine.py:97 | the comparison window has ten prices |
| PredictionEngine.TrendSign | core/prediction_engine.py:91-105 | for positive prices the trend is positive (negative) iff the recent mean is above (below) the older mean |
| PredictionEngine.TrendOfConstant | core/prediction_engine.py:91-105 | flat prices have no trend |
| PredictionEngine.BaseChangeSign | core/prediction_engine.py:33-40 | the base change has the sign of the trend and exceeds 2% for any rise |
| PredictionEngine.BaseChangeMonotone | core/prediction_engine.py:33-40 | a stronger trend never gives a smaller base change |
| PredictionEngine.PatternFactorPositive | core/prediction_engine.py:59-64 | the pattern adjustment is at least 1 |
| PredictionEngine.CollectFactor | core/prediction_engine.py:59-64 | only bull flags and golden crosses change the adjustment |
| PredictionEngine.AllPatternsFactor | core/prediction_engine.py:58-64 | the adjustment of the detected list is 1, 1.1, 1.15 or 1.265 |
| PredictionEngine.PatternAdjustment | core/prediction_engine.py:59-64 | the loop multiplies 1.15 per bull flag and 1.1 per golden cross |
| PredictionEngine.ChangeOfSign | core/prediction_engine.py:42-66 | positive factors after the piecewise mapping keep the sign of the trend |
| PredictionEngine.ChangeSign | core/prediction_engine.py:33-66 | the expected change is positive (negative) iff the trend is |
| PredictionEngine.Confidence | core/prediction_engine.py:107-126 | the accumulated score, clamped to [50, 95] |
| PredictionEngine.ConfidenceUnclamped | core/prediction_engine.py:107-126 | the score already lies in [60, 95], so the clamp changes nothing |
| PredictionEngine.ConfidenceMonotone | core/prediction_engine.py:113-118 | more patterns, RSI or MACD never lower the confidence |
| PredictionEngine.ForecastPoints | core/prediction_engine.py:128-151 | ZeroDivisionError iff the horizon is 0 and the predicted price is a Python float; otherwise the day-by-day points, none for a horizon below 1 |
| PredictionEngine.PointShape | core/prediction_engine.py:137-149 | the first date is today+1 and consecutive dates are one day apart; upper = price × 1.02, lower = price × 0.98, so a non-negative price lies in its band |
| PredictionEngine.LastPointIsPredicted | core/prediction_engine.py:139-142 | where sin(pi) = 0 the last point is the predicted price |
| PredictionEngine.PointNearLine | core/prediction_engine.py:139-142 | a sine in [-1, 1] keeps each price within 2% of the straight line |
| PredictionEngine.PredictedPriceDirection | core/prediction_engine.py:69 | from a positive price, the prediction rises (falls) iff the change is positive (negative) |
| PredictionEngine.RsiAdjust | core/prediction_engine.py:43-48 | the change times the RSI factor (0.7 overbought, 1.3 oversold, else 1) |
| PredictionEngine.MacdAdjust | core/prediction_engine.py:50-55 | the change times the MACD factor (1.1 bullish, 0.9 otherwise) |
| PredictionEngine.IndicatorChange | core/prediction_engine.py:33-55 | the base change times the RSI and MACD factors |
| PredictionEngine.ExpectedChange | core/prediction_engine.py:33-66 | the base change times the RSI, MACD and pattern factors |
| PredictionEngine.Predict | core/prediction_engine.py:17-89 | `predict` equals the specification `PredictionOf`, whose zero-horizon exception arises only on the Python-float path |
| PredictionEngine.Finish | core/prediction_engine.py:66-89 | the predicted price, ±3% range, confidence and points; ZeroDivisionError only for a zero horizon with a Python-float prediction |
| PredictionEngine.PredictShort | core/prediction_engine.py:153-164 | below ten prices: the last price (1000 for none), high = current × 1.05, low = current × 0.95, confidence 50, no points, no patterns |
| PredictionEngine.PredictShape | core/prediction_engine.py:23-89 | from ten prices: raises ZeroDivisionError iff a detector does, or the horizon is 0 and the older mean is 0; otherwise max(h, 0) points, the detected patterns, high = predicted × 1.03, low = predicted × 0.97, confidence in [60, 95] |
| PredictionEngine.PredictDirection | core/prediction_engine.py:27-69 | for positive prices, whatever the horizon, the call succeeds and the prediction is above (below) the current price iff the trend is positive (negative) |
| PredictionEngine.PositiveNotFloatTrend | core/prediction_engine.py:99-105 | positive prices give a positive older mean, so the trend is a numpy scalar |
| PredictionEngine.TenPricesNoTrend | core/prediction_engine.py:94-105 | with exactly ten prices both windows coincide and the trend is 0 |
| PredictionEngine.ZeroHorizonExample | core/prediction_engine.py:128-135 | prices 1..10 with horizon 0 succeed with predicted price 10 and no points |
| MLBaseline.BaseDate | core/ml_baseline.py:77-79 | the last timestamp's date, or today without timestamps |
| MLBaseline.DefaultPoints | core/ml_baseline.py:105-117 | the loop yields the flat points |
| MLBaseline.DefaultPrediction | core/ml_baseline.py:97-129 | `_default_prediction` equals its specification |
| MLBaseline.DefaultShape | core/ml_baseline.py:97-129 | the current price (1000 for none), ±2%, confidence 50, max(h, 0) points dated base+1.., each at the price with ±1% |
| MLBaseline.DefaultBands | core/ml_baseline.py:105-124 | a non-negative price lies inside every band |
| MLBaseline.LogPrices | core/ml_baseline.py:25 | one log price per price |
| MLBaseline.Residuals | core/ml_baseline.py:29-30 | one residual per log price |
| MLBaseline.VolatilityNonNegative | core/ml_baseline.py:31 | the volatility is never negative |
| MLBaseline.Band | core/ml_baseline.py:85-86 | `max(0.01, vol)` is at least 1% and at least the volatility |
| MLBaseline.GeneratePoints | core/ml_baseline.py:67-95 | the loop yields the points on the fitted line |
| MLBaseline.BandOrder | core/ml_baseline.py:85-86 | a non-negative price lies in its band, which contains the ±1% band |
| MLBaseline.TrendPointShape | core/ml_baseline.py:80-89 | point `day` is dated base+day and priced exp(intercept + slope*(n-1+day)) |
| MLBaseline.CalculateConfidence | core/ml_baseline.py:57-65 | the accumulated score clamped to [40, 95] |
| MLBaseline.ConfidenceRange | core/ml_baseline.py:57-65 | for a non-negative volatility the score is in [40, 75] and the clamp changes nothing |
| MLBaseline.ConfidenceMonotone | core/ml_baseline.py:59-64 | higher volatility never raises, more samples never lower the score |
| MLBaseline.Predict | core/ml_baseline.py:17-55 | `predict` equals the specification `PredictionOf` |
| MLBaseline.Project | core/ml_baseline.py:33-55 | the projection part of `predict` equals `Projection` |
| MLBaseline.ProjectionShape | core/ml_baseline.py:33-55 | IndexError iff the horizon is not positive; otherwise h points on the line dated base+1.., predicted = last point, confidence [40, 75], bands in order |
| MLBaseline.PredictShape | core/ml_baseline.py:18-33 | from three prices the volatility is non-negative and `predict` is the projection of the fitted line |
| MLBaseline.TwentyPricesFivePoints | forecast/tests.py:7-17 | twenty prices and horizon 5 succeed with five points |
| BetterML.LagPairsShape | core/better_ml.py:39-48 | n - w pairs; each input followed by its target is a run of w+1 consecutive prices |
| BetterML.Shift | core/better_ml.py:76-77 | rolling the window keeps its size |
| BetterML.WindowStep | core/better_ml.py:75-77 | each step drops the oldest value and appends the prediction |
| BetterML.WindowHoldsPredictions | core/better_ml.py:65-77 | after k steps the last k slots hold the k predictions in order |
| BetterML.BandOrder | core/better_ml.py:72-73 | the upper band is at least the prediction; the lower band is at least 0 and, for a non-negative prediction, at most it |
| BetterML.Rollout | core/better_ml.py:60-77 | the loop yields the predictions and bands of the specification |
| BetterML.BuildPoints | core/better_ml.py:83-92 | the loop yields one point per prediction |
| BetterML.AbsDiffs | core/better_ml.py:98 | one fewer absolute difference than predictions |
| BetterML.ConfidenceRange | core/better_ml.py:98-105 | the confidence lies in [50, 90] and is 90 for constant predictions |
| BetterML.Forecast | core/better_ml.py:58-108 | the rollout equals `RolledForecast` |
| BetterML.PredictShape | core/better_ml.py:53-108 | ValueError iff untrained or horizon < 2; otherwise h points dated base+1.. at the successive predictions, ±2%, confidence [50, 90] |
| BetterML.BetterMLForecast.constructor | core/better_ml.py:28-37 | the window is max(3, window); trained exactly when there are window+1 prices |
| BetterML.BetterMLForecast.Train | core/better_ml.py:39-51 | the model is the lag-pair training set |
| BetterML.BetterMLForecast.Predict | core/better_ml.py:53-108 | `predict` equals `PredictionFrom` on the object's fields |
| BetterML.Create | core/better_ml.py:28-30 | ImportError iff the library is absent; otherwise a fresh, valid object |
| DataFetchers.LevelBands | core/data_fetchers.py:153-162 | each level is reached by exactly its band: <=24, 25-44, 45-55, 56-75, >=76 |
| DataFetchers.LevelMonotone | core/data_fetchers.py:153-162 | a higher score never gives a more fearful level |
| DataFetchers.FearGreedConsistent | core/data_fetchers.py:142-175 | the level is the band of the score; request failure or no data gives (72, greed); a missing value gives (50, neutral) |
| DataFetchers.MockCryptoValues | core/data_fetchers.py:46-57 | bitcoin 68420.1/4.5, ethereum 3892.55/-0.8, others 1000/0, volume 1200000000.0 |
| DataFetchers.PriceOrMockCases | core/data_fetchers.py:20-43 | no quote iff the request succeeded without the symbol; a failure gives the mock |
| DataFetchers.Sp500OrMock | core/data_fetchers.py:104-123 | the quote, or 4132.45/49.59/1.2 when failing or empty |
| ForecastChain.RunForecast | forecast/views.py:69-80 | the view's choice equals `ForecastFor` |
| ForecastChain.TryEnsemble | forecast/views.py:70-75 | the `try` block equals `EnsembleOf` |
| ForecastChain.ForecastChoice | forecast/views.py:69-80 | raises iff >= 3 prices and horizon <= 0; the ensemble runs iff the library is present, > 10 prices and horizon >= 2; otherwise the baseline |

## Left out

- Network requests, JSON parsing, database writes (`DataSyncService`), Django views other than the fallback, templates, the JavaScript front end and scripts: I/O and persistence.
- Floating point: prices are exact reals, so NaN, infinities and rounding are not modelled. `Decimal(str(x))` is the identity.
- PredictionEngine.ForecastPoints: the inf or nan that a numpy scalar divided by a zero horizon yields is not modelled; no point reads it, so a placeholder stands for it.
- Library numerics are parameters: `np.sqrt` (only non-negativity, or being the true root, is assumed), `np.log`, `np.exp`, `np.sin`, `np.polyfit`, `LinearRegression`, `RandomForestRegressor` (the regressor and the estimator spread).
- `datetime.now()` is the parameter `today`. Dates and timestamps are integers, and `timedelta` overflow is not modelled.
- The ISO-8601 rendering of timestamps in the backtest output.
- Indicators.Rsi, Indicators.Sma, Indicators.Macd: periods are required to be at least 1. Every caller uses the positive defaults.
- Indicators.Ema: numpy's truncation when `_ema` receives an integer array is not modelled.
- Backtester.RunBacktest: costs are required valid (capital > 0, commission and slippage in [0, 1)) and closes positive. The source accepts any values.
- Backtester.RunBacktest: failures are checked before the simulation. This is the same result, because every failure is a ValueError and the simulation has no effects.
- Backtester.SortByTimeSorted: the relative order of candles with equal timestamps is not stated, because pandas' default sort is not stable.
- Backtester.ParseInt: only ASCII whitespace and digits are accepted; Unicode digits and whitespace that `int()` also takes are not.
- PredictionEngine.Predict: the detectors run before the change is computed. Trend, RSI and MACD neither raise nor change anything, so the result is the same.
- PredictionEngine.Predict: `use_sentiment` is accepted but unused, as in the source.
- MLBaseline.VolatilityNonNegative: it is not stated that an exact fit has zero volatility.
- BetterML.BetterMLForecast.Train: the fitted forest is represented by its training set.
- BetterML.Create: scikit-learn's availability is the parameter `available`.
- DataFetchers.PriceOrMock: the defaults of `.get('usd', 0)` and friends are inside the reply's quote, which is a parameter.
- `get_historical_data` and its fallback to an empty list: network only.
- ForecastChain.RunForecast: the view's fallback to a single current price when the history is empty is not modelled.
