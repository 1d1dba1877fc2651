# QuantFinance core in Dafny

This project models the computational core of QuantFinance, a Python toolkit for technical
analysis of Brazilian (B3) and Yahoo-listed assets, and proves properties of that model.
The core is a deterministic pipeline over finite, date-ordered price sequences:

- **Indicator primitives**: SMA, EMA with `adjust=False`, MACD, true range and ATR, RSI with its neutral 50 fill, the stochastic oscillator, Williams %R, Bollinger and Keltner bands, OBV and VWAP.
- **Signal analytics**:
  - local support and resistance levels, the round-number ladder, and chained percentage grouping of levels;
  - Fibonacci retracements and extensions;
  - RSI divergences between adjacent pivots;
  - slope and EMA-stack trend classification, and breakout and false-breakout signals;
  - the setup rule engine;
  - the market snapshot and its text summary.
- **Enrichment, features and ranking**: per-row indicator columns and flags, the machine-learning feature table, the momentum ranking and the indicator snapshot.
- **Data hygiene**:
  - the fixed-width B3 COTAHIST quote-record parser;
  - OHLCV duplicate-column coalescing;
  - the gap audit of stored series and the alerts built from it;
  - portfolio configuration resolution and the incremental, date-deduplicated merge of downloaded prices.

There is one Dafny module per source file. `Common` holds the shared vocabulary, and every other module imports it. Prices are `real`, and a missing or NaN value is `Option<real>`. Dates are integer day numbers. pandas columns are sequences aligned by position. Exceptions become `Result` values or error variants of an outcome datatype. Code that loops and appends is modelled as methods with loop invariants, each proved against a specification function. Pure pipelines are modelled as functions with lemmas.

## Model

| member | source | states |
|---|---|---|
| TrendIndicators.Sma | quantfinance/indicators/trend.py:8-10 | one value per bar, undefined exactly for the first window-1 bars |
| TrendIndicators.SmaWithinWindow | quantfinance/indicators/trend.py:8-10 | a defined SMA value is the mean of the window ending at that bar and lies between the window's minimum and maximum |
| TrendIndicators.SmaBetween | quantfinance/indicators/trend.py:8-10 | inputs within [lo, hi] give SMA values within [lo, hi] from the bar where the window fills |
| TrendIndicators.SmaNonNegative | quantfinance/indicators/trend.py:8-10 | non-negative inputs give non-negative SMA values |
| TrendIndicators.SpanAlpha | quantfinance/indicators/trend.py:13-15 | the smoothing factor 2/(span+1) lies in (0, 1] |
| TrendIndicators.Ema | quantfinance/indicators/trend.py:13-15 | one EMA value per bar (its values are characterised by EmaRecurrence) |
| TrendIndicators.EmaPrefix | quantfinance/indicators/trend.py:13-15 | the EMA is causal: the EMA of a prefix is the prefix of the EMA |
| TrendIndicators.EmaRecurrence | quantfinance/indicators/trend.py:13-15 | e0 = x0 and e_t = alpha*x_t + (1-alpha)*e_(t-1) |
| TrendIndicators.EmaBetween | quantfinance/indicators/trend.py:13-15 | smoothing keeps every value inside any range that holds the input |
| TrendIndicators.EmaWithinHistory | quantfinance/indicators/trend.py:13-15 | each EMA value lies between the minimum and maximum of the input seen so far |
| TrendIndicators.EmaOfConstant | quantfinance/indicators/trend.py:13-15 | a constant input gives a constant EMA |
| TrendIndicators.Macd | quantfinance/indicators/trend.py:18-36 | the MACD, signal and histogram lines are as long as the input |
| TrendIndicators.MacdHistogramIsGap | quantfinance/indicators/trend.py:25-29 | MACD = EMA12 - EMA26, the signal is the EMA9 of MACD, and the histogram is MACD minus signal |
| TrendIndicators.MacdOfConstant | quantfinance/indicators/trend.py:18-36 | a flat price makes all three MACD lines zero |
| TrendIndicators.TrueRange | quantfinance/indicators/trend.py:41-44 | each true range is at least high-low, and the first bar's is exactly high-low (NaN-skipping max) |
| TrendIndicators.TrueRangeGap | quantfinance/indicators/trend.py:41-44 | a previous close inside the bar leaves high-low, and a gap above or below widens it to reach the previous close |
| TrendIndicators.AverageTrueRange | quantfinance/indicators/trend.py:39-45 | one ATR value per bar |
| TrendIndicators.AtrNonNegative | quantfinance/indicators/trend.py:39-45 | the ATR is undefined exactly until the window fills, then never negative |
| MomentumIndicators.Gains | quantfinance/indicators/momentum.py:10-11 | one non-negative gain per bar |
| MomentumIndicators.Losses | quantfinance/indicators/momentum.py:10-12 | one non-negative loss per bar |
| MomentumIndicators.Rsi | quantfinance/indicators/momentum.py:8-21 | one RSI value per bar |
| MomentumIndicators.AveragesNonNegative | quantfinance/indicators/momentum.py:13-14 | average gain and average loss are never negative |
| MomentumIndicators.RsiValueRange | quantfinance/indicators/momentum.py:16-17 | 100 - 100/(1 + g/l) lies in [0, 100) |
| MomentumIndicators.RsiValue | quantfinance/indicators/momentum.py:16-21 | the RSI of one bar from its average gain and loss: 100 - 100/(1 + g/l), or the 50.0 fill when the average loss is zero; its range is proved in RsiValueRange and RsiShare |
| MomentumIndicators.RsiRange | quantfinance/indicators/momentum.py:8-21 | every RSI value, filled ones included, lies in [0, 100) |
| MomentumIndicators.RsiNeutral | quantfinance/indicators/momentum.py:16-21 | before the window fills, or when the average loss is zero, the RSI is the 50.0 fill |
| MomentumIndicators.RsiShare | quantfinance/indicators/momentum.py:16-17 | with a non-zero average loss the RSI is 100*g/(g+l) |
| MomentumIndicators.RsiAt | quantfinance/indicators/momentum.py:13-17 | once the window fills, the RSI is the RS formula of that bar's average gain and loss |
| MomentumIndicators.RsiAsShare | quantfinance/indicators/momentum.py:16-17 | the RS formula equals the gain share 100*g/(g+l) |
| MomentumIndicators.RsiOfConstant | quantfinance/indicators/momentum.py:8-21 | a flat series has RSI 50 everywhere |
| MomentumIndicators.RValueIsShiftedK | quantfinance/indicators/momentum.py:29-39 | Williams %R of a bar is its %K minus 100 |
| MomentumIndicators.KValueRange | quantfinance/indicators/momentum.py:29 | a close inside a non-flat range gives %K in [0, 100] |
| MomentumIndicators.KValue | quantfinance/indicators/momentum.py:29 | %K of one bar, 100*(close - LL)/(HH - LL); bounded in KValueRange |
| MomentumIndicators.RValue | quantfinance/indicators/momentum.py:39 | %R of one bar, -100*(HH - close)/(HH - LL); related to %K in RValueIsShiftedK |
| MomentumIndicators.PercentK | quantfinance/indicators/momentum.py:26-29 | one %K value per bar |
| MomentumIndicators.PercentD | quantfinance/indicators/momentum.py:30 | one %D value per %K value |
| MomentumIndicators.StochasticOscillator | quantfinance/indicators/momentum.py:24-32 | the %K and %D columns are as long as the input |
| MomentumIndicators.WilliamsR | quantfinance/indicators/momentum.py:35-39 | one %R value per bar |
| MomentumIndicators.WilliamsIsShiftedK | quantfinance/indicators/momentum.py:24-39 | %R is defined exactly where %K is, and equals %K - 100 there |
| MomentumIndicators.OscillatorBounds | quantfinance/indicators/momentum.py:24-39 | closes inside their bars give %K in [0, 100] and %R in [-100, 0] |
| VolatilityIndicators.BollingerBands | quantfinance/indicators/volatility.py:8-20 | the three bands are as long as the input |
| VolatilityIndicators.BollingerSymmetric | quantfinance/indicators/volatility.py:8-20 | the middle band is the SMA; the bands are defined together, sit num_std deviations on either side, and are ordered for num_std >= 0 |
| VolatilityIndicators.KeltnerChannel | quantfinance/indicators/volatility.py:23-35 | the three lines are as long as the input |
| VolatilityIndicators.KeltnerOrdered | quantfinance/indicators/volatility.py:23-35 | the middle is the EMA; the outer lines are defined exactly once the window fills, are symmetric about the middle, and upper >= lower |
| VolumeIndicators.SignedVolume | quantfinance/indicators/volume.py:10-11 | one signed volume per bar |
| VolumeIndicators.CumSum | quantfinance/indicators/volume.py:12-17 | each running total is the sum of the prefix |
| VolumeIndicators.OnBalanceVolume | quantfinance/indicators/volume.py:8-12 | one OBV value per bar |
| VolumeIndicators.ObvSteps | quantfinance/indicators/volume.py:8-12 | the first bar counts -volume (its diff is filled with 0, which is not > 0); each later bar adds its volume on an up close and subtracts it otherwise |
| VolumeIndicators.Vwap | quantfinance/indicators/volume.py:15-19 | one VWAP per bar, missing exactly where the cumulative volume is zero |
| VolumeIndicators.VwapWithinCloses | quantfinance/indicators/volume.py:15-19 | with non-negative volumes, a defined VWAP lies between the lowest and highest close so far |
| Levels.ExtremaIndices | quantfinance/analysis/levels.py:26-28 | the indices argrelextrema returns: ascending, each an extremum (<=, resp. >=, every value within order positions, clipped), and every extremum below n is included |
| Levels.DetectExtrema | quantfinance/analysis/levels.py:26-29 | the detected levels are the series values at the extremum indices, in index order |
| Levels.DetectLocalLevels | quantfinance/analysis/levels.py:32-36 | the pair (supports, resistances): the values at the order-`order` minima of the column, then at its maxima; their meaning is proved in LocalLevelsSound and FlatSeriesLevels |
| Levels.LocalLevelsSound | quantfinance/analysis/levels.py:32-36 | each support is <= every value within order positions of its bar, and each resistance is >= them |
| Levels.ConstantAllExtrema | quantfinance/analysis/levels.py:26-29 | on a flat series every index is an extremum, because the comparison is non-strict |
| Levels.FlatSeriesLevels | quantfinance/analysis/levels.py:32-36 | a flat series yields the whole series both as supports and as resistances (plateaus repeat) |
| Levels.FloorBracket | quantfinance/analysis/levels.py:41-42 | floor(x/step)*step <= x < floor(x/step)*step + step |
| Levels.RoundNumberLadder | quantfinance/analysis/levels.py:41-43 | the 2*width+1 values start + i*step with start = (center // step - width)*step; its shape is proved in RoundNumberLadderShape |
| Levels.DetectRoundNumbers | quantfinance/analysis/levels.py:39-43 | the round-number ladder around the mean of the series |
| Levels.RoundNumberLadderShape | quantfinance/analysis/levels.py:39-43 | the ladder has 2*width+1 values, ascending in steps of step, and its middle entry is floor(mean/step)*step, the multiple just at or below the mean |
| Levels.SortedSet | quantfinance/analysis/levels.py:87 | sorted(set(levels)): strictly increasing, with the same members, and no longer than the input |
| Levels.Groups | quantfinance/analysis/levels.py:91-98 | the groups partition the sorted levels in order: none empty, at most one per level, and the last group ends with the last level |
| Levels.GroupsStep | quantfinance/analysis/levels.py:92-98 | one loop step: the next price joins the last group when it is within tolerance of that group's last member, else opens a new group |
| Levels.GroupsChained | quantfinance/analysis/levels.py:92-98 | inside a group each member is within tolerance of the previous one, and each group's first member is out of tolerance of the previous group's last member (chained grouping) |
| Levels.GroupMeans | quantfinance/analysis/levels.py:100 | one output per group, equal to that group's arithmetic mean |
| Levels.GroupLevels | quantfinance/analysis/levels.py:85-100 | the loop returns exactly the means of the chained groups of the sorted distinct levels |
| Levels.GroupSorted | quantfinance/analysis/levels.py:91-97 | the loop over the sorted levels builds exactly the groups where each price joins the last group when within tolerance of that group's last member, and opens a group otherwise |
| Levels.GroupsOrdered | quantfinance/analysis/levels.py:87-98 | every member of an earlier group is below every member of a later group, and all members are input levels |
| Levels.Grouped | quantfinance/analysis/levels.py:85-100 | what group_levels returns: the means of the chained groups of sorted(set(levels)); proved ascending, bounded and counted in GroupedAscending, GroupedWithinRange, GroupedCount |
| Levels.GroupedEmpty | quantfinance/analysis/levels.py:87-89 | the result is empty exactly when the input is |
| Levels.GroupedAscending | quantfinance/analysis/levels.py:85-100 | the grouped levels are strictly ascending |
| Levels.GroupedCount | quantfinance/analysis/levels.py:85-100 | there are at most as many grouped levels as distinct inputs |
| Levels.GroupedWithinRange | quantfinance/analysis/levels.py:85-100 | every grouped level lies between the smallest and the largest input |
| Levels.GroupingIsChained | quantfinance/analysis/levels.py:87-98 | the groups concatenate back to the sorted distinct levels and are chained |
| Levels.RollingMin52 | quantfinance/analysis/levels.py:51-52 | the least present weekly minimum of the last 52 weeks, missing when none |
| Levels.RollingMax52 | quantfinance/analysis/levels.py:51-53 | the greatest present weekly maximum of the last 52 weeks, missing when none |
| Levels.Consolidated | quantfinance/analysis/levels.py:48-49 | historical_min <= historical_max |
| Levels.ConsolidateLevels | quantfinance/analysis/levels.py:57-82 | an empty column fails (the rolling .iloc[-1] raises); otherwise supports and resistances are grouped at the tolerance, round numbers at twice it, the historical extremes are the column's min and max, and the 52-week values come from the weekly series |
| Fibonacci.TailRows | quantfinance/analysis/fibonacci.py:30 | `tail(lookback)`: the last lookback rows (all when shorter); a negative lookback drops that many rows from the front |
| Fibonacci.ComputeRetracements | quantfinance/analysis/fibonacci.py:24-46 | None for an empty window, where the source returns all eight labelled levels as NaN with NaN bases; otherwise base_low and base_high are the window's min and max, base_low <= base_high, and the levels are the eight labelled retracements and extensions of that swing (`LevelMap`, written out by `LevelTable`) |
| Fibonacci.RetracementLabels | quantfinance/analysis/fibonacci.py:20-36 | retracement labels truncate ratio*100: Ret_23, Ret_38, Ret_50, Ret_61, Ret_78 |
| Fibonacci.ExtensionLabels | quantfinance/analysis/fibonacci.py:21-39 | extension labels truncate ratio*100: Ext_127, Ext_161, Ext_200 |
| Fibonacci.LevelMap | quantfinance/analysis/fibonacci.py:34-43 | the merged retracement and extension dictionary of a swing; its keys and values are proved in LevelTable and LevelOrdering |
| Fibonacci.LevelTable | quantfinance/analysis/fibonacci.py:34-43 | the level map holds exactly the eight entries high-(high-low)*ratio and high+(high-low)*(ratio-1) under their labels |
| Fibonacci.RetracementWithinSwing | quantfinance/analysis/fibonacci.py:34-37 | a retracement lies in [low, high] and decreases as the ratio grows |
| Fibonacci.ExtensionAboveHigh | quantfinance/analysis/fibonacci.py:38-40 | an extension with ratio >= 1 is >= high |
| Fibonacci.LevelOrdering | quantfinance/analysis/fibonacci.py:34-43 | the map has exactly the eight keys (no 0% or 100%); retracements descend from high to low with Ret_50 at the midpoint; extensions ascend from high with Ext_200 = 2*high - low; a flat window puts every level at that price |
| Divergence.CleanBars | quantfinance/analysis/divergence.py:34-35 | dropping missing prices keeps at most the input's bars |
| Divergence.Pivots | quantfinance/analysis/divergence.py:23-41 | pivot positions are valid bar indices in increasing order |
| Divergence.ScanPairs | quantfinance/analysis/divergence.py:43-71 | the loop over adjacent pivot pairs returns exactly the signal sequence of that kind |
| Divergence.DetectRsiDivergences | quantfinance/analysis/divergence.py:27-73 | the method returns the bullish signals followed by the bearish ones |
| Divergence.Signals | quantfinance/analysis/divergence.py:43-71 | the signals of one kind, one per adjacent pivot pair that diverges, in pivot order; proved sound and complete in SignalsSound and SignalsComplete |
| Divergence.Divergences | quantfinance/analysis/divergence.py:27-73 | what detect_rsi_divergences returns: the bullish signals over the low pivots followed by the bearish signals over the high pivots |
| Divergence.SignalsCount | quantfinance/analysis/divergence.py:43-59 | fewer than two pivots give no signal; otherwise at most one signal per adjacent pair |
| Divergence.SignalsSound | quantfinance/analysis/divergence.py:43-71 | every signal comes from an adjacent pivot pair at least min_distance apart where price and RSI move in opposite directions (lower low with higher RSI, or higher high with lower RSI), and it carries the later pivot's date, price and RSI |
| Divergence.SignalsComplete | quantfinance/analysis/divergence.py:43-71 | every diverging adjacent pair yields its signal |
| Divergence.SignalsNotAfterLast | quantfinance/analysis/divergence.py:52-69 | no signal is dated after the last pivot |
| Divergence.SignalsOrdered | quantfinance/analysis/divergence.py:43-71 | the signals of one kind are in strictly increasing date order |
| Divergence.SignalsKind | quantfinance/analysis/divergence.py:51-66 | each signal is labelled with its loop's kind |
| Divergence.BullishFirst | quantfinance/analysis/divergence.py:73 | no bearish signal precedes a bullish one |
| TrendAnalysis.SpreadPositive | quantfinance/analysis/trend.py:39-41 | for n >= 2 points at x = 0..n-1 the least-squares denominator n*sum(x^2) - (sum x)^2 is positive |
| TrendAnalysis.LineSums | quantfinance/analysis/trend.py:39-41 | the sums of x*y and y over points on a line a + b*x, in closed form |
| TrendAnalysis.LeastSquaresOfLine | quantfinance/analysis/trend.py:41 | the closed-form least-squares slope of points on a line is that line's slope |
| TrendAnalysis.Slope | quantfinance/analysis/trend.py:35-41 | fewer than two present values give 0.0; otherwise the closed-form least-squares slope against x = 0..n-1 (SlopeOfLine) |
| TrendAnalysis.SlopeOfLine | quantfinance/analysis/trend.py:35-41 | `_slope` is 0.0 for fewer than two points, and otherwise recovers the slope b of points on a line (so a constant window gives 0) |
| TrendAnalysis.Direction | quantfinance/analysis/trend.py:59-64 | the direction label from the three slopes; its iff's are proved in ClassificationCases |
| TrendAnalysis.Crossover | quantfinance/analysis/trend.py:66-71 | the stacking label from the three EMAs at the last bar; its iff's are proved in ClassificationCases |
| TrendAnalysis.ClassificationCases | quantfinance/analysis/trend.py:59-71 | "uptrend" iff all three slopes are positive, "downtrend" iff all are negative, any zero slope gives "sideways"; "bullish_stack" iff short > medium > long and "bearish_stack" iff short < medium < long |
| TrendAnalysis.TrendStrength | quantfinance/analysis/trend.py:44-73 | the snapshot exists exactly for a non-empty series (`.iloc[-1]` of an empty one raises IndexError) |
| TrendAnalysis.FlatTrend | quantfinance/analysis/trend.py:44-73 | a flat close gives three zero slopes, "sideways" and "mixed" |
| TrendAnalysis.MaxWindow | quantfinance/analysis/trend.py:100 | the largest of the three windows |
| TrendAnalysis.Entries | quantfinance/analysis/trend.py:94-99 | each timeframe is resolved, in mapping order, to the daily series (freq None, "" or "D") or to its resampled series, with missing values dropped |
| TrendAnalysis.Snapshot | quantfinance/analysis/trend.py:102-107 | on a non-empty series the loop's analysis is `trend_strength` |
| TrendAnalysis.TrendByTimeframe | quantfinance/analysis/trend.py:76-109 | the loop returns the map of trends over the resolved timeframes, skipping series shorter than the largest window |
| TrendAnalysis.FillTrends | quantfinance/analysis/trend.py:94-107 | the loop fills exactly the map the specification function describes |
| TrendAnalysis.TrendsStep | quantfinance/analysis/trend.py:100-107 | one loop step: a series shorter than the window leaves the map unchanged, else its name is set to its analysis |
| TrendAnalysis.TrendsKeys | quantfinance/analysis/trend.py:94-107 | a name is in the result iff some timeframe of that name has a series at least as long as the largest window |
| TrendAnalysis.TrendsValue | quantfinance/analysis/trend.py:94-107 | a name's value is the analysis of its last kept timeframe (later entries overwrite) |
| TrendAnalysis.DefaultEntries | quantfinance/analysis/trend.py:91 | an absent or empty mapping means daily (the close) and weekly (the resampled series) |
| TrendAnalysis.DefaultTimeframes | quantfinance/analysis/trend.py:91-107 | by default the keys are among "daily" and "weekly", and each is present iff its series reaches the largest window |
| TrendAnalysis.Items | quantfinance/analysis/trend.py:146-151 | the result always has exactly the four breakout entries, all None exactly when no signal fired |
| TrendAnalysis.NearestIndex | quantfinance/analysis/trend.py:122-125 | the nearest level minimises abs(level - latest), and the first such level wins ties |
| TrendAnalysis.Nearest | quantfinance/analysis/trend.py:122-125 | no level gives None; otherwise a level from the tuple at minimum distance |
| TrendAnalysis.BreakoutSignals | quantfinance/analysis/trend.py:112-151 | IndexError exactly for an empty series, or a one-bar series whose false-breakout test reads the previous bar; otherwise breakout_up iff the nearest resistance is non-zero and latest > it*(1 + tol/100), false_breakout_up iff latest < it < previous, the down pair symmetric against the nearest support, and each signal is its kind with the latest price, that level and the latest timestamp |
| TrendAnalysis.NoLevelsNoSignals | quantfinance/analysis/trend.py:122-151 | empty level tuples make all four signals None |
| TrendAnalysis.BreakoutsExclusive | quantfinance/analysis/trend.py:130-144 | for positive levels and tolerance >= 0, breakout_up and false_breakout_up never both fire, nor do the two down signals; each of the four signals carries the latest price and timestamp, the up pair the nearest resistance and the down pair the nearest support |
| SetupEngine.Label | quantfinance/setups/engine.py:22-31 | an "alta" label exactly for an uptrend and a "baixa" label exactly for a downtrend |
| SetupEngine.LabelCases | quantfinance/setups/engine.py:22-31 | an "alta" label iff uptrend and a "baixa" label iff downtrend, else "lateral"; "alta forte" iff uptrend with bullish stack and price_above_ma200 not False; "baixa forte" iff downtrend with bearish stack and price_above_ma200 not True |
| SetupEngine.LabelTextsDistinct | quantfinance/setups/engine.py:22-31 | the five label texts are distinct, so comparing texts compares labels |
| SetupEngine.LastValue | quantfinance/setups/engine.py:34-38 | a missing column gives None, an empty column raises IndexError, otherwise the last value (None when NaN) |
| SetupEngine.LaggedValues | quantfinance/setups/engine.py:41-47 | a missing column gives []; otherwise the last n non-missing values, in order (fewer when there are fewer) |
| SetupEngine.TrendFollowing | quantfinance/setups/engine.py:50-85 | fails exactly when one of EMA_21, Volume_Ratio or SMA_200 is present but empty; otherwise active iff the daily label is "alta forte", the weekly label (when a weekly trend exists) is an "alta" label, EMA_21 is present with price >= EMA_21, and Volume_Ratio is present and >= 1.0 |
| SetupEngine.RsiRebound | quantfinance/setups/engine.py:88-120 | inactive with fewer than two RSI values; otherwise active iff prev <= 30 < now <= 45 and the weekly label (default "lateral") is not a "baixa" label |
| SetupEngine.TrendFollowingAsWritten | quantfinance/setups/engine.py:50-53 | with the snapshot type of quantfinance/reporting/insights.py:24-33, trend following always fails: IndexError when EMA_21 or Volume_Ratio is present but empty, otherwise the AttributeError for `latest_price` |
| SetupEngine.RsiReboundAsWritten | quantfinance/setups/engine.py:88-99 | with that snapshot type, the short-history result (inactive, the same as with any snapshot) iff there are fewer than two RSI values; otherwise the AttributeError for `trend_multi` |
| SetupEngine.TrendFollowingLostAsWritten | quantfinance/setups/engine.py:50-85 | a strong uptrend above EMA 21 on a volume ratio of 1.5 is active when `latest_price` is supplied, and fails with the AttributeError as written |
| SetupEngine.RsiReboundLostAsWritten | quantfinance/setups/engine.py:88-120 | RSI 25 then 35 with no weekly trend is active when `trend_multi` is supplied, and fails with the AttributeError as written |
| SetupEngine.RsiReboundReadsLastTwo | quantfinance/setups/engine.py:89-102 | with two or more RSI values the rule reads the last two non-missing values |
| SetupEngine.Difference | quantfinance/setups/engine.py:132-134 | the difference of the two EMA columns, missing where either is |
| SetupEngine.CrossResults | quantfinance/setups/engine.py:138-181 | at most one result, present iff the difference crosses up (prev <= 0 < latest) or down (prev >= 0 > latest); a buy is active iff the daily label is an "alta" label and a sell iff it is a "baixa" label |
| SetupEngine.EmaCross | quantfinance/setups/engine.py:123-181 | a missing column or fewer than two non-missing differences give no result; otherwise the cross rules on the last two rows |
| SetupEngine.CrossesExclusive | quantfinance/setups/engine.py:144-145 | a cross up and a cross down never happen together |
| SetupEngine.CrossPairNames | quantfinance/setups/engine.py:147-189 | the pair names use the last two characters of each column: "EMA Cross (_9 x 21)" and "EMA Cross (21 x 72)" |
| SetupEngine.Contribution | quantfinance/setups/engine.py:194-205 | a failing evaluator contributes one inactive error result carrying the message; a succeeding one contributes its results |
| SetupEngine.EvaluateSetups | quantfinance/setups/engine.py:184-206 | the loop returns the contributions of the four evaluators, concatenated in order |
| SetupEngine.SetupsOrder | quantfinance/setups/engine.py:185-190 | the order is trend following, RSI rebound, then the 9x21 and 21x72 crosses |
| SetupEngine.TrendFollowingContribution | quantfinance/setups/engine.py:50-204 | trend following contributes exactly one result: its own, or the error result when it fails |
| SetupEngine.SetupsLayout | quantfinance/setups/engine.py:184-206 | there are two to four results; the first is trend following or its error result, and the second is RSI rebound |
| Insights.Missing | quantfinance/reporting/insights.py:36-41 | exactly the required columns absent from the frame |
| Insights.Dated | quantfinance/reporting/insights.py:45-47 | dropping rows whose date did not parse keeps only input rows, each with its date |
| Insights.DatedKeeps | quantfinance/reporting/insights.py:47 | every row with a date survives the drop |
| Insights.DateOrderTotal | quantfinance/reporting/insights.py:47 | the date order used for sorting is a total preorder |
| Insights.Validate | quantfinance/reporting/insights.py:39-48 | fails iff a required column is missing, with the missing-columns message; otherwise the dated rows, sorted by date, as a permutation |
| Insights.SnapshotIndicators | quantfinance/reporting/insights.py:59-64 | the SMA_21, EMA_21 and RSI_14 columns align with the closes |
| Insights.SnapshotFrom | quantfinance/reporting/insights.py:66-90 | the snapshot keeps the consolidated levels it was given |
| Insights.SnapshotFailure | quantfinance/reporting/insights.py:76-80 | assembly fails exactly when `breakout_signals` does, with its error |
| Insights.SnapshotBreakouts | quantfinance/reporting/insights.py:76-80 | the breakout map is `breakout_signals` of the closes against the snapshot's own supports and resistances at 0.5% |
| Insights.SnapshotTrend | quantfinance/reporting/insights.py:75 | the trend is `trend_strength` of the closes with windows 9, 21 and 72 |
| Insights.SnapshotFibonacci | quantfinance/reporting/insights.py:74 | the Fibonacci map is built from the max and min of the last 252 closes |
| Insights.FibonacciOf | quantfinance/reporting/insights.py:74 | the retracement map of the closes is the level table of the highest and lowest of the last 252 closes |
| Insights.SnapshotSignals | quantfinance/reporting/insights.py:59-81 | the divergences are those of the closes against RSI 14 (order 5, distance 5); the indicator table is the one built from the closes |
| Insights.BuildMarketSnapshot | quantfinance/reporting/insights.py:51-90 | a validation error propagates; no dated rows fail with IndexError; otherwise the snapshot of the validated rows and their consolidated levels |
| Insights.Fired | quantfinance/reporting/insights.py:101 | the fired signals, none exactly when every breakout entry is None |
| Insights.BreakoutLines | quantfinance/reporting/insights.py:103-106 | one line per fired signal with its kind, reference level and price |
| Insights.DivergenceLines | quantfinance/reporting/insights.py:121-124 | one line per divergence with its kind, date, price and indicator level |
| Insights.Head | quantfinance/reporting/insights.py:111-114 | `[:n]`: the first n items (all when fewer) |
| Insights.CollectFired | quantfinance/reporting/insights.py:101 | the comprehension loop collects exactly the fired signals |
| Insights.AppendBreakouts | quantfinance/reporting/insights.py:102-106 | the loop appends one breakout line per fired signal, in order |
| Insights.AppendDivergences | quantfinance/reporting/insights.py:120-124 | the loop appends one divergence line per shown divergence, in order |
| Insights.SummariseSnapshot | quantfinance/reporting/insights.py:93-128 | the method builds exactly the specified summary lines |
| Insights.BreakoutSectionKinds | quantfinance/reporting/insights.py:101-108 | the breakout section holds only breakout lines or the no-breakout line, which appears iff nothing fired |
| Insights.DivergenceSectionKinds | quantfinance/reporting/insights.py:120-126 | the divergence section holds only divergence lines or the no-divergence line, which appears iff there are no divergences |
| Insights.Summary | quantfinance/reporting/insights.py:93-128 | the summary's lines in order for the snapshot's fired breakouts; characterised in SummaryOpening, SummaryBreakouts and SummaryLevelsAndDivergences |
| Insights.SummaryOpening | quantfinance/reporting/insights.py:96-99 | the summary opens with the header, the trend line with the direction, and the stacking line |
| Insights.SummaryBreakouts | quantfinance/reporting/insights.py:101-108 | the no-breakout line appears iff all four breakout entries are None |
| Insights.SummaryBreakoutLines | quantfinance/reporting/insights.py:101-106 | when signals fired, the lines after the opening are one breakout line per fired signal, in order |
| Insights.SummaryLevelsAndDivergences | quantfinance/reporting/insights.py:110-126 | the summary shows the first three supports and resistances; the no-divergence line appears iff there are none; otherwise it ends with the last three divergences, in order |
| Insights.NoBreakoutElsewhere | quantfinance/reporting/insights.py:96-126 | the no-breakout line appears in no other section |
| Insights.NoDivergenceElsewhere | quantfinance/reporting/insights.py:96-118 | the no-divergence line appears in no other section |
| Insights.AppendBreakoutSection | quantfinance/reporting/insights.py:101-108 | appends one line per fired signal, or the single no-breakout line when none fired |
| Insights.AppendLevelsSection | quantfinance/reporting/insights.py:110-118 | appends the first three supports, the first three resistances and the Fibonacci map, in that order |
| Insights.AppendDivergenceSection | quantfinance/reporting/insights.py:120-126 | appends a line for each of the last three divergences, or the single no-divergence line when there are none |
| Analytics.CollectErrPersists | quantfinance/analysis/analytics.py:30-49 | once a pass over the tickers has raised, later tickers do not change the outcome |
| Analytics.CollectErr | quantfinance/analysis/analytics.py:30-49 | the pass raises iff some ticker's step raises, and the error is that of the first such ticker, all earlier steps having succeeded |
| Analytics.CollectKept | quantfinance/analysis/analytics.py:30-49 | a successful pass yields, in dictionary order, one row per ticker whose frame is kept |
| Analytics.EarlierRowTotal | quantfinance/analysis/analytics.py:33 | ordering bars by Date is a total preorder, so the sort is defined |
| Analytics.SortedCloses | quantfinance/analysis/analytics.py:33-36 | one close per bar, taken after sorting by date |
| Analytics.BaseIndex | quantfinance/analysis/analytics.py:44 | `close.iloc[-window]` reads a valid position (`-0` reads the first) |
| Analytics.WindowReturn | quantfinance/analysis/analytics.py:40-47 | latest / close.iloc[-window] - 1, missing when the window does not fit or a close is missing or the base is zero; characterised in WindowReturnGrowth |
| Analytics.WindowReturnGrowth | quantfinance/analysis/analytics.py:41-47 | a window return is defined iff the window fits and both the latest and the base close are present with a non-zero base; then the base close grown by the return is the latest close |
| Analytics.Returns | quantfinance/analysis/analytics.py:40-47 | one return per configured window, in window order |
| Analytics.PresentEmpty | quantfinance/analysis/analytics.py:46-48 | no return survives the NaN filter iff every return is NaN |
| Analytics.ScoreBounds | quantfinance/analysis/analytics.py:48 | the score is NaN iff every window return is NaN; otherwise it lies between the smallest and the largest defined return |
| Analytics.Momentum | quantfinance/analysis/analytics.py:36-48 | the row carries the ticker and one return column per window |
| Analytics.ScoreOrderTotal | quantfinance/analysis/analytics.py:55 | descending score with NaN last is a total preorder |
| Analytics.MomentumErr | quantfinance/analysis/analytics.py:30-35 | the ranking raises iff a non-empty frame has no Date column, and then with pandas' KeyError on "Date" |
| Analytics.MomentumScores | quantfinance/analysis/analytics.py:18-57 | what compute_momentum_scores returns: the first error of the ticker pass, else its rows sorted by score, best first; characterised in MomentumErr and MomentumRanking |
| Analytics.MomentumRanking | quantfinance/analysis/analytics.py:30-57 | the result is a permutation of the rows of the non-empty frames with a Close column, NaN scores come last and defined scores are in descending order |
| Analytics.MomentumRowOf | quantfinance/analysis/analytics.py:36-48 | the window loop builds exactly the row the specification defines |
| Analytics.ComputeMomentumScores | quantfinance/analysis/analytics.py:18-57 | the method computes the specified ranking, error included |
| Analytics.MomentumLoop | quantfinance/analysis/analytics.py:30-49 | the ticker loop stops at the first error and otherwise collects the kept rows |
| Analytics.MomentumPass | quantfinance/analysis/analytics.py:31-49 | one iteration: skip an empty frame, raise without Date, skip without Close, else build the row |
| Analytics.EarlierRecordTotal | quantfinance/analysis/analytics.py:70 | ordering records by Date is a total preorder |
| Analytics.Latest | quantfinance/analysis/analytics.py:70 | the last record after sorting by date; characterised in LatestIsNewest |
| Analytics.LatestIsNewest | quantfinance/analysis/analytics.py:70 | the record taken is one of the frame's records and no record has a later date |
| Analytics.SnapshotRowOf | quantfinance/analysis/analytics.py:71-74 | one value per requested column, each the latest record's value for that column or missing |
| Analytics.IndicatorSnapshot | quantfinance/analysis/analytics.py:60-75 | what compute_indicator_snapshot returns: the ticker pass over the enriched frames; characterised in IndicatorSnapshotRows |
| Analytics.IndicatorSnapshotRows | quantfinance/analysis/analytics.py:60-75 | the snapshot raises iff a non-empty frame lacks Date; otherwise one row per non-empty frame, in dictionary order |
| Analytics.SnapshotRowFor | quantfinance/analysis/analytics.py:71-74 | the column loop builds exactly the specified row |
| Analytics.ComputeIndicatorSnapshot | quantfinance/analysis/analytics.py:60-75 | the method computes the specified snapshot, error included |
| Enrichment.AddColumn | quantfinance/workflows/features/indicators.py:24 | assigning a column keeps every existing name in place, adds the name, adds nothing else and keeps names distinct |
| Enrichment.AddColumns | quantfinance/workflows/features/indicators.py:24-32 | assigning several columns keeps the existing names as a prefix, adds each of them and nothing else, and keeps names distinct |
| Enrichment.Overlap | quantfinance/workflows/features/indicators.py:35 | the columns the MACD join finds on both sides: exactly the names in both lists |
| Enrichment.EnrichedNamesShape | quantfinance/workflows/features/indicators.py:20-106 | the enriched frame keeps the input columns in place, holds every indicator, band, flag, 52-week and return column, no other, and distinct names stay distinct |
| Enrichment.NamesShape | quantfinance/workflows/features/indicators.py:20-106 | the same for any lists of added names around a join that overlaps nothing |
| Enrichment.OverlapUnchanged | quantfinance/workflows/features/indicators.py:24-35 | the basic indicator columns never collide with the MACD join, so the join fails only on MACD columns the input already had |
| Enrichment.Flags | quantfinance/workflows/features/indicators.py:53-57 | a row is flagged iff its rounded close equals some rounded level |
| Enrichment.FlagsMatchExtrema | quantfinance/workflows/features/indicators.py:47-57 | IsSupport (IsResistance) holds at a row iff some local minimum (maximum) of order 3 has the same rounded close |
| Enrichment.FlagsMatch | quantfinance/workflows/features/indicators.py:49-57 | the same for either kind of extremum |
| Enrichment.FlagWithoutExtremum | quantfinance/workflows/features/indicators.py:53-57 | flags match by value: a row that is not itself an extremum is flagged when its close equals a support level |
| Enrichment.DailyReturns | quantfinance/workflows/features/indicators.py:77 | one daily return per row |
| Enrichment.DailyReturnGrowth | quantfinance/workflows/features/indicators.py:77 | a daily return is defined iff the row has a predecessor with a non-zero close, and then the previous close grown by it is the current close |
| Enrichment.NearMax | quantfinance/workflows/features/indicators.py:70 | one flag per row |
| Enrichment.NearMin | quantfinance/workflows/features/indicators.py:71 | one flag per row |
| Enrichment.NearExtremes | quantfinance/workflows/features/indicators.py:68-71 | with the 52-week columns aligned on each row's date as intended: a close at or above a non-negative 52-week maximum is near it, and a flagged close is within 5% of a present maximum; symmetrically for the minimum |
| Enrichment.EnrichDataframe | quantfinance/workflows/features/indicators.py:98-107 | the enrichment with the 52-week columns aligned on each row's date as intended: succeeds iff Date, Close, High and Low are present and no MACD column exists yet; no Date gives the ValueError, no Close a KeyError, an overlap the join's ValueError naming the overlapping columns |
| Enrichment.EnrichDataframeAsWritten | quantfinance/workflows/features/indicators.py:61-72 | the enrichment as written: succeeds iff the frame is enrichable and no two rows share a date; a repeated date gives pandas' duplicate-label ValueError after the Date, Close and join checks; on success Min_52w and Max_52w are missing and both Within_5pct flags are False on every row |
| Enrichment.WeeklyColumnsLost | quantfinance/workflows/features/indicators.py:61-72 | on any enrichable frame the intended enrichment succeeds; with a repeated date the one as written raises, and otherwise every row whose close reaches a known weekly maximum is flagged as intended but not as written |
| Enrichment.BandsNested | quantfinance/workflows/features/indicators.py:37-42 | the three Bollinger bands share the middle line and are nested: 3.0 outside 2.5 outside 2.0 around the middle |
| Enrichment.EnrichedAtr | quantfinance/workflows/features/indicators.py:82-94 | ATR 14 is undefined exactly on the first 13 rows and non-negative afterwards |
| MlFeatures.Dated | quantfinance/ml/features.py:37-38 | dropping rows whose Date did not parse keeps exactly the input rows that have a date |
| MlFeatures.EarlierRowTotal | quantfinance/ml/features.py:38 | the date order used for sorting is a total preorder |
| MlFeatures.Ordered | quantfinance/ml/features.py:37-38 | the dated rows, as a permutation, in ascending date order |
| MlFeatures.DistanceMeaning | quantfinance/ml/features.py:43-48 | the distance to SMA_200 is defined iff the column exists and its value is present and non-zero; then it is the percentage by which Close exceeds SMA_200 |
| MlFeatures.BandWidthMeaning | quantfinance/ml/features.py:50-58 | the band width is defined iff both band columns exist, both values are present and Close is non-zero; then it times Close is the distance between the bands |
| MlFeatures.PctChangeGrowth | quantfinance/ml/features.py:64-66 | a k-row return is defined from row k on where the base close is non-zero, and grows the base close into the current one |
| MlFeatures.WeekLabel | quantfinance/ml/features.py:21 | a week is labelled by the Sunday that closes it, at most six days after the date |
| MlFeatures.LastWeekEnd | quantfinance/ml/features.py:22 | the last week label on or before a date lies within the preceding seven days |
| MlFeatures.WeekLast | quantfinance/ml/features.py:21 | a week's value is missing exactly when none of that week's rows has an RSI; otherwise it is the RSI of a row of that week after which no row of the week has one (the last present value, as `resample("W").last()` takes it) |
| MlFeatures.ForwardFill | quantfinance/ml/features.py:22 | forward filling keeps the length, keeps every present entry, and gives a missing entry the previous filled value (missing at the first row) |
| MlFeatures.DateCells | quantfinance/ml/features.py:21 | the Date cells of the rows, one per row in order |
| MlFeatures.WeeklyRsiAsWritten | quantfinance/ml/features.py:17-22 | the column as assigned at line 61: the duplicate-label ValueError iff RSI_14 exists and two rows share a date; otherwise missing on every row |
| MlFeatures.WeeklyRsi | quantfinance/ml/features.py:17-22 | missing throughout without RSI_14; with it, each row carries its weekly value when present and otherwise the previous row's weekly RSI (missing at the first row) |
| MlFeatures.WeekValue | quantfinance/ml/features.py:21-22 | a row's weekly value is missing exactly when the latest week label on or before its date precedes the first row's week or that week has no RSI; otherwise it is that week's last present RSI |
| MlFeatures.WeeklyRsiNoLookAhead | quantfinance/ml/features.py:17-22 | on date-ordered rows, the weekly RSI a row carries is the RSI of a row dated no later than it |
| MlFeatures.ForwardFillLatest | quantfinance/ml/features.py:22 | a filled entry is missing exactly when no entry so far is present; otherwise it is the latest present entry at or before it |
| MlFeatures.WeeklyRsiLatest | quantfinance/ml/features.py:17-22 | a row carries no weekly RSI exactly when there is no RSI_14 column or no row up to it has a weekly value; otherwise it carries the weekly value of the latest such row |
| MlFeatures.WeekValueNoLookAhead | quantfinance/ml/features.py:21-22 | a row's weekly value is the RSI of a row dated no later than it |
| MlFeatures.WeeklyRsiLost | quantfinance/ml/features.py:17-22 | one Sunday row with RSI 50 carries 50 as intended but nothing as written, without an error |
| MlFeatures.Selected | quantfinance/ml/features.py:81 | the kept feature columns are exactly the listed ones that exist |
| MlFeatures.FeatureRows | quantfinance/ml/features.py:40-66 | one feature row per date-ordered row, carrying its date, its close and its weekly RSI |
| MlFeatures.BuildFeatures | quantfinance/ml/features.py:25-82 | with the intended weekly RSI: fails iff Date or Close is missing, with the ValueError for Date and the KeyError for Close; otherwise one row per dated input row |
| MlFeatures.BuildFeaturesAsWritten | quantfinance/ml/features.py:25-82 | as written: fails iff Date or Close is missing or RSI_14 exists and two dated rows share a date, the last with the duplicate-label ValueError; otherwise the intended features with IFR_semanal missing on every row |
| MlFeatures.FeaturesColumns | quantfinance/ml/features.py:69-82 | every listed feature column exists, so the output has all eight in order |
| MlFeatures.FeaturesRows | quantfinance/ml/features.py:37-82 | the output rows are in date order and each carries the date and close of a dated input row |
| MlFeatures.ExportFeatures | quantfinance/ml/features.py:85-102 | succeeds iff the features build and the format is accepted; a build error comes before a format error |
| MlFeatures.FormatIgnoresCase | quantfinance/ml/features.py:95-101 | the format is matched case-insensitively: exactly parquet and csv in any casing are accepted, and upper-casing the format changes nothing |
| Common.LowerUpperPlain | quantfinance/ml/features.py:95-101 | a text lower-cases to a word of small ASCII letters without "ss" exactly when its upper-cased form does, so 'ß', 'µ' and 'ÿ' never pass for a format name |
| Cotahist.Slice | quantfinance/data/b3/cotahist.py:50-67 | Python's `line[a:b]`: clipped to the line, each character taken from its position |
| Cotahist.StripLeft | quantfinance/data/b3/cotahist.py:55-56 | removes exactly the leading whitespace |
| Cotahist.StripRight | quantfinance/data/b3/cotahist.py:55-56 | removes exactly the trailing whitespace |
| Cotahist.Strip | quantfinance/data/b3/cotahist.py:55-56 | the result neither starts nor ends with whitespace |
| Cotahist.ParseLine | quantfinance/data/b3/cotahist.py:48-79 | a line whose record type is not "01" gives no row |
| Cotahist.ParseLineFields | quantfinance/data/b3/cotahist.py:48-79 | a parsed row comes from a type-01 line: the date verbatim from columns 2-10, ticker and market type stripped, the four prices read from their fields in cents, trades and volume from theirs |
| Cotahist.OnlyQuoteRecords | quantfinance/data/b3/cotahist.py:50-52 | only type-01 lines yield rows; a header or a short line yields nothing |
| Cotahist.Encode | quantfinance/data/b3/cotahist.py:48-79 | the writer of a quote record, the parser's partner, produces a full 245-character line |
| Cotahist.SliceOfEncode | quantfinance/data/b3/cotahist.py:50-67 | a field laid out at given positions is read back from exactly those positions |
| Cotahist.ZeroPadReads | quantfinance/data/b3/cotahist.py:58-67 | a zero-padded number reads back as itself, and as a price of that many cents |
| Cotahist.StripPadded | quantfinance/data/b3/cotahist.py:55-56 | a trimmed name padded with blanks strips back to itself |
| Cotahist.ParseDigits | quantfinance/data/b3/cotahist.py:58-67 | a string of ASCII digits converts to its decimal value |
| Cotahist.EncodeTextSlices | quantfinance/data/b3/cotahist.py:50-56 | the writer puts "01", the date, the padded ticker and market type in the columns the parser reads |
| Cotahist.EncodePriceSlices | quantfinance/data/b3/cotahist.py:61-64 | the writer puts each zero-padded price in the column the parser reads |
| Cotahist.EncodeCountSlices | quantfinance/data/b3/cotahist.py:66-67 | the writer puts trades and volume in the columns the parser reads |
| Cotahist.ParseEncode | quantfinance/data/b3/cotahist.py:48-79 | round trip: parsing a written quote record gives back its fields, prices in currency units |
| Cotahist.ParseLaidOut | quantfinance/data/b3/cotahist.py:48-79 | any line carrying a record's fields in the right columns parses to that record, whatever the other columns hold |
| Cotahist.ParseQuote | quantfinance/data/b3/cotahist.py:54-79 | the fields of a quote record at their fixed offsets, or the first numeric field that fails to convert; characterised in ParseQuoteOk and ParseEncode |
| Cotahist.ParseQuoteOk | quantfinance/data/b3/cotahist.py:48-79 | a type-01 line whose numeric fields all convert parses to the row of those fields |
| Cotahist.TickerThenDateTotal | quantfinance/data/b3/cotahist.py:116 | ordering by ticker, then date, is a total preorder |
| Cotahist.Dated | quantfinance/data/b3/cotahist.py:115 | dropping rows whose date does not parse never adds rows |
| Cotahist.CollectRows | quantfinance/data/b3/cotahist.py:90-109 | the line loop computes the specified collection: the kept rows in line order, or the first conversion error |
| Cotahist.LoadCotahist | quantfinance/data/b3/cotahist.py:82-117 | the load gives the first line's conversion error, else the no-rows error when no quote record passes the ticker filter, else the dated rows sorted by ticker then date; tickers are compared after Python's upper-casing of Latin-1 text ('ß' as "SS", 'ÿ' as 'Ÿ') |
| Cotahist.CollectedErrPersists | quantfinance/data/b3/cotahist.py:91-92 | once a line fails to convert, later lines do not change the outcome |
| Cotahist.CollectedErr | quantfinance/data/b3/cotahist.py:91-92 | the load fails iff some line fails to convert, and with the error of the first such line |
| Cotahist.CollectedRows | quantfinance/data/b3/cotahist.py:91-109 | a collected row is exactly a row parsed from some line that passes the ticker filter |
| Cotahist.FilterIgnoresCase | quantfinance/data/b3/cotahist.py:88-96 | a row passes iff its upper-cased ticker equals some upper-cased listed one (Python's Latin-1 mapping, 'ß' as "SS"), or the list is empty or absent; lower-casing the list changes nothing |
| Common.QuotePlain | quantfinance/data/b3/cotahist.py:59-67 | the conversion errors quote the field as `repr` does: a field with no quote, backslash, tab, newline, carriage return or unprintable character appears as itself in single quotes |
| Common.UpperOfLower | quantfinance/data/b3/cotahist.py:88-95 | upper-casing a lower-cased text gives the upper-cased text, for every Latin-1 letter |
| Cotahist.LowerAll | quantfinance/data/b3/cotahist.py:88 | lower-cases each listed ticker |
| Cotahist.Loaded | quantfinance/data/b3/cotahist.py:82-117 | what load_cotahist returns: the first conversion error, the no-rows error, or the dated kept rows sorted by ticker and date; characterised in LoadedSorted and LoadedNoRows |
| Cotahist.LoadedSorted | quantfinance/data/b3/cotahist.py:111-117 | a successful load had rows to keep, and returns the dated kept rows, as a permutation, sorted by ticker then date |
| Cotahist.LoadedNoRows | quantfinance/data/b3/cotahist.py:111-112 | when every line converts, the load reports no trades iff no quote record passes the filter |
| Diagnostics.FlatNames | quantfinance/utils/diagnostics.py:17 | one flat name per column |
| Diagnostics.Flatten | quantfinance/utils/diagnostics.py:14-18 | the flattened frame keeps one name and one full column per column |
| Diagnostics.FlattenNames | quantfinance/utils/diagnostics.py:14-18 | columns and height are unchanged; plain names stay; a two-level label becomes its first part, or its second when the first is empty |
| Diagnostics.HasDuplicates | quantfinance/utils/diagnostics.py:22 | true iff two positions hold the same name |
| Diagnostics.HasDuplicateColumns | quantfinance/utils/diagnostics.py:21-22 | true iff two columns carry the same label, comparing whole two-level labels when there are two levels |
| Diagnostics.Larger | quantfinance/utils/diagnostics.py:42 | the larger of two cells, skipping blanks: one of them, blank only when both are, and no smaller than either number |
| Diagnostics.RowMax | quantfinance/utils/diagnostics.py:41-42 | the row's maximum over the same-named columns is blank iff all their cells are blank, is one of their cells, and bounds every number among them |
| Diagnostics.MaxColumnMeaning | quantfinance/utils/diagnostics.py:41-42 | each cell of the coalesced column is that row's maximum over the same-named columns, blank only when all are blank |
| Diagnostics.MaxColumn | quantfinance/utils/diagnostics.py:41-42 | one cell per row |
| Diagnostics.MergeKey | quantfinance/utils/diagnostics.py:33-43 | handling one key keeps the names and the height |
| Diagnostics.Merged | quantfinance/utils/diagnostics.py:33-44 | handling every key keeps the names and the height |
| Diagnostics.FirstOccurrences | quantfinance/utils/diagnostics.py:47 | the positions kept are in increasing order and are exactly the first occurrences of each name |
| Diagnostics.KeepFirst | quantfinance/utils/diagnostics.py:47 | the frame keeps, in order, the name and column at each first occurrence |
| Diagnostics.KeepFirstDistinct | quantfinance/utils/diagnostics.py:47 | after the drop no name repeats and every original name is still present |
| Diagnostics.FirstIndex | quantfinance/utils/diagnostics.py:47 | the position where a present name first occurs |
| Diagnostics.Coalesce | quantfinance/utils/diagnostics.py:25-48 | what coalesce_ohlcv returns for plain names: each duplicated OHLCV key merged to the row-wise max, the action list, and the first occurrences kept when any action was logged; characterised in CoalescedColumns and CoalesceIdempotent |
| Diagnostics.CoalesceOhlcv | quantfinance/utils/diagnostics.py:25-48 | the method flattens the labels and computes the specified coalescing and action list |
| Diagnostics.MergeKeys | quantfinance/utils/diagnostics.py:33-43 | the key loop computes the specified merged frame and action list |
| Diagnostics.LoopStep | quantfinance/utils/diagnostics.py:33-43 | one iteration merges one key and logs `coalesce:<name>[<count>]` exactly when the name occurs more than once; an absent name occurs zero times |
| Diagnostics.MergedColumns | quantfinance/utils/diagnostics.py:33-43 | after the loop every column of a duplicated key holds the row-wise maximum of that key's columns; all other columns are unchanged |
| Diagnostics.SameMaxColumn | quantfinance/utils/diagnostics.py:42 | the maximum for a name depends only on that name's columns |
| Diagnostics.ActionsMeaning | quantfinance/utils/diagnostics.py:33-45 | one action per duplicated OHLCV key, in key order, naming the key and its number of columns; no action iff no OHLCV key repeats |
| Diagnostics.NoActionsUnchanged | quantfinance/utils/diagnostics.py:45-48 | with no action the frame is returned as it is |
| Diagnostics.CoalescedColumns | quantfinance/utils/diagnostics.py:25-48 | after coalescing no name repeats, the same names remain, and each column is the row-wise maximum for a duplicated OHLCV key and the first same-named column otherwise |
| Diagnostics.KeptColumns | quantfinance/utils/diagnostics.py:33-47 | the same, for any list of distinct keys |
| Diagnostics.CoalesceIdempotent | quantfinance/utils/diagnostics.py:25-48 | coalescing a coalesced frame changes nothing and logs no action |
| Audit.MaxGap | quantfinance/workflows/audit.py:40-44 | 0 for at most one date; otherwise the largest difference between consecutive dates, attained by some pair and bounding every pair |
| Audit.MaxGapBounds | quantfinance/workflows/audit.py:40-44 | for sorted dates the largest gap is non-negative and no larger than the whole span |
| Audit.EvaluateSeries | quantfinance/workflows/audit.py:39-48 | returns the last date, the days from it to today, and a gap bounding every consecutive difference |
| Audit.FlaggedMeaning | quantfinance/workflows/audit.py:75-76 | a series is flagged iff some consecutive gap, or the time since its last date, exceeds the limit |
| Audit.Audited | quantfinance/workflows/audit.py:58-87 | the summary after visiting the expected tickers in order; characterised in AuditedLists and AuditClassifies |
| Audit.AuditDirectory | quantfinance/workflows/audit.py:51-87 | the ticker loop computes the specified summary |
| Audit.GapTickers | quantfinance/workflows/audit.py:77-85 | the tickers of the gap issues, in order |
| Audit.AuditedLists | quantfinance/workflows/audit.py:58-87 | missing holds exactly the expected tickers without a file, in order; gaps exactly the flagged ones, each with its evaluated figures and path; failures one message per unusable file, reading error or empty file, in order |
| Audit.AuditClassifies | quantfinance/workflows/audit.py:62-85 | each expected ticker is missing iff its file is absent, has a gap issue iff its series is flagged, lands in at most one list, and every list follows the expected order |
| Audit.GapAndMissingExample | quantfinance/workflows/audit.py:62-85 | with a seven-day limit, a file with 15-day gaps is reported as a gap and an absent file as missing |
| Audit.MissingExample | quantfinance/workflows/audit.py:62-66 | an absent file is reported missing and a present one is not |
| Audit.TwoTickers | quantfinance/workflows/audit.py:62-85 | for two tickers, missing lists those without a file in the given order, and a flagged first ticker is the only gap issue when the second is missing |
| Alerts.BuildAlertsFromSummary | quantfinance/workflows/alerts.py:23-44 | the method builds the specified alert list for one summary |
| Alerts.AppendGapAlerts | quantfinance/workflows/alerts.py:32-41 | the gap loop appends one gap alert per issue, in order, after what was there |
| Alerts.AppendFailureAlerts | quantfinance/workflows/alerts.py:42-43 | the failure loop appends one failure alert per failure, in order, after what was there |
| Alerts.GapAlertsStep | quantfinance/workflows/alerts.py:32-41 | one more issue adds its alert at the end |
| Alerts.FailureAlertsStep | quantfinance/workflows/alerts.py:42-43 | one more failure adds its alert at the end |
| Alerts.AlertsFor | quantfinance/workflows/alerts.py:23-44 | the alerts of one summary: the missing alert, then the gap alerts, then the failure alerts; characterised in AlertsCount, MissingAlertFirst, GapAlertAt and FailureAlertAt |
| Alerts.AlertsCount | quantfinance/workflows/alerts.py:23-44 | one alert for all missing tickers (if any), plus one per gap issue and one per failure |
| Alerts.MissingAlertFirst | quantfinance/workflows/alerts.py:25-31 | with missing tickers, the first alert is the missing-assets alert |
| Alerts.GapAlertAt | quantfinance/workflows/alerts.py:32-41 | the gap alerts follow it, the k-th describing the k-th issue with its gaps, last date and file |
| Alerts.FailureAlertAt | quantfinance/workflows/alerts.py:42-43 | the failure alerts come last, each titled as a reading failure and carrying its failure text verbatim |
| Alerts.MissingAlertMeaning | quantfinance/workflows/alerts.py:26-30 | the missing-assets alert is titled after the summary and lists the missing tickers sorted, joined by ", " |
| Alerts.BuildAlertReport | quantfinance/workflows/alerts.py:47-51 | the report holds the specified concatenation of every summary's alerts and is ok iff there is none |
| Alerts.AllAlerts | quantfinance/workflows/alerts.py:47-50 | the alerts of every summary concatenated in input order; characterised in ReportBlocks and ReportOk |
| Alerts.ReportBlocks | quantfinance/workflows/alerts.py:49-50 | each summary's alerts appear as one contiguous block, after those of the summaries before it |
| Alerts.PrefixAlerts | quantfinance/workflows/alerts.py:49-50 | the alerts of the first summaries are a prefix of the whole list |
| Alerts.ReportOk | quantfinance/workflows/alerts.py:47-51 | no alert at all iff every summary has no missing ticker, no gap and no failure |
| Portfolio.Resolve | quantfinance/workflows/portfolio.py:62-71 | one asset entry resolved against the defaults with the source's `.get` fallbacks; characterised in ProviderResolution, NameResolution and PeriodResolution |
| Portfolio.ProviderResolution | quantfinance/workflows/portfolio.py:62 | an asset's provider is its own, else the portfolio default, else "yahoo" |
| Portfolio.NameResolution | quantfinance/workflows/portfolio.py:64-66 | an asset's name is its own, else its ticker; the ticker is the entry's, else missing |
| Portfolio.PeriodResolution | quantfinance/workflows/portfolio.py:67-69 | start, end and interval come from the entry, else from the defaults, else missing for start and end and "1d" for the interval |
| Portfolio.LoadPortfolioConfig | quantfinance/workflows/portfolio.py:54-74 | an empty document raises AttributeError and a null asset list TypeError; an entry that is null, or any entry under null defaults, raises AttributeError, and exactly then; otherwise a missing, null or empty section reads as empty, the name is the section's (null stays None, absent gives the file stem), the defaults are the section's (absent gives {}), and each entry is resolved in file order |
| Portfolio.AssetsInFileOrder | quantfinance/workflows/portfolio.py:61-72 | in a loaded configuration the i-th asset keeps the i-th entry as its raw record, so the file's order is kept |
| Portfolio.PlanDownload | quantfinance/workflows/portfolio.py:77-105 | a download happens iff the provider is "yahoo" and the ticker is non-empty; any other provider is unsupported; the request uses the ticker and end, the start override when non-empty and the asset's start otherwise, and the asset's interval or "1d" |
| Portfolio.LastOfDayStep | quantfinance/workflows/portfolio.py:161-162 | a row is the last of its day in a list iff it is the head with no later row on that day, or the last of its day in the tail |
| Portfolio.LastPerDay | quantfinance/workflows/portfolio.py:161-162 | dropping undated rows and then earlier duplicates of a day keeps exactly the last row of each day: all dated, no two on the same day |
| Portfolio.LastPerDayStep | quantfinance/workflows/portfolio.py:161-162 | keeping or dropping the head row preserves that characterisation |
| Portfolio.InsertRow | quantfinance/workflows/portfolio.py:163 | inserting a row on a new day into an ascending list keeps it ascending and adds exactly that row |
| Portfolio.SortByDate | quantfinance/workflows/portfolio.py:163 | rows on distinct days, sorted: ascending, same rows, same count |
| Portfolio.DateRows | quantfinance/workflows/portfolio.py:156-159 | one row per input row |
| Portfolio.Normalize | quantfinance/workflows/portfolio.py:154-165 | a table without rows or without a Date column is kept; otherwise undated rows are dropped, the last row of each date kept and the rows sorted by date; characterised in NormalizeMeaning and NormalizeDays |
| Portfolio.NormalizeMeaning | quantfinance/workflows/portfolio.py:156-165 | a table with a Date column becomes the last row of each day, in ascending date order |
| Portfolio.LastOfDayExists | quantfinance/workflows/portfolio.py:161-162 | every day that occurs has a last row |
| Portfolio.NormalizeDays | quantfinance/workflows/portfolio.py:156-165 | normalising keeps exactly the days the table had |
| Portfolio.NormalizeEmpty | quantfinance/workflows/portfolio.py:154-165 | a normalised table is empty iff it had no rows, or it has a Date column and no row has a date |
| Portfolio.MergeFrames | quantfinance/workflows/portfolio.py:140-166 | `_merge_frames`: the other side when one is missing or empty, else the concatenation, normalised; characterised in MergeOneSide, MergeBothSides and MergeNewWins |
| Portfolio.MergeOneSide | quantfinance/workflows/portfolio.py:140-166 | with no stored table the merge is the normalised download (nothing when neither exists); with an empty download it is the normalised stored table |
| Portfolio.MergeBothSides | quantfinance/workflows/portfolio.py:145-165 | merging two dated tables gives an ascending table holding exactly the days found on either side |
| Portfolio.MergeNewWins | quantfinance/workflows/portfolio.py:146-162 | each merged row is dated; on a day the download has, it is the download's last row for that day; otherwise the stored table's |
| Portfolio.HasDayConcat | quantfinance/workflows/portfolio.py:146 | a day occurs in the concatenation iff it occurs on either side |
| Portfolio.LastOfConcat | quantfinance/workflows/portfolio.py:146-162 | the last row of a day in the concatenation comes from the second table when that table has the day, else from the first |
| Portfolio.LatestDay | quantfinance/workflows/portfolio.py:172 | the latest date is missing iff no row has one; otherwise it occurs and no date exceeds it |
| Portfolio.StartOverride | quantfinance/workflows/portfolio.py:170-174 | there is an override iff the stored table has a Date column and a dated row; it is the day after its latest date |
| Portfolio.Task | quantfinance/workflows/portfolio.py:168-186 | one asset's `_task`: plan the download with the start override, fetch, merge with the stored table, fail when nothing remains; characterised in TaskSkipsUnsupported, TaskKeepsExisting and TaskMerges |
| Portfolio.TaskSkipsUnsupported | quantfinance/workflows/portfolio.py:176-179 | a task is skipped iff the provider is not "yahoo" |
| Portfolio.TaskKeepsExisting | quantfinance/workflows/portfolio.py:176-186 | when nothing new is downloaded (a missing ticker or a ValueError), the normalised stored table is the result, or the no-data error when it has no rows |
| Portfolio.TaskMerges | quantfinance/workflows/portfolio.py:176-186 | a downloaded table is merged with the stored one, and `_task` fails with the no-data error exactly when the merge has no rows |

## Left out

- File and network I/O are not modelled: reading COTAHIST TXT/ZIP files, Parquet, YAML and Excel files, `save_daily_history`, `sanitize_parquet_file`, `scan_and_fix`, `_collect_dates`, `_load_existing` and the Yahoo download. The model takes their results as inputs: the file's lines, a `FileState` per ticker, the stored table, and a `fetch` function from a request to its outcome.
- The current date (`pd.Timestamp.today()`) is the parameter `today`. The rendering of dates (`isoformat`, `.date()`) is the parameter `iso` or `showDate`, and date-string parsing (`pd.to_datetime`) is the parameter `parseDate` or an already-parsed `Option<int>`.
- Weekly resampling (`resample("W")`) in the levels and trend analysis is an input series, one entry per calendar week. The model of `IFR_semanal` resamples explicitly over day numbers.
- Enrichment.EnrichDataframe: the 52-week minimum and maximum aligned on each row's date (the rolling extremes of the weekly minimum and maximum close) are the input series `Given.min52` and `Given.max52`; the resampling and the 52-week rolling window are not computed. As written those columns are never aligned (see Findings).
- The rolling standard deviation behind the Bollinger bands is an input series, assumed non-negative (`IsDeviation`); the square root is not modelled. `Return_Log` is named as a column but its values (a logarithm) are not modelled.
- Floating point is modelled as exact real arithmetic. Rounding to two decimals is an abstract function `round2`. Enrichment.Flags uses that one function both for Python's `round()` on the support and resistance levels and for pandas' `Series.round` on the closes (quantfinance/workflows/features/indicators.py:53-57); the two can disagree on values halfway between two cents, and the model does not distinguish them. Also, `:.2f` / `:.4f` formatting of summary lines is not modelled: summary lines carry their values, not their text.
- Infinities from a division by zero are modelled as missing values wherever pandas or numpy would give inf or NaN (returns, stochastic, Williams %R, VWAP, features). Code that would later compare an infinity is therefore not distinguished from a NaN.
- Rolling windows, `order`, `span` and the round-number step must be positive (`window >= 1`, `order >= 1`, `roundStep > 0.0`). With a zero window pandas raises, scipy's `argrelextrema` raises for `order < 1`, and a zero step divides by zero; these error paths are not modelled.
- SetupEngine.TrendFollowing / SetupEngine.RsiRebound: the snapshot type declared at quantfinance/reporting/insights.py:24-33 has neither `latest_price` nor `trend_multi`, which quantfinance/setups/engine.py:53, :61 and :99 read. With that type, trend following always fails (IndexError when EMA_21 or Volume_Ratio is present but empty, otherwise AttributeError at line 53), and RSI rebound raises AttributeError at line 99 whenever it has two or more RSI values; `evaluate_setups` turns each failure into an inactive error result. These two members take both fields as inputs (`Market.latestPrice`, `Market.trendMulti`), as a snapshot that carries them would provide; the as-written behaviour is `TrendFollowingAsWritten` and `RsiReboundAsWritten` (see Findings).
- Levels.GroupLevels: a zero reference price makes plain Python floats raise ZeroDivisionError. The model uses numpy's semantics instead, where the price never joins the group.
- Divergence.DetectRsiDivergences: requires an RSI value wherever the price is present. When the RSI has gaps, the source drops them and then indexes the two series by position, which misaligns them; that misalignment is not modelled.
- Insights, Levels, TrendAnalysis and Fibonacci: a NaN close is not modelled. The validated rows' closes (`RawRow.close`) and the series these modules read are real numbers. `_validate_input` (quantfinance/reporting/insights.py:39-48) drops only undated rows, so in the source a row with a NaN close reaches the indicators, the extremes, the slopes and the swing window, where pandas skips or propagates it.
- TrendAnalysis.TrendByTimeframe: the closes are taken to be in date order already; the function has no caller in the repository that would sort them. The source sorts them itself with `close.dropna().sort_index()` (quantfinance/analysis/trend.py:90); a caller that passes an unsorted series gets trends over the sorted series there and over the given order in the model.
- Insights.Validate: the message lists the missing columns in the order of the required-columns list. Python prints a `set` there, whose order depends on string hashing and so may vary from run to run; the model fixes one order.
- Insights.Validate: dated rows that share a date keep their input order, because the model sorts with a stable insertion sort. `sort_values("Date")` sorts one key with quicksort, which promises no order for ties. The contract states only the permutation and the date order, but the snapshot's moving averages, RSI, MACD, bands, levels and trend are computed over the model's order, so with repeated dates they may differ from the source's.
- Insights.SnapshotIndicators: with two validated rows on one date the Date index repeats, and each `join` at quantfinance/reporting/insights.py:63-64 pairs every row of a date with every row of that date (two rows become four, then eight). The indicator columns are then longer than the closes. The model keeps one row per close, which is what the source gives when the dates are distinct.
- Insights.SnapshotSignals: with a repeated date, `rsi.loc[prices.index]` in `detect_rsi_divergences` returns every joined RSI row for each repeated date, so the RSI series is longer than the closes and is read at shifted positions. The model pairs each close with its own RSI, as the source does when the dates are distinct.
- Insights.BuildMarketSnapshot: for the two reasons above, the indicator columns and the divergences of the snapshot match the source only when the dated rows have distinct dates. The levels, Fibonacci map, trend and breakouts read the closes by position and are not affected by the joins.
- Analytics.SortedCloses: rows that share a date keep their input order, because the model sorts stably. `sort_values("Date")` at quantfinance/analysis/analytics.py:33 and :70 sorts one key with quicksort, which promises no order for ties. With a repeated date, the last close, the close at `iloc[-window]` that a window return starts from, and the record that Analytics.Latest takes with `.iloc[-1]` may therefore differ from the source's.
- Analytics.MomentumRanking: rows with equal scores are kept in input order by the model's stable sort. pandas' default sort does not promise an order for ties, so the contract speaks only of the permutation and the score order.
- Analytics: `astype(float)` on a non-numeric Close column, which raises, is not modelled. Close cells are numbers or missing.
- Enrichment: duplicate column labels in the input frame and a NaN inside the price columns are not modelled. The three price columns are real sequences.
- MlFeatures.BuildFeatures: models the intended weekly RSI, so it does not raise the duplicate-label ValueError of line 61; `BuildFeaturesAsWritten` models that error (see Findings). `astype(float)` failures on non-numeric cells are not modelled.
- MlFeatures: a NaN in the Close column is not modelled, because closes are real numbers. With a NaN close, `pct_change`'s default forward fill changes `ret_1`, `ret_5` and `ret_21` around it.
- MlFeatures.Ordered: dated rows that share a date keep their input order, because the model sorts with a stable insertion sort. `sort_values("Date")` sorts one key with quicksort, which promises no order for ties. The contract states only the permutation and the date order, but `FeatureRows` and `BuildFeatures` compute `ret_1`, `ret_5` and `ret_21` over the model's order, so with repeated dates those returns may differ from the source's.
- Cotahist.ParseLine: `float()` also accepts decimals, exponents, underscores, `inf` and `nan`. The model reads only an optionally signed run of ASCII digits within whitespace and reports anything else as the conversion error. Lines whose numeric fields use those other spellings are therefore reported as errors.
- Cotahist.LoadCotahist: the file is read as Latin-1, so parsed tickers are Latin-1 text, but a ticker in the caller's list may hold characters beyond U+00FF. Python upper-cases those too (`'ſ'.upper()` is `'S'`); the model keeps them as they are.
- Cotahist.FilterIgnoresCase: states case-insensitivity for the Latin-1 case mapping only, for the reason given on the line above.
- MlFeatures.FormatIgnoresCase: also covers Latin-1 text only. Beyond U+00FF Python's `upper()` can turn a rejected format into an accepted one (`'cſv'.upper()` is `'CSV'`), so the first ensures does not carry over to such text.
- Cotahist: `latest_session` (the maximum date of a loaded table) is not modelled.
- Common.Quote: `repr` follows Python for Latin-1 text (quote choice, backslash escapes, `\xNN` for unprintable characters). Characters beyond U+00FF are shown as they are, while Python writes the unprintable ones among them as `\uNNNN` escapes.
- Diagnostics: `pd.to_numeric(errors="coerce")` is modelled by cells that are already numbers or blank. Text that parses as a number is not distinguished from a number.
- Diagnostics.CoalesceOhlcv: assigning to a repeated label sets every column of that name to the row maximum, and then the first is kept. The model computes the same surviving column directly.
- Audit: the path join is modelled as `dataDir + "/" + ticker + suffix`. Time of day is ignored, because dates are whole days. `audit_yahoo_assets` and `audit_b3_tickers` only load a configuration and call `_audit_directory`; their configuration loading is not modelled.
- Portfolio: the thread-pool fan-out of `download_portfolio_data` (the collection of `data_map` and `skipped`) is left out, because its order depends on completion order. One asset's `_task` is modelled at a time, and an exception other than a ValueError becomes the outcome `Failed`.
- Portfolio.Normalize, Portfolio.MergeFrames, Portfolio.LastPerDay, Portfolio.StartOverride: a row's date is a whole day number, so only daily bars are modelled. With an intraday interval from the configuration, the Yahoo client's `Datetime` column becomes `Date` and carries a time of day. The source then de-duplicates and sorts on full timestamps and keeps every bar of a day, while the model would keep only a day's last bar. The start override, which adds one day to the latest timestamp and truncates it to a date, is modelled on day numbers only.
- Portfolio.MergeFrames: the call to `coalesce_ohlcv` inside the merge is not modelled, because row values are carried opaquely. A table with columns but no rows is empty; a table with no columns at all is not modelled.
- Portfolio.PlanDownload: the second `UnsupportedProviderError` (provider supported but not "yahoo") cannot be reached with the single supported provider, and is not modelled.
- Portfolio.LoadPortfolioConfig: a missing file (FileNotFoundError), a document, section, defaults or entry that is a YAML list or scalar rather than a mapping or null, and non-string YAML values such as dates are not modelled. Entry values are strings or null.
- Portfolio: `save_portfolio_parquet`, the Excel export, snapshots and `enrich_portfolio_data` write files or call workflows outside this model.

## Findings

| source | as written | input that shows it | evidently intended | confidence | as-written member | corrected member |
|---|---|---|---|---|---|---|
| quantfinance/ml/features.py:17-22 | `_weekly_rsi` returns a series indexed by date. Line 61 assigns it to a frame indexed 0, 1, ... after `reset_index`, so no label matches and `IFR_semanal` is NaN on every row; when two rows share a date that alignment raises ValueError instead. Even with line 61 aligned by position, the exact-label `reindex` at line 22 would only match rows dated on a week's Sunday label | one row dated on a Sunday with RSI_14 = 50: IFR_semanal is NaN; two rows on one date with RSI_14: ValueError | each row carries the RSI at the close of the latest completed week on or before its date, forward filled, and never a later value. This is an as-of lookup (`reindex(..., method="ffill")` or `merge_asof`), a change to line 22 as well as to line 61 | not executed | MlFeatures.WeeklyRsiAsWritten, MlFeatures.BuildFeaturesAsWritten, MlFeatures.WeeklyRsiLost | MlFeatures.WeeklyRsi, MlFeatures.BuildFeatures, MlFeatures.WeeklyRsiNoLookAhead |
| quantfinance/workflows/features/indicators.py:61-72 | `_calc_52w_metrics` builds Min_52w and Max_52w indexed by date and assigns them to a frame indexed by row number (every caller, quantfinance/workflows/portfolio.py:164 and quantfinance/workflows/b3.py:54-60, passes such a frame), so both are NaN on every row and both Within_5pct flags are False; a repeated date raises ValueError | any frame whose last close is a new 52-week high: Within_5pct_Max52w is False there; two rows on one date: ValueError | each row carries the 52-week minimum and maximum of the weekly closes as of its date, and the flags compare Close with them | not executed | Enrichment.EnrichDataframeAsWritten, Enrichment.WeeklyColumnsLost | Enrichment.EnrichDataframe, Enrichment.NearExtremes |
| quantfinance/setups/engine.py:53, :61, :99 | `_setup_trend_following` reads `snapshot.latest_price` and `snapshot.trend_multi`, and `_setup_rsi_rebound` reads `snapshot.trend_multi`, but the `MarketSnapshot` dataclass they are typed against (quantfinance/reporting/insights.py:24-33) declares neither field. Trend following therefore always raises, and RSI rebound raises whenever it has two or more RSI values; `evaluate_setups` reports each as an inactive "Erro ao avaliar setup." entry | a one-row frame with EMA_21 = 10 and Volume_Ratio = 1.5, a daily uptrend with a bullish stack and a latest close of 11: `'MarketSnapshot' object has no attribute 'latest_price'`; RSI_14 = 25 then 35: `'MarketSnapshot' object has no attribute 'trend_multi'` | the snapshot carries the latest close and the trend per timeframe (fields added to `MarketSnapshot` and filled by `build_market_snapshot`), and the rules judge them | not executed | SetupEngine.TrendFollowingAsWritten, SetupEngine.RsiReboundAsWritten, SetupEngine.TrendFollowingLostAsWritten, SetupEngine.RsiReboundLostAsWritten | SetupEngine.TrendFollowing, SetupEngine.RsiRebound |
