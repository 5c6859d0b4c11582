# Candle Widening Ratio and chart classification, modelled in Dafny

This project models the two pieces of logic that the `PyneCore_task` repository writes itself. Everything else in that repository calls an external scripting engine.

1. **Standalone Candle Widening Ratio (CWR)** (`calculate_cwr_standalone` in `workdir/scripts/run_cwr.py`, module `Cwr`, file `cwr.dfy`).
   - For each candle it takes the range `high - low`.
   - It takes a trailing simple moving average of the ranges. While fewer than `length` ranges exist, it averages all of them. After that, it averages the last `length`.
   - The CWR is the range divided by that average, or `0` when the average is `0`.
   - It emits one record per candle that copies the candle and adds the range, the average, the CWR and a `1.0` baseline.
   - The statistics step keeps only the positive CWR values.

   Numbers are Dafny `real`s, so every claim is about the exact mean and ratio. The code is imperative. `TrailingAverages` is the averaging loop and `CalculateCwrStandalone` is the record loop. Both are proved against the specification functions `Window`, `Mean`, `Averages` and `Ratio`. The properties are lemmas about those functions.

2. **Chart decisions of `create_dynamic_visualization`** (`run_dynamic_programmatic.py`, module `Chart`, file `chart.dfy`). A table column is a name plus a sequence of optional reals, where `None` is a NaN cell. The model decides:
   - which columns are indicators (not OHLCV, not `time`);
   - how indicators split into signal columns and line-indicator columns;
   - which rows the lines are drawn over, and which rows a signal marks;
   - whether a signal is a buy or a sell, from keywords in its lower-cased name;
   - which subplot row holds the indicators;
   - the chart title and the indicator axis title.

   `PartitionIndicators`, `SignalMarkers`, `DecideDirection` and `ChartTitles` follow the source's loops and reassignments. `PlanChart` composes them in the source's order.

Support modules:
- `Wrappers` holds `Option` and `Result`.
- `Seqs` holds a list comprehension with a filter (`Filter`), one without (`Map`) and pandas' default row index (`Indices`).
- `Text` holds `str.lower`, the substring test `t in s`, `str.join` and `str(n)`.

Edge behaviour of the code that the model follows:
- **Non-positive `length`.** `calculate_cwr_standalone` has no up-front check of `length`. With at least one candle, the first window slice is empty and `sum(window) / len(window)` raises `ZeroDivisionError`. With no candles, the code returns an empty list. `CalculateCwrStandalone` fails exactly when `length < 1` and there is at least one candle.
- **Window sums.** Each window is summed afresh with `sum(window)`. `SlidingWindowSum` proves how consecutive window sums relate: the next sum is the previous one plus the new range, minus the range that leaves the window once it is full.
- **`high >= low`.** Nothing in `run_cwr.py` checks this. The non-negativity lemmas take it as a hypothesis.

## Model

| member | source | states |
|---|---|---|
| `Cwr.Ranges` | workdir/scripts/run_cwr.py:59 | one range per candle, in order; entry `i` is `high[i] - low[i]` |
| `Cwr.WindowStart` | workdir/scripts/run_cwr.py:64-69 | the window ending at `i` starts at or before `i` and holds `min(i+1, length)` ranges |
| `Cwr.Window` | workdir/scripts/run_cwr.py:64-71 | for `length >= 1`, the averaged window is never empty, holds `min(i+1, length)` ranges and ends with `ranges[i]`, so the division at line 71 is defined |
| `Cwr.Ratio` | workdir/scripts/run_cwr.py:76 | a non-zero average times the ratio gives back the range; a zero average gives the sentinel `0` |
| `Cwr.TrailingAverages` | workdir/scripts/run_cwr.py:62-71 | raises `ZeroDivisionError` iff `length < 1` and there is a range; otherwise one average per range, in order. Each is the mean of `ranges[max(0, i-length+1) .. i]`, so the two slicing branches agree with one window rule, at `i == length-1` too |
| `Cwr.CalculateCwrStandalone` | workdir/scripts/run_cwr.py:54-93 | `length` defaults to 20; fails iff `length < 1` and there is a candle; otherwise one record per candle, in input order. Each record copies timestamp/open/high/low/close/volume, stores `high - low`, the trailing mean and the zero-guarded ratio, and sets baseline `1.0` |
| `Cwr.PositiveCwrs` | workdir/scripts/run_cwr.py:156-161 | the statistics values are all positive, each is the CWR of some record, and every positive CWR among the records is among them. Each positive value occurs in the list as often as among the records' CWRs, so `len(cwr_values)` counts the records with a positive CWR and the sum and mean at line 161 are those of exactly these CWRs |
| `Cwr.PositiveCount` | workdir/scripts/run_cwr.py:156-160 | the filtered list is as long as the set of positions of records with a positive CWR |
| `Cwr.SlidingWindowSum` | workdir/scripts/run_cwr.py:63-71 | the next window's sum is this window's sum plus the new range, minus the range that drops out once the window is full |
| `Cwr.WarmUpAverage` | workdir/scripts/run_cwr.py:64-66 | for `i < length`, the average is the mean of `ranges[0..i]` |
| `Cwr.FullWindowAverage` | workdir/scripts/run_cwr.py:67-69 | for `i >= length`, the average is the mean of exactly the last `length` ranges |
| `Cwr.LengthOne` | workdir/scripts/run_cwr.py:64-76 | with `length == 1` every average equals its own range, so the CWR is `1` where the range is non-zero and `0` elsewhere |
| `Cwr.NonNegative` | workdir/scripts/run_cwr.py:62-76 | for non-negative ranges, every average and CWR is `>= 0`, and an average is `0` iff every range in its window is `0` |
| `Cwr.CandlesNonNegative` | workdir/scripts/run_cwr.py:59-76 | when every candle has `high >= low`, every average and every CWR is `>= 0` |
| `Cwr.RisingExample` | workdir/scripts/run_cwr.py:62-71 | ranges 2, 4, 6, 8 with `length == 2` average to 2, 3, 5, 7 |
| `Cwr.SingleCandleExample` | workdir/scripts/run_cwr.py:64-66 | one candle with `length == 20` is averaged over itself alone |
| `Seqs.FilterConcat` | run_dynamic_programmatic.py:110-125 | filtering distributes over concatenation, so each filtered list keeps its elements' relative order |
| `Seqs.FilterSplit` | run_dynamic_programmatic.py:110-125 | filtering by a test and by its negation puts every element in exactly one of the two parts |
| `Chart.IndicatorColumns` | run_dynamic_programmatic.py:104-107 | the indicator columns are exactly the table's columns whose name is not open/high/low/close/volume/time |
| `Chart.IndicatorColumnsKeepOrder` | run_dynamic_programmatic.py:107 | the indicator columns keep the table's column order |
| `Chart.Present` | run_dynamic_programmatic.py:116 | `dropna` keeps exactly the present values and never lengthens the column |
| `Chart.Max` | run_dynamic_programmatic.py:120 | the maximum is one of the values and no value exceeds it |
| `Chart.SignalRule` | run_dynamic_programmatic.py:116-125 | a column is a signal iff it has a present value and either its present values are all 0 or 1, or it has at most 3 distinct present values and none above 1 |
| `Chart.AllMissingIsLine` | run_dynamic_programmatic.py:116-125 | a column with no present value is a line indicator |
| `Chart.AboveOneIsLine` | run_dynamic_programmatic.py:118-123 | a column with a present value above 1 is a line indicator |
| `Chart.BinaryIsSignal` | run_dynamic_programmatic.py:118-121 | a column whose present values are all 0 or 1, with at least one present, is a signal |
| `Chart.FilterStep` | run_dynamic_programmatic.py:113-125 | one pass of the classification loop appends the column to the signal list if it is a signal and to the line list otherwise, and leaves the other list unchanged |
| `Chart.PartitionIndicators` | run_dynamic_programmatic.py:110-125 | the signal list is the in-order selection of the signal columns, the line list is the in-order selection of the rest, and together they hold every indicator column exactly once |
| `Seqs.FilterIncreasing` | run_dynamic_programmatic.py:128-131 | keeping some of a strictly increasing row index keeps it strictly increasing, so dropped rows never reorder the rest |
| `Chart.KeptRows` | run_dynamic_programmatic.py:128-131 | in both branches, the kept rows are exactly those in which every line-indicator column is present, in increasing order. With no line indicators this is every row |
| `Chart.SignalRows` | run_dynamic_programmatic.py:184 | a signal column marks exactly the rows where its value is present and non-zero, in increasing order |
| `Chart.IndicatorRow` | run_dynamic_programmatic.py:134-148 | the indicators go on row 2 iff there is a line indicator, on row 1 otherwise |
| `Chart.DecideDirection` | run_dynamic_programmatic.py:188-196 | after the default-to-buy reassignment, the signal is a sell iff its lower-cased name holds a sell keyword and no buy keyword (buy only, both and neither are all buy) |
| `Chart.SellExample` | run_dynamic_programmatic.py:188-196 | a column named "Sell" is a sell signal: after lower-casing it holds "sell" and none of "buy", "long", "up" |
| `Chart.SupertrendSellExample` | run_dynamic_programmatic.py:188-196 | a column named "supertrend_sell" is a buy signal, because the buy keyword "up" occurs inside "supertrend" |
| `Chart.MentionsAnyIff` | run_dynamic_programmatic.py:188-189 | `any(term in name for term in terms)` holds iff the name contains one of the terms, so a name with no keyword of either list falls to the default buy |
| `Chart.Markers` | run_dynamic_programmatic.py:182-196 | there are exactly as many markers as signal columns that fire at least once; each firing column's marker, with its direction and rows, is among them; no marker has empty rows or comes from elsewhere |
| `Chart.MarkersStep` | run_dynamic_programmatic.py:182-185 | one pass of the marker loop adds exactly one marker, for that column, when the column fires, and adds nothing otherwise |
| `Chart.SignalMarkers` | run_dynamic_programmatic.py:182-209 | the marker loop produces exactly `Markers` of the signal columns, in column order |
| `Chart.BaseTitles` | run_dynamic_programmatic.py:237-247 | the axis title is "CWR Value" iff `cwr` is a line column and empty iff there are no line columns. The axis title is "Indicator Values" when there are line columns but no `cwr`. The chart title starts with the script name and " - BTC/USDT". It ends in the CWR wording iff `cwr` is a line column, and in " Price Chart" iff there are no line columns. Otherwise it lists the line columns joined by ", " before " Indicators". It never ends in " Trading Signals" |
| `Chart.ChartTitles` | run_dynamic_programmatic.py:237-251 | " and N Trading Signals" is appended, with N the number of signal columns, exactly when there are signal columns, so the chart title ends in " Trading Signals" iff there are signal columns |
| `Chart.PlanChart` | run_dynamic_programmatic.py:104-251 | for a table whose columns all have one cell per row, every decision is taken on the outputs of the previous one: rows and titles use the line list, markers use the signal list, both lists come from the indicator columns |
| `Text.Contains` | run_dynamic_programmatic.py:188-189 | Python's `term in name` holds iff the term occurs at some position of the name |
| `Text.NatToString` | run_dynamic_programmatic.py:251 | the count in the title is written in decimal digits that denote exactly N, without a leading zero |

## Left out

- The engine-facing scripts are not modelled: the `main` indicator in `workdir/scripts/run_cwr.py:12-33`, `p1.py`, `p2.py`, `my_indicator.py` and `test_basic.py`. Their behaviour (`ta.sma`, `ta.crossover`, `Series` arithmetic, `plot`, `strategy.entry`) lives in the external PyneCore engine, which is not part of this model.
- File and process I/O is not modelled. This covers `load_ohlcv_with_pynecore`, `save_results_json`, `save_results_csv`, the printing in `run_standalone` and `run_cwr_programmatically`. It also covers `run_cwr_programmatic.py` (file checks, TOML loading, `OHLCVReader` and `ScriptRunner` calls, `sys.path` changes) and `run_cwr_script.py` (subprocess call, `os.chdir`, JSON summary).
- The statistics printed after the positive-CWR filter (count, mean, min, max) are console output and are not modelled.
- The `TypeError` branch of the `try` at `workdir/scripts/run_cwr.py:75-78` is not modelled. Model candles hold numbers only, so it cannot fire.
- IEEE-754 rounding of sums and ratios is not modelled. Values are exact reals, and NaN and infinity do not occur in them.
- Rendering is not modelled: Plotly traces, colours, marker sizes and offsets (`low * 0.995`, `high * 1.005`), the `add_hline` reference lines for `cwr` (lines 228-234), subplot titles, layout and `write_html`.
- The global `FILE_NAME`/`CHART_FILENAME`, `pd.read_csv` and the `time` parsing are not modelled. The table arrives as columns of optional reals, and the script name arrives as a parameter.
- Text.Lower: models `str.lower()` on ASCII letters only. Other characters are left unchanged, while Python also folds non-ASCII letters.
- Chart.PartitionIndicators: its lists hold the columns, not only their names. The table comes from `pd.read_csv` (run_dynamic_programmatic.py:100), which renames repeated headers to `a`, `a.1`, …, so the column names are distinct and the two carry the same information.
