# Synthetic retail time series, modelled in Dafny

`rands.py` builds one daily table for time-series forecasting exercises. `generate_arima_ready_dataset(n_rows)` dates row `i` as 2023-01-01 plus `i` days. It then builds a linear trend, a weekly seasonality, marketing spend as a random walk starting at 1000, website traffic and temperature, and sales as base + trend + seasonality + a tenth of the spend + noise. It derives the weekday and weekend flags from the dates. Inventory is a clamped running level that falls by a tenth of each day's sales and rises by a random restock.

This project models that function's deterministic structure over exact reals. The random draws and the `np.sin` values are inputs (`Dataset.Inputs`). What is left is proved:

- **Calendar.** Dates follow Python's proleptic Gregorian calendar: years 1 to 9999, ordinal 1 = 0001-01-01, and `weekday()` = (ordinal + 6) mod 7. The model proves:
  - adding `k` days moves the ordinal by exactly `k`;
  - the ordinal determines the date, so the model's date is the one Python's `fromordinal` returns;
  - row `i` falls on weekday (6 + i) mod 7;
  - `is_weekend` is 1 exactly when the weekday is 5 or 6.

  Python's `datetime` module is not part of this model. Its calendar rules are restated in `calendar.dfy`.
- **Signals.** Marketing spend is 1000 plus the running `cumsum` of the walk. It is proved equal to 1000 plus the prefix sum, and each day differs from the day before by that day's increment. Sales is proved to be a pointwise formula in the row index and the inputs.
- **Inventory.** The loop is a method over a growing sequence. It is proved equal to a forward scan, and element `i` is proved to be the round-half-even of the unrounded level after days 0..i, starting from 1000. Every value is ≥ 0. Each step lies within the bounds that a restock in 0..99 allows.
- **Assembly.** `Dataset.GenerateDataset` returns all eight columns with `n` entries each, and states every column fact above. It fails only when a date would pass 9999-12-31, where Python raises `OverflowError`.

Two behaviours of the code worth stating:

- **Row count.** The code does not check the row count: `n_rows = 0` yields an empty table, and the model takes `n: nat`.
- **Sales in the inventory step.** The loop reads the unrounded `sales` array (rands.py:56); rounding happens only when the DataFrame is built. The model does the same.

## Model

| member | source | states |
|---|---|---|
| Calendar.Ordinal | rands.py:12 | `toordinal()` of a valid date (year 1..9999, month 1..12, day within the month, as `Calendar.Valid` restates `datetime`'s rules) is at least its day of month, hence ≥ 1; the body restates `datetime`'s days-before-year, days-before-month and day sum |
| Calendar.Weekday | rands.py:48 | `weekday()` lies in 0..6 and is (ordinal − 1) mod 7, so ordinal 1 (0001-01-01) is a Monday |
| Calendar.NextDay | rands.py:12 | the next calendar day is a valid date whose ordinal is one more |
| Calendar.AddDays | rands.py:12 | `d + timedelta(days=k)` is a valid date whose ordinal is `ordinal(d) + k`, while that stays ≤ the ordinal of 9999-12-31 |
| Calendar.DaysBeforeNextYear | rands.py:12 | a year adds 366 days to the ordinal count in leap years and 365 otherwise |
| Calendar.OrdinalRange | rands.py:12 | every valid date has an ordinal in 1..3652059 |
| Calendar.OrdinalStrictlyIncreasing | rands.py:12 | a date earlier in (year, month, day) order has a smaller ordinal |
| Calendar.OrdinalInjective | rands.py:12 | two valid dates have equal ordinals iff they are the same date |
| Calendar.LastDate | rands.py:12 | 9999-12-31 is valid and has ordinal 3652059 (OrdinalRange shows no valid date has a larger one) |
| Calendar.AddDaysAdditive | rands.py:12 | adding `j` days and then `k` days is adding `j + k` days |
| TimeAxis.StartDate | rands.py:11 | 2023-01-01 is valid, has ordinal 738521 and is a Sunday (weekday 6) |
| TimeAxis.DateAt | rands.py:12 | the date of row `i` is valid and lies exactly `i` days after 2023-01-01 |
| TimeAxis.Dates | rands.py:11-12 | the date list fails iff `n` exceeds 2913539 rows; otherwise it has exactly `n` entries and entry `i` is the start date plus `i` days |
| TimeAxis.DayOfWeekColumn | rands.py:48 | one weekday per date, each in 0..6 |
| TimeAxis.WeekendColumn | rands.py:51 | one flag per date, each 0 or 1 |
| TimeAxis.DatesFailIffSomeRowOverflows | rands.py:12 | the date list fails iff some row `i < n` would be dated past 9999-12-31 |
| TimeAxis.DatesAreConsecutiveDays | rands.py:11-12 | exactly `n` valid dates; the first is 2023-01-01; each later one is the day after the previous one, with an ordinal one larger |
| TimeAxis.WeekdayOfRow | rands.py:11-12 | row `i`'s weekday is (6 + i) mod 7 |
| TimeAxis.ModSevenShift | rands.py:48 | adding a multiple of 7 days does not change the weekday residue |
| TimeAxis.WeekendResidue | rands.py:51 | the weekday (6 + i) mod 7 is ≥ 5 iff `i` mod 7 is 0 or 6 |
| TimeAxis.DayOfWeekCycles | rands.py:47-48 | the `day_of_week` column has `n` entries and entry `i` is (6 + i) mod 7 |
| TimeAxis.WeekendIffSaturdayOrSunday | rands.py:50-51 | `is_weekend[i]` is 1 iff `day_of_week[i]` ≥ 5, and 0 iff it is < 5 |
| TimeAxis.WeekendRows | rands.py:50-51 | in the generated table, `is_weekend[i]` is 1 iff `i` mod 7 is 0 or 6 |
| TimeAxis.FirstRowIsSunday | rands.py:11-12 | row 0 has `day_of_week` 6 and `is_weekend` 1 |
| Rounding.RoundHalfEven | rands.py:59 | `round(x)` is within 1/2 of `x`, and even when `x` lies exactly halfway |
| Rounding.RoundHalfEvenUnique | rands.py:59 | no other integer has both of those properties |
| Rounding.RoundNonNegative | rands.py:59 | rounding a non-negative value gives a non-negative integer |
| Signals.Trend | rands.py:16-19 | the trend has one entry per row |
| Signals.Seasonality | rands.py:23 | the seasonality has one entry per row |
| Signals.SumFront | rands.py:29 | a sum may equally be taken from the front: first element plus the sum of the rest |
| Signals.CumSumFrom | rands.py:29 | the running-total scan has one entry per element, and entry `i` is the start plus the sum of elements 0..i |
| Signals.MarketingSpend | rands.py:29 | spend has one entry per increment, and entry `i` is 1000 plus the sum of increments 0..i |
| Signals.SpendIsRandomWalk | rands.py:29 | `spend[0]` is 1000 + `w[0]`, and `spend[i+1] − spend[i]` is `w[i+1]` |
| Signals.WebTraffic | rands.py:32 | the traffic has one entry per row |
| Signals.Visitors | rands.py:66 | one visitor count per row, each within 1/2 of the unrounded traffic and even when the traffic lies exactly halfway, which by RoundHalfEvenUnique fixes it as `np.round` |
| Signals.Temperature | rands.py:35 | the temperature has one entry per row |
| Signals.Sales | rands.py:39-43 | sales has one entry per row |
| Signals.SalesComposition | rands.py:19-43 | `sales[i]` is 600 + 0.5·i + 10·`weeklySine[i]` + 0.1·(sum of increments 0..i) + `noise[i]` |
| Signals.SalesStep | rands.py:19-43 | consecutive sales differ by 0.5 plus the change in seasonality and noise plus a tenth of the next walk increment |
| Inventory.Step | rands.py:57-58 | one step gives max(0, prev − 0.1·sale + restock) |
| Inventory.StepBounds | rands.py:57-58 | with a restock in 0..99, a step lies between max(0, prev − 0.1·sale) and max(0, prev − 0.1·sale + 99), and is ≥ 0 |
| Inventory.Fold | rands.py:55-58 | from a non-negative start, the level after any days is non-negative |
| Inventory.Scan | rands.py:55-58 | the scan has one non-negative level per day |
| Inventory.Column | rands.py:54-59 | the recorded inventory has one entry per sales value, each ≥ 0 |
| Inventory.FoldFront | rands.py:55-58 | folding the days is the same as taking the first day's step and folding the rest |
| Inventory.ScanIsFold | rands.py:55-58 | scan entry `i` is the unrounded level after days 0..i |
| Inventory.ColumnIsRoundedFold | rands.py:55-59 | recorded entry `i` is the round-half-even of the unrounded level after days 0..i, starting from 1000 |
| Inventory.LevelBounds | rands.py:56-58 | with restocks drawn from 0..99, each unrounded level is bounded by the previous level as in StepBounds |
| Inventory.ComputeInventory | rands.py:54-59 | the loop returns `Column(sales, restocks)`, with one entry per sales value, each ≥ 0 and equal to the rounded unrounded level after that day |
| Dataset.GenerateDataset | rands.py:9-73 | fails iff `n` > 2913539; otherwise all eight columns have `n` entries, and each column satisfies its rule: consecutive dates from 2023-01-01, weekday (6 + i) mod 7, weekend iff weekday ≥ 5, spend as 1000 + prefix sum, the sales formula, temperature, visitors as round-half-even of 2.5·spend + traffic noise, and the inventory loop, which is never negative |

## Left out

- The random draws are inputs. This covers `np.random.seed(42)` and the `normal` and `randint` calls (rands.py:7, 29, 32, 35, 39, 57). Bit-exact reproducibility depends on numpy's generator, and the draw order only fixes which input sequence is which.
- `np.sin` is transcendental and is an input (`weeklySine`, `yearlySine`).
- Floating point is left out, and all arithmetic is on exact reals. The returned table holds sales and marketing spend rounded to 2 decimals and temperature rounded to 1 decimal (`np.round(x, 2)`, `np.round(x, 1)`, rands.py:64-65, 67); the model keeps these columns exact.
- Rounding.RoundHalfEven: this assumes Python's `round` on a float is round-half-to-even of its exact value. Float representation error is not modelled.
- Negative `n_rows` is excluded by `n: nat`. In the code, numpy raises on a negative size.
- The time of day in `datetime` values is always midnight and is not modelled.
- pandas DataFrame construction is reduced to the `Table` datatype with equal-length columns. Column names and dtypes are not modelled.
- The script tail (rands.py:76-85) is I/O and is left out: generation with the default 250, `print(df.head())`, the correlation matrix, and `to_csv`.
- Signals.Trend, Signals.Seasonality, Signals.WebTraffic, Signals.Temperature and Signals.Sales: each states only its length in its own contract. The trend, seasonality and sales formulas are stated in Signals.SalesComposition and Dataset.GenerateDataset; the temperature and web-traffic formulas (the latter through the visitors column) in Dataset.GenerateDataset.
