# Stock dashboard signal scan, in Dafny

This project models the logic core of a small stock dashboard (`app.py`). The
dashboard downloads a price series, adds 20/50/200-bar simple moving averages
and replays a moving-average trading rule over the series. The rule is to buy
when the close is below all three averages and the averages are stacked
bearishly. It then sells when the close is above all three and the averages
are stacked bullishly. Each signal is reported with its round-trip number and
each sell with its return on investment. The dashboard also shows summary
metrics of the series.

Modules:

- `Series` (series.dfy): one bar of the indicator-augmented table. `None` in an
  average column stands for the NaN that the column holds before its window fills.
- `Signals` (signals.dfy): the buy and sell rules. Any comparison with an
  undefined average is false.
- `Returns` (returns.dfy): ROI of a round trip.
- `Search` (search.dfy): the first bar at or after an index that satisfies a rule.
- `Strategy` (strategy.dfy): the scan (`ema_strategy`), written two ways:
  - `Scan`/`EmaStrategy`, a pure recursive function;
  - `RunStrategy`, a loop method shaped like `ema_strategy`'s `while`/`for … break`
    loops, proved equal to the function.

  The scan returns the reported events and a terminal status instead of
  writing messages.
- `StrategySpec` (strategy_spec.dfy): a declarative description (`Explains`) of
  the outcome a scan must report. It is proved that the scan's outcome satisfies
  it and that no other outcome does.
- `StrategyProperties` (strategy_properties.dfy): consequences of that
  description, and small scenarios: an empty series, a series with no 200-bar
  average, a buy on the last bar, one round trip.
- `Metrics` (metrics.dfy): `calculate_metrics`.
- `Intervals` (intervals.dfy): the period → bar-size table.

Two behaviours of the code deserve a note:

- The scan has a third exit, `EndOfSeries`: the `while` guard at app.py:232
  ends it without a message when the series is empty or a sell lands on the
  last bar. `StrategyProperties.EndOfSeriesMeans` states exactly when this
  happens.
- A zero buying price or first close makes numpy's division give an infinity
  or NaN (app.py:222, app.py:46). The model returns `None`.

## Model

| member | source | states |
|---|---|---|
| Signals.IsBuy | app.py:201-208 | the five strict comparisons hold exactly when all three averages are defined and close < SMA 20 < SMA 50 < SMA 200 |
| Signals.IsSell | app.py:211-218 | the five strict comparisons hold exactly when all three averages are defined and close > SMA 20 > SMA 50 > SMA 200 |
| Signals.BuySellExclusive | app.py:201-218 | no bar satisfies both the buy and the sell rule |
| Signals.UndefinedAverageMatchesNeither | app.py:203-217 | a bar with any undefined (NaN) simple average satisfies neither rule |
| Signals.TieMatchesNeither | app.py:203-217 | a close equal to any average triggers neither rule, because every comparison is strict |
| Returns.Roi | app.py:221-222 | the return is defined exactly when the buying price is nonzero, and then return × buy = (sell − buy) × 100 |
| Returns.RoiRoundTrip | app.py:221-222 | the return recovers the selling price: buy + buy × roi / 100 = sell |
| Returns.RoiSign | app.py:221-222 | for a positive buying price the return is positive, negative or zero exactly as the price rose, fell or stayed |
| Returns.RoiExamples | app.py:221-222 | buy 100 and sell 120 gives 20; buy 100 and sell 80 gives −20 |
| Search.FirstMatch | app.py:234-241 | the result is the least index at or after the start whose bar satisfies the rule; when there is none, no bar from the start on satisfies it |
| Search.FirstMatchUnique | app.py:248-257 | an index is the first match from the start exactly when the search returns it |
| Search.FindFirst | app.py:234-241 | the early-exit search loop returns the same index as the first-match function |
| Strategy.ScanBound | app.py:232-261 | a scan from index i reports at most one event per remaining bar (each search moves past the bar it reports), and a scan with no bars left fails the `while` guard and reports nothing |
| Strategy.EmaStrategy | app.py:226-261 | the scan from bar 0 numbering round trips from 1: at most one event per bar, and an empty series reports nothing and ends silently; StrategySpec.EmaStrategyCharacterised characterises it fully |
| Strategy.RunStrategy | app.py:226-261 | the loop form of the scan, restarting after each sell and stopping at a failed search, reports the same events and status as the recursive scan |
| StrategySpec.ExplainsStep | app.py:254-255 | an outcome that opens with the first round trip is correct from index i with numbering c exactly when its remainder is correct from just after the sell with numbering c + 1 |
| StrategySpec.ScanExplains | app.py:232-261 | the scan's events alternate buy/sell, carry round-trip numbers c, c, c+1, c+1, …, and sit at the first matching bar after the previous event with that bar's close as price; each sell carries the ROI on its buy; the status names the search that failed or the end of the series |
| StrategySpec.ExplainsOnlyScan | app.py:232-261 | any outcome meeting that description is the scan's outcome |
| StrategySpec.EmaStrategyCharacterised | app.py:226-261 | an outcome meets the description from index 0 with numbering 1 exactly when it is the strategy's outcome |
| StrategyProperties.IndicesIncrease | app.py:234-255 | the reported bars strictly increase (buy₁ < sell₁ < buy₂ < …), all at or after the start and inside the series |
| StrategyProperties.EventTimesIncrease | app.py:232-257 | on a chronological series the reported signals are in strictly increasing time order |
| StrategyProperties.BuySellBalance | app.py:229-261 | sells number the same as buys or one fewer, and one fewer exactly when the status is AwaitingSell |
| StrategyProperties.RoundTrips | app.py:229-257 | round trip t is a buy then a later sell, both numbered c + t, at bars satisfying the buy and sell rules, with the ROI of their closes |
| StrategyProperties.EndOfSeriesMeans | app.py:231-255 | the scan ends without a message exactly when the series is empty or the last sell is on the last bar |
| StrategyProperties.EmptySeries | app.py:231-232 | an empty series reports no events and ends without a message |
| StrategyProperties.ShortSeriesNoBuy | app.py:243-245 | a non-empty series whose 200-bar average is undefined throughout reports no events and NoBuySignal |
| StrategyProperties.BuyOnLastBar | app.py:248-261 | a buy that first appears on the last bar is reported alone with AwaitingSell |
| StrategyProperties.ExampleRoundTrip | app.py:226-261 | on a three-bar series with a buy at 100 and a sell at 120 on the last bar, the outcome is that one round trip with ROI 20, ending at the end of the series; the example series is in time order |
| Metrics.MaxHigh | app.py:47 | the result is at least every High and equal to one of them |
| Metrics.MinLow | app.py:48 | the result is at most every Low and equal to one of them |
| Metrics.TotalVolume | app.py:49 | the sum of the volume column: zero exactly when every bar's volume is zero; additive over splits (TotalVolumeSplit) |
| Metrics.TotalVolumeSplit | app.py:49 | total volume is additive over any split of the series |
| Metrics.TotalVolumeBound | app.py:49 | total volume is at least any single bar's volume |
| Metrics.CalculateMetrics | app.py:42-50 | no summary exactly when the series is empty (`iloc[-1]` raises); otherwise: last close; change = last − first close; percent change defined exactly when the first close is nonzero, with pct × first = change × 100; the highest High; the lowest Low; the total Volume |
| Metrics.RisingSeriesGains | app.py:45-46 | when the last close exceeds a positive first close, change and percent change are both positive |
| Intervals.IntervalFor | app.py:84-94 | one-minute bars exactly for a day, half-hour bars exactly for a week, daily bars exactly for a month or longer |
| Intervals.CoarserForLonger | app.py:84-94 | a longer period is never sampled at a finer bar size |

## Left out

- `fetch_stock_data` (app.py:18-26) and the watchlist tiles (app.py:178-188) are network I/O through the data provider. This includes the seven-day date range requested for the one-week period.
- `process_data` (app.py:31-37) is timezone localisation and table reshaping by the dataframe library. Bars carry an integer `time` ordinal instead of a timezone-aware timestamp.
- `add_technical_indicators` (app.py:55-60) calls an external indicator library. The SMA/EMA columns are inputs to the model, so the property that a W-bar average is undefined for exactly the first W − 1 bars is not modelled.
- The page layout, charts, tables, metric tiles and message texts (app.py:68-173, app.py:194-197, app.py:264-270) are not modelled. The scan's `st.info`/`st.error`/`st.warning` messages become the returned events and status. An event carries its bar index; its date is that bar's `time`.
- The placeholder globals (app.py:99-106) are UI state and are not modelled. The scan takes the series as a parameter instead of reading the global `data`.
- Floating point is not modelled: prices, averages and returns are exact reals. NaN averages are `None`. A division by a zero price, which numpy turns into an infinity or NaN, is also `None`.
- Metrics.CalculateMetrics: the OHLCV columns are taken to hold no NaN, so the dataframe library's skipping of NaN in `max`, `min` and `sum` is not modelled. The IndexError that `iloc[-1]` (app.py:43) raises on an empty series is modelled as a `None` result; the exception itself and the page failing with it are not.
- The scan is deterministic because it is a pure function, so no separate lemma states this.
