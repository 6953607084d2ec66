# A.G.E.N.T. Sniper — signal pipeline in Dafny

A model of the signal logic of the A.G.E.N.T. Sniper market dashboard (a
single Streamlit script, `app.py`). For each symbol the dashboard takes about
three months of daily OHLC bars and:

- finds fractal swing points: support levels ("fundos", the Lows of local
  minima) and resistance levels ("topos", the Highs of local maxima), with
  scipy's `argrelextrema` over a window of 5 bars on each side;
- computes a 14-bar RSI with simple rolling means of gains and losses;
- scores the last bar by its 2% proximity to a support or resistance level,
  refined by the RSI, and colours the score red, yellow or green;
- scans consecutive bar pairs for bullish and bearish engulfing candles and
  keeps only those at a zone, as the buy and sell triangles of the chart.

Prices are exact `real`s, a bar is `Series.Bar(date, open, high, low, close)`,
and pandas' NaN is `Optional.None`.

Modules, one per stage of the pipeline:

| file | module | models |
|---|---|---|
| series.dfy | Series | the bar record, its columns, sums |
| extrema.dfy | Extrema | `argrelextrema(..., order=5)` with clip mode, fundos and topos |
| rsi.dfy | Rsi | the RSI column |
| proximity.dfy | Proximity | the `abs(x - z)/z <= 0.02` zone test and `any(...)` |
| scoring.dfy | Scoring | score, reason ("motivo") and colour band |
| markers.dfy | Markers | engulfing patterns, zone filter, the marker scan loop |
| radar.dfy | Radar | the acceptance test, `calcular_sniper`, one radar row, the chart path |

Three behaviours of the source that the model keeps as written:

- Edge bars can be levels. argrelextrema's default `mode='clip'` clamps an
  out-of-range neighbour to the nearest end bar (app.py:49-50), so a bar near
  either end is compared only with the bars that exist.
  `Extrema.ClampedShiftsAreWindow` states the clamped test, and
  `Extrema.ExtremeIsLevel` shows that the overall lowest Low (highest High) is
  a level wherever it lies, including the first and last bars.
- The first RSI value is at row 13 (the 14th bar). The NaN first change
  becomes 0 in both the gain and the loss column (app.py:55-57), so the first
  full 14-row window ends at row 13.
- With both rolling means 0 the RSI is NaN (0/0, app.py:58-59), modelled as
  `None`. With a zero loss mean and a positive gain mean it is 100.

## Model

| member | source | states |
|---|---|---|
| Extrema.ClampedShiftsAreWindow | app.py:49-50 | comparing bar i with its clamped neighbours at shifts 1..5 is the same as comparing it with every existing bar within 5 of it (ties pass) |
| Extrema.ExtremaIndices | app.py:49-50 | the reported positions are ascending, each passes the clamped test, and no passing position is missing |
| Extrema.LevelsAreWindowExtrema | app.py:49-52 | the levels are the values of the window extrema, one per extremum bar, in strictly increasing bar order, duplicates kept |
| Extrema.LevelMembership | app.py:49-52 | a value is a level iff some bar holding it is an extremum of its truncated window |
| Extrema.FundoMembership | app.py:49-52 | a Low is a fundo iff its bar's Low is <= every Low within 5 bars on either side |
| Extrema.TopoMembership | app.py:49-52 | a High is a topo iff its bar's High is >= every High within 5 bars on either side |
| Extrema.ExtremeIsLevel | app.py:49-52 | the value of a bar that is <= (>=) every bar of the series is a level, wherever the bar lies, edges included |
| Extrema.LevelsNonEmpty | app.py:49-52 | a non-empty series always has at least one level |
| Rsi.RollingMean | app.py:56-57 | the 14-row rolling mean of the gain or loss column is never negative |
| Rsi.ShareIdentity | app.py:58-59 | 100 - 100/(1 + g/l) equals 100 g/(g + l) for g >= 0 and l > 0 |
| Rsi.RsiIsGainShare | app.py:55-59 | the RSI is undefined exactly before row 13 or when both means are 0; otherwise it is 100 g/(g + l) |
| Rsi.RsiBounded | app.py:59 | a defined RSI lies in [0, 100] |
| Rsi.RsiExtremes | app.py:58-59 | RSI is 100 exactly when the loss mean is 0 and the gain mean positive, and 0 exactly when the gain mean is 0 and the loss mean positive |
| Rsi.MeanZero | app.py:56-57 | a 14-row rolling mean of a non-negative column is 0 exactly when every entry of its window is 0 |
| Rsi.MeansZero | app.py:56-57 | both rolling means are 0 exactly when no close in the window moved |
| Rsi.RsiUndefinedIffFlat | app.py:55-59 | the RSI of a full window is undefined exactly when the closes in it did not move |
| Rsi.FlatIffSameAsLast | app.py:55-57 | past row 13, the window has no movement exactly when its 15 closes all equal the last one |
| Rsi.RisingWindowIsHundred | app.py:55-59 | closes that rise at every step of the window (for example 14 equal gains) give RSI 100 |
| Rsi.FallingWindowIsZero | app.py:55-59 | closes that fall at every step of the window give RSI 0 |
| Proximity.NearAnyIffSomeLevel | app.py:80 | the `any(...)` scan succeeds iff some level is within 2% of the price |
| Proximity.NearPositiveLevel | app.py:80 | for a level z > 0 the test is abs(x - z) <= 0.02 z |
| Proximity.NegativeLevelAlwaysNear | app.py:80 | a negative level passes the test for any price, as the division is written |
| Proximity.WorkedExamples | app.py:80 | Low 100 is near a level at 98.1 and not near one at 95 |
| Scoring.Assess | app.py:78-94 | the score is one of 20, 40, 50, 60, 80 and its colour is the band of the score |
| Scoring.SupportTakesPrecedence | app.py:85-92 | near support the score is 60 or 80, and the resistance levels do not affect the outcome |
| Scoring.NeutralIffNoZone | app.py:78-92 | score 50 iff the last bar is near neither zone, and the reason is "Neutro" iff the score is 50 |
| Scoring.ScoreTable | app.py:85-92 | every row of the decision table as an iff: 80 and 60 exactly on the support side split by RSI < 30, 20 and 40 exactly on the resistance side split by RSI > 70, each with its reason text |
| Scoring.UndefinedRsiScores | app.py:83-92 | a NaN RSI fails both RSI tests: 60 "Suporte" near support, else 40 "Resistência" near resistance |
| Scoring.ColourOfScore | app.py:94 | red only for 20, green only for 80, yellow for 40, 50 and 60 |
| Markers.BuyBarsExact | app.py:124-133 | the buy bars are ascending, all in 1..n-1, each bullish engulfing with its Low near a fundo, and none is missing |
| Markers.SellBarsExact | app.py:124-135 | the sell bars are ascending, all in 1..n-1, each bearish engulfing with its High near a topo, and none is missing |
| Markers.SniperMarkers | app.py:121-135 | the scan's buy lists are the dates and Lows of exactly the buy bars, and its sell lists the dates and Highs of exactly the sell bars, in bar order |
| Markers.MarkersExclusive | app.py:128-135 | no bar gets both a buy and a sell triangle |
| Markers.ZoneFilter | app.py:132-135 | an engulfing pair whose bar is not near a zone gets no triangle |
| Radar.RadarRow | app.py:72-102 | a symbol gets a radar row iff its series has more than 30 bars |
| Radar.RowRsi | app.py:83 | for an accepted series the row's RSI is missing iff the last 15 closes are equal, and otherwise lies in [0, 100] |
| Radar.RowRsiIsLast | app.py:83 | the row's RSI is the RSI column's entry for the last bar (`rsi.iloc[-1]`) |
| Radar.RowHasLevels | app.py:74 | an accepted series always has at least one support and one resistance level |
| Radar.ChartMarkers | app.py:113-135 | no chart for a rejected series; otherwise the triangles are those of the scan over the series' own fundos and topos |

## Left out

- The Streamlit page: configuration, CSS, title, sidebar widgets, table and selectbox rendering (app.py:10-35, 64-69, 104-110). Presentation only.
- The download in `pegar_dados`: the yfinance call, the 60-second cache and its manual clearing, the MultiIndex column flattening and the catch-all `except` (app.py:38-44). These are network I/O and library caching. The only logic kept is the `len(df) > 30` test, as `Radar.Accepted`. A failed download is modelled by the caller passing a series that is not accepted.
- The loop over the selected symbols that builds the table (app.py:71-73, 96-102). The model gives one row per symbol with `Radar.RadarRow`.
- Number formatting of price and RSI and the emoji characters (app.py:94-100). The colour is the `Scoring.Colour` value and the price and RSI stay numbers.
- The plotly figure (app.py:137-146) and the auto-refresh sleep and rerun (app.py:149-151). These are a foreign rendering call and a blocking polling loop.
- Floating point: prices are exact reals. So 0.02 and the comparison at exactly 2% are exact, with no IEEE-754 rounding. Infinity and NaN are modelled only where the source produces them itself, each written out explicitly: the NaN first change of `diff()` (row 0 in `Rsi.Gain` and `Rsi.Loss`), the NaN of the incomplete rolling window (rows 0..12 in `Rsi.RsiAt`), the division by a zero level in `Proximity.Near`, and the division by a zero loss mean in `Rsi.RsiAt`. A NaN in the downloaded data is not modelled.
- The Date/Datetime column choice and `reset_index` (app.py:115-116). A bar's timestamp is its `date` field.
- scipy's early exit in argrelextrema's shift loop. It does not change the result, so only the result is modelled.
