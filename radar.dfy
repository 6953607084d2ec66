/**
 * One symbol through the dashboard: the `len(df) > 30` acceptance of
 * pegar_dados (app.py line 43), calcular_sniper (lines 46-61), the radar
 * table row (lines 72-102) and the chart's sniper triangles (lines 113-135).
 */
module Radar {
  import opened Series
  import opened Optional
  import opened Extrema
  import opened Rsi
  import opened Scoring
  import opened Markers

  /** pegar_dados keeps a download only when it has more than 30 rows. */
  predicate Accepted(bars: seq<Bar>) {
    |bars| > 30
  }

  /** What calcular_sniper returns: resistance levels, support levels and the RSI column. */
  datatype Indicators = Indicators(topos: seq<real>, fundos: seq<real>, rsi: seq<Option<real>>)

  function Calculate(bars: seq<Bar>): (ind: Indicators)
    ensures |ind.rsi| == |bars|
  {
    Indicators(Topos(bars), Fundos(bars), RsiSeries(Closes(bars)))
  }

  /** A row of the radar table; the price and RSI are kept as numbers rather than formatted text. */
  datatype Row = Row(symbol: string, price: real, rsi: Option<real>, signal: Signal)

  /** The row for one symbol, or None when the symbol is skipped for lack of data. */
  function RadarRow(symbol: string, bars: seq<Bar>): (row: Option<Row>)
    ensures row.Some? <==> Accepted(bars)
  {
    if !Accepted(bars) then None
    else
      var ind := Calculate(bars);
      var last := bars[|bars| - 1];
      var rsi := ind.rsi[|bars| - 1];
      Some(Row(symbol, last.close, rsi, Assess(last, rsi, ind.fundos, ind.topos)))
  }

  /**
   * For an accepted series the last RSI window is full, so the row's RSI is
   * missing exactly when the last 15 closes (14 changes) are all equal; otherwise it lies in [0, 100].
   */
  lemma RowRsi(symbol: string, bars: seq<Bar>)
    requires Accepted(bars)
    ensures RadarRow(symbol, bars).value.rsi.None? <==>
      forall j :: |bars| - 1 - Period <= j < |bars| ==> bars[j].close == bars[|bars| - 1].close
    ensures RadarRow(symbol, bars).value.rsi.Some? ==>
      0.0 <= RadarRow(symbol, bars).value.rsi.value <= 100.0
  {
    var closes, n := Closes(bars), |bars|;
    RowRsiIsLast(symbol, bars);
    RsiUndefinedIffFlat(closes, n - 1);
    FlatIffSameAsLast(closes, n - 1);
    if RsiAt(closes, n - 1).Some? {
      RsiBounded(closes, n - 1);
    }
  }

  /** The row's RSI is the RSI column's entry for the last bar. */
  lemma RowRsiIsLast(symbol: string, bars: seq<Bar>)
    requires Accepted(bars)
    ensures RadarRow(symbol, bars).value.rsi == RsiAt(Closes(bars), |bars| - 1)
  {
  }

  /** An accepted series always has at least one support and one resistance level. */
  lemma RowHasLevels(bars: seq<Bar>)
    requires Accepted(bars)
    ensures |Calculate(bars).fundos| > 0 && |Calculate(bars).topos| > 0
  {
    LevelsNonEmpty(Lows(bars), LessEqual);
    LevelsNonEmpty(Highs(bars), GreaterEqual);
  }

  /** Coordinates of the chart's triangles. */
  datatype Triangles = Triangles(buyX: seq<int>, buyY: seq<real>, sellX: seq<int>, sellY: seq<real>)

  /** The chart path: no chart for a rejected series, otherwise the triangles of the scan. */
  method ChartMarkers(bars: seq<Bar>) returns (chart: Option<Triangles>)
    ensures chart.Some? <==> Accepted(bars)
    ensures chart.Some? ==>
      && PlottedAtLows(bars, BuyBars(bars, Fundos(bars), |bars|), chart.value.buyX, chart.value.buyY)
      && PlottedAtHighs(bars, SellBars(bars, Topos(bars), |bars|), chart.value.sellX, chart.value.sellY)
  {
    if !Accepted(bars) {
      return None;
    }
    var ind := Calculate(bars);
    var buyX, buyY, sellX, sellY := SniperMarkers(bars, ind.fundos, ind.topos);
    chart := Some(Triangles(buyX, buyY, sellX, sellY));
  }

}
