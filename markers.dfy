/**
 * The sniper triangles of the chart (app.py lines 118-135): every consecutive
 * pair of bars is tested for a bullish or bearish engulfing candle, and a
 * pattern becomes a marker only when the current bar's Low (High) lies within
 * 2% of a support (resistance) level.
 */
module Markers {
  import opened Series
  import opened Proximity
  import opened Extrema

  /** Line 128: a green candle whose body covers the previous red one. */
  predicate BullishEngulfing(prev: Bar, curr: Bar) {
    curr.close > curr.open && prev.close < prev.open && curr.open < prev.close && curr.close > prev.open
  }

  /** Line 129: a red candle whose body covers the previous green one. */
  predicate BearishEngulfing(prev: Bar, curr: Bar) {
    curr.close < curr.open && prev.close > prev.open && curr.open > prev.close && curr.close < prev.open
  }

  /** Line 132: bar i gets a buy triangle. */
  predicate IsBuy(bars: seq<Bar>, fundos: seq<real>, i: nat)
    requires 1 <= i < |bars|
  {
    BullishEngulfing(bars[i - 1], bars[i]) && NearAny(bars[i].low, fundos)
  }

  /** Line 134: bar i gets a sell triangle. */
  predicate IsSell(bars: seq<Bar>, topos: seq<real>, i: nat)
    requires 1 <= i < |bars|
  {
    BearishEngulfing(bars[i - 1], bars[i]) && NearAny(bars[i].high, topos)
  }

  /** The bars among 1..k-1 that get a buy triangle, ascending, none missing. */
  function BuyBars(bars: seq<Bar>, fundos: seq<real>, k: nat): seq<nat>
    requires k <= |bars|
  {
    if k <= 1 then []
    else
      var before := BuyBars(bars, fundos, k - 1);
      if IsBuy(bars, fundos, k - 1) then before + [k - 1] else before
  }

  /** The buy bars among 1..k-1 are exactly those that get a buy triangle, in ascending order. */
  lemma {:induction false} BuyBarsExact(bars: seq<Bar>, fundos: seq<real>, k: nat)
    requires k <= |bars|
    ensures forall m :: 0 <= m < |BuyBars(bars, fundos, k)| ==> 1 <= BuyBars(bars, fundos, k)[m] < k && IsBuy(bars, fundos, BuyBars(bars, fundos, k)[m])
    ensures forall i :: 1 <= i < k && IsBuy(bars, fundos, i) ==> i in BuyBars(bars, fundos, k)
    ensures forall m, m' :: 0 <= m < m' < |BuyBars(bars, fundos, k)| ==> BuyBars(bars, fundos, k)[m] < BuyBars(bars, fundos, k)[m']
  {
    if k > 1 {
      BuyBarsExact(bars, fundos, k - 1);
    }
  }

  /** The bars among 1..k-1 that get a sell triangle, ascending, none missing. */
  function SellBars(bars: seq<Bar>, topos: seq<real>, k: nat): seq<nat>
    requires k <= |bars|
  {
    if k <= 1 then []
    else
      var before := SellBars(bars, topos, k - 1);
      if IsSell(bars, topos, k - 1) then before + [k - 1] else before
  }

  /** The sell bars among 1..k-1 are exactly those that get a sell triangle, in ascending order. */
  lemma {:induction false} SellBarsExact(bars: seq<Bar>, topos: seq<real>, k: nat)
    requires k <= |bars|
    ensures forall m :: 0 <= m < |SellBars(bars, topos, k)| ==> 1 <= SellBars(bars, topos, k)[m] < k && IsSell(bars, topos, SellBars(bars, topos, k)[m])
    ensures forall i :: 1 <= i < k && IsSell(bars, topos, i) ==> i in SellBars(bars, topos, k)
    ensures forall m, m' :: 0 <= m < m' < |SellBars(bars, topos, k)| ==> SellBars(bars, topos, k)[m] < SellBars(bars, topos, k)[m']
  {
    if k > 1 {
      SellBarsExact(bars, topos, k - 1);
    }
  }

  /** xs and ys are the dates and Lows of the bars idx, pair by pair (the buy triangles' coordinates). */
  predicate PlottedAtLows(bars: seq<Bar>, idx: seq<nat>, xs: seq<int>, ys: seq<real>) {
    |xs| == |idx| && |ys| == |idx| &&
    forall m :: 0 <= m < |idx| ==> idx[m] < |bars| && xs[m] == bars[idx[m]].date && ys[m] == bars[idx[m]].low
  }

  /** xs and ys are the dates and Highs of the bars idx, pair by pair (the sell triangles' coordinates). */
  predicate PlottedAtHighs(bars: seq<Bar>, idx: seq<nat>, xs: seq<int>, ys: seq<real>) {
    |xs| == |idx| && |ys| == |idx| &&
    forall m :: 0 <= m < |idx| ==> idx[m] < |bars| && xs[m] == bars[idx[m]].date && ys[m] == bars[idx[m]].high
  }

  /** One step of the scan keeps the buy lists equal to the buy bars seen so far. */
  lemma BuyStep(bars: seq<Bar>, fundos: seq<real>, i: nat, xs: seq<int>, ys: seq<real>)
    requires 1 <= i < |bars|
    requires PlottedAtLows(bars, BuyBars(bars, fundos, i), xs, ys)
    ensures IsBuy(bars, fundos, i) ==>
      PlottedAtLows(bars, BuyBars(bars, fundos, i + 1), xs + [bars[i].date], ys + [bars[i].low])
    ensures !IsBuy(bars, fundos, i) ==> PlottedAtLows(bars, BuyBars(bars, fundos, i + 1), xs, ys)
  {
  }

  /** One step of the scan keeps the sell lists equal to the sell bars seen so far. */
  lemma SellStep(bars: seq<Bar>, topos: seq<real>, i: nat, xs: seq<int>, ys: seq<real>)
    requires 1 <= i < |bars|
    requires PlottedAtHighs(bars, SellBars(bars, topos, i), xs, ys)
    ensures IsSell(bars, topos, i) ==>
      PlottedAtHighs(bars, SellBars(bars, topos, i + 1), xs + [bars[i].date], ys + [bars[i].high])
    ensures !IsSell(bars, topos, i) ==> PlottedAtHighs(bars, SellBars(bars, topos, i + 1), xs, ys)
  {
  }

  /**
   * The scan of lines 121-135: the x lists hold the dates and the y lists the
   * Low (buy) or High (sell) of the marked bars, in bar order.
   */
  method SniperMarkers(bars: seq<Bar>, fundos: seq<real>, topos: seq<real>)
    returns (buyX: seq<int>, buyY: seq<real>, sellX: seq<int>, sellY: seq<real>)
    ensures PlottedAtLows(bars, BuyBars(bars, fundos, |bars|), buyX, buyY)
    ensures PlottedAtHighs(bars, SellBars(bars, topos, |bars|), sellX, sellY)
  {
    buyX, buyY, sellX, sellY := [], [], [], [];
    if |bars| == 0 {
      return;
    }
    var i := 1;
    while i < |bars|
      invariant 1 <= i <= |bars|
      invariant PlottedAtLows(bars, BuyBars(bars, fundos, i), buyX, buyY)
      invariant PlottedAtHighs(bars, SellBars(bars, topos, i), sellX, sellY)
    {
      var curr, prev := bars[i], bars[i - 1];
      var bullish, bearish := BullishEngulfing(prev, curr), BearishEngulfing(prev, curr);
      BuyStep(bars, fundos, i, buyX, buyY);
      SellStep(bars, topos, i, sellX, sellY);
      if bullish && NearAny(curr.low, fundos) {
        buyX, buyY := buyX + [curr.date], buyY + [curr.low];
      }
      if bearish && NearAny(curr.high, topos) {
        sellX, sellY := sellX + [curr.date], sellY + [curr.high];
      }
      i := i + 1;
    }
  }

  /** No bar gets both triangles: a bullish candle closes above its open, a bearish one below. */
  lemma {:induction false} MarkersExclusive(bars: seq<Bar>, fundos: seq<real>, topos: seq<real>, k: nat)
    requires k <= |bars|
    ensures forall i :: i in BuyBars(bars, fundos, k) ==> i !in SellBars(bars, topos, k)
  {
    forall i | i in BuyBars(bars, fundos, k)
      ensures i !in SellBars(bars, topos, k)
    {
      BuyBarsExact(bars, fundos, k);
      SellBarsExact(bars, topos, k);
      var buys, sells := BuyBars(bars, fundos, k), SellBars(bars, topos, k);
      var m :| 0 <= m < |buys| && buys[m] == i;
      assert IsBuy(bars, fundos, i) && !IsSell(bars, topos, i);
    }
  }

  /** The zone filter: an engulfing pattern away from every level is not marked. */
  lemma ZoneFilter(bars: seq<Bar>, fundos: seq<real>, topos: seq<real>, i: nat)
    requires 1 <= i < |bars|
    ensures !NearAny(bars[i].low, fundos) ==> i !in BuyBars(bars, fundos, |bars|)
    ensures !NearAny(bars[i].high, topos) ==> i !in SellBars(bars, topos, |bars|)
  {
    BuyBarsExact(bars, fundos, |bars|);
    SellBarsExact(bars, topos, |bars|);
    var buys, sells := BuyBars(bars, fundos, |bars|), SellBars(bars, topos, |bars|);
    if i in buys {
      var m :| 0 <= m < |buys| && buys[m] == i;
    }
    if i in sells {
      var m :| 0 <= m < |sells| && sells[m] == i;
    }
  }

}
