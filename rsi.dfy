/**
 * The 14-bar RSI of calcular_sniper (app.py lines 55-59): close-to-close
 * changes are split into gains and losses, each averaged with a simple
 * rolling mean over 14 rows, and RSI = 100 - 100 / (1 + gain / loss).
 * pandas' NaN results are None here.
 */
module Rsi {
  import opened Series
  import opened Optional

  /** Rolling window length, `window=14` in the source. */
  const Period: nat := 14

  /**
   * The positive part of close[k] - close[k-1]. Row 0 has no previous close;
   * its NaN change fails `delta > 0` and is replaced by 0.
   */
  function Gain(closes: seq<real>, k: nat): real
    requires k < |closes|
  {
    if k == 0 then 0.0
    else
      var delta := closes[k] - closes[k - 1];
      if delta > 0.0 then delta else 0.0
  }

  /** The negated negative part of the change; 0 for row 0 likewise. */
  function Loss(closes: seq<real>, k: nat): real
    requires k < |closes|
  {
    if k == 0 then 0.0
    else
      var delta := closes[k] - closes[k - 1];
      if delta < 0.0 then -delta else 0.0
  }

  function Gains(closes: seq<real>): (g: seq<real>)
    ensures |g| == |closes|
    ensures forall k :: 0 <= k < |g| ==> g[k] == Gain(closes, k) && g[k] >= 0.0
  {
    seq(|closes|, k requires 0 <= k < |closes| => Gain(closes, k))
  }

  function Losses(closes: seq<real>): (l: seq<real>)
    ensures |l| == |closes|
    ensures forall k :: 0 <= k < |l| ==> l[k] == Loss(closes, k) && l[k] >= 0.0
  {
    seq(|closes|, k requires 0 <= k < |closes| => Loss(closes, k))
  }

  /** Simple mean of the Period rows ending at row k (pandas rolling(14).mean()). */
  function RollingMean(column: seq<real>, k: nat): (mean: real)
    requires Period - 1 <= k < |column|
    requires forall j :: 0 <= j < |column| ==> column[j] >= 0.0
    ensures mean >= 0.0
  {
    var window := column[k + 1 - Period..k + 1];
    SumOfNonNegatives(window);
    Sum(window) / Period as real
  }

  function GainMean(closes: seq<real>, k: nat): real
    requires Period - 1 <= k < |closes|
  {
    RollingMean(Gains(closes), k)
  }

  function LossMean(closes: seq<real>, k: nat): real
    requires Period - 1 <= k < |closes|
  {
    RollingMean(Losses(closes), k)
  }

  /**
   * RSI at row k. Before row 13 the rolling window is not full (NaN).
   * With a zero loss mean, gain / loss is +inf and the RSI 100 when the gain
   * mean is positive, and NaN when both means are zero.
   */
  function RsiAt(closes: seq<real>, k: nat): Option<real>
    requires k < |closes|
  {
    if k < Period - 1 then None
    else
      var g, l := GainMean(closes, k), LossMean(closes, k);
      if l == 0.0 then (if g == 0.0 then None else Some(100.0))
      else Some(100.0 - 100.0 / (1.0 + g / l))
  }

  /** The RSI column, one entry per row. */
  function RsiSeries(closes: seq<real>): (rsi: seq<Option<real>>)
    ensures |rsi| == |closes|
    ensures forall k :: 0 <= k < |closes| ==> rsi[k] == RsiAt(closes, k)
  {
    seq(|closes|, k requires 0 <= k < |closes| => RsiAt(closes, k))
  }

  /** 100 - 100 / (1 + g/l) rewritten as one fraction. */
  lemma ShareIdentity(g: real, l: real)
    requires g >= 0.0 && l > 0.0
    ensures 100.0 - 100.0 / (1.0 + g / l) == 100.0 * g / (g + l)
  {
    var d := g + l;
    var q := 1.0 + g / l;
    assert q * l == d;
    var a := 100.0 / q;
    assert a * q == 100.0;
    assert a * d == 100.0 * l by {
      calc {
        a * d;
        a * (q * l);
        (a * q) * l;
      }
    }
    assert a == 100.0 * l / d;
    var share := 100.0 - a;
    assert share * d == 100.0 * g;
    assert share == share * d / d;
  }

  /**
   * Independent definition: where defined, the RSI is the gain mean's share
   * of the total movement, 100 g / (g + l); it is undefined exactly before
   * row 13 and where both means are zero.
   */
  lemma RsiIsGainShare(closes: seq<real>, k: nat)
    requires k < |closes|
    ensures RsiAt(closes, k).None? <==> k < Period - 1 || (GainMean(closes, k) == 0.0 && LossMean(closes, k) == 0.0)
    ensures k >= Period - 1 && GainMean(closes, k) + LossMean(closes, k) > 0.0 ==>
      RsiAt(closes, k) == Some(100.0 * GainMean(closes, k) / (GainMean(closes, k) + LossMean(closes, k)))
  {
    if k >= Period - 1 {
      var g, l := GainMean(closes, k), LossMean(closes, k);
      if l > 0.0 {
        ShareIdentity(g, l);
      } else if g > 0.0 {
        assert 100.0 * g / (g + l) == 100.0;
      }
    }
  }

  /** When defined, the RSI lies in [0, 100]. */
  lemma RsiBounded(closes: seq<real>, k: nat)
    requires k < |closes|
    requires RsiAt(closes, k).Some?
    ensures 0.0 <= RsiAt(closes, k).value <= 100.0
  {
    RsiIsGainShare(closes, k);
    var g, l := GainMean(closes, k), LossMean(closes, k);
    assert 100.0 * g / (g + l) <= 100.0 by {
      assert g <= g + l;
    }
  }

  /** The extreme readings: 100 exactly with no losses and some gain, 0 exactly with no gains and some loss. */
  lemma RsiExtremes(closes: seq<real>, k: nat)
    requires Period - 1 <= k < |closes|
    ensures RsiAt(closes, k) == Some(100.0) <==> LossMean(closes, k) == 0.0 && GainMean(closes, k) > 0.0
    ensures RsiAt(closes, k) == Some(0.0) <==> GainMean(closes, k) == 0.0 && LossMean(closes, k) > 0.0
  {
    RsiIsGainShare(closes, k);
    var g, l := GainMean(closes, k), LossMean(closes, k);
    if g + l > 0.0 {
      if l > 0.0 {
        assert 100.0 * g / (g + l) < 100.0 by {
          assert g < g + l;
        }
      }
      if g > 0.0 {
        assert 100.0 * g / (g + l) > 0.0;
      }
    }
  }

  /** Every change in the window of row k is zero or the row-0 placeholder. */
  predicate FlatWindow(closes: seq<real>, k: nat)
    requires Period - 1 <= k < |closes|
  {
    forall j :: k + 1 - Period <= j <= k && j > 0 ==> closes[j] == closes[j - 1]
  }

  /** A change contributes neither gain nor loss exactly when the close did not move (or it is row 0). */
  lemma StillStep(closes: seq<real>, j: nat)
    requires j < |closes|
    ensures Gain(closes, j) == 0.0 && Loss(closes, j) == 0.0 <==> j == 0 || closes[j] == closes[j - 1]
  {
  }

  /** A rolling mean is zero exactly when every entry of its window is. */
  lemma {:induction false} MeanZero(column: seq<real>, k: nat)
    requires Period - 1 <= k < |column|
    requires forall j :: 0 <= j < |column| ==> column[j] >= 0.0
    ensures RollingMean(column, k) == 0.0 <==> forall j :: k + 1 - Period <= j <= k ==> column[j] == 0.0
  {
    var lo := k + 1 - Period;
    var window := column[lo..k + 1];
    SumOfNonNegatives(window);
    assert RollingMean(column, k) == Sum(window) / Period as real;
    if forall t :: 0 <= t < |window| ==> window[t] == 0.0 {
      forall j | lo <= j <= k
        ensures column[j] == 0.0
      {
        assert column[j] == window[j - lo];
      }
    }
  }

  /** Both means are zero exactly when the window is flat. */
  lemma MeansZero(closes: seq<real>, k: nat)
    requires Period - 1 <= k < |closes|
    ensures GainMean(closes, k) == 0.0 && LossMean(closes, k) == 0.0 <==> FlatWindow(closes, k)
  {
    var gains, losses := Gains(closes), Losses(closes);
    MeanZero(gains, k);
    MeanZero(losses, k);
    forall j | k + 1 - Period <= j <= k
      ensures gains[j] == 0.0 && losses[j] == 0.0 <==> j == 0 || closes[j] == closes[j - 1]
    {
      StillStep(closes, j);
    }
  }

  /** The RSI of a full window is undefined exactly when the closes in it did not move. */
  lemma RsiUndefinedIffFlat(closes: seq<real>, k: nat)
    requires Period - 1 <= k < |closes|
    ensures RsiAt(closes, k).None? <==> FlatWindow(closes, k)
  {
    MeansZero(closes, k);
  }

  /** In a flat window every close equals the last one. */
  lemma {:induction false} FlatDescends(closes: seq<real>, k: nat, j: nat)
    requires Period - 1 <= k < |closes|
    requires FlatWindow(closes, k)
    requires k - Period <= j <= k
    ensures closes[j] == closes[k]
    decreases k - j
  {
    if j < k {
      FlatDescends(closes, k, j + 1);
    }
  }

  /** Past row 13 the window is flat exactly when its 15 closes all equal the last one. */
  lemma FlatIffSameAsLast(closes: seq<real>, k: nat)
    requires Period <= k < |closes|
    ensures FlatWindow(closes, k) <==> forall j :: k - Period <= j <= k ==> closes[j] == closes[k]
  {
    if FlatWindow(closes, k) {
      forall j | k - Period <= j <= k
        ensures closes[j] == closes[k]
      {
        FlatDescends(closes, k, j);
      }
    }
  }

  /** Closes rising at every step of the window (e.g. 14 equal gains) give RSI 100. */
  lemma RisingWindowIsHundred(closes: seq<real>, k: nat)
    requires Period - 1 <= k < |closes|
    requires forall j :: k + 1 - Period <= j <= k && j > 0 ==> closes[j] > closes[j - 1]
    ensures RsiAt(closes, k) == Some(100.0)
  {
    var gains, losses := Gains(closes), Losses(closes);
    MeanZero(gains, k);
    MeanZero(losses, k);
    forall j | k + 1 - Period <= j <= k
      ensures losses[j] == 0.0
    {
      assert losses[j] == Loss(closes, j);
    }
    assert gains[k] == Gain(closes, k) > 0.0;
    RsiExtremes(closes, k);
  }

  /** Closes falling at every step of the window give RSI 0. */
  lemma FallingWindowIsZero(closes: seq<real>, k: nat)
    requires Period - 1 <= k < |closes|
    requires forall j :: k + 1 - Period <= j <= k && j > 0 ==> closes[j] < closes[j - 1]
    ensures RsiAt(closes, k) == Some(0.0)
  {
    var gains, losses := Gains(closes), Losses(closes);
    MeanZero(gains, k);
    MeanZero(losses, k);
    forall j | k + 1 - Period <= j <= k
      ensures gains[j] == 0.0
    {
      assert gains[j] == Gain(closes, j);
    }
    assert losses[k] == Loss(closes, k) > 0.0;
    RsiExtremes(closes, k);
  }

}
