/**
 * The price series the dashboard works on: one daily bar per row of the
 * downloaded table, in date order, and the column views taken from it.
 */
module Series {

  /** One row of the OHLC table; `date` is the row's timestamp (the Date column). */
  datatype Bar = Bar(date: int, open: real, high: real, low: real, close: real)

  /** The Low column. */
  function Lows(bars: seq<Bar>): (lows: seq<real>)
    ensures |lows| == |bars|
    ensures forall i :: 0 <= i < |bars| ==> lows[i] == bars[i].low
  {
    seq(|bars|, i requires 0 <= i < |bars| => bars[i].low)
  }

  /** The High column. */
  function Highs(bars: seq<Bar>): (highs: seq<real>)
    ensures |highs| == |bars|
    ensures forall i :: 0 <= i < |bars| ==> highs[i] == bars[i].high
  {
    seq(|bars|, i requires 0 <= i < |bars| => bars[i].high)
  }

  /** The Close column. */
  function Closes(bars: seq<Bar>): (closes: seq<real>)
    ensures |closes| == |bars|
    ensures forall i :: 0 <= i < |bars| ==> closes[i] == bars[i].close
  {
    seq(|bars|, i requires 0 <= i < |bars| => bars[i].close)
  }

  function Abs(x: real): real {
    if x < 0.0 then -x else x
  }

  /** Sum of a column slice, the numerator of a rolling mean. */
  function Sum(s: seq<real>): real {
    if s == [] then 0.0 else s[0] + Sum(s[1..])
  }

  /** A sum of non-negative terms is non-negative, and zero exactly when every term is. */
  lemma {:induction false} SumOfNonNegatives(s: seq<real>)
    requires forall k :: 0 <= k < |s| ==> s[k] >= 0.0
    ensures Sum(s) >= 0.0
    ensures Sum(s) == 0.0 <==> forall k :: 0 <= k < |s| ==> s[k] == 0.0
  {
    if s != [] {
      SumOfNonNegatives(s[1..]);
      assert forall k :: 1 <= k < |s| ==> s[k] == s[1..][k - 1];
    }
  }

}
