/**
 * Fractal swing points (app.py, calcular_sniper, lines 46-52).
 *
 * scipy's argrelextrema(data, comparator, order=5) with its default
 * mode='clip' keeps position i when comparator(data[i], data[i + s]) and
 * comparator(data[i], data[i - s]) hold for every shift s in 1..5, where a
 * neighbour index that falls outside the series is clamped to the nearest end.
 * The support levels ("fundos") are the Lows at the positions found with <=,
 * the resistance levels ("topos") the Highs at the positions found with >=,
 * both in bar order and with repeated values kept.
 */
module Extrema {
  import opened Series

  /** Half-width of the window, `n = 5` in the source. */
  const Order: nat := 5

  /** The two numpy comparators the source passes to argrelextrema. */
  datatype Comparator = LessEqual | GreaterEqual {
    predicate Holds(a: real, b: real) {
      match this
      case LessEqual => a <= b
      case GreaterEqual => a >= b
    }
  }

  /** Index j clamped into 0..n-1, as numpy's take with mode='clip' does. */
  function Clip(j: int, n: nat): (r: nat)
    requires n > 0
    ensures r < n
  {
    if j < 0 then 0 else if j >= n then n - 1 else j
  }

  /** The neighbour s places after i, clamped. */
  function Ahead(data: seq<real>, i: nat, s: nat): real
    requires |data| > 0
  {
    data[Clip(i + s, |data|)]
  }

  /** The neighbour s places before i, clamped. */
  function Behind(data: seq<real>, i: nat, s: nat): real
    requires |data| > 0
  {
    data[Clip(i - s, |data|)]
  }

  /** scipy's test for one position: every clamped shift 1..Order passes the comparator. */
  predicate IsRelExtremum(data: seq<real>, i: nat, cmp: Comparator)
    requires i < |data|
  {
    forall s :: 1 <= s <= Order ==>
      cmp.Holds(data[i], Ahead(data, i, s)) && cmp.Holds(data[i], Behind(data, i, s))
  }

  /** First index of the window around i that exists in the series. */
  function WindowStart(i: nat): nat {
    if i >= Order then i - Order else 0
  }

  /** Last index (inclusive) of the window around i that exists in the series. */
  function WindowEnd(i: nat, n: nat): nat
    requires i < n
  {
    if i + Order < n then i + Order else n - 1
  }

  /** The reference definition: data[i] passes the comparator against every existing bar within Order of it. */
  predicate IsWindowExtremum(data: seq<real>, i: nat, cmp: Comparator)
    requires i < |data|
  {
    forall j :: WindowStart(i) <= j <= WindowEnd(i, |data|) ==> cmp.Holds(data[i], data[j])
  }

  /** Clamped shifts compare a bar with exactly the bars of its truncated window. */
  lemma ClampedShiftsAreWindow(data: seq<real>, i: nat, cmp: Comparator)
    requires i < |data|
    ensures IsRelExtremum(data, i, cmp) <==> IsWindowExtremum(data, i, cmp)
  {
    var n := |data|;
    if IsRelExtremum(data, i, cmp) {
      forall j | WindowStart(i) <= j <= WindowEnd(i, n)
        ensures cmp.Holds(data[i], data[j])
      {
        if j > i {
          assert Ahead(data, i, j - i) == data[j];
        } else if j < i {
          assert Behind(data, i, i - j) == data[j];
        }
      }
    }
    if IsWindowExtremum(data, i, cmp) {
      forall s | 1 <= s <= Order
        ensures cmp.Holds(data[i], Ahead(data, i, s)) && cmp.Holds(data[i], Behind(data, i, s))
      {
        var a, b := Clip(i + s, n), Clip(i - s, n);
        assert WindowStart(i) <= a <= WindowEnd(i, n);
        assert WindowStart(i) <= b <= WindowEnd(i, n);
      }
    }
  }

  /**
   * The positions below k that argrelextrema reports: ascending, each one passes
   * the clamped test, and none that passes is missing.
   */
  function ExtremaIndices(data: seq<real>, cmp: Comparator, k: nat): (idx: seq<nat>)
    requires k <= |data|
    ensures forall m :: 0 <= m < |idx| ==> idx[m] < k && IsRelExtremum(data, idx[m], cmp)
    ensures forall i :: 0 <= i < k && IsRelExtremum(data, i, cmp) ==> i in idx
    ensures forall m, m' :: 0 <= m < m' < |idx| ==> idx[m] < idx[m']
  {
    if k == 0 then []
    else
      var before := ExtremaIndices(data, cmp, k - 1);
      if IsRelExtremum(data, k - 1, cmp) then before + [k - 1] else before
  }

  /** The values at the reported positions, in bar order (the Min/Max column filter). */
  function Levels(data: seq<real>, cmp: Comparator): seq<real> {
    var idx := ExtremaIndices(data, cmp, |data|);
    seq(|idx|, m requires 0 <= m < |idx| => data[idx[m]])
  }

  /** Support levels: Lows of the bars found with np.less_equal. */
  function Fundos(bars: seq<Bar>): seq<real> {
    Levels(Lows(bars), LessEqual)
  }

  /** Resistance levels: Highs of the bars found with np.greater_equal. */
  function Topos(bars: seq<Bar>): seq<real> {
    Levels(Highs(bars), GreaterEqual)
  }

  /**
   * The levels are the values of the window extrema, one per extremum bar,
   * in strictly increasing bar order; every window extremum contributes.
   */
  lemma LevelsAreWindowExtrema(data: seq<real>, cmp: Comparator)
    ensures var idx := ExtremaIndices(data, cmp, |data|);
      && |Levels(data, cmp)| == |idx|
      && (forall m :: 0 <= m < |idx| ==> Levels(data, cmp)[m] == data[idx[m]])
      && (forall m, m' :: 0 <= m < m' < |idx| ==> idx[m] < idx[m'])
      && (forall i :: 0 <= i < |data| ==> (i in idx <==> IsWindowExtremum(data, i, cmp)))
  {
    var idx := ExtremaIndices(data, cmp, |data|);
    forall i | 0 <= i < |data|
      ensures i in idx <==> IsWindowExtremum(data, i, cmp)
    {
      ClampedShiftsAreWindow(data, i, cmp);
      if i in idx {
        var m :| 0 <= m < |idx| && idx[m] == i;
      }
    }
  }

  /** A value is a level iff some bar holding it is an extremum of its window. */
  lemma LevelMembership(data: seq<real>, cmp: Comparator, v: real)
    ensures v in Levels(data, cmp) <==>
      exists i :: 0 <= i < |data| && data[i] == v && IsWindowExtremum(data, i, cmp)
  {
    var idx := ExtremaIndices(data, cmp, |data|);
    LevelsAreWindowExtrema(data, cmp);
    if v in Levels(data, cmp) {
      var m :| 0 <= m < |idx| && Levels(data, cmp)[m] == v;
      assert idx[m] in idx;
    }
    if exists i :: 0 <= i < |data| && data[i] == v && IsWindowExtremum(data, i, cmp) {
      var i :| 0 <= i < |data| && data[i] == v && IsWindowExtremum(data, i, cmp);
      var m :| 0 <= m < |idx| && idx[m] == i;
      assert Levels(data, cmp)[m] == v;
    }
  }

  /** Support: a Low is a fundo iff its bar's Low is <= every Low within 5 bars on either side (ties allowed, edges truncated). */
  lemma FundoMembership(bars: seq<Bar>, v: real)
    ensures v in Fundos(bars) <==>
      exists i :: 0 <= i < |bars| && bars[i].low == v &&
        forall j :: WindowStart(i) <= j <= WindowEnd(i, |bars|) ==> bars[i].low <= bars[j].low
  {
    LevelMembership(Lows(bars), LessEqual, v);
  }

  /** Resistance: a High is a topo iff its bar's High is >= every High within 5 bars on either side. */
  lemma TopoMembership(bars: seq<Bar>, v: real)
    ensures v in Topos(bars) <==>
      exists i :: 0 <= i < |bars| && bars[i].high == v &&
        forall j :: WindowStart(i) <= j <= WindowEnd(i, |bars|) ==> bars[i].high >= bars[j].high
  {
    LevelMembership(Highs(bars), GreaterEqual, v);
  }

  /** A position among the first k whose value passes the comparator against all of the first k. */
  function Best(data: seq<real>, cmp: Comparator, k: nat): (b: nat)
    requires 0 < k <= |data|
    ensures b < k
    ensures forall j :: 0 <= j < k ==> cmp.Holds(data[b], data[j])
  {
    if k == 1 then 0
    else
      var b := Best(data, cmp, k - 1);
      if cmp.Holds(data[b], data[k - 1]) then b else k - 1
  }

  /** The series' overall lowest Low (highest High) is a level wherever its bar lies, edges included. */
  lemma ExtremeIsLevel(data: seq<real>, cmp: Comparator, i: nat)
    requires i < |data|
    requires forall j :: 0 <= j < |data| ==> cmp.Holds(data[i], data[j])
    ensures data[i] in Levels(data, cmp)
  {
    assert IsWindowExtremum(data, i, cmp);
    LevelMembership(data, cmp, data[i]);
  }

  /** A non-empty series has at least one level. */
  lemma LevelsNonEmpty(data: seq<real>, cmp: Comparator)
    requires |data| > 0
    ensures |Levels(data, cmp)| > 0
  {
    ExtremeIsLevel(data, cmp, Best(data, cmp, |data|));
  }

}
