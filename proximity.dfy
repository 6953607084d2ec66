/**
 * The 2% zone test (app.py lines 80-81, 132 and 134):
 * `any(abs(x - z)/z <= 0.02 for z in levels)`.
 */
module Proximity {
  import opened Series

  /** Relative distance allowed between a price and a level. */
  const Tolerance: real := 0.02

  /**
   * abs(x - z)/z <= 0.02 for one level. A zero level divides to inf or NaN,
   * both of which fail the comparison; a negative level gives a quotient
   * <= 0 and so passes.
   */
  predicate Near(x: real, z: real) {
    z != 0.0 && Abs(x - z) / z <= Tolerance
  }

  /** Python's any() over the levels, scanned in order. */
  predicate NearAny(x: real, levels: seq<real>) {
    |levels| > 0 && (Near(x, levels[0]) || NearAny(x, levels[1..]))
  }

  /** The scan finds a level iff one of the levels is near. */
  lemma {:induction false} NearAnyIffSomeLevel(x: real, levels: seq<real>)
    ensures NearAny(x, levels) <==> exists k :: 0 <= k < |levels| && Near(x, levels[k])
  {
    if |levels| > 0 {
      NearAnyIffSomeLevel(x, levels[1..]);
      if exists k :: 0 <= k < |levels| && Near(x, levels[k]) {
        var k :| 0 <= k < |levels| && Near(x, levels[k]);
        if k > 0 {
          assert levels[1..][k - 1] == levels[k];
        }
      }
    }
  }

  /** For a positive level the test is |x - z| <= 2% of z. */
  lemma NearPositiveLevel(x: real, z: real)
    requires z > 0.0
    ensures Near(x, z) <==> Abs(x - z) <= Tolerance * z
  {
    var q := Abs(x - z) / z;
    assert q * z == Abs(x - z);
    if q <= Tolerance {
      assert q * z <= Tolerance * z;
    } else {
      assert q * z > Tolerance * z;
    }
  }

  /** A negative level passes the test for every price, as the division is written. */
  lemma NegativeLevelAlwaysNear(x: real, z: real)
    requires z < 0.0
    ensures Near(x, z)
  {
    var q := Abs(x - z) / z;
    assert q * z == Abs(x - z);
    assert q <= 0.0;
  }

  /** Low 100 is within 2% of a support at 98.1 (1.94%), not of one at 95 (5.26%). */
  lemma WorkedExamples()
    ensures Near(100.0, 98.1)
    ensures !Near(100.0, 95.0)
    ensures NearAny(100.0, [95.0, 98.1])
    ensures !NearAny(100.0, [95.0])
  {
    NearPositiveLevel(100.0, 98.1);
    NearPositiveLevel(100.0, 95.0);
    assert [95.0, 98.1][1..] == [98.1];
  }

}
