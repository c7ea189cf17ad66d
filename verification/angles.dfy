/**
 * Angle arithmetic of the tack controller.
 *
 * Every angle of the model is measured in degrees as an exact real (a half turn
 * is 180, a full turn 360).  The controller's two wrap functions bring an angle
 * into a canonical range by adding or removing whole turns:
 *   - wrap_2PI into [0, 360), used for headings;
 *   - wrap_PI into (-180, 180], used for signed angle differences.
 */
module Angles {

  const HalfTurn: real := 180.0
  const FullTurn: real := 360.0

  function Abs(x: real): (r: real)
    ensures r >= 0.0 && (r == x || r == -x)
  {
    if x < 0.0 then -x else x
  }

  /** k whole turns, in degrees. */
  function Turns(k: int): (r: real)
  {
    k as real * FullTurn
  }

  /** A heading in [0, 360) that differs from `a` by whole turns, found by adding or removing one turn at a time. */
  function WrapTwoPI(a: real): (r: real)
    ensures 0.0 <= r < FullTurn
    ensures exists k :: a == r + Turns(k)
    decreases a < 0.0, Abs(a).Floor
  {
    if a < 0.0 then
      var r := WrapTwoPI(a + FullTurn);
      assert exists k :: a == r + Turns(k) by {
        var k :| a + FullTurn == r + Turns(k);
        assert a == r + Turns(k - 1);
      }
      r
    else if a >= FullTurn then
      var r := WrapTwoPI(a - FullTurn);
      assert exists k :: a == r + Turns(k) by {
        var k :| a - FullTurn == r + Turns(k);
        assert a == r + Turns(k + 1);
      }
      r
    else
      assert a == a + Turns(0);
      a
  }

  /** A signed angle in (-180, 180] that differs from `a` by whole turns. */
  function WrapPI(a: real): (r: real)
    ensures -HalfTurn < r <= HalfTurn
    ensures exists k :: a == r + Turns(k)
  {
    var w := WrapTwoPI(a);
    assert exists k :: a == (if w > HalfTurn then w - FullTurn else w) + Turns(k) by {
      var k :| a == w + Turns(k);
      assert a == (w - FullTurn) + Turns(k + 1);
    }
    if w > HalfTurn then w - FullTurn else w
  }

  /** Whole turns strictly between -360 and 360 are no turns at all. */
  lemma SmallTurnsAreZero(k: int)
    requires -FullTurn < Turns(k) < FullTurn
    ensures k == 0
  {
  }

  /** wrap_PI has exactly one answer: any angle of (-180, 180] that differs from `a` by whole turns. */
  lemma WrapPIUnique(a: real, r: real, k: int)
    requires -HalfTurn < r <= HalfTurn
    requires a == r + Turns(k)
    ensures WrapPI(a) == r
  {
    var w := WrapPI(a);
    var j :| a == w + Turns(j);
    assert Turns(k - j) == w - r;
    SmallTurnsAreZero(k - j);
  }

  /** wrap_2PI has exactly one answer: any angle of [0, 360) that differs from `a` by whole turns. */
  lemma WrapTwoPIUnique(a: real, r: real, k: int)
    requires 0.0 <= r < FullTurn
    requires a == r + Turns(k)
    ensures WrapTwoPI(a) == r
  {
    var w := WrapTwoPI(a);
    var j :| a == w + Turns(j);
    assert Turns(k - j) == w - r;
    SmallTurnsAreZero(k - j);
  }

  /** wrap_PI leaves an angle of (-180, 180] as it is. */
  lemma WrapPIIdentity(a: real)
    requires -HalfTurn < a <= HalfTurn
    ensures WrapPI(a) == a
  {
    WrapPIUnique(a, a, 0);
  }

  /** wrap_PI depends only on the angle modulo whole turns. */
  lemma WrapPIPeriodic(a: real, k: int)
    ensures WrapPI(a + Turns(k)) == WrapPI(a)
  {
    var r := WrapPI(a);
    var j :| a == r + Turns(j);
    assert a + Turns(k) == r + Turns(j + k);
    WrapPIUnique(a + Turns(k), r, j + k);
  }
}
