/** `parseFloat(x.toFixed(4))` over exact reals.
    `Number.prototype.toFixed` of the ECMAScript specification picks the integer
    n minimising |n / 10^4 - x|, taking the larger n on a tie, and handles a
    negative x by formatting -x and prefixing a minus sign. Over reals this is
    rounding to four decimal places with ties away from zero. */
module Rounding {

  /** Rounds a non-negative real to a multiple of 1/10000, ties upward. */
  function RoundUp4(x: real): (r: real)
    requires x >= 0.0
    ensures r >= 0.0
    ensures x - 0.00005 < r <= x + 0.00005
    ensures r * 10000.0 == (x * 10000.0 + 0.5).Floor as real
  {
    ((x * 10000.0 + 0.5).Floor as real) / 10000.0
  }

  /** True of the reals that four decimal places represent exactly. */
  predicate OnGrid(x: real) {
    (x * 10000.0).Floor as real == x * 10000.0
  }

  /** r is x rounded to four decimals with ties away from zero: a four-decimal
      value in the half-open window around x that contains the tie point on
      the side away from zero. Exactly one such r exists (`RoundsToUnique`). */
  predicate RoundsTo(x: real, r: real) {
    && OnGrid(r)
    && (x >= 0.0 ==> x - 0.00005 < r <= x + 0.00005)
    && (x < 0.0 ==> x - 0.00005 <= r < x + 0.00005)
  }

  /** The rounding relation determines its result. */
  lemma RoundsToUnique(x: real, r: real, r': real)
    requires RoundsTo(x, r) && RoundsTo(x, r')
    ensures r == r'
  {
    var n, n' := (r * 10000.0).Floor, (r' * 10000.0).Floor;
    assert r == n as real / 10000.0 && r' == n' as real / 10000.0;
    assert -1 < n - n' < 1;
  }

  /** `parseFloat(x.toFixed(4))`. */
  function Round4(x: real): (r: real)
    ensures RoundsTo(x, r)
    ensures x >= 0.0 ==> r >= 0.0
    ensures x <= 0.0 ==> r <= 0.0
  {
    if x >= 0.0 then
      var r := RoundUp4(x);
      assert (r * 10000.0).Floor == (x * 10000.0 + 0.5).Floor;
      r
    else
      var u := RoundUp4(-x);
      var n := (-x * 10000.0 + 0.5).Floor;
      assert -u * 10000.0 == (-n) as real;
      assert (-u * 10000.0).Floor == -n;
      -u
  }

  /** Rounding never reverses the order of two values. */
  lemma Round4Monotone(x: real, y: real)
    requires x <= y
    ensures Round4(x) <= Round4(y)
  {
    if 0.0 <= x {
      assert (x * 10000.0 + 0.5).Floor <= (y * 10000.0 + 0.5).Floor;
    } else if y < 0.0 {
      assert (-y * 10000.0 + 0.5).Floor <= (-x * 10000.0 + 0.5).Floor;
    }
  }

  /** A value already written with four decimals is left as it is, so
      rounding twice is rounding once. */
  lemma Round4Fixes(x: real)
    requires OnGrid(x)
    ensures Round4(x) == x
  {
    if x >= 0.0 {
      var n := (x * 10000.0).Floor;
      assert (x * 10000.0 + 0.5).Floor == n;
    } else {
      var n := (x * 10000.0).Floor;
      assert (-x * 10000.0 + 0.5).Floor == -n;
    }
  }

  /** The smallest positive price that survives rounding: anything at or above
      half a ten-thousandth rounds to a positive value. */
  lemma Round4Positive(x: real)
    requires x >= 0.00005
    ensures Round4(x) >= 0.0001
  {
    Round4Monotone(0.00005, x);
    assert (0.00005 * 10000.0 + 0.5).Floor == 1;
  }
}
