/** Number handling shared by the generators and the widgets: scaling a
    `Math.random()` draw to an integer range, and `Number(x.toFixed(1))`
    over the reals. */
module Numbers {

  predicate IsInteger(x: real)
  {
    x.Floor as real == x
  }

  predicate IsDraw(r: real)
  {
    0.0 <= r < 1.0
  }

  /** `Math.floor(r * n)` for a draw `r` of `Math.random()`: an index below `n`. */
  function ScaledFloor(r: real, n: nat): (k: int)
    requires IsDraw(r)
    ensures 0 <= k
    ensures n > 0 ==> k < n
    ensures n == 0 ==> k == 0
  {
    assert 0.0 <= r * (n as real) <= 1.0 * (n as real);
    assert n > 0 ==> r * (n as real) < n as real;
    (r * (n as real)).Floor
  }

  /** Rounds a non-negative value to the nearest multiple of 0.1, ties upwards. */
  function RoundUpHalf1(a: real): (m: real)
    requires a >= 0.0
    ensures IsInteger(m * 10.0)
    ensures a - 0.05 < m <= a + 0.05
    ensures m >= 0.0
  {
    var n := (a * 10.0 + 0.5).Floor;
    assert n as real <= a * 10.0 + 0.5 < n as real + 1.0;
    assert (n as real).Floor == n;
    (n as real) / 10.0
  }

  /** `Number(x.toFixed(1))`: the nearest multiple of 0.1, ties away from zero. */
  function Round1(x: real): (r: real)
    ensures IsInteger(r * 10.0)
    ensures x - 0.05 <= r <= x + 0.05
    ensures x >= 0.0 ==> r >= 0.0
    ensures x <= 0.0 ==> r <= 0.0
  {
    if x >= 0.0 then RoundUpHalf1(x)
    else
      var m := RoundUpHalf1(-x);
      var n := (m * 10.0).Floor;
      assert -m * 10.0 == (-n) as real;
      assert ((-n) as real).Floor == -n;
      -m
  }

  /** A value that already has one decimal is left as it is, so rounding twice is rounding once. */
  lemma Round1Fixed(x: real)
    requires IsInteger(x * 10.0)
    ensures Round1(x) == x
  {
    var m := (x * 10.0).Floor;
    if x >= 0.0 {
      assert (x * 10.0 + 0.5).Floor == m;
    } else {
      assert ((-x) * 10.0 + 0.5).Floor == -m;
    }
  }

  lemma Round1Idempotent(x: real)
    ensures Round1(Round1(x)) == Round1(x)
  {
    Round1Fixed(Round1(x));
  }

  function Abs(x: real): (r: real)
    ensures r >= 0.0
    ensures r == x || r == -x
  {
    if x < 0.0 then -x else x
  }
}
