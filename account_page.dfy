/** The usage bars of the account page: `pct(used, limit)` is the share of
    the limit used, in whole percent rounded half up, capped at 100, and 0
    when there is no positive limit. Numbers are exact rationals here. */
module AccountPage {
  import opened Common

  /** `Math.round(x)`: the nearest integer, halves rounded up. */
  function Round(x: real): (n: int)
    ensures n as real - 0.5 <= x < n as real + 0.5
  {
    (x + 0.5).Floor
  }

  /** `pct(used, limit)`. */
  function Pct(used: int, limit: Option<int>): (r: int)
    ensures limit.None? || limit.value <= 0 ==> r == 0
    ensures r <= 100
    ensures used >= 0 ==> 0 <= r
    ensures limit.Some? && limit.value > 0 && used >= limit.value ==> r == 100
  {
    if limit.None? || limit.value <= 0 then 0
    else
      var share := used as real / limit.value as real;
      assert used >= 0 ==> share >= 0.0;
      assert used >= limit.value ==> share >= 1.0 by {
        assert share * limit.value as real == used as real;
      }
      var r := Round(share * 100.0);
      if r < 100 then r else 100
  }

  /** A bigger argument never rounds lower. */
  lemma RoundMonotone(x: real, y: real)
    requires x <= y
    ensures Round(x) <= Round(y)
  {
  }

  /** No limit, or a limit of zero or less, shows an empty bar. */
  lemma NoLimitIsZero(used: int, limit: Option<int>)
    requires limit.None? || limit.value <= 0
    ensures Pct(used, limit) == 0
  {
  }

  /** The bar never overflows, and it is full once the limit is reached. */
  lemma {:induction false} PctCapped(used: int, limit: int)
    requires limit > 0
    ensures Pct(used, Some(limit)) <= 100
    ensures used >= limit ==> Pct(used, Some(limit)) == 100
  {
    if used >= limit {
      var x := used as real / limit as real * 100.0;
      assert used as real / limit as real >= 1.0 by {
        assert used as real >= limit as real;
      }
      RoundMonotone(100.0, x);
      assert Round(100.0) == 100;
    }
  }

  /** Nothing used is 0 percent, and using more never shows less. */
  lemma {:induction false} PctMonotone(u1: int, u2: int, limit: int)
    requires limit > 0 && u1 <= u2
    ensures Pct(0, Some(limit)) == 0
    ensures Pct(u1, Some(limit)) <= Pct(u2, Some(limit))
  {
    assert u1 as real / limit as real <= u2 as real / limit as real by {
      assert u1 as real <= u2 as real;
    }
    RoundMonotone(u1 as real / limit as real * 100.0, u2 as real / limit as real * 100.0);
  }

  /** Division of reals whose quotient is floored agrees with integer division. */
  lemma FloorOfQuotient(a: int, b: int)
    requires b > 0
    ensures (a as real / b as real).Floor == a / b
  {
    var n := a / b;
    var m := a % b;
    assert a == n * b + m && 0 <= m < b;
    var f := m as real / b as real;
    assert 0.0 <= f < 1.0;
    assert a as real == n as real * b as real + m as real;
    assert a as real / b as real == n as real + f;
  }

  /** The argument of `Math.round` plus one half, as one quotient. */
  lemma ShiftedArgument(used: int, limit: int)
    requires limit > 0
    ensures used as real / limit as real * 100.0 + 0.5 == (200 * used + limit) as real / (2 * limit) as real
  {
    var q := used as real / limit as real;
    var y := q * 100.0 + 0.5;
    var c := (2 * limit) as real;
    var a := (200 * used + limit) as real;
    assert q * limit as real == used as real;
    assert y * c == a;
    Cancel(y, a / c, c);
  }

  lemma Cancel(y: real, z: real, c: real)
    requires c != 0.0 && y * c == z * c
    ensures y == z
  {
    assert (y - z) * c == 0.0;
  }

  /** With a positive limit the bar is, in integer arithmetic,
      `min(100, (200 * used + limit) div (2 * limit))`. */
  lemma {:induction false} PctAsIntegers(used: int, limit: int)
    requires limit > 0
    ensures var n := (200 * used + limit) / (2 * limit);
            Pct(used, Some(limit)) == if n < 100 then n else 100
  {
    var x := used as real / limit as real * 100.0;
    var n := (200 * used + limit) / (2 * limit);
    ShiftedArgument(used, limit);
    FloorOfQuotient(200 * used + limit, 2 * limit);
    assert Round(x) == n;
  }
}
