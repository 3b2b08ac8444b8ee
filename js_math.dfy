/**
 * The few JavaScript `Math` operations the components use, on exact numbers.
 * `real` stands for a JavaScript number: there is no floating-point rounding.
 */
module JsMath {

  function MinR(a: real, b: real): real { if a <= b then a else b }
  function MaxR(a: real, b: real): real { if a >= b then a else b }
  function MinI(a: int, b: int): int { if a <= b then a else b }
  function MaxI(a: int, b: int): int { if a >= b then a else b }

  /** `Math.round`: the nearest integer, halves rounded up (towards +infinity). */
  function Round(x: real): (r: int)
    ensures x - 0.5 < r as real <= x + 0.5
  {
    (x + 0.5).Floor
  }

  /** `Math.round` leaves integers alone. */
  lemma RoundOfInt(n: int)
    ensures Round(n as real) == n
  {
  }

  /** Rounding is monotone. */
  lemma RoundMonotone(x: real, y: real)
    requires x <= y
    ensures Round(x) <= Round(y)
  {
  }

  /** Scaling an integer by a factor of at most one and rounding never exceeds the integer. */
  lemma {:induction false} RoundScaledDown(b: int, f: real)
    requires b >= 0 && 0.0 <= f <= 1.0
    ensures Round(b as real * f) <= b
  {
    assert b as real * f <= b as real by {
      assert b as real * (1.0 - f) >= 0.0;
    }
    RoundMonotone(b as real * f, b as real);
    RoundOfInt(b);
  }

  /**
   * JavaScript's `%` on integers: the remainder truncated towards zero, so it
   * takes the sign of the dividend (unlike Dafny's Euclidean `%`).
   */
  function Rem(a: int, n: int): (r: int)
    requires n > 0
    ensures a >= 0 ==> 0 <= r < n
    ensures a < 0 ==> -n < r <= 0
    ensures -n < a < n ==> r == a
    ensures (a - r) % n == 0
  {
    if a >= 0 then RemOfNonNegative(a, n); a % n
    else RemOfNonNegative(-a, n); -((-a) % n)
  }

  /** Facts about `a % n` for a non-negative dividend, shared by both signs in `Rem`. */
  lemma RemOfNonNegative(a: int, n: int)
    requires a >= 0 && n > 0
    ensures 0 <= a % n < n
    ensures a < n ==> a % n == a
    ensures (a - a % n) % n == 0 && (-(a - a % n)) % n == 0
  {
    if a < n { ModOfSmall(a, n); }
    assert a - a % n == (a / n) * n;
    MultipleMod(a / n, n);
    assert -(a - a % n) == -(a / n) * n;
    MultipleMod(-(a / n), n);
  }

  /** A multiple of the divisor leaves no remainder. */
  lemma MultipleMod(q: int, n: int)
    requires n > 0
    ensures (q * n) % n == 0
  {
    var m := q * n;
    var d, k := m / n, m % n;
    assert m == d * n + k && 0 <= k < n;
    assert k == (q - d) * n;
    MultipleBounds(q - d, n);
  }

  /** A non-zero multiple of the divisor is at least the divisor in size. */
  lemma MultipleBounds(j: int, n: int)
    requires n > 0
    ensures j >= 1 ==> j * n >= n
    ensures j <= -1 ==> j * n <= -n
  {
  }

  /** The remainder of a number below the divisor is the number itself. */
  lemma ModOfSmall(a: int, n: int)
    requires 0 <= a < n
    ensures a % n == a
  {
  }

  /**
   * `Number.prototype.toFixed(3)` read back as a number: the nearest multiple
   * of 1/1000, halves rounded away from zero.
   */
  function ToFixed3(x: real): (r: real)
    ensures -0.0005 <= r - x <= 0.0005
    ensures (r * 1000.0).Floor as real == r * 1000.0
  {
    if x >= 0.0 then
      ThousandthsExact(Round(x * 1000.0));
      Round(x * 1000.0) as real / 1000.0
    else
      ThousandthsExact(-Round(-x * 1000.0));
      -(Round(-x * 1000.0) as real / 1000.0)
  }

  /** A whole number of thousandths, scaled back up, is a whole number. */
  lemma ThousandthsExact(k: int)
    ensures ((k as real / 1000.0) * 1000.0).Floor as real == (k as real / 1000.0) * 1000.0
  {
    assert (k as real / 1000.0) * 1000.0 == k as real;
  }
}
