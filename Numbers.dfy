/**
 * The numeric conventions shared by the dashboard's computations.
 *
 * JavaScript numbers are modelled as mathematical reals. The source rounds
 * to cents with `parseFloat(x.toFixed(2))`, which is `Round2` here, and its
 * divisions may produce NaN or Infinity, which `Ratio` reports as `None`.
 */
module Numbers {

  datatype Option<T> = None | Some(value: T)

  /** Number of whole cents in `x`, rounding half away from zero as `toFixed(2)` does on |x|. */
  function Cents(x: real): int
  {
    if x >= 0.0 then (x * 100.0 + 0.5).Floor else -((-x) * 100.0 + 0.5).Floor
  }

  /** `parseFloat(x.toFixed(2))`: `x` rounded to the nearest cent. */
  function Round2(x: real): (r: real)
    ensures r == Cents(x) as real / 100.0
    ensures x - 0.005 <= r <= x + 0.005
    ensures x >= 0.0 ==> r >= 0.0
  {
    Cents(x) as real / 100.0
  }

  /** A value that already is a whole number of cents is left as it is by `Round2`. */
  lemma Round2OfCents(k: int)
    ensures Round2(k as real / 100.0) == k as real / 100.0
  {
    var x := k as real / 100.0;
    if k >= 0 {
      assert x * 100.0 + 0.5 == k as real + 0.5;
      assert (x * 100.0 + 0.5).Floor == k;
    } else {
      assert (-x) * 100.0 + 0.5 == (-k) as real + 0.5;
      assert ((-x) * 100.0 + 0.5).Floor == -k;
    }
  }

  lemma FloorMonotone(a: real, b: real)
    requires a <= b
    ensures a.Floor <= b.Floor
  {
    assert a.Floor as real <= a <= b < b.Floor as real + 1.0;
  }

  /** Rounding to cents never reverses the order of two values. */
  lemma Round2Monotone(x: real, y: real)
    requires x <= y
    ensures Round2(x) <= Round2(y)
  {
    if 0.0 <= x {
      FloorMonotone(x * 100.0 + 0.5, y * 100.0 + 0.5);
    } else if y < 0.0 {
      FloorMonotone((-y) * 100.0 + 0.5, (-x) * 100.0 + 0.5);
    } else {
      assert Cents(x) <= 0 <= Cents(y);
    }
  }

  /** Scaling by a non-negative factor keeps the order. */
  lemma ScaleMonotone(c: real, a: real, b: real)
    requires c >= 0.0 && a <= b
    ensures c * a <= c * b
  {
    assert c * b - c * a == c * (b - a);
  }

  /** Two non-negative values at least a cent apart round to different cents, in the same order. */
  lemma Round2StrictlyApart(x: real, y: real)
    requires 0.0 <= x && x + 0.01 <= y
    ensures Round2(x) < Round2(y)
  {
    assert x * 100.0 + 0.5 + 1.0 <= y * 100.0 + 0.5;
  }

  /** `a / b` as JavaScript computes it, with `None` for the NaN or Infinity of a zero divisor. */
  function Ratio(a: real, b: real): (r: Option<real>)
    ensures r.Some? <==> b != 0.0
    ensures r.Some? ==> r.value * b == a
  {
    if b == 0.0 then None else Some(a / b)
  }

  function Min(a: int, b: int): int
  {
    if a <= b then a else b
  }

  function MaxReal(a: real, b: real): (r: real)
    ensures r >= a && r >= b && (r == a || r == b)
  {
    if a >= b then a else b
  }
}
