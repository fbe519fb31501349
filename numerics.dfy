/** Arithmetic as the watermark code performs it.
    Python's `int(x)` on a float truncates toward zero, JavaScript's `Math.floor`
    rounds down, and Python's `//` on integers rounds down. Floats are modelled
    as exact reals; the lemmas here connect those real-valued expressions to
    Dafny's integer division. */
module Numerics {

  /** Python's `int(x)` for a number `x`: truncation toward zero. */
  function Trunc(x: real): (r: int)
    ensures 0.0 <= x ==> 0 <= r && r as real <= x < r as real + 1.0
    ensures x < 0.0 ==> r <= 0 && r as real - 1.0 < x <= r as real
  {
    if x >= 0.0 then x.Floor else -((-x).Floor)
  }

  /** JavaScript's `Math.floor(x)`. */
  function Floor(x: real): (r: int)
    ensures r as real <= x < r as real + 1.0
  {
    x.Floor
  }

  /** Integer division rounding toward zero, as C or Java would compute it,
      for a non-negative dividend. */
  function TruncDiv(a: nat, b: int): (q: int)
    requires b != 0
    ensures b > 0 ==> 0 <= q && q * b <= a < q * b + b
    ensures b < 0 ==> q <= 0 && -q * -b <= a < -q * -b + -b
  {
    if b > 0 then a / b else -(a / -b)
  }

  /** Python's `a // b` for a positive divisor: rounds down, also for a negative `a`. */
  function FloorDiv(a: int, b: int): (q: int)
    requires b > 0
    ensures q * b <= a < q * b + b
  {
    a / b
  }

  /** If `q * b <= a < (q + 1) * b` with `b > 0`, then `q` is `a / b` rounded down. */
  lemma FloorOfQuotient(a: nat, b: nat, q: nat)
    requires b > 0
    requires q * b <= a < q * b + b
    ensures (a as real / b as real).Floor == q
  {
    var r := a - q * b;
    var f := r as real / b as real;
    assert f * b as real == r as real;
    assert 0.0 <= f by {
      if f < 0.0 { ProductSign(f, b as real); }
    }
    assert f < 1.0 by {
      if f >= 1.0 { ProductSign(f - 1.0, b as real); }
    }
    assert a as real / b as real == q as real + f by {
      assert a as real == q as real * b as real + r as real;
    }
  }

  /** The sign of a product with a positive factor. */
  lemma ProductSign(x: real, y: real)
    requires y > 0.0
    ensures x < 0.0 ==> x * y < 0.0
    ensures x >= 0.0 ==> x * y >= 0.0
  {
  }

  /** `int(a / b)` in Python, with `/` true division, equals truncating
      integer division (floats taken as exact reals). */
  lemma TruncOfQuotient(a: nat, b: int)
    requires b != 0
    ensures Trunc(a as real / b as real) == TruncDiv(a, b)
  {
    if b > 0 {
      FloorOfQuotient(a, b, a / b);
    } else {
      NegativeDivisor(a, -b);
    }
  }

  /** Dividing by `-n` negates the real quotient and truncation follows it. */
  lemma NegativeDivisor(a: nat, n: nat)
    requires n > 0
    ensures Trunc(a as real / -(n as real)) == -(a / n)
  {
    var y := a as real / n as real;
    assert a as real / -(n as real) == -y;
    FloorOfQuotient(a, n, a / n);
    if a != 0 {
      assert y > 0.0;
    }
  }

  /** `int(w * 0.05)` is `w // 20` for a non-negative width (exact reals). */
  lemma {:induction false} TwentiethOfWidth(w: nat)
    ensures Trunc(w as real * 0.05) == w / 20
    ensures Floor(w as real / 20.0) == w / 20
  {
    assert w as real * 0.05 == w as real / 20 as real;
    FloorOfQuotient(w, 20, w / 20);
  }
}
