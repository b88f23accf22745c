/** Small numeric helpers shared by the rest of the model: JavaScript's Math.min,
    Math.max and Math.round on reals, the `%` operator on non-negative doubles,
    and the transcendental Math functions, which the model leaves uninterpreted. */
module Numerics {

  datatype Option<+T> = None | Some(value: T)

  /** Math.min of two numbers. */
  function Min(a: real, b: real): (r: real)
    ensures r <= a && r <= b
    ensures r == a || r == b
  {
    if a <= b then a else b
  }

  /** Math.max of two numbers. */
  function Max(a: real, b: real): (r: real)
    ensures a <= r && b <= r
    ensures r == a || r == b
  {
    if a >= b then a else b
  }

  /** Math.abs. */
  function Abs(a: real): (r: real)
    ensures 0.0 <= r && (r == a || r == -a)
  {
    if a < 0.0 then -a else a
  }

  /** Math.round: the nearest integer, halves rounded towards +infinity. */
  function Round(x: real): (r: int)
    ensures r as real - 0.5 <= x < r as real + 0.5
  {
    (x + 0.5).Floor
  }

  /** JavaScript's `a % b` for a non-negative dividend and a positive divisor:
      the remainder of truncating division, which lies in [0, b) and differs
      from `a` by a whole number of divisors. */
  function FMod(a: real, b: real): (r: real)
    requires 0.0 <= a && 0.0 < b
    ensures 0.0 <= r < b
    ensures a - r == ((a / b).Floor as real) * b
  {
    var q := (a / b).Floor as real;
    FloorTimes(a, b);
    a - q * b
  }

  lemma FloorTimes(a: real, b: real)
    requires 0.0 < b
    ensures ((a / b).Floor as real) * b <= a < ((a / b).Floor as real) * b + b
  {
    var q := a / b;
    var f := q.Floor as real;
    assert f <= q < f + 1.0;
    assert q * b == a;
    MulLe(f, q, b);
    MulLt(q, f + 1.0, b);
    assert (f + 1.0) * b == f * b + b;
    assert q * b < f * b + b;
    assert a < f * b + b;
  }

  lemma MulLe(x: real, y: real, c: real)
    requires x <= y && 0.0 < c
    ensures x * c <= y * c
  {
  }

  lemma MulLt(x: real, y: real, c: real)
    requires x < y && 0.0 < c
    ensures x * c < y * c
  {
  }

  /** Euclidean remainder of a multiple plus a small offset. */
  lemma ModMultiplePlus(q: int, r: int, d: int)
    requires 0 < d && 0 <= r < d
    ensures (q * d + r) % d == r
    ensures (q * d + r) / d == q
  {
    var x := q * d + r;
    var q', r' := x / d, x % d;
    assert x == q' * d + r' && 0 <= r' < d;
    assert (q - q') * d == r' - r;
    assert (q' - q) * d == r - r';
    if q > q' {
      MulAtLeast(q - q', d);
      assert false;
    } else if q < q' {
      MulAtLeast(q' - q, d);
      assert false;
    }
  }

  lemma MulAtLeast(k: int, d: int)
    requires 1 <= k && 0 < d
    ensures d <= k * d
  {
    assert k * d == (k - 1) * d + d;
    MulNonNegative(k - 1, d);
  }

  lemma MulNonNegative(a: int, b: int)
    requires 0 <= a && 0 <= b
    ensures 0 <= a * b
  {
  }

  /** The transcendental functions of the JavaScript Math object that the core
      calls (Math.sqrt, Math.sin, Math.cos and Math.pow with a non-integer
      exponent). They are left uninterpreted: every operation that needs one
      receives it from its caller, and a property that depends on one of them
      names exactly the facts about it that it uses. */
  datatype Maths = Maths(
    sqrt: real -> real,
    sin: real -> real,
    cos: real -> real,
    pow: (real, real) -> real)

  /** The only fact about Math.sqrt the scorer relies on. */
  ghost predicate SqrtNonNegative(m: Maths)
  {
    forall v :: 0.0 <= v ==> 0.0 <= m.sqrt(v)
  }

  /** The only fact about Math.pow the explosion relies on: a non-negative base
      gives a non-negative power. */
  ghost predicate PowNonNegative(m: Maths)
  {
    forall x, y :: 0.0 <= x ==> 0.0 <= m.pow(x, y)
  }
}
