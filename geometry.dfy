/** Two-dimensional vectors over the reals, the squared Euclidean length, and the integer
    part of a square root. The canvas works in IEEE floats; this model works in exact reals.
    Dafny has no square root, so the two places where the renderer and the document measure
    a Euclidean length (`simd_length`) are modelled through the squared length, which is
    exact: `d < r` iff `d*d < r*r` for non-negative d and r, and `floor(d)` is the largest
    natural whose square does not exceed `d*d`. */
module Geometry {

  datatype Vec2 = Vec2(x: real, y: real)

  /** An RGBA colour, one real per channel; never inspected by the engine. */
  datatype Color = Color(r: real, g: real, b: real, a: real)

  const Zero: Vec2 := Vec2(0.0, 0.0)

  function Add(a: Vec2, b: Vec2): Vec2 {
    Vec2(a.x + b.x, a.y + b.y)
  }

  function Sub(a: Vec2, b: Vec2): Vec2 {
    Vec2(a.x - b.x, a.y - b.y)
  }

  function Scale(a: Vec2, k: real): Vec2 {
    Vec2(a.x * k, a.y * k)
  }

  function Max(a: real, b: real): real {
    if a >= b then a else b
  }

  function Min(a: real, b: real): real {
    if a <= b then a else b
  }

  /** The square of the Euclidean length of `v`. */
  function SquaredLength(v: Vec2): (q: real)
    ensures q >= 0.0
  {
    v.x * v.x + v.y * v.y
  }

  /** `d` is the Euclidean length of `v`. */
  ghost predicate IsLength(v: Vec2, d: real) {
    d >= 0.0 && d * d == SquaredLength(v)
  }

  /** The length of `v` is below `r`, decided without a square root. */
  predicate ShorterThan(v: Vec2, r: real) {
    SquaredLength(v) < r * r
  }

  lemma SquareMonotone(a: real, b: real)
    requires 0.0 <= a <= b
    ensures a * a <= b * b
  {
    assert a * a <= a * b;
    assert a * b <= b * b;
  }

  lemma SquareStrictlyMonotone(a: real, b: real)
    requires 0.0 <= a < b
    ensures a * a < b * b
  {
    calc {
      a * a;
    <= { assert a * (b - a) >= 0.0; }
      a * b;
    < { assert b * (b - a) > 0.0; }
      b * b;
    }
  }

  /** The squared comparison decides the same thing as comparing the length itself. */
  lemma {:induction false} ShorterThanIffLength(v: Vec2, d: real, r: real)
    requires IsLength(v, d) && r >= 0.0
    ensures ShorterThan(v, r) <==> d < r
  {
    if d < r {
      SquareStrictlyMonotone(d, r);
    } else {
      SquareMonotone(r, d);
    }
  }

  /** The largest natural `n` with `n*n <= q`: the integer part of the square root of `q`. */
  function FloorSqrt(q: real): (n: nat)
    requires q >= 0.0
    ensures (n as real) * (n as real) <= q < ((n + 1) as real) * ((n + 1) as real)
  {
    FloorSqrtFrom(q, 0)
  }

  /** Counts upward from a natural already known to have its square within `q`. */
  function FloorSqrtFrom(q: real, n: nat): (m: nat)
    requires (n as real) * (n as real) <= q
    ensures n <= m
    ensures (m as real) * (m as real) <= q < ((m + 1) as real) * ((m + 1) as real)
    decreases q.Floor - n
  {
    if ((n + 1) as real) * ((n + 1) as real) <= q then
      assert (n + 1) as real <= q by {
        var m := (n + 1) as real;
        assert m * (m - 1.0) >= 0.0;
      }
      FloorSqrtFrom(q, n + 1)
    else
      n
  }

  /** Any natural squeezed as in FloorSqrt's contract is FloorSqrt itself. */
  lemma {:induction false} FloorSqrtUnique(q: real, k: nat)
    requires q >= 0.0
    requires (k as real) * (k as real) <= q < ((k + 1) as real) * ((k + 1) as real)
    ensures FloorSqrt(q) == k
  {
    var n := FloorSqrt(q);
    if n < k {
      SquareMonotone((n + 1) as real, k as real);
      assert false;
    } else if k < n {
      SquareMonotone((k + 1) as real, n as real);
      assert false;
    }
  }

  /** For the real square root `d` of `q`, FloorSqrt(q) is the floor of `d`. */
  lemma {:induction false} FloorSqrtIsFloorOfRoot(q: real, d: real)
    requires d >= 0.0 && d * d == q
    ensures FloorSqrt(q) == d.Floor
  {
    var f := d.Floor;
    assert 0 <= f;
    SquareMonotone(f as real, d);
    SquareStrictlyMonotone(d, (f + 1) as real);
    FloorSqrtUnique(q, f);
  }
}
