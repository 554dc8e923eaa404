/** Two-dimensional points and vectors over the reals, and the vector helpers
    of the `Tools` namespace (src/tools.rs).

    The source works on `f32`; the model works on `real`, so there is no
    rounding. The square root is not definable here: every member that takes
    a length receives the square root as a parameter `sqrt` together with the
    hypothesis `IsSqrt(sqrt)`, which is all the model knows about it.

    Helpers that overwrite the fields of a `&mut` argument are methods that
    take the old value and return the new one: Rust forbids any alias of a
    `&mut` borrow, so the caller's variable is the only place that changes. */
module Tools {

  datatype Vector2 = Vector2(x: real, y: real)
  datatype Point2 = Point2(x: real, y: real)

  const ZeroVector := Vector2(0.0, 0.0)

  /** What the model knows of `f32::sqrt` at one argument: a non-negative
      argument has a non-negative square root whose square is the argument.
      The root is positive exactly when the argument is; this follows from
      the first two facts and is stated with them so that the sign of a
      length can be read off the sign of its argument. */
  ghost predicate IsSqrtAt(sqrt: real -> real, a: real) {
    0.0 <= a ==>
      0.0 <= sqrt(a) && sqrt(a) * sqrt(a) == a &&
      (0.0 < a ==> 0.0 < sqrt(a)) && (a <= 0.0 ==> sqrt(a) == 0.0)
  }

  /** `sqrt` is a square root on every non-negative argument. */
  ghost predicate IsSqrt(sqrt: real -> real) {
    forall a: real :: IsSqrtAt(sqrt, a)
  }

  // Small facts of real arithmetic, each over plain variables.

  lemma MulPos(a: real, b: real)
    requires 0.0 < a && 0.0 < b
    ensures 0.0 < a * b
  {
  }

  lemma MulNonneg(a: real, b: real)
    requires 0.0 <= a && 0.0 <= b
    ensures 0.0 <= a * b
  {
  }

  /** Squaring is strictly increasing on the non-negative reals. */
  lemma SquareMonotone(a: real, b: real)
    requires 0.0 <= a < b
    ensures a * a < b * b
  {
    MulPos(b - a, b + a);
    assert (b - a) * (b + a) == b * b - a * a;
  }

  lemma ScaleSquares(x: real, y: real, k: real)
    ensures (x * k) * (x * k) + (y * k) * (y * k) == (k * k) * (x * x + y * y)
  {
  }

  lemma ProductSquare(k: real, l: real, e: real, r: real)
    requires r == k * l && l * l == e
    ensures r * r == (k * k) * e
  {
  }

  lemma InverseSquare(k: real, l: real, s: real)
    requires k * l == 1.0 && s == l * l
    ensures (k * k) * s == 1.0
  {
  }

  lemma InverseTimes(l: real)
    requires l != 0.0
    ensures (1.0 / l) * l == 1.0
  {
  }

  lemma DivIsTimesInverse(x: real, l: real)
    requires l != 0.0
    ensures x / l == x * (1.0 / l)
    ensures l * (x / l) == x
  {
  }

  lemma DivCancel(a: real, k: real, l: real)
    requires k != 0.0 && l != 0.0
    ensures (a * k) / (k * l) == a / l
  {
  }

  /** Non-negative numbers with equal squares are equal. */
  lemma RootUnique(s: real, r: real)
    requires 0.0 <= s && 0.0 <= r && s * s == r * r
    ensures s == r
  {
    if s < r {
      SquareMonotone(s, r);
    } else if r < s {
      SquareMonotone(r, s);
    }
  }

  /** `vector_length`: the Euclidean norm `sqrt(x² + y²)`. It is
      non-negative, its square is `x² + y²`, and it is zero exactly for the
      zero vector. */
  function VectorLength(sqrt: real -> real, v: Vector2): (r: real)
    requires IsSqrt(sqrt)
    ensures 0.0 <= r
    ensures r * r == v.x * v.x + v.y * v.y
    ensures r == 0.0 <==> v == ZeroVector
  {
    assert IsSqrtAt(sqrt, v.x * v.x + v.y * v.y);
    sqrt(v.x * v.x + v.y * v.y)
  }

  /** `get_vec_from_to(p1, p2)`: the vector `p1 - p2`, which leads from `p2` to
      `p1` despite the name. */
  function GetVecFromTo(p1: Point2, p2: Point2): Vector2 {
    Vector2(p1.x - p2.x, p1.y - p2.y)
  }

  /** `distance`: the Euclidean distance of two birds, computed from their
      positions (the only part of a bird it reads). The source squares the
      coordinate differences `p1 - p2` and takes the root of their sum, which
      is the length of `get_vec_from_to(p1, p2)`. */
  function Distance(sqrt: real -> real, p1: Point2, p2: Point2): real
    requires IsSqrt(sqrt)
  {
    VectorLength(sqrt, GetVecFromTo(p1, p2))
  }

  /** Dividing both components by the length gives a vector of squared
      length 1. */
  lemma UnitSquares(vx: real, vy: real, len: real)
    requires 0.0 < len && len * len == vx * vx + vy * vy
    ensures (vx / len) * (vx / len) + (vy / len) * (vy / len) == 1.0
  {
    var k := 1.0 / len;
    InverseTimes(len);
    DivIsTimesInverse(vx, len);
    DivIsTimesInverse(vy, len);
    ScaleSquares(vx, vy, k);
    InverseSquare(k, len, vx * vx + vy * vy);
  }

  /** The unit vector of a non-zero vector (the value `normalize_vector`
      leaves behind). It has length 1, and the vector is its length times
      it, so it points the same way. */
  function Normalized(sqrt: real -> real, v: Vector2): (u: Vector2)
    requires IsSqrt(sqrt)
    requires v != ZeroVector
    ensures VectorLength(sqrt, u) == 1.0
    ensures v.x == VectorLength(sqrt, v) * u.x && v.y == VectorLength(sqrt, v) * u.y
  {
    var len := VectorLength(sqrt, v);
    var u := Vector2(v.x / len, v.y / len);
    DivIsTimesInverse(v.x, len);
    DivIsTimesInverse(v.y, len);
    UnitSquares(v.x, v.y, len);
    RootUnique(VectorLength(sqrt, u), 1.0);
    u
  }

  /** Scaling by a non-negative factor scales the length by that factor. */
  lemma ScaledLength(sqrt: real -> real, v: Vector2, k: real)
    requires IsSqrt(sqrt) && 0.0 <= k
    ensures VectorLength(sqrt, Vector2(v.x * k, v.y * k)) == k * VectorLength(sqrt, v)
  {
    var len := VectorLength(sqrt, v);
    var w := Vector2(v.x * k, v.y * k);
    ScaleSquares(v.x, v.y, k);
    var r := k * len;
    MulNonneg(k, len);
    ProductSquare(k, len, v.x * v.x + v.y * v.y, r);
    RootUnique(VectorLength(sqrt, w), r);
  }

  /** The value `limit_velocity` leaves behind. A vector no longer than `max`
      is returned as it is (the comparison is strict); a longer one is scaled
      by the factor `max / length`, so that it keeps its direction and, for
      a non-negative `max`, gets length exactly `max`. The division is
      defined unless `max` is negative and the vector is zero. */
  function Limited(sqrt: real -> real, v: Vector2, max: real): (r: Vector2)
    requires IsSqrt(sqrt)
    requires 0.0 <= max || v != ZeroVector
    ensures VectorLength(sqrt, v) <= max ==> r == v
    ensures VectorLength(sqrt, v) > max ==>
              VectorLength(sqrt, v) * r.x == max * v.x && VectorLength(sqrt, v) * r.y == max * v.y
    ensures 0.0 <= max ==> VectorLength(sqrt, r) <= max
    ensures 0.0 <= max && VectorLength(sqrt, v) > max ==> VectorLength(sqrt, r) == max
  {
    var speed := VectorLength(sqrt, v);
    if speed > max then
      var k := max / speed;
      DivIsTimesInverse(max, speed);
      var r := Vector2(v.x * k, v.y * k);
      if 0.0 <= max then ScaledLength(sqrt, v, k); r else r
    else
      v
  }

  /** `normalize_vector`: divides both components by the length. There is no
      guard against a zero vector, so the caller must supply a non-zero one. */
  method NormalizeVector(sqrt: real -> real, vec: Vector2) returns (r: Vector2)
    requires IsSqrt(sqrt)
    requires vec != ZeroVector
    ensures r == Normalized(sqrt, vec)
  {
    var length := VectorLength(sqrt, vec);
    r := vec.(x := vec.x / length);
    r := r.(y := r.y / length);
  }

  /** `vec_op`: each component of the first vector becomes `op` of it and the
      matching component of the second; the second is only read. */
  method VecOp(vec1: Vector2, vec2: Vector2, op: (real, real) --> real) returns (r: Vector2)
    requires op.requires(vec1.x, vec2.x) && op.requires(vec1.y, vec2.y)
    ensures r.x == op(vec1.x, vec2.x) && r.y == op(vec1.y, vec2.y)
  {
    r := vec1.(x := op(vec1.x, vec2.x));
    r := r.(y := op(r.y, vec2.y));
  }

  /** `vec_scalar_op`: each component becomes `op(component, scalar)`. */
  method VecScalarOp(v: Vector2, scalar: real, op: (real, real) --> real) returns (r: Vector2)
    requires op.requires(v.x, scalar) && op.requires(v.y, scalar)
    ensures r.x == op(v.x, scalar) && r.y == op(v.y, scalar)
  {
    r := v.(x := op(v.x, scalar));
    r := r.(y := op(r.y, scalar));
  }

  /** `limit_velocity`: recomputes the speed and, when it exceeds `max`,
      multiplies both components by `max / speed`. */
  method LimitVelocity(sqrt: real -> real, v: Vector2, max: real) returns (r: Vector2)
    requires IsSqrt(sqrt)
    requires 0.0 <= max || v != ZeroVector
    ensures r == Limited(sqrt, v, max)
  {
    r := v;
    var speed := VectorLength(sqrt, v);
    if speed > max {
      r := r.(x := r.x * (max / speed));
      r := r.(y := r.y * (max / speed));
    }
  }

  /** `point_op`: as `vec_op`, on points. */
  method PointOp(vec1: Point2, vec2: Point2, op: (real, real) --> real) returns (r: Point2)
    requires op.requires(vec1.x, vec2.x) && op.requires(vec1.y, vec2.y)
    ensures r.x == op(vec1.x, vec2.x) && r.y == op(vec1.y, vec2.y)
  {
    r := vec1.(x := op(vec1.x, vec2.x));
    r := r.(y := op(r.y, vec2.y));
  }

  /** `point_scalar_op`: as `vec_scalar_op`, on points. */
  method PointScalarOp(v: Point2, scalar: real, op: (real, real) --> real) returns (r: Point2)
    requires op.requires(v.x, scalar) && op.requires(v.y, scalar)
    ensures r.x == op(v.x, scalar) && r.y == op(v.y, scalar)
  {
    r := v.(x := op(v.x, scalar));
    r := r.(y := op(r.y, scalar));
  }

  // Properties relating the helpers to each other.

  /** `get_vec_from_to` is antisymmetric, and adding `get_vec_from_to(p1, p2)`
      to `p2` gives back `p1`. */
  lemma GetVecFromToAntisymmetric(p1: Point2, p2: Point2)
    ensures GetVecFromTo(p2, p1) == Vector2(-GetVecFromTo(p1, p2).x, -GetVecFromTo(p1, p2).y)
    ensures Point2(p2.x + GetVecFromTo(p1, p2).x, p2.y + GetVecFromTo(p1, p2).y) == p1
  {
  }

  lemma NegatedSquare(a: real, b: real)
    requires b == -a
    ensures b * b == a * a
  {
  }

  /** Reversing a vector keeps its length. */
  lemma NegatedLength(sqrt: real -> real, v: Vector2)
    requires IsSqrt(sqrt)
    ensures VectorLength(sqrt, Vector2(-v.x, -v.y)) == VectorLength(sqrt, v)
  {
    var w := Vector2(-v.x, -v.y);
    NegatedSquare(v.x, w.x);
    NegatedSquare(v.y, w.y);
    RootUnique(VectorLength(sqrt, w), VectorLength(sqrt, v));
  }

  /** The distance of two points is symmetric, non-negative, and zero exactly
      when the points agree. */
  lemma DistanceProperties(sqrt: real -> real, p1: Point2, p2: Point2)
    requires IsSqrt(sqrt)
    ensures Distance(sqrt, p1, p2) == Distance(sqrt, p2, p1)
    ensures 0.0 <= Distance(sqrt, p1, p2)
    ensures Distance(sqrt, p1, p2) == 0.0 <==> p1 == p2
  {
    var d := GetVecFromTo(p1, p2);
    GetVecFromToAntisymmetric(p1, p2);
    NegatedLength(sqrt, d);
    assert d == ZeroVector <==> p1 == p2;
  }

  /** Scaling a non-zero vector by a positive factor does not change its
      unit vector. */
  lemma NormalizedScaleInvariant(sqrt: real -> real, v: Vector2, k: real)
    requires IsSqrt(sqrt)
    requires v != ZeroVector && 0.0 < k
    ensures Vector2(v.x * k, v.y * k) != ZeroVector
    ensures Normalized(sqrt, Vector2(v.x * k, v.y * k)) == Normalized(sqrt, v)
  {
    var w := Vector2(v.x * k, v.y * k);
    var len := VectorLength(sqrt, v);
    ScaledLength(sqrt, v, k);
    assert VectorLength(sqrt, w) == k * len;
    DivCancel(v.x, k, len);
    DivCancel(v.y, k, len);
  }

  // The expected values of tests/tools_test.rs that hold over the reals.

  /** (10, 0) has length 10 and normalises to (1, 0). */
  lemma NormalizeTen(sqrt: real -> real)
    requires IsSqrt(sqrt)
    ensures VectorLength(sqrt, Vector2(10.0, 0.0)) == 10.0
    ensures Normalized(sqrt, Vector2(10.0, 0.0)) == Vector2(1.0, 0.0)
  {
    RootUnique(VectorLength(sqrt, Vector2(10.0, 0.0)), 10.0);
  }

  /** From (2, 4) and (1, 2) the vector is (1, 2); the other way round (-1, -2). */
  lemma GetVecFromToExample()
    ensures GetVecFromTo(Point2(2.0, 4.0), Point2(1.0, 2.0)) == Vector2(1.0, 2.0)
    ensures GetVecFromTo(Point2(1.0, 2.0), Point2(2.0, 4.0)) == Vector2(-1.0, -2.0)
  {
  }

  /** (10, 0) limited to 10 is unchanged; limited to 5 it becomes (5, 0). */
  lemma LimitTen(sqrt: real -> real)
    requires IsSqrt(sqrt)
    ensures Limited(sqrt, Vector2(10.0, 0.0), 10.0) == Vector2(10.0, 0.0)
    ensures Limited(sqrt, Vector2(10.0, 0.0), 5.0) == Vector2(5.0, 0.0)
  {
    RootUnique(VectorLength(sqrt, Vector2(10.0, 0.0)), 10.0);
  }
}
