/** The per-bird steering computation of one simulation tick
    (`MainState::update`, src/main.rs): the three neighbour scans of the
    alignment, separation and cohesion rules and the acceleration that sums
    the rules that are switched on.

    The specification functions describe what each scan leaves behind; the
    methods are the scans themselves, loop by loop, and are proved to leave
    exactly that. Both read the flock as it is when bird `i` comes up: the
    birds before `i` have already been moved in this tick. */
module Steering {
  import opened Tools

  /** A bird as `MainState` uses it: position, velocity and the flag that
      decides whether it survives the removal at the end of a tick. */
  datatype Bird = Bird(pos: Point2, vel: Vector2, isAlive: bool)

  /** An acceleration as `f32` arithmetic can produce it. The cohesion rule
      normalises a vector that can be zero; `0.0 / 0.0` is NaN in `f32`, and
      every later sum with a NaN component stays NaN. The reals have no NaN,
      so the model says so explicitly. */
  datatype Accel = Finite(v: Vector2) | NotANumber

  const ALIGNMENT_VIEW_DISTANCE: real := 80.0
  const SEPARATION_VIEW_DISTANCE: real := 25.0
  const COHESION_DISTANCE: real := 80.0
  const MAX_SPEED: real := 2.0
  const MAX_STEERING_VELOCITY: real := 0.5

  const Origin := Point2(0.0, 0.0)

  // Component-wise arithmetic, the closures the source passes to `vec_op`,
  // `vec_scalar_op`, `point_op` and `point_scalar_op`.

  function Plus(u: Vector2, v: Vector2): Vector2 {
    Vector2(u.x + v.x, u.y + v.y)
  }

  function Minus(u: Vector2, v: Vector2): Vector2 {
    Vector2(u.x - v.x, u.y - v.y)
  }

  function Scale(u: Vector2, k: real): Vector2 {
    Vector2(u.x * k, u.y * k)
  }

  function DivBy(u: Vector2, k: real): Vector2
    requires k != 0.0
  {
    Vector2(u.x / k, u.y / k)
  }

  function PointPlus(p: Point2, q: Point2): Point2 {
    Point2(p.x + q.x, p.y + q.y)
  }

  function PointDivBy(p: Point2, k: real): Point2
    requires k != 0.0
  {
    Point2(p.x / k, p.y / k)
  }

  /** `other` is a neighbour of `me` for a rule with view distance `view`:
      the distance is positive and at most `view`. */
  predicate IsNeighbour(sqrt: real -> real, me: Bird, other: Bird, view: real)
    requires IsSqrt(sqrt)
  {
    0.0 < Distance(sqrt, me.pos, other.pos) <= view
  }

  /** How many birds of `flock` are neighbours of `me`. */
  function NeighbourCount(sqrt: real -> real, me: Bird, flock: seq<Bird>, view: real): (n: nat)
    requires IsSqrt(sqrt)
    ensures n <= |flock|
  {
    if |flock| == 0 then 0
    else
      NeighbourCount(sqrt, me, flock[..|flock| - 1], view)
      + (if IsNeighbour(sqrt, me, flock[|flock| - 1], view) then 1 else 0)
  }

  /** The sum of the velocities of the neighbours of `me`. */
  function VelocitySum(sqrt: real -> real, me: Bird, flock: seq<Bird>, view: real): Vector2
    requires IsSqrt(sqrt)
  {
    if |flock| == 0 then ZeroVector
    else
      var s := VelocitySum(sqrt, me, flock[..|flock| - 1], view);
      if IsNeighbour(sqrt, me, flock[|flock| - 1], view) then Plus(s, flock[|flock| - 1].vel) else s
  }

  /** The sum of the positions of the neighbours of `me`. */
  function PositionSum(sqrt: real -> real, me: Bird, flock: seq<Bird>, view: real): Point2
    requires IsSqrt(sqrt)
  {
    if |flock| == 0 then Origin
    else
      var s := PositionSum(sqrt, me, flock[..|flock| - 1], view);
      if IsNeighbour(sqrt, me, flock[|flock| - 1], view) then PointPlus(s, flock[|flock| - 1].pos) else s
  }

  /** What one close neighbour adds to the separation sum: the unit vector
      from the neighbour to `me`, divided by their distance. */
  function AwayFrom(sqrt: real -> real, me: Bird, other: Bird): Vector2
    requires IsSqrt(sqrt)
    requires IsNeighbour(sqrt, me, other, SEPARATION_VIEW_DISTANCE)
  {
    DivBy(Normalized(sqrt, GetVecFromTo(me.pos, other.pos)), Distance(sqrt, me.pos, other.pos))
  }

  /** The sum of `AwayFrom` over the separation neighbours of `me`. */
  function AwaySum(sqrt: real -> real, me: Bird, flock: seq<Bird>): Vector2
    requires IsSqrt(sqrt)
  {
    if |flock| == 0 then ZeroVector
    else
      var s := AwaySum(sqrt, me, flock[..|flock| - 1]);
      var other := flock[|flock| - 1];
      if IsNeighbour(sqrt, me, other, SEPARATION_VIEW_DISTANCE) then Plus(s, AwayFrom(sqrt, me, other)) else s
  }

  /** The steering step shared by separation and cohesion: the desired
      direction at `MAX_SPEED`, minus the bird's own velocity, limited to
      `MAX_STEERING_VELOCITY`. */
  function Steer(sqrt: real -> real, desired: Vector2, vel: Vector2): (r: Vector2)
    requires IsSqrt(sqrt)
    requires desired != ZeroVector
    ensures VectorLength(sqrt, r) <= MAX_STEERING_VELOCITY
  {
    Limited(sqrt, Minus(Scale(Normalized(sqrt, desired), MAX_SPEED), vel), MAX_STEERING_VELOCITY)
  }

  /** The alignment contribution: the average velocity of the alignment
      neighbours, or the zero vector when there are none. */
  function Alignment(sqrt: real -> real, me: Bird, flock: seq<Bird>): Vector2
    requires IsSqrt(sqrt)
  {
    var n := NeighbourCount(sqrt, me, flock, ALIGNMENT_VIEW_DISTANCE);
    var s := VelocitySum(sqrt, me, flock, ALIGNMENT_VIEW_DISTANCE);
    if n > 0 then DivBy(s, n as real) else s
  }

  /** The separation contribution, where `carried` is the value the
      neighbour counter already holds when the separation scan starts: the
      source does not reset it, so the sum is divided by the alignment count
      plus the separation count. The averaged vector is steered on only when
      it is non-zero. */
  function SeparationWith(sqrt: real -> real, me: Bird, flock: seq<Bird>, carried: nat): (r: Vector2)
    requires IsSqrt(sqrt)
    ensures VectorLength(sqrt, r) <= MAX_STEERING_VELOCITY
  {
    var n := carried + NeighbourCount(sqrt, me, flock, SEPARATION_VIEW_DISTANCE);
    var s := AwaySum(sqrt, me, flock);
    var average := if n > 0 then DivBy(s, n as real) else s;
    if VectorLength(sqrt, average) > 0.0 then Steer(sqrt, average, me.vel) else average
  }

  /** The separation contribution as the tick computes it, after the
      alignment scan has left its count behind. */
  function Separation(sqrt: real -> real, me: Bird, flock: seq<Bird>): Vector2
    requires IsSqrt(sqrt)
  {
    SeparationWith(sqrt, me, flock, NeighbourCount(sqrt, me, flock, ALIGNMENT_VIEW_DISTANCE))
  }

  /** The average position of the cohesion neighbours (the point the source
      divides by the count). */
  function AveragePosition(sqrt: real -> real, me: Bird, flock: seq<Bird>): Point2
    requires IsSqrt(sqrt)
    requires NeighbourCount(sqrt, me, flock, COHESION_DISTANCE) > 0
  {
    PointDivBy(PositionSum(sqrt, me, flock, COHESION_DISTANCE),
               NeighbourCount(sqrt, me, flock, COHESION_DISTANCE) as real)
  }

  /** The cohesion contribution. With no neighbours it is zero. Otherwise it
      steers along `get_vec_from_to(pos, average)`, which is `pos - average`
      and so points away from the average; with no zero-length guard it is
      NaN exactly when the bird sits on the average of its neighbours. A
      finite result is never longer than `MAX_STEERING_VELOCITY`. */
  function Cohesion(sqrt: real -> real, me: Bird, flock: seq<Bird>): (r: Accel)
    requires IsSqrt(sqrt)
    ensures NeighbourCount(sqrt, me, flock, COHESION_DISTANCE) == 0 ==> r == Finite(ZeroVector)
    ensures r == NotANumber <==>
              NeighbourCount(sqrt, me, flock, COHESION_DISTANCE) > 0 &&
              AveragePosition(sqrt, me, flock) == me.pos
    ensures r.Finite? ==> VectorLength(sqrt, r.v) <= MAX_STEERING_VELOCITY
  {
    if NeighbourCount(sqrt, me, flock, COHESION_DISTANCE) == 0 then
      assert VectorLength(sqrt, ZeroVector) == 0.0;
      Finite(ZeroVector)
    else
      var toward := GetVecFromTo(me.pos, AveragePosition(sqrt, me, flock));
      if toward == ZeroVector then NotANumber else Finite(Steer(sqrt, toward, me.vel))
  }

  /** Adding a finite vector to an acceleration; NaN absorbs it. */
  function AddTo(a: Accel, v: Vector2): Accel {
    match a
    case Finite(u) => Finite(Plus(u, v))
    case NotANumber => NotANumber
  }

  /** How the tick sums the three contributions: starting from zero, the
      contribution of each rule that is switched on is added, in the order
      alignment, separation, cohesion. */
  function Combine(alignment: Vector2, separation: Vector2, cohesion: Accel,
                   alignmentRule: bool, separationRule: bool, cohesionRule: bool): Accel
  {
    var a := if alignmentRule then Plus(ZeroVector, alignment) else ZeroVector;
    var b := if separationRule then Plus(a, separation) else a;
    if !cohesionRule then Finite(b)
    else
      match cohesion
      case Finite(c) => Finite(Plus(b, c))
      case NotANumber => NotANumber
  }

  /** The acceleration handed to bird `me`. All three contributions are
      computed whatever the flags say; the flags only decide which are added. */
  function Acceleration(sqrt: real -> real, me: Bird, flock: seq<Bird>,
                        alignmentRule: bool, separationRule: bool, cohesionRule: bool): Accel
    requires IsSqrt(sqrt)
  {
    Combine(Alignment(sqrt, me, flock), Separation(sqrt, me, flock), Cohesion(sqrt, me, flock),
            alignmentRule, separationRule, cohesionRule)
  }

  // Properties of the neighbour scans.

  /** A bird at the same position as `me`, in particular `me` itself, is
      never its neighbour. */
  lemma SamePositionIsNoNeighbour(sqrt: real -> real, me: Bird, other: Bird, view: real)
    requires IsSqrt(sqrt)
    requires other.pos == me.pos
    ensures !IsNeighbour(sqrt, me, other, view)
  {
    DistanceProperties(sqrt, me.pos, other.pos);
  }

  /** The count is zero exactly when no bird of the flock is a neighbour. */
  lemma {:induction false} NoNeighbours(sqrt: real -> real, me: Bird, flock: seq<Bird>, view: real)
    requires IsSqrt(sqrt)
    ensures NeighbourCount(sqrt, me, flock, view) == 0 <==>
              forall j :: 0 <= j < |flock| ==> !IsNeighbour(sqrt, me, flock[j], view)
  {
    if |flock| > 0 {
      var init := flock[..|flock| - 1];
      NoNeighbours(sqrt, me, init, view);
      assert forall j :: 0 <= j < |init| ==> init[j] == flock[j];
    }
  }

  /** Without neighbours every sum of a scan is zero. */
  lemma {:induction false} SumsWithoutNeighbours(sqrt: real -> real, me: Bird, flock: seq<Bird>, view: real)
    requires IsSqrt(sqrt)
    requires NeighbourCount(sqrt, me, flock, view) == 0
    ensures VelocitySum(sqrt, me, flock, view) == ZeroVector
    ensures PositionSum(sqrt, me, flock, view) == Origin
  {
    if |flock| > 0 {
      SumsWithoutNeighbours(sqrt, me, flock[..|flock| - 1], view);
    }
  }

  /** Without separation neighbours the separation sum is zero. */
  lemma {:induction false} AwaySumWithoutNeighbours(sqrt: real -> real, me: Bird, flock: seq<Bird>)
    requires IsSqrt(sqrt)
    requires NeighbourCount(sqrt, me, flock, SEPARATION_VIEW_DISTANCE) == 0
    ensures AwaySum(sqrt, me, flock) == ZeroVector
  {
    if |flock| > 0 {
      AwaySumWithoutNeighbours(sqrt, me, flock[..|flock| - 1]);
    }
  }

  /** One more bird in the flock: the count and the sums change only when
      it is a neighbour, and then by that bird's share. */
  lemma ScanStep(sqrt: real -> real, me: Bird, flock: seq<Bird>, j: nat, view: real)
    requires IsSqrt(sqrt)
    requires j < |flock|
    ensures var other := flock[j];
            var init := flock[..j];
            var neighbour := IsNeighbour(sqrt, me, other, view);
            NeighbourCount(sqrt, me, flock[..j + 1], view)
              == NeighbourCount(sqrt, me, init, view) + (if neighbour then 1 else 0) &&
            VelocitySum(sqrt, me, flock[..j + 1], view)
              == (if neighbour then Plus(VelocitySum(sqrt, me, init, view), other.vel)
                  else VelocitySum(sqrt, me, init, view)) &&
            PositionSum(sqrt, me, flock[..j + 1], view)
              == (if neighbour then PointPlus(PositionSum(sqrt, me, init, view), other.pos)
                  else PositionSum(sqrt, me, init, view))
  {
    assert flock[..j + 1][..j] == flock[..j];
  }

  /** One more bird in the flock, for the separation sum. */
  lemma AwaySumStep(sqrt: real -> real, me: Bird, flock: seq<Bird>, j: nat)
    requires IsSqrt(sqrt)
    requires j < |flock|
    ensures var other := flock[j];
            AwaySum(sqrt, me, flock[..j + 1])
              == if IsNeighbour(sqrt, me, other, SEPARATION_VIEW_DISTANCE)
                 then Plus(AwaySum(sqrt, me, flock[..j]), AwayFrom(sqrt, me, other))
                 else AwaySum(sqrt, me, flock[..j])
  {
    assert flock[..j + 1][..j] == flock[..j];
  }

  // Properties of the rules.

  /** Multiplying a quotient by the divisor gives back the dividend. */
  lemma TimesDivBy(s: Vector2, k: real)
    requires k != 0.0
    ensures k * DivBy(s, k).x == s.x && k * DivBy(s, k).y == s.y
  {
    DivIsTimesInverse(s.x, k);
    DivIsTimesInverse(s.y, k);
  }

  /** Alignment is the average neighbour velocity: times the count it gives
      back the sum, and it is zero without neighbours. */
  lemma AlignmentIsAverage(sqrt: real -> real, me: Bird, flock: seq<Bird>)
    requires IsSqrt(sqrt)
    ensures var n := NeighbourCount(sqrt, me, flock, ALIGNMENT_VIEW_DISTANCE);
            var s := VelocitySum(sqrt, me, flock, ALIGNMENT_VIEW_DISTANCE);
            var a := Alignment(sqrt, me, flock);
            (n == 0 ==> a == ZeroVector) &&
            (n > 0 ==> (n as real) * a.x == s.x && (n as real) * a.y == s.y)
  {
    var n := NeighbourCount(sqrt, me, flock, ALIGNMENT_VIEW_DISTANCE);
    var s := VelocitySum(sqrt, me, flock, ALIGNMENT_VIEW_DISTANCE);
    if n == 0 {
      SumsWithoutNeighbours(sqrt, me, flock, ALIGNMENT_VIEW_DISTANCE);
    } else {
      var k := n as real;
      assert Alignment(sqrt, me, flock) == DivBy(s, k);
      TimesDivBy(s, k);
    }
  }

  /** Without separation neighbours the separation contribution is zero,
      whatever the counter carried over. */
  lemma SeparationWithoutNeighbours(sqrt: real -> real, me: Bird, flock: seq<Bird>, carried: nat)
    requires IsSqrt(sqrt)
    requires NeighbourCount(sqrt, me, flock, SEPARATION_VIEW_DISTANCE) == 0
    ensures SeparationWith(sqrt, me, flock, carried) == ZeroVector
  {
    AwaySumWithoutNeighbours(sqrt, me, flock);
    var n := carried + NeighbourCount(sqrt, me, flock, SEPARATION_VIEW_DISTANCE);
    if n > 0 {
      assert DivBy(ZeroVector, n as real) == ZeroVector;
    }
  }

  /** Dividing a vector by a positive count keeps it zero or non-zero and
      keeps its unit vector. */
  lemma DivByPositive(sqrt: real -> real, s: Vector2, n: real)
    requires IsSqrt(sqrt) && 0.0 < n
    ensures DivBy(s, n) == ZeroVector <==> s == ZeroVector
    ensures s != ZeroVector ==> Normalized(sqrt, DivBy(s, n)) == Normalized(sqrt, s)
  {
    var k := 1.0 / n;
    InverseTimes(n);
    DivIsTimesInverse(s.x, n);
    DivIsTimesInverse(s.y, n);
    assert DivBy(s, n) == Vector2(s.x * k, s.y * k);
    if s != ZeroVector {
      NormalizedScaleInvariant(sqrt, s, k);
    }
  }

  /** The counter the separation scan inherits from the alignment scan
      changes the divisor, but over the reals a positive divisor does not
      change the direction that is steered on, so the contribution is the
      same whatever the counter carried. */
  lemma SeparationIgnoresCarriedCount(sqrt: real -> real, me: Bird, flock: seq<Bird>, c1: nat, c2: nat)
    requires IsSqrt(sqrt)
    ensures SeparationWith(sqrt, me, flock, c1) == SeparationWith(sqrt, me, flock, c2)
  {
    var k := NeighbourCount(sqrt, me, flock, SEPARATION_VIEW_DISTANCE);
    var s := AwaySum(sqrt, me, flock);
    if k == 0 {
      SeparationWithoutNeighbours(sqrt, me, flock, c1);
      SeparationWithoutNeighbours(sqrt, me, flock, c2);
    } else {
      DivByPositive(sqrt, s, (c1 + k) as real);
      DivByPositive(sqrt, s, (c2 + k) as real);
    }
  }

  /** Over the reals, dividing by the alignment count plus the separation
      count gives the same separation as dividing by the separation count
      alone. */
  lemma SeparationAsIfCounterReset(sqrt: real -> real, me: Bird, flock: seq<Bird>)
    requires IsSqrt(sqrt)
    ensures Separation(sqrt, me, flock) == SeparationWith(sqrt, me, flock, 0)
  {
    SeparationIgnoresCarriedCount(sqrt, me, flock,
      NeighbourCount(sqrt, me, flock, ALIGNMENT_VIEW_DISTANCE), 0);
  }

  // Properties of the acceleration.

  /** With every rule switched off the acceleration is zero. */
  lemma NoRulesNoAcceleration(sqrt: real -> real, me: Bird, flock: seq<Bird>)
    requires IsSqrt(sqrt)
    ensures Acceleration(sqrt, me, flock, false, false, false) == Finite(ZeroVector)
  {
  }

  /** Switching a rule on adds its contribution to what the other rules
      give, and nothing else; a NaN cohesion absorbs everything. */
  lemma CombineAdds(alignment: Vector2, separation: Vector2, cohesion: Accel,
                    alignmentRule: bool, separationRule: bool, cohesionRule: bool)
    ensures Combine(alignment, separation, cohesion, true, separationRule, cohesionRule)
            == AddTo(Combine(alignment, separation, cohesion, false, separationRule, cohesionRule), alignment)
    ensures Combine(alignment, separation, cohesion, alignmentRule, true, cohesionRule)
            == AddTo(Combine(alignment, separation, cohesion, alignmentRule, false, cohesionRule), separation)
    ensures cohesion.Finite? ==>
              Combine(alignment, separation, cohesion, alignmentRule, separationRule, true)
              == AddTo(Combine(alignment, separation, cohesion, alignmentRule, separationRule, false), cohesion.v)
    ensures Combine(alignment, separation, cohesion, alignmentRule, separationRule, cohesionRule) == NotANumber
            <==> cohesionRule && cohesion == NotANumber
  {
  }

  /** Switching a rule on adds that rule's contribution to the acceleration
      the other rules give. */
  lemma RulesAreAdded(sqrt: real -> real, me: Bird, flock: seq<Bird>,
                      alignmentRule: bool, separationRule: bool, cohesionRule: bool)
    requires IsSqrt(sqrt)
    ensures Acceleration(sqrt, me, flock, true, separationRule, cohesionRule)
            == AddTo(Acceleration(sqrt, me, flock, false, separationRule, cohesionRule), Alignment(sqrt, me, flock))
    ensures Acceleration(sqrt, me, flock, alignmentRule, true, cohesionRule)
            == AddTo(Acceleration(sqrt, me, flock, alignmentRule, false, cohesionRule), Separation(sqrt, me, flock))
    ensures Cohesion(sqrt, me, flock).Finite? ==>
              Acceleration(sqrt, me, flock, alignmentRule, separationRule, true)
              == AddTo(Acceleration(sqrt, me, flock, alignmentRule, separationRule, false), Cohesion(sqrt, me, flock).v)
  {
    CombineAdds(Alignment(sqrt, me, flock), Separation(sqrt, me, flock), Cohesion(sqrt, me, flock),
                alignmentRule, separationRule, cohesionRule);
  }

  /** The acceleration is NaN exactly when the cohesion rule is on and the
      bird sits on the average position of its cohesion neighbours. */
  lemma AccelerationNaN(sqrt: real -> real, me: Bird, flock: seq<Bird>,
                        alignmentRule: bool, separationRule: bool, cohesionRule: bool)
    requires IsSqrt(sqrt)
    ensures Acceleration(sqrt, me, flock, alignmentRule, separationRule, cohesionRule) == NotANumber <==>
              cohesionRule && NeighbourCount(sqrt, me, flock, COHESION_DISTANCE) > 0 &&
              AveragePosition(sqrt, me, flock) == me.pos
  {
    CombineAdds(Alignment(sqrt, me, flock), Separation(sqrt, me, flock), Cohesion(sqrt, me, flock),
                alignmentRule, separationRule, cohesionRule);
  }

  /** (-10, 0) normalises to (-1, 0). */
  lemma NormalizeExample(sqrt: real -> real)
    requires IsSqrt(sqrt)
    ensures Normalized(sqrt, Vector2(-10.0, 0.0)) == Vector2(-1.0, 0.0)
  {
    RootUnique(VectorLength(sqrt, Vector2(-10.0, 0.0)), 10.0);
  }

  /** In a flock of a bird at the origin and one at (10, 0), the first has
      exactly one cohesion neighbour and its average position is (10, 0). */
  lemma AverageExample(sqrt: real -> real)
    requires IsSqrt(sqrt)
    ensures var flock := [Bird(Origin, ZeroVector, true), Bird(Point2(10.0, 0.0), ZeroVector, true)];
            NeighbourCount(sqrt, flock[0], flock, COHESION_DISTANCE) == 1 &&
            AveragePosition(sqrt, flock[0], flock) == Point2(10.0, 0.0)
  {
    var me := Bird(Origin, ZeroVector, true);
    var other := Bird(Point2(10.0, 0.0), ZeroVector, true);
    var flock := [me, other];
    assert flock[..1] == [me];
    assert [me][..0] == [];
    RootUnique(VectorLength(sqrt, Vector2(-10.0, 0.0)), 10.0);
    assert Distance(sqrt, me.pos, other.pos) == 10.0;
    SamePositionIsNoNeighbour(sqrt, me, me, COHESION_DISTANCE);
    assert PositionSum(sqrt, me, [me], COHESION_DISTANCE) == Origin;
    assert IsNeighbour(sqrt, me, other, COHESION_DISTANCE);
  }

  /** A resting bird with one resting neighbour 10 units to its right is
      steered along (-10, 0), to the left and away from that neighbour
      (`NormalizeExample` gives the direction (-1, 0)):
      `get_vec_from_to(pos, average)` leads from the average to the bird. */
  lemma CohesionPointsAwayFromAverage(sqrt: real -> real)
    requires IsSqrt(sqrt)
    ensures var flock := [Bird(Origin, ZeroVector, true), Bird(Point2(10.0, 0.0), ZeroVector, true)];
            Cohesion(sqrt, flock[0], flock) == Finite(Steer(sqrt, Vector2(-10.0, 0.0), ZeroVector))
  {
    var flock := [Bird(Origin, ZeroVector, true), Bird(Point2(10.0, 0.0), ZeroVector, true)];
    AverageExample(sqrt);
    assert GetVecFromTo(flock[0].pos, AveragePosition(sqrt, flock[0], flock)) == Vector2(-10.0, 0.0);
  }

  // The scans as the tick runs them. Each reads bird `i` against every bird
  // of the flock, in index order, through the helpers of `Tools`.

  // The `vec_op`, `vec_scalar_op`, `point_op` and `point_scalar_op` calls
  // of the tick, each with the closure the source passes to it.

  /** `vec_op(&mut u, v, |a, b| a + b)`. */
  method AddVectors(u: Vector2, v: Vector2) returns (r: Vector2)
    ensures r == Plus(u, v)
  {
    r := VecOp(u, v, (a, b) => a + b);
  }

  /** `vec_op(&mut u, v, |a, b| a - b)`. */
  method SubtractVectors(u: Vector2, v: Vector2) returns (r: Vector2)
    ensures r == Minus(u, v)
  {
    r := VecOp(u, v, (a, b) => a - b);
  }

  /** `vec_scalar_op(&mut u, k, |a, b| a * b)`. */
  method ScaleVector(u: Vector2, k: real) returns (r: Vector2)
    ensures r == Scale(u, k)
  {
    r := VecScalarOp(u, k, (a, b) => a * b);
  }

  /** `vec_scalar_op(&mut u, k, |a, b| a / b)`, with a non-zero divisor. */
  method DivideVector(u: Vector2, k: real) returns (r: Vector2)
    requires k != 0.0
    ensures r == DivBy(u, k)
  {
    r := VecScalarOp(u, k, (a, b) requires b != 0.0 => a / b);
  }

  /** `point_op(&mut p, q, |a, b| a + b)`. */
  method AddPoints(p: Point2, q: Point2) returns (r: Point2)
    ensures r == PointPlus(p, q)
  {
    r := PointOp(p, q, (a, b) => a + b);
  }

  /** `point_scalar_op(&mut p, k, |a, b| a / b)`, with a non-zero divisor. */
  method DividePoint(p: Point2, k: real) returns (r: Point2)
    requires k != 0.0
    ensures r == PointDivBy(p, k)
  {
    r := PointScalarOp(p, k, (a, b) requires b != 0.0 => a / b);
  }

  /** The neighbour loop of the alignment scan (src/main.rs:161-171): the
      sum of the neighbours' velocities and their number. */
  method AlignmentSum(sqrt: real -> real, birds: seq<Bird>, i: nat)
      returns (velocitySumOfNeighbours: Vector2, numberOfNeighbours: nat)
    requires IsSqrt(sqrt)
    requires i < |birds|
    ensures velocitySumOfNeighbours == VelocitySum(sqrt, birds[i], birds, ALIGNMENT_VIEW_DISTANCE)
    ensures numberOfNeighbours == NeighbourCount(sqrt, birds[i], birds, ALIGNMENT_VIEW_DISTANCE)
  {
    velocitySumOfNeighbours := ZeroVector;
    numberOfNeighbours := 0;
    for j := 0 to |birds|
      invariant velocitySumOfNeighbours == VelocitySum(sqrt, birds[i], birds[..j], ALIGNMENT_VIEW_DISTANCE)
      invariant numberOfNeighbours == NeighbourCount(sqrt, birds[i], birds[..j], ALIGNMENT_VIEW_DISTANCE)
    {
      ScanStep(sqrt, birds[i], birds, j, ALIGNMENT_VIEW_DISTANCE);
      var distance := Distance(sqrt, birds[i].pos, birds[j].pos);
      if distance > 0.0 && distance <= ALIGNMENT_VIEW_DISTANCE {
        velocitySumOfNeighbours := AddVectors(velocitySumOfNeighbours, birds[j].vel);
        numberOfNeighbours := numberOfNeighbours + 1;
      }
    }
    assert birds[..|birds|] == birds;
  }

  /** The alignment scan (src/main.rs:161-174): the average neighbour
      velocity and the neighbour count it leaves in the shared counter. */
  method AlignmentScan(sqrt: real -> real, birds: seq<Bird>, i: nat)
      returns (velocitySumOfNeighbours: Vector2, numberOfNeighbours: nat)
    requires IsSqrt(sqrt)
    requires i < |birds|
    ensures numberOfNeighbours == NeighbourCount(sqrt, birds[i], birds, ALIGNMENT_VIEW_DISTANCE)
    ensures velocitySumOfNeighbours == Alignment(sqrt, birds[i], birds)
  {
    velocitySumOfNeighbours, numberOfNeighbours := AlignmentSum(sqrt, birds, i);
    if numberOfNeighbours > 0 {
      velocitySumOfNeighbours := DivideVector(velocitySumOfNeighbours, numberOfNeighbours as real);
    }
  }

  /** The steering step that the separation rule (src/main.rs:193-197) and
      the cohesion rule (src/main.rs:216-219) both write out: normalise,
      scale to `MAX_SPEED`, subtract the bird's velocity, limit. */
  method SteerAlong(sqrt: real -> real, desired: Vector2, vel: Vector2) returns (steer: Vector2)
    requires IsSqrt(sqrt)
    requires desired != ZeroVector
    ensures steer == Steer(sqrt, desired, vel)
  {
    steer := NormalizeVector(sqrt, desired);
    steer := ScaleVector(steer, MAX_SPEED);
    assert steer == Scale(Normalized(sqrt, desired), MAX_SPEED);
    steer := SubtractVectors(steer, vel);
    assert steer == Minus(Scale(Normalized(sqrt, desired), MAX_SPEED), vel);
    steer := LimitVelocity(sqrt, steer, MAX_STEERING_VELOCITY);
  }

  /** What one close neighbour adds to the separation sum
      (src/main.rs:183-186): the vector from the neighbour to the bird,
      normalised and divided by their distance. */
  method AwayFromNeighbour(sqrt: real -> real, me: Bird, other: Bird, distance: real)
      returns (vectorAwayFromNeighbour: Vector2)
    requires IsSqrt(sqrt)
    requires distance == Distance(sqrt, me.pos, other.pos)
    requires 0.0 < distance <= SEPARATION_VIEW_DISTANCE
    ensures vectorAwayFromNeighbour == AwayFrom(sqrt, me, other)
  {
    vectorAwayFromNeighbour := GetVecFromTo(me.pos, other.pos);
    vectorAwayFromNeighbour := NormalizeVector(sqrt, vectorAwayFromNeighbour);
    vectorAwayFromNeighbour := DivideVector(vectorAwayFromNeighbour, distance);
  }

  /** The neighbour loop of the separation scan (src/main.rs:180-191): the
      sum of `AwayFrom` over the close neighbours, and the shared counter,
      which starts at `numberOfNeighbours`, advanced by their number. */
  method SeparationSum(sqrt: real -> real, birds: seq<Bird>, i: nat, numberOfNeighbours: nat)
      returns (steerAwayVelocity: Vector2, count: nat)
    requires IsSqrt(sqrt)
    requires i < |birds|
    ensures steerAwayVelocity == AwaySum(sqrt, birds[i], birds)
    ensures count == numberOfNeighbours + NeighbourCount(sqrt, birds[i], birds, SEPARATION_VIEW_DISTANCE)
  {
    steerAwayVelocity := ZeroVector;
    count := numberOfNeighbours;
    for j := 0 to |birds|
      invariant steerAwayVelocity == AwaySum(sqrt, birds[i], birds[..j])
      invariant count == numberOfNeighbours + NeighbourCount(sqrt, birds[i], birds[..j], SEPARATION_VIEW_DISTANCE)
    {
      ScanStep(sqrt, birds[i], birds, j, SEPARATION_VIEW_DISTANCE);
      AwaySumStep(sqrt, birds[i], birds, j);
      var distance := Distance(sqrt, birds[i].pos, birds[j].pos);
      if distance > 0.0 && distance <= SEPARATION_VIEW_DISTANCE {
        var vectorAwayFromNeighbour := AwayFromNeighbour(sqrt, birds[i], birds[j], distance);
        steerAwayVelocity := AddVectors(steerAwayVelocity, vectorAwayFromNeighbour);
        count := count + 1;
      }
    }
    assert birds[..|birds|] == birds;
  }

  /** The separation scan (src/main.rs:180-199), starting from the counter
      value `numberOfNeighbours` that the alignment scan left behind. */
  method SeparationScan(sqrt: real -> real, birds: seq<Bird>, i: nat, numberOfNeighbours: nat)
      returns (steerAwayVelocity: Vector2)
    requires IsSqrt(sqrt)
    requires i < |birds|
    ensures steerAwayVelocity == SeparationWith(sqrt, birds[i], birds, numberOfNeighbours)
  {
    var count;
    steerAwayVelocity, count := SeparationSum(sqrt, birds, i, numberOfNeighbours);
    if count > 0 {
      steerAwayVelocity := DivideVector(steerAwayVelocity, count as real);
    }
    if VectorLength(sqrt, steerAwayVelocity) > 0.0 {
      steerAwayVelocity := SteerAlong(sqrt, steerAwayVelocity, birds[i].vel);
    }
  }

  /** The neighbour loop of the cohesion scan (src/main.rs:205-213): the
      sum of the neighbours' positions and their number. */
  method CohesionSum(sqrt: real -> real, birds: seq<Bird>, i: nat)
      returns (averagePosition: Point2, numberOfNeighbours: nat)
    requires IsSqrt(sqrt)
    requires i < |birds|
    ensures averagePosition == PositionSum(sqrt, birds[i], birds, COHESION_DISTANCE)
    ensures numberOfNeighbours == NeighbourCount(sqrt, birds[i], birds, COHESION_DISTANCE)
  {
    averagePosition := Origin;
    numberOfNeighbours := 0;
    for j := 0 to |birds|
      invariant averagePosition == PositionSum(sqrt, birds[i], birds[..j], COHESION_DISTANCE)
      invariant numberOfNeighbours == NeighbourCount(sqrt, birds[i], birds[..j], COHESION_DISTANCE)
    {
      ScanStep(sqrt, birds[i], birds, j, COHESION_DISTANCE);
      var distance := Distance(sqrt, birds[i].pos, birds[j].pos);
      if distance > 0.0 && distance <= COHESION_DISTANCE {
        averagePosition := AddPoints(averagePosition, birds[j].pos);
        numberOfNeighbours := numberOfNeighbours + 1;
      }
    }
    assert birds[..|birds|] == birds;
  }

  /** The cohesion scan (src/main.rs:205-222). Normalising the zero vector
      divides zero by zero, which leaves NaN. */
  method CohesionScan(sqrt: real -> real, birds: seq<Bird>, i: nat)
      returns (steerTowardsVelocity: Accel)
    requires IsSqrt(sqrt)
    requires i < |birds|
    ensures steerTowardsVelocity == Cohesion(sqrt, birds[i], birds)
  {
    var steer := ZeroVector;
    var averagePosition, numberOfNeighbours := CohesionSum(sqrt, birds, i);
    if numberOfNeighbours > 0 {
      averagePosition := DividePoint(averagePosition, numberOfNeighbours as real);
      assert averagePosition == AveragePosition(sqrt, birds[i], birds);
      steer := GetVecFromTo(birds[i].pos, averagePosition);
      if steer == ZeroVector {
        return NotANumber;
      }
      steer := SteerAlong(sqrt, steer, birds[i].vel);
    }
    return Finite(steer);
  }

  /** `if rule { vec_op(&mut sum, v, |a, b| a + b) }`: adds `v` to `sum`
      when the rule is switched on. */
  method AddIfOn(sum: Vector2, v: Vector2, rule: bool) returns (r: Vector2)
    ensures r == if rule then Plus(sum, v) else sum
  {
    r := sum;
    if rule {
      r := AddVectors(r, v);
    }
  }

  /** The acceleration of bird `i` (src/main.rs:158-225): the three scans,
      each added to the zero vector only when its rule is switched on. */
  method ComputeAcceleration(sqrt: real -> real, birds: seq<Bird>, i: nat,
                             alignmentRule: bool, separationRule: bool, cohesionRule: bool)
      returns (acceleration: Accel)
    requires IsSqrt(sqrt)
    requires i < |birds|
    ensures acceleration == Acceleration(sqrt, birds[i], birds, alignmentRule, separationRule, cohesionRule)
  {
    var sum := ZeroVector;
    var velocitySumOfNeighbours, numberOfNeighbours := AlignmentScan(sqrt, birds, i);
    sum := AddIfOn(sum, velocitySumOfNeighbours, alignmentRule);
    var steerAwayVelocity := SeparationScan(sqrt, birds, i, numberOfNeighbours);
    sum := AddIfOn(sum, steerAwayVelocity, separationRule);
    var steerTowardsVelocity := CohesionScan(sqrt, birds, i);
    acceleration := Finite(sum);
    if cohesionRule {
      match steerTowardsVelocity
      case Finite(c) =>
        sum := AddIfOn(sum, c, true);
        acceleration := Finite(sum);
      case NotANumber =>
        acceleration := NotANumber;
    }
    assert acceleration == Combine(velocitySumOfNeighbours, steerAwayVelocity, steerTowardsVelocity,
                                   alignmentRule, separationRule, cohesionRule);
  }
}
