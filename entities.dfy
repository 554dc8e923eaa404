/** The entities of src/entities.rs: a bird that flies straight on at a
    fixed speed and, whenever its countdown of 0.1 s runs out, turns by a
    small random angle; and an obstacle, which is only ever constructed.

    `sin` and `cos` are parameters of the members that use them, and the
    random angle of a turn is a parameter of the update, restricted to the
    range the source draws it from. */
module Entities {
  import opened Tools

  const SPEED: real := 1.5
  const VIEW_DISTANCE: real := 500.0
  /** The interval between two changes of heading, in seconds. */
  const ORIENT_UPDATE_INTERVAL: real := 0.1
  /** Half the width of the range `gen_range(-0.261799..0.261799)` draws a
      turn from (about 15 degrees, in radians). */
  const MAX_TURN: real := 0.261799

  /** The timer runs out on this update: after subtracting `seconds` it is
      at or below zero. */
  predicate RunsOut(timer: real, seconds: real) {
    timer - seconds <= 0.0
  }

  /** The timer after one update: `seconds` less, or back at the interval
      when it ran out. With a positive step, a timer in (0, interval] stays
      there. */
  function NextTimer(timer: real, seconds: real): (r: real)
    ensures RunsOut(timer, seconds) ==> r == ORIENT_UPDATE_INTERVAL
    ensures !RunsOut(timer, seconds) ==> r == timer - seconds
    ensures 0.0 < seconds && 0.0 < timer <= ORIENT_UPDATE_INTERVAL ==> 0.0 < r <= ORIENT_UPDATE_INTERVAL
  {
    if RunsOut(timer, seconds) then ORIENT_UPDATE_INTERVAL else timer - seconds
  }

  /** The timer after `n` updates of `seconds` each, starting from a new
      bird's timer. */
  function TimerAfter(n: nat, seconds: real): real {
    if n == 0 then ORIENT_UPDATE_INTERVAL else NextTimer(TimerAfter(n - 1, seconds), seconds)
  }

  /** With a positive step the timer never leaves (0, interval]. */
  lemma {:induction false} TimerStaysInRange(n: nat, seconds: real)
    requires 0.0 < seconds
    ensures 0.0 < TimerAfter(n, seconds) <= ORIENT_UPDATE_INTERVAL
  {
    if n > 0 {
      TimerStaysInRange(n - 1, seconds);
    }
  }

  /** At the tick rate of the simulation, 1/60 s, a new bird's timer runs
      out on the sixth update and on no update before it. This holds over
      the reals; in `f32` six steps of `1.0 / 60.0` leave the timer slightly
      positive, so it runs out on the seventh update. */
  lemma FirstTurnAtSixthTick(seconds: real)
    requires seconds == 1.0 / 60.0
    ensures forall n: nat :: n < 6 ==> TimerAfter(n, seconds) == 0.1 - (n as real) * seconds
    ensures forall n: nat :: n < 5 ==> !RunsOut(TimerAfter(n, seconds), seconds)
    ensures RunsOut(TimerAfter(5, seconds), seconds)
    ensures TimerAfter(6, seconds) == ORIENT_UPDATE_INTERVAL
  {
    assert TimerAfter(1, seconds) == 0.1 - 1.0 * seconds;
    assert TimerAfter(2, seconds) == 0.1 - 2.0 * seconds;
    assert TimerAfter(3, seconds) == 0.1 - 3.0 * seconds;
    assert TimerAfter(4, seconds) == 0.1 - 4.0 * seconds;
    assert TimerAfter(5, seconds) == 0.1 - 5.0 * seconds;
    forall n: nat | n < 6
      ensures TimerAfter(n, seconds) == 0.1 - (n as real) * seconds
    {
      if n == 0 {} else if n == 1 {} else if n == 2 {} else if n == 3 {} else if n == 4 {} else {}
    }
  }

  /** The displacement of one update: `SPEED` along the heading, with the
      heading measured so that `sin` gives the x and `cos` the y part. */
  function Step(sin: real -> real, cos: real -> real, orient: real): Vector2 {
    Vector2(sin(orient) * SPEED, cos(orient) * SPEED)
  }

  /** Where `sin` and `cos` satisfy the Pythagorean identity at the
      heading, one update moves the bird by exactly `SPEED`. */
  lemma StepLength(sqrt: real -> real, sin: real -> real, cos: real -> real, orient: real)
    requires IsSqrt(sqrt)
    requires sin(orient) * sin(orient) + cos(orient) * cos(orient) == 1.0
    ensures VectorLength(sqrt, Step(sin, cos, orient)) == SPEED
  {
    var u := Vector2(sin(orient), cos(orient));
    ScaledLength(sqrt, u, SPEED);
    assert u.x * u.x + u.y * u.y == 1.0;
    RootUnique(VectorLength(sqrt, u), 1.0);
  }

  /** A bird of src/entities.rs: position, heading in radians and the
      countdown to its next change of heading. */
  class Bird {
    var pos: Point2
    var orient: real
    var timeUntilOrientUpdate: real

    /** The countdown is positive and at most the interval. */
    ghost predicate Valid()
      reads this
    {
      0.0 < timeUntilOrientUpdate <= ORIENT_UPDATE_INTERVAL
    }

    /** `Bird::new`: the given position and heading, a full countdown. */
    constructor (pos: Point2, orient: real)
      ensures this.pos == pos && this.orient == orient
      ensures timeUntilOrientUpdate == ORIENT_UPDATE_INTERVAL
      ensures Valid()
    {
      this.pos := pos;
      this.orient := orient;
      timeUntilOrientUpdate := 0.1;
    }

    /** `Bird::update`: one step along the old heading, then the countdown;
        when it runs out it restarts and the heading turns by `turn`, the
        value the random source draws at that moment. Otherwise the heading
        is left exactly as it was. */
    method Update(seconds: real, sin: real -> real, cos: real -> real, turn: real)
      requires -MAX_TURN <= turn < MAX_TURN
      modifies this
      ensures pos == Point2(old(pos).x + Step(sin, cos, old(orient)).x, old(pos).y + Step(sin, cos, old(orient)).y)
      ensures timeUntilOrientUpdate == NextTimer(old(timeUntilOrientUpdate), seconds)
      ensures RunsOut(old(timeUntilOrientUpdate), seconds) ==> orient == old(orient) + turn
      ensures !RunsOut(old(timeUntilOrientUpdate), seconds) ==> orient == old(orient)
      ensures -MAX_TURN <= orient - old(orient) < MAX_TURN
      ensures old(Valid()) && 0.0 < seconds ==> Valid()
    {
      var xOffset := sin(orient) * SPEED;
      var yOffset := cos(orient) * SPEED;
      pos := pos.(x := pos.x + xOffset);
      pos := pos.(y := pos.y + yOffset);

      timeUntilOrientUpdate := timeUntilOrientUpdate - seconds;
      var orientationRandOffset := 0.0;
      if timeUntilOrientUpdate <= 0.0 {
        timeUntilOrientUpdate := 0.1;
        orientationRandOffset := turn;
      }
      orient := orient + orientationRandOffset;
    }
  }

  /** An obstacle: a position and a radius. */
  datatype Obstacle = Obstacle(pos: Point2, radius: real)

  /** `Obstacle::new`: stores both arguments as they are. */
  function NewObstacle(pos: Point2, radius: real): (o: Obstacle)
    ensures o.pos == pos && o.radius == radius
  {
    Obstacle(pos, radius)
  }
}
