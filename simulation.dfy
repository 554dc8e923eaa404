/** The simulation controller `MainState` of src/main.rs: the pause state
    machine, the rule switches and their keys, the spawn cooldown, and one
    tick of `update`, which spawns a bird under the mouse, moves every bird
    in index order and drops the dead ones.

    The mouse, the random velocity of a new bird, the square root and the
    bird's own update (`Bird::update(acceleration, MAX_SPEED, width,
    height)`, whose body is not part of this model) are parameters. */
module Simulation {
  import opened Tools
  import opened Steering

  datatype Pause = Running | ToPause | Paused

  /** The keys `key_down_event` tells apart; every other key is `Other`. */
  datatype Key = S | A | C | R | P | Escape | Other

  /** The three rule switches. */
  datatype Rules = Rules(separation: bool, alignment: bool, cohesion: bool)

  const DESIRED_FPS: nat := 60
  /** The length of one tick, `1.0 / DESIRED_FPS`. */
  const SECONDS: real := 1.0 / (DESIRED_FPS as real)
  /** The cooldown a spawn starts. */
  const SPAWN_COOLDOWN: real := 0.1
  /** The bound of `gen_range(-0.1 .. 0.1)` for a new bird's velocity. */
  const SPAWN_VELOCITY: real := 0.1

  /** The bird update the tick calls with the acceleration, the speed
      limit and the screen size. */
  type BirdUpdate = (Bird, Accel, real, real, real) -> Bird

  // The pause state machine.

  /** `toggle_pause`. */
  function TogglePaused(p: Pause): (r: Pause)
    ensures r != Paused
    ensures r == Running <==> p != Running
  {
    match p
    case Running => ToPause
    case ToPause => Running
    case Paused => Running
  }

  /** The pause step of `draw`: a pending pause takes effect. */
  function DrawPaused(p: Pause): (r: Pause)
    ensures p == ToPause ==> r == Paused
    ensures p != ToPause ==> r == p
  {
    if p == ToPause then Paused else p
  }

  /** Pressing P twice from a running game without a frame in between, or
      pressing it on a paused game, resumes; only a frame between the two
      presses reaches `Paused`. */
  lemma PauseCycle()
    ensures TogglePaused(TogglePaused(Running)) == Running
    ensures DrawPaused(TogglePaused(Running)) == Paused
    ensures TogglePaused(DrawPaused(TogglePaused(Running))) == Running
    ensures forall p :: DrawPaused(DrawPaused(p)) == DrawPaused(p)
  {
  }

  // The rule switches.

  /** `toggle_rule`: flips the switch the name stands for; any other name
      changes nothing. */
  function ToggleNamed(rules: Rules, rule: string): (r: Rules)
    ensures rule == "separation" ==> r == rules.(separation := !rules.separation)
    ensures rule == "alignment" ==> r == rules.(alignment := !rules.alignment)
    ensures rule == "cohesion" ==> r == rules.(cohesion := !rules.cohesion)
    ensures rule !in {"separation", "alignment", "cohesion"} ==> r == rules
  {
    if rule == "separation" then rules.(separation := !rules.separation)
    else if rule == "alignment" then rules.(alignment := !rules.alignment)
    else if rule == "cohesion" then rules.(cohesion := !rules.cohesion)
    else rules
  }

  /** Toggling the same rule twice restores every switch, and toggling a
      known rule changes exactly one switch. */
  lemma ToggleTwice(rules: Rules, rule: string)
    ensures ToggleNamed(ToggleNamed(rules, rule), rule) == rules
    ensures rule in {"separation", "alignment", "cohesion"} <==> ToggleNamed(rules, rule) != rules
  {
  }

  /** The rule name a key passes to `toggle_rule`. A key that switches no
      rule gets `""`, which is deliberately a name `toggle_rule` does not
      know, so that toggling it changes nothing (`KeysSwitchRules`). */
  function RuleOfKey(key: Key): string {
    match key
    case S => "separation"
    case A => "alignment"
    case C => "cohesion"
    case _ => ""
  }

  /** S, A and C switch separation, alignment and cohesion; no other key
      touches a switch. */
  lemma KeysSwitchRules(rules: Rules, key: Key)
    ensures key == S ==> ToggleNamed(rules, RuleOfKey(key)).separation != rules.separation
    ensures key == A ==> ToggleNamed(rules, RuleOfKey(key)).alignment != rules.alignment
    ensures key == C ==> ToggleNamed(rules, RuleOfKey(key)).cohesion != rules.cohesion
    ensures key !in {S, A, C} ==> ToggleNamed(rules, RuleOfKey(key)) == rules
  {
  }

  // Spawning.

  /** A running tick spawns a bird: the button is down and the cooldown,
      after this tick's decrement, has run out. */
  predicate Spawns(cooldown: real, pressed: bool) {
    pressed && cooldown - SECONDS <= 0.0
  }

  /** The cooldown after a running tick: decremented, and restarted by a
      spawn. */
  function CooldownAfter(cooldown: real, pressed: bool): (r: real)
    ensures Spawns(cooldown, pressed) ==> r == SPAWN_COOLDOWN
    ensures !Spawns(cooldown, pressed) ==> r == cooldown - SECONDS
  {
    if Spawns(cooldown, pressed) then SPAWN_COOLDOWN else cooldown - SECONDS
  }

  /** Two consecutive running ticks never both spawn. */
  lemma NoSpawnTwiceInARow(cooldown: real, pressed: bool, pressedNext: bool)
    requires Spawns(cooldown, pressed)
    ensures !Spawns(CooldownAfter(cooldown, pressed), pressedNext)
  {
  }

  /** The cooldown after `n` running ticks with the button held down. */
  function CooldownHeld(cooldown: real, n: nat): real {
    if n == 0 then cooldown else CooldownAfter(CooldownHeld(cooldown, n - 1), true)
  }

  /** Under `MainState.Valid()`, a cooldown of at most `SPAWN_COOLDOWN`,
      holding the button down spawns a bird on one of the next six running
      ticks. This holds over the reals, where 0.1 less six ticks of 1/60 is
      exactly zero; in `f32` a just-restarted cooldown is still slightly
      positive then and runs out on the seventh tick. */
  lemma HeldButtonSpawnsWithinSixTicks(cooldown: real)
    requires cooldown <= SPAWN_COOLDOWN
    ensures exists k :: 0 <= k < 6 && Spawns(CooldownHeld(cooldown, k), true)
  {
    if !Spawns(CooldownHeld(cooldown, 0), true) && !Spawns(CooldownHeld(cooldown, 1), true)
       && !Spawns(CooldownHeld(cooldown, 2), true) && !Spawns(CooldownHeld(cooldown, 3), true)
       && !Spawns(CooldownHeld(cooldown, 4), true) {
      assert CooldownHeld(cooldown, 5) == cooldown - 5.0 * SECONDS;
      assert Spawns(CooldownHeld(cooldown, 5), true);
    }
  }

  /** A spawned bird: alive, at the mouse, with the drawn velocity. */
  function NewBird(mouse: Point2, vx: real, vy: real): Bird {
    Bird(mouse, Vector2(vx, vy), true)
  }

  /** The flock after the spawn step of a running tick. */
  function Spawned(birds: seq<Bird>, cooldown: real, pressed: bool, mouse: Point2, vx: real, vy: real): (r: seq<Bird>)
    ensures Spawns(cooldown, pressed) ==> r == birds + [NewBird(mouse, vx, vy)]
    ensures !Spawns(cooldown, pressed) ==> r == birds
    ensures |r| <= |birds| + 1
  {
    if Spawns(cooldown, pressed) then birds + [NewBird(mouse, vx, vy)] else birds
  }

  // Moving the flock.

  /** How one bird of a tick is moved: its updated self, given itself and
      the flock as it is at its turn. */
  type Mover = (Bird, seq<Bird>) -> Bird

  /** The flock after the first `k` birds have been moved by `move`, in
      index order, each seeing the flock as it is at its turn. */
  function MovedBy(move: Mover, birds: seq<Bird>, k: nat): (r: seq<Bird>)
    requires k <= |birds|
    ensures |r| == |birds|
    ensures forall j :: k <= j < |birds| ==> r[j] == birds[j]
  {
    if k == 0 then birds
    else
      var s := MovedBy(move, birds, k - 1);
      s[k - 1 := move(s[k - 1], s)]
  }

  /** Once a bird has been moved it is not touched again: after any later
      number of moves it is as it was right after its own. */
  lemma {:induction false} MovedOnce(move: Mover, birds: seq<Bird>, j: nat, k: nat)
    requires j < k <= |birds|
    ensures MovedBy(move, birds, k)[j] == MovedBy(move, birds, j + 1)[j]
  {
    if k > j + 1 {
      MovedOnce(move, birds, j, k - 1);
    }
  }

  /** The move of src/main.rs:156-236: the bird's `update` with the
      acceleration of the switched-on rules. */
  function BirdMover(sqrt: real -> real, update: BirdUpdate, rules: Rules, width: real, height: real): Mover
    requires IsSqrt(sqrt)
  {
    (me: Bird, flock: seq<Bird>) =>
      update(me, Acceleration(sqrt, me, flock, rules.alignment, rules.separation, rules.cohesion),
             MAX_SPEED, width, height)
  }

  /** The flock after the first `k` birds of a tick have been moved. */
  function Moved(sqrt: real -> real, update: BirdUpdate, birds: seq<Bird>, k: nat,
                 rules: Rules, width: real, height: real): (r: seq<Bird>)
    requires IsSqrt(sqrt)
    requires k <= |birds|
    ensures |r| == |birds|
  {
    MovedBy(BirdMover(sqrt, update, rules, width, height), birds, k)
  }

  /** Bird `k` is moved with the acceleration it gets from the flock in
      which the birds before it have already moved and the birds after it
      have not. */
  lemma MovedInIndexOrder(sqrt: real -> real, update: BirdUpdate, birds: seq<Bird>, k: nat,
                          rules: Rules, width: real, height: real)
    requires IsSqrt(sqrt)
    requires k < |birds|
    ensures var s := Moved(sqrt, update, birds, k, rules, width, height);
            s[k] == birds[k] &&
            (forall j :: 0 <= j < k ==> s[j] == Moved(sqrt, update, birds, j + 1, rules, width, height)[j]) &&
            Moved(sqrt, update, birds, k + 1, rules, width, height)[k]
              == update(birds[k], Acceleration(sqrt, birds[k], s, rules.alignment, rules.separation, rules.cohesion),
                        MAX_SPEED, width, height)
  {
    forall j | 0 <= j < k
      ensures Moved(sqrt, update, birds, k, rules, width, height)[j]
              == Moved(sqrt, update, birds, j + 1, rules, width, height)[j]
    {
      MovedOnce(BirdMover(sqrt, update, rules, width, height), birds, j, k);
    }
  }

  // Removing dead birds.

  /** `retain(|bird| bird.is_alive)`: the living birds, in their order. */
  function Retained(birds: seq<Bird>): seq<Bird> {
    if |birds| == 0 then []
    else Retained(birds[..|birds| - 1]) + (if birds[|birds| - 1].isAlive then [birds[|birds| - 1]] else [])
  }

  /** The retained birds are exactly the living ones: every one is alive
      and comes from the flock, and every living bird of the flock is kept. */
  lemma {:induction false} RetainedExactlyAlive(birds: seq<Bird>)
    ensures forall b :: b in Retained(birds) <==> b in birds && b.isAlive
    ensures |Retained(birds)| <= |birds|
  {
    if |birds| > 0 {
      var init := birds[..|birds| - 1];
      RetainedExactlyAlive(init);
      assert birds == init + [birds[|birds| - 1]];
    }
  }

  /** Retaining keeps the order: it distributes over concatenation. */
  lemma {:induction false} RetainedConcat(s: seq<Bird>, t: seq<Bird>)
    ensures Retained(s + t) == Retained(s) + Retained(t)
  {
    if |t| == 0 {
      assert s + t == s;
    } else {
      var init := t[..|t| - 1];
      RetainedConcat(s, init);
      assert (s + t)[..|s + t| - 1] == s + init;
    }
  }

  /** A flock of living birds is kept as it is. */
  lemma {:induction false} RetainedAllAlive(birds: seq<Bird>)
    requires forall j :: 0 <= j < |birds| ==> birds[j].isAlive
    ensures Retained(birds) == birds
  {
    if |birds| > 0 {
      RetainedAllAlive(birds[..|birds| - 1]);
    }
  }

  /** The flock after key R: every bird marked dead, nothing removed. */
  function Killed(birds: seq<Bird>): (r: seq<Bird>)
    ensures |r| == |birds|
    ensures forall j :: 0 <= j < |birds| ==> r[j] == birds[j].(isAlive := false)
  {
    seq(|birds|, j requires 0 <= j < |birds| => birds[j].(isAlive := false))
  }

  /** After key R the next removal empties the flock. */
  lemma {:induction false} KilledAreRemoved(birds: seq<Bird>)
    ensures Retained(Killed(birds)) == []
  {
    if |birds| > 0 {
      var init := birds[..|birds| - 1];
      KilledAreRemoved(init);
      assert Killed(birds)[..|birds| - 1] == Killed(init);
    }
  }

  /** The loop of a running tick (src/main.rs:156-236): bird after bird, in
      index order, computes its acceleration on the flock as it is at that
      moment and is replaced by its updated self. */
  method MoveFlock(sqrt: real -> real, update: BirdUpdate, birds: seq<Bird>,
                   rules: Rules, width: real, height: real)
      returns (flock: seq<Bird>)
    requires IsSqrt(sqrt)
    ensures flock == Moved(sqrt, update, birds, |birds|, rules, width, height)
  {
    flock := birds;
    for i := 0 to |birds|
      invariant flock == Moved(sqrt, update, birds, i, rules, width, height)
    {
      var acceleration := ComputeAcceleration(sqrt, flock, i, rules.alignment, rules.separation, rules.cohesion);
      flock := flock[i := update(flock[i], acceleration, MAX_SPEED, width, height)];
    }
  }

  /** The running branch of a tick, on the values of the fields it reads
      and writes. */
  method RunningTick(sqrt: real -> real, update: BirdUpdate, birds: seq<Bird>, cooldown: real,
                     buttonPressed: bool, mouse: Point2, vx: real, vy: real,
                     rules: Rules, width: real, height: real)
      returns (newBirds: seq<Bird>, newCooldown: real)
    requires IsSqrt(sqrt)
    ensures newCooldown == CooldownAfter(cooldown, buttonPressed)
    ensures var spawned := Spawned(birds, cooldown, buttonPressed, mouse, vx, vy);
            newBirds == Retained(Moved(sqrt, update, spawned, |spawned|, rules, width, height))
  {
    newCooldown := cooldown - SECONDS;
    newBirds := birds;
    if buttonPressed && newCooldown <= 0.0 {
      newBirds := newBirds + [NewBird(mouse, vx, vy)];
      newCooldown := 0.1;
    }
    assert newBirds == Spawned(birds, cooldown, buttonPressed, mouse, vx, vy);
    var flock := MoveFlock(sqrt, update, newBirds, rules, width, height);
    newBirds := Retained(flock);
  }

  /** `MainState`, with the fields the tick reads and writes. */
  class MainState {
    var birds: seq<Bird>
    var separationRule: bool
    var alignmentRule: bool
    var cohesionRule: bool
    var screenWidth: real
    var screenHeight: real
    var birdSpawnCooldown: real
    var pause: Pause

    /** The cooldown never exceeds its restart value, so that a held button
        spawns within six ticks over the reals
        (`HeldButtonSpawnsWithinSixTicks`). */
    ghost predicate Valid()
      reads this
    {
      birdSpawnCooldown <= SPAWN_COOLDOWN
    }

    /** The switches as one value. */
    function CurrentRules(): Rules
      reads this
    {
      Rules(separationRule, alignmentRule, cohesionRule)
    }

    /** `MainState::new`: one bird in the middle of the screen moving at
        (0.1, 0.1), every rule switched on, a full cooldown, running. */
    constructor (screenWidth: real, screenHeight: real)
      ensures birds == [Bird(Point2(screenWidth / 2.0, screenHeight / 2.0), Vector2(0.1, 0.1), true)]
      ensures CurrentRules() == Rules(true, true, true)
      ensures this.screenWidth == screenWidth && this.screenHeight == screenHeight
      ensures birdSpawnCooldown == SPAWN_COOLDOWN
      ensures pause == Running
      ensures Valid()
    {
      birds := [Bird(Point2(screenWidth / 2.0, screenHeight / 2.0), Vector2(0.1, 0.1), true)];
      separationRule := true;
      alignmentRule := true;
      cohesionRule := true;
      this.screenWidth := screenWidth;
      this.screenHeight := screenHeight;
      birdSpawnCooldown := 0.1;
      pause := Running;
    }

    /** `toggle_rule`: flips the named switch and nothing else. */
    method ToggleRule(rule: string)
      modifies this
      ensures CurrentRules() == ToggleNamed(old(CurrentRules()), rule)
      ensures old(Valid()) ==> Valid()
      ensures birds == old(birds) && pause == old(pause) && birdSpawnCooldown == old(birdSpawnCooldown)
      ensures screenWidth == old(screenWidth) && screenHeight == old(screenHeight)
    {
      if rule == "separation" {
        separationRule := !separationRule;
      } else if rule == "alignment" {
        alignmentRule := !alignmentRule;
      } else if rule == "cohesion" {
        cohesionRule := !cohesionRule;
      }
    }

    /** `toggle_pause`. */
    method TogglePause()
      modifies this
      ensures pause == TogglePaused(old(pause))
      ensures old(Valid()) ==> Valid()
      ensures birds == old(birds) && CurrentRules() == old(CurrentRules())
      ensures birdSpawnCooldown == old(birdSpawnCooldown)
      ensures screenWidth == old(screenWidth) && screenHeight == old(screenHeight)
    {
      match pause
      case Running => pause := ToPause;
      case ToPause => pause := Running;
      case Paused => pause := Running;
    }

    /** The pause step of `draw`; the drawing itself is not modelled. */
    method DrawPauseStep()
      modifies this
      ensures pause == DrawPaused(old(pause))
      ensures old(Valid()) ==> Valid()
      ensures birds == old(birds) && CurrentRules() == old(CurrentRules())
      ensures birdSpawnCooldown == old(birdSpawnCooldown)
      ensures screenWidth == old(screenWidth) && screenHeight == old(screenHeight)
    {
      if pause == Running {
      } else if pause == ToPause {
        pause := Paused;
      }
    }

    /** `key_down_event`: S, A and C switch a rule, R marks every bird dead
        without removing any, P toggles the pause; Escape quits the
        program, which is not modelled, and other keys do nothing. */
    method KeyDownEvent(key: Key)
      modifies this
      ensures CurrentRules() == ToggleNamed(old(CurrentRules()), RuleOfKey(key))
      ensures old(Valid()) ==> Valid()
      ensures key == R ==> birds == Killed(old(birds))
      ensures key != R ==> birds == old(birds)
      ensures key == P ==> pause == TogglePaused(old(pause))
      ensures key != P ==> pause == old(pause)
      ensures birdSpawnCooldown == old(birdSpawnCooldown)
      ensures screenWidth == old(screenWidth) && screenHeight == old(screenHeight)
    {
      match key
      case S => ToggleRule("separation");
      case A => ToggleRule("alignment");
      case C => ToggleRule("cohesion");
      case R =>
        for j := 0 to |birds|
          invariant |birds| == |old(birds)|
          invariant forall k :: 0 <= k < j ==> birds[k] == old(birds)[k].(isAlive := false)
          invariant forall k :: j <= k < |birds| ==> birds[k] == old(birds)[k]
          invariant CurrentRules() == old(CurrentRules()) && pause == old(pause)
          invariant birdSpawnCooldown == old(birdSpawnCooldown)
          invariant screenWidth == old(screenWidth) && screenHeight == old(screenHeight)
        {
          birds := birds[j := birds[j].(isAlive := false)];
        }
      case P => TogglePause();
      case Escape =>
      case Other =>
    }

    /** One tick of `update` at `DESIRED_FPS`. When the game is not running
        nothing changes. Otherwise the cooldown is decremented and, if the
        button is down and the cooldown has run out, a bird is appended at
        the mouse with the drawn velocity and the cooldown restarts; then
        every bird is moved in index order and the dead ones are removed. */
    method Update(sqrt: real -> real, update: BirdUpdate, buttonPressed: bool, mouse: Point2, vx: real, vy: real)
      requires IsSqrt(sqrt)
      requires -SPAWN_VELOCITY <= vx < SPAWN_VELOCITY && -SPAWN_VELOCITY <= vy < SPAWN_VELOCITY
      requires Valid()
      modifies this
      ensures Valid()
      ensures old(pause) != Running ==>
                birds == old(birds) && birdSpawnCooldown == old(birdSpawnCooldown)
      ensures old(pause) == Running ==>
                birdSpawnCooldown == CooldownAfter(old(birdSpawnCooldown), buttonPressed)
      ensures old(pause) == Running ==>
                var spawned := Spawned(old(birds), old(birdSpawnCooldown), buttonPressed, mouse, vx, vy);
                birds == Retained(Moved(sqrt, update, spawned, |spawned|, old(CurrentRules()), screenWidth, screenHeight))
      ensures CurrentRules() == old(CurrentRules()) && pause == old(pause)
      ensures screenWidth == old(screenWidth) && screenHeight == old(screenHeight)
    {
      if pause == Running {
        birds, birdSpawnCooldown := RunningTick(sqrt, update, birds, birdSpawnCooldown, buttonPressed, mouse, vx, vy,
                                                CurrentRules(), screenWidth, screenHeight);
      }
    }
  }
}
