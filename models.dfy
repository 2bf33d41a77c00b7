/** The entities of the game: the player's craft, its lasers and the meteors. */
module Models {
  import opened Vectors
  import opened Lists
  import opened Wrappers
  import opened Timers
  import opened Settings

  /** The keys the entities and the game read in one frame: left and right are
      held, the other three are pressed this frame. */
  datatype Keys = Keys(left: bool, right: bool, space: bool, r: bool, escape: bool)

  const X_BOUND: real := 4.0
  const FLASH_START: real := 0.6
  const FLASH_FADE_RATE: real := 2.5
  const DEATH_DURATION: real := 0.25

  // ---------------------------------------------------------------- player

  /** The horizontal direction and the tilt the craft eases toward. */
  datatype Steering = Steering(dirX: real, targetAngle: real)

  /** Player.input's reading of the arrow keys: right wins when both are held, and
      the craft banks against its direction of travel. */
  function Steer(right: bool, left: bool): (s: Steering)
    ensures s.dirX == 1.0 <==> right
    ensures s.dirX == -1.0 <==> !right && left
    ensures s.dirX == 0.0 <==> !right && !left
    ensures s.targetAngle == -5.0 * s.dirX
  {
    if right then Steering(1.0, -5.0)
    else if left then Steering(-1.0, 5.0)
    else Steering(0.0, 0.0)
  }

  function Min(a: real, b: real): real { if a <= b then a else b }
  function Max(a: real, b: real): real { if a >= b then a else b }

  /** The point of [-4, 4] nearest to x. */
  function ClampX(x: real): (r: real)
    ensures -X_BOUND <= r <= X_BOUND
    ensures -X_BOUND <= x <= X_BOUND ==> r == x
    ensures x > X_BOUND ==> r == X_BOUND
    ensures x < -X_BOUND ==> r == -X_BOUND
  {
    Max(-X_BOUND, Min(x, X_BOUND))
  }

  /** One step of the tilt smoothing: angle += (target - angle) * dt * 5. */
  function Ease(angle: real, target: real, dt: real): real {
    angle + (target - angle) * dt * 5.0
  }

  /** The smoothing is exponential: each step scales the remaining gap to the
      target by (1 - 5 dt). */
  lemma EaseGap(angle: real, target: real, dt: real)
    ensures Ease(angle, target, dt) - target == (angle - target) * (1.0 - 5.0 * dt)
  {
    calc {
      Ease(angle, target, dt) - target;
      angle - target + (target - angle) * (dt * 5.0);
      (angle - target) * 1.0 - (angle - target) * (5.0 * dt);
      (angle - target) * (1.0 - 5.0 * dt);
    }
  }

  /** For frame deltas of at most 0.2 s the tilt never passes its target; for
      longer ones it overshoots whenever it was not already there. */
  lemma EaseOvershootsOnlyForLongFrames(angle: real, target: real, dt: real)
    requires dt >= 0.0
    ensures dt <= 0.2 ==> Min(angle, target) <= Ease(angle, target, dt) <= Max(angle, target)
    ensures dt > 0.2 && angle < target ==> Ease(angle, target, dt) > target
    ensures dt > 0.2 && angle > target ==> Ease(angle, target, dt) < target
  {
    EaseGap(angle, target, dt);
    var g, k := angle - target, 1.0 - 5.0 * dt;
    assert Ease(angle, target, dt) == target + g * k;
    if dt <= 0.2 {
      assert 0.0 <= k <= 1.0;
      if g >= 0.0 {
        assert 0.0 <= g * k <= g;
      } else {
        assert g <= g * k <= 0.0;
      }
    } else {
      assert k < 0.0;
      if g < 0.0 { assert g * k > 0.0; }
      if g > 0.0 { assert g * k < 0.0; }
    }
  }

  /** The mutable part of the craft. */
  datatype PlayerState = PlayerState(pos: Vec3, direction: Vec3, angle: real, targetAngle: real,
                                     bobOffset: real, discard: bool)

  /** A craft as Player.__init__ leaves it: at the origin, level, with no target
      tilt, no bob offset and not discarded. Its direction is left open: the source
      shares one default vector between crafts. */
  predicate NewCraft(s: PlayerState)
  {
    s.pos == Vec3(0.0, 0.0, 0.0) && s.angle == 0.0 && s.targetAngle == 0.0
    && s.bobOffset == 0.0 && !s.discard
  }

  /** One Player.update on the mutable part of the craft: input steers, x moves
      and is clamped, the bob advances and sets y, and the tilt eases toward its
      new target. */
  function Fly(s: PlayerState, keys: Keys, dt: real, sin: real -> real): PlayerState {
    var steering := Steer(keys.right, keys.left);
    var bob := s.bobOffset + dt * 2.0;
    PlayerState(
      pos := Vec3(ClampX(s.pos.x + steering.dirX * PLAYER_SPEED * dt), 0.0 + sin(bob) * 0.1, s.pos.z),
      direction := s.direction.(x := steering.dirX),
      angle := Ease(s.angle, steering.targetAngle, dt),
      targetAngle := steering.targetAngle,
      bobOffset := bob,
      discard := s.discard)
  }

  class Player {
    var pos: Vec3
    var direction: Vec3
    const speed: real := PLAYER_SPEED
    var angle: real
    const baseY: real := 0.0
    var targetAngle: real
    var bobOffset: real
    var discard: bool

    /** The craft stays within the lateral bounds. */
    predicate Valid()
      reads this
    {
      -X_BOUND <= pos.x <= X_BOUND
    }

    function State(): PlayerState
      reads this
    {
      PlayerState(pos, direction, angle, targetAngle, bobOffset, discard)
    }

    constructor ()
      ensures pos == Vec3(0.0, 0.0, 0.0) && direction == Vec3(0.0, 0.0, 0.0)
      ensures angle == 0.0 && targetAngle == 0.0 && bobOffset == 0.0 && !discard
      ensures Valid()
      ensures NewCraft(State())
    {
      pos := Vec3(0.0, 0.0, 0.0);
      direction := Vec3(0.0, 0.0, 0.0);
      discard := false;
      angle := 0.0;
      targetAngle := 0.0;
      bobOffset := 0.0;
    }

    /** Player.input. A space press asks the game to shoot a laser one unit ahead
        of the craft; shot carries that request. */
    method Input(keys: Keys) returns (shot: Option<Vec3>)
      modifies this
      ensures direction == old(direction).(x := Steer(keys.right, keys.left).dirX)
      ensures targetAngle == Steer(keys.right, keys.left).targetAngle
      ensures shot == if keys.space then Some(Add(pos, Vec3(0.0, 0.0, -1.0))) else None
      ensures pos == old(pos) && angle == old(angle) && bobOffset == old(bobOffset)
      ensures discard == old(discard)
    {
      if keys.right {
        direction := direction.(x := 1.0);
        targetAngle := -5.0;
      } else if keys.left {
        direction := direction.(x := -1.0);
        targetAngle := 5.0;
      } else {
        direction := direction.(x := 0.0);
        targetAngle := 0.0;
      }
      shot := None;
      if keys.space {
        shot := Some(Add(pos, Vec3(0.0, 0.0, -1.0)));
      }
    }

    /** Player.update. sin is the sine function the bobbing uses. The craft is
        never moved along z, and x ends in [-4, 4] whatever the input and dt. */
    method Update(keys: Keys, dt: real, sin: real -> real) returns (shot: Option<Vec3>)
      modifies this
      ensures Valid()
      ensures shot == if keys.space then Some(Add(old(pos), Vec3(0.0, 0.0, -1.0))) else None
      ensures direction == old(direction).(x := Steer(keys.right, keys.left).dirX)
      ensures targetAngle == Steer(keys.right, keys.left).targetAngle
      ensures pos.x == ClampX(old(pos.x) + direction.x * speed * dt)
      ensures bobOffset == old(bobOffset) + dt * 2.0
      ensures pos.y == baseY + sin(bobOffset) * 0.1
      ensures pos.z == old(pos.z)
      ensures angle == Ease(old(angle), targetAngle, dt)
      ensures discard == old(discard)
      ensures State() == Fly(old(State()), keys, dt, sin)
    {
      shot := Input(keys);
      var targetX := pos.x + direction.x * speed * dt;
      pos := pos.(x := Max(-X_BOUND, Min(targetX, X_BOUND)));
      bobOffset := bobOffset + dt * 2.0;
      pos := pos.(y := baseY + sin(bobOffset) * 0.1);
      var angleDiff := targetAngle - angle;
      angle := angle + angleDiff * dt * 5.0;
    }
  }

  // ----------------------------------------------------------------- laser

  /** Where one Laser.update per laser carries the lasers at the given positions:
      every laser flies along -z at LASER_SPEED. */
  function Flown(ps: seq<Vec3>, dt: real): (r: seq<Vec3>)
    ensures |r| == |ps|
    ensures forall k :: 0 <= k < |ps| ==> r[k] == Vec3(ps[k].x, ps[k].y, ps[k].z - LASER_SPEED * dt)
  {
    seq(|ps|, k requires 0 <= k < |ps| => Displace(ps[k], Vec3(0.0, 0.0, -1.0), LASER_SPEED, dt))
  }

  class Laser {
    var pos: Vec3
    const speed: real := LASER_SPEED
    const direction: Vec3 := Vec3(0.0, 0.0, -1.0)
    var discard: bool

    constructor (pos: Vec3)
      ensures this.pos == pos && !discard
    {
      this.pos := pos;
      discard := false;
    }

    /** Model.update, which is Model.move: the laser flies along -z at LASER_SPEED. */
    method Update(dt: real)
      modifies this
      ensures pos == Displace(old(pos), direction, speed, dt)
      ensures pos == Vec3(old(pos.x), old(pos.y), old(pos.z) - 9.0 * dt)
      ensures discard == old(discard)
    {
      pos := Displace(pos, direction, speed, dt);
    }
  }

  // ---------------------------------------------------------------- meteor

  /** The values the source draws from uniform() when a meteor is made: x in
      [-5, 5], visual radius in [2.0, 2.5], speed in [3, 4] and the z component of
      its direction in [0.75, 1.25]. */
  datatype MeteorSpawn = MeteorSpawn(x: real, visualRadius: real, speed: real, drift: real)

  predicate SpawnInRange(s: MeteorSpawn) {
    && -5.0 <= s.x <= 5.0
    && 2.0 <= s.visualRadius <= 2.5
    && METEOR_SPEED_MIN <= s.speed <= METEOR_SPEED_MAX
    && 0.75 <= s.drift <= 1.25
  }

  /** The mutable part of a meteor, with its death timer's. */
  datatype MeteorState = MeteorState(pos: Vec3, rotation: Vec3, hit: bool, flashValue: real,
                                     discard: bool, timer: TimerState)

  /** What one flash fade step does to the intensity. */
  function FlashDecay(f: real, dt: real): (r: real)
    ensures f <= 0.0 ==> r == f
    ensures f > 0.0 ==> r >= 0.0
    ensures dt >= 0.0 ==> r <= f
    ensures f > 0.0 && dt >= 0.0 && f >= FLASH_FADE_RATE * dt ==> r == f - FLASH_FADE_RATE * dt
  {
    if f > 0.0 then Max(0.0, f - dt * FLASH_FADE_RATE) else f
  }

  /** The intensity after one fade step per frame delta in dts. */
  function Fade(f: real, dts: seq<real>): real
    decreases |dts|
  {
    if dts == [] then f else Fade(FlashDecay(f, dts[0]), dts[1..])
  }

  /** Over any run of non-negative frame deltas the flash intensity falls linearly
      at 2.5 per second and stops at 0: after a flash (0.6) it is gone once 0.24 s
      have passed. */
  lemma {:induction false} FadeIsLinearUntilZero(f: real, dts: seq<real>)
    requires f >= 0.0 && NonNegative(dts)
    ensures Fade(f, dts) == Max(0.0, f - FLASH_FADE_RATE * Sum(dts))
    decreases |dts|
  {
    if dts != [] {
      var rest := dts[1..];
      assert NonNegative(rest) by {
        forall i | 0 <= i < |rest| ensures rest[i] >= 0.0 {
          assert rest[i] == dts[i + 1];
        }
      }
      SumNonNegative(rest);
      FadeIsLinearUntilZero(FlashDecay(f, dts[0]), rest);
    }
  }

  /** One Meteor.update on the mutable part of a meteor with the given velocity:
      the death timer steps and its expiry discards; only a meteor not hit moves
      and turns; the flash fades either way. */
  function Advance(s: MeteorState, direction: Vec3, speed: real, dt: real, frameDt: real): MeteorState {
    MeteorState(
      pos := if s.hit then s.pos else Displace(s.pos, direction, speed, dt),
      rotation := if s.hit then s.rotation else s.rotation.(y := s.rotation.y + 0.1 * dt),
      hit := s.hit,
      flashValue := FlashDecay(s.flashValue, dt),
      discard := s.discard || Expires(s.timer, DEATH_DURATION, frameDt),
      timer := Step(s.timer, DEATH_DURATION, false, frameDt))
  }

  /** A meteor that is not hit and whose death timer is off is only carried along
      by its velocity: it keeps its flags and is never discarded by the step. */
  lemma AdvanceUnhit(s: MeteorState, direction: Vec3, speed: real, dt: real, frameDt: real)
    requires !s.hit && !s.discard && !s.timer.active
    ensures Advance(s, direction, speed, dt, frameDt).pos == Displace(s.pos, direction, speed, dt)
    ensures !Advance(s, direction, speed, dt, frameDt).discard
    ensures Advance(s, direction, speed, dt, frameDt).timer == s.timer
  {
  }

  class Meteor {
    var pos: Vec3
    const speed: real
    const direction: Vec3
    const visualRadius: real
    const radius: real
    var rotation: Vec3
    const rotationSpeed: Vec3 := Vec3(0.0, 0.1, 0.0)
    var hit: bool
    /** The 0.25 s one-shot death timer whose callback is activate_discard. Only its
        meteor ever refers to it, so it is held here as the timer's two mutable
        fields and advanced by Timers.Step, the function Timer.Update is proved
        against. */
    var deathTimer: TimerState
    var flashValue: real
    var discard: bool

    /** What every meteor keeps from its creation: a hit radius of 40% of the
        visual radius and the spawn ranges. */
    predicate Valid() {
      && radius == visualRadius * 0.4
      && 2.0 <= visualRadius <= 2.5
      && METEOR_SPEED_MIN <= speed <= METEOR_SPEED_MAX
      && direction.x == 0.0 && direction.y == 0.0 && 0.75 <= direction.z <= 1.25
    }

    function State(): MeteorState
      reads this
    {
      MeteorState(pos, rotation, hit, flashValue, discard, deathTimer)
    }

    constructor (spawn: MeteorSpawn)
      requires SpawnInRange(spawn)
      ensures Valid()
      ensures pos == Vec3(spawn.x, 0.0, -20.0)
      ensures visualRadius == spawn.visualRadius && radius == 0.4 * spawn.visualRadius
      ensures speed == spawn.speed && direction == Vec3(0.0, 0.0, spawn.drift)
      ensures rotation == Vec3(0.0, 0.0, 0.0) && !hit && flashValue == 0.0 && !discard
      ensures deathTimer == TimerState(0.0, false)
    {
      visualRadius := spawn.visualRadius;
      radius := spawn.visualRadius * 0.4;
      pos := Vec3(spawn.x, 0.0, -20.0);
      speed := spawn.speed;
      direction := Vec3(0.0, 0.0, spawn.drift);
      discard := false;
      rotation := Vec3(0.0, 0.0, 0.0);
      hit := false;
      deathTimer := TimerState(0.0, false);
      flashValue := 0.0;
    }

    /** flash: marks the meteor hit, seeds the flash intensity and switches the
        death timer on (without resetting its time). */
    method Flash()
      modifies this
      ensures hit && flashValue == FLASH_START && deathTimer == old(deathTimer).(active := true)
      ensures pos == old(pos) && rotation == old(rotation) && discard == old(discard)
    {
      hit := true;
      flashValue := FLASH_START;
      deathTimer := deathTimer.(active := true);
    }

    /** Switching the death timer on: time back to 0 and running. */
    method ActivateDeathTimer()
      modifies this
      ensures deathTimer == TimerState(0.0, true)
      ensures pos == old(pos) && rotation == old(rotation) && discard == old(discard)
      ensures hit == old(hit) && flashValue == old(flashValue)
    {
      deathTimer := TimerState(0.0, true);
    }

    /** activate_discard, the death timer's callback. */
    method ActivateDiscard()
      modifies this
      ensures discard
      ensures pos == old(pos) && rotation == old(rotation) && hit == old(hit)
      ensures flashValue == old(flashValue) && deathTimer == old(deathTimer)
    {
      discard := true;
    }

    /** Meteor.update. frameDt is the frame time the death timer reads. A meteor
        that is hit stops moving and turning; the flash fades either way. */
    method Update(dt: real, frameDt: real)
      requires Valid()
      modifies this
      ensures deathTimer == Step(old(deathTimer), DEATH_DURATION, false, frameDt)
      ensures discard == (old(discard) || Expires(old(deathTimer), DEATH_DURATION, frameDt))
      ensures hit == old(hit)
      ensures old(hit) ==> pos == old(pos) && rotation == old(rotation)
      ensures !old(hit) ==> pos == Displace(old(pos), direction, speed, dt)
      ensures !old(hit) ==> rotation == old(rotation).(y := old(rotation.y) + 0.1 * dt)
      ensures flashValue == FlashDecay(old(flashValue), dt)
      ensures State() == Advance(old(State()), direction, speed, dt, frameDt)
    {
      // the death timer's step; its callback fires on expiry
      var fired := Expires(deathTimer, DEATH_DURATION, frameDt);
      deathTimer := Step(deathTimer, DEATH_DURATION, false, frameDt);
      if fired {
        ActivateDiscard();
      }
      if !hit {
        pos := Displace(pos, direction, speed, dt);
        rotation := rotation.(y := rotation.y + rotationSpeed.y * dt);
      }
      if flashValue > 0.0 {
        flashValue := Max(0.0, flashValue - dt * FLASH_FADE_RATE);
      }
    }
  }
}
