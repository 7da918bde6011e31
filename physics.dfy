/**
 * The impulse side of a shove: horizontal distance between two actors, the
 * shaping of a velocity burst so the engine's current primitive accepts it,
 * and the direction guard in front of that primitive.
 *
 * Floats are modelled as reals. The square root and the normalisation of the
 * direction vector are floating-point numerics: the distance takes the host's
 * square root as a parameter, and an impulse carries its direction
 * un-normalised.
 */
module Physics {
  import opened Wrappers
  import opened Engine
  import opened KnockbackConfig

  /** A velocity burst handed to the current primitive: speed and seconds. */
  datatype Burst = Burst(mag: real, dur: real)

  /** Squared distance in the horizontal plane; 0 when either actor is missing. */
  function HorizontalDistanceSq(a: Option<Actor>, b: Option<Actor>): (r: real)
    ensures r >= 0.0
    ensures a.None? || b.None? ==> r == 0.0
  {
    if a.None? || b.None? then 0.0
    else
      var dx := b.value.pos.x - a.value.pos.x;
      var dy := b.value.pos.y - a.value.pos.y;
      dx * dx + dy * dy
  }

  /** `HorizontalDistance`: the root of the squared horizontal distance. */
  function HorizontalDistance(sqrt: real -> real, a: Option<Actor>, b: Option<Actor>): (r: real)
    ensures a.None? || b.None? ==> r == 0.0
  {
    if a.None? || b.None? then 0.0 else sqrt(HorizontalDistanceSq(a, b))
  }

  /** The distance does not depend on the order of the two actors. */
  lemma HorizontalDistanceSymmetric(sqrt: real -> real, a: Option<Actor>, b: Option<Actor>)
    ensures HorizontalDistanceSq(a, b) == HorizontalDistanceSq(b, a)
    ensures HorizontalDistance(sqrt, a, b) == HorizontalDistance(sqrt, b, a)
  {
    if a.Some? && b.Some? {
      var dx := b.value.pos.x - a.value.pos.x;
      var dy := b.value.pos.y - a.value.pos.y;
      assert (-dx) * (-dx) == dx * dx;
      assert (-dy) * (-dy) == dy * dy;
    }
  }

  /** Heights play no part: moving either actor vertically keeps the distance. */
  lemma HorizontalDistanceIgnoresHeight(sqrt: real -> real, a: Actor, b: Actor, za: real, zb: real)
    ensures HorizontalDistance(sqrt, Some(a.(pos := a.pos.(z := za))), Some(b.(pos := b.pos.(z := zb))))
         == HorizontalDistance(sqrt, Some(a), Some(b))
  {
    assert HorizontalDistanceSq(Some(a.(pos := a.pos.(z := za))), Some(b.(pos := b.pos.(z := zb))))
        == HorizontalDistanceSq(Some(a), Some(b));
  }

  /** Two actors at the same horizontal spot are at squared distance 0. */
  lemma SameSpotIsZero(a: Actor, b: Actor)
    requires a.pos.x == b.pos.x && a.pos.y == b.pos.y
    ensures HorizontalDistanceSq(Some(a), Some(b)) == 0.0
  {
  }

  /** The shaping rule is in force only for a positive floor and a positive speed. */
  predicate ShapingActive(cfg: Config, b: Burst)
  {
    cfg.applyCurrentMinVelocity > 0.0 && b.mag > 0.0
  }

  function Max(x: real, y: real): (r: real)
    ensures r >= x && r >= y && (r == x || r == y)
  {
    if x >= y then x else y
  }

  /**
   * `ShapeForApplyCurrent`: the speed is raised to the acceptance floor and
   * the length shrunk in proportion, but never below `minDurationScale` of
   * the original length. The source overwrites its two by-reference
   * arguments; here the pair comes back as a new burst.
   */
  function ShapeForApplyCurrent(cfg: Config, b: Burst): (r: Burst)
    ensures !ShapingActive(cfg, b) ==> r == b
    ensures ShapingActive(cfg, b) ==>
      r.mag >= b.mag && r.mag >= cfg.applyCurrentMinVelocity && (r.mag == b.mag || r.mag == cfg.applyCurrentMinVelocity)
    ensures ShapingActive(cfg, b) ==> r.dur >= b.dur * cfg.minDurationScale
  {
    if ShapingActive(cfg, b) then
      var peak := Max(b.mag, cfg.applyCurrentMinVelocity);
      var scaled := b.dur * (b.mag / peak);
      var minDur := b.dur * cfg.minDurationScale;
      Burst(peak, Max(scaled, minDur))
    else b
  }

  /** Shaping never lengthens a burst when the duration floor is a fraction. */
  lemma ShapeNeverLengthens(cfg: Config, b: Burst)
    requires b.dur >= 0.0 && 0.0 <= cfg.minDurationScale <= 1.0
    ensures ShapeForApplyCurrent(cfg, b).dur <= b.dur
    ensures ShapeForApplyCurrent(cfg, b).dur >= 0.0
  {
    if ShapingActive(cfg, b) {
      var peak := Max(b.mag, cfg.applyCurrentMinVelocity);
      assert 0.0 < b.mag / peak <= 1.0;
      assert b.dur * (b.mag / peak) <= b.dur;
      assert b.dur * cfg.minDurationScale <= b.dur;
    }
  }

  /**
   * When the proportionally shrunk length is the one kept, speed times
   * length (the distance the burst covers) is exactly what it was.
   */
  lemma ShapePreservesDisplacement(cfg: Config, b: Burst)
    requires ShapingActive(cfg, b)
    requires b.dur * (b.mag / Max(b.mag, cfg.applyCurrentMinVelocity)) >= b.dur * cfg.minDurationScale
    ensures ShapeForApplyCurrent(cfg, b).mag * ShapeForApplyCurrent(cfg, b).dur == b.mag * b.dur
  {
    var peak := Max(b.mag, cfg.applyCurrentMinVelocity);
    calc {
      ShapeForApplyCurrent(cfg, b).mag * ShapeForApplyCurrent(cfg, b).dur;
      peak * (b.dur * (b.mag / peak));
      b.dur * (peak * (b.mag / peak));
      { assert peak * (b.mag / peak) == b.mag; }
      b.mag * b.dur;
    }
  }

  /** The covered distance never drops; the duration floor can only add to it. */
  lemma ShapeNeverLosesDisplacement(cfg: Config, b: Burst)
    requires b.dur >= 0.0 && b.mag >= 0.0
    ensures ShapeForApplyCurrent(cfg, b).mag * ShapeForApplyCurrent(cfg, b).dur >= b.mag * b.dur
  {
    if ShapingActive(cfg, b) {
      var peak := Max(b.mag, cfg.applyCurrentMinVelocity);
      var r := ShapeForApplyCurrent(cfg, b);
      assert peak * (b.mag / peak) == b.mag;
      assert r.dur >= b.dur * (b.mag / peak);
      assert peak * r.dur >= peak * (b.dur * (b.mag / peak));
      assert peak * (b.dur * (b.mag / peak)) == b.dur * (peak * (b.mag / peak));
    }
  }

  /** A burst already at or above the floor passes unchanged. */
  lemma ShapeKeepsFastBurst(cfg: Config, b: Burst)
    requires b.mag >= cfg.applyCurrentMinVelocity && b.dur >= 0.0 && cfg.minDurationScale <= 1.0
    ensures ShapeForApplyCurrent(cfg, b) == b
  {
    if ShapingActive(cfg, b) {
      assert b.mag / b.mag == 1.0;
      assert b.dur * cfg.minDurationScale <= b.dur;
    }
  }

  /** Shaping a shaped burst changes nothing more. */
  lemma ShapeIdempotent(cfg: Config, b: Burst)
    requires b.dur >= 0.0 && 0.0 <= cfg.minDurationScale <= 1.0
    ensures ShapeForApplyCurrent(cfg, ShapeForApplyCurrent(cfg, b)) == ShapeForApplyCurrent(cfg, b)
  {
    var r := ShapeForApplyCurrent(cfg, b);
    ShapeNeverLengthens(cfg, b);
    if ShapingActive(cfg, b) {
      ShapeKeepsFastBurst(cfg, r);
    }
  }

  /** The shipped shove (2.5 for 0.12 s) becomes 4.0 for 0.075 s. */
  lemma ShapeDefaults()
    ensures ShapeForApplyCurrent(Default(), Burst(2.5, 0.12)) == Burst(4.0, 0.075)
  {
    assert 0.12 * (2.5 / 4.0) == 0.075;
  }

  /** The smallest squared horizontal length the shove accepts as a direction. */
  const MIN_DIRECTION_LEN_SQ: real := 0.000001

  /**
   * The impulse handed to an actor: the velocity points along the
   * un-normalised direction (dx, dy, dz) with length `speed`, for `duration`.
   */
  datatype Impulse = Impulse(recipient: Actor, dx: real, dy: real, dz: real, speed: real, duration: real)

  /** Whether an impulse was handed over, and what the call returned. */
  datatype ShoveResult = ShoveResult(impulse: Option<Impulse>, ok: bool)

  /**
   * `ApplyPhysicsShove`: the horizontal direction from `aggressor` to
   * `target`, flattened to z = 0; missing actors and a direction shorter
   * than the guard give false without touching the engine. Otherwise the
   * target receives the burst and the answer is the primitive's, `accepted`.
   */
  function ApplyPhysicsShove(aggressor: Option<Actor>, target: Option<Actor>, magnitude: real, duration: real, accepted: bool): (r: ShoveResult)
    ensures r.impulse.Some? <==>
      aggressor.Some? && target.Some? && HorizontalDistanceSq(aggressor, target) >= MIN_DIRECTION_LEN_SQ
    ensures r.impulse.None? ==> !r.ok
    ensures r.impulse.Some? ==> r.ok == accepted
    ensures r.impulse.Some? ==>
      && r.impulse.value.recipient == target.value
      && r.impulse.value.dz == 0.0
      && r.impulse.value.speed == magnitude && r.impulse.value.duration == duration
  {
    if aggressor.None? || target.None? then ShoveResult(None, false)
    else
      var a := aggressor.value.pos;
      var t := target.value.pos;
      var dx := t.x - a.x;
      var dy := t.y - a.y;
      var dz := 0.0;
      var lenSq := dx * dx + dy * dy + dz * dz;
      assert lenSq == HorizontalDistanceSq(aggressor, target);
      if lenSq < MIN_DIRECTION_LEN_SQ then ShoveResult(None, false)
      else ShoveResult(Some(Impulse(target.value, dx, dy, dz, magnitude, duration)), accepted)
  }

  /**
   * The impulse points from the aggressor towards the target: its direction
   * has a positive component along the aggressor-to-target offset.
   */
  lemma ShovePointsAway(aggressor: Actor, target: Actor, magnitude: real, duration: real, accepted: bool)
    requires ApplyPhysicsShove(Some(aggressor), Some(target), magnitude, duration, accepted).impulse.Some?
    ensures var i := ApplyPhysicsShove(Some(aggressor), Some(target), magnitude, duration, accepted).impulse.value;
      i.dx * (target.pos.x - aggressor.pos.x) + i.dy * (target.pos.y - aggressor.pos.y) >= MIN_DIRECTION_LEN_SQ
  {
  }

  /** An actor cannot shove itself: the direction degenerates. */
  lemma NoSelfShove(a: Actor, magnitude: real, duration: real, accepted: bool)
    ensures ApplyPhysicsShove(Some(a), Some(a), magnitude, duration, accepted) == ShoveResult(None, false)
  {
  }

  /**
   * `ApplyVelocityAwayFrom(from, who)`: the same shove with the roles
   * swapped, so `who` is pushed away from `from`.
   */
  function ApplyVelocityAwayFrom(from: Option<Actor>, who: Option<Actor>, magnitude: real, duration: real, accepted: bool): (r: ShoveResult)
    ensures r.impulse.Some? ==> who.Some? && r.impulse.value.recipient == who.value
    ensures r.impulse.Some? ==>
      && from.Some? && who.Some?
      && r.impulse.value.dx * (who.value.pos.x - from.value.pos.x)
         + r.impulse.value.dy * (who.value.pos.y - from.value.pos.y) >= MIN_DIRECTION_LEN_SQ
    ensures r.impulse.None? <==> from.None? || who.None? || HorizontalDistanceSq(from, who) < MIN_DIRECTION_LEN_SQ
    ensures r.ok ==> accepted && r.impulse.Some?
  {
    var r := ApplyPhysicsShove(from, who, magnitude, duration, accepted);
    if r.impulse.Some? then ShovePointsAway(from.value, who.value, magnitude, duration, accepted); r else r
  }
}
