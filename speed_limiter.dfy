/** The speed limiter of the mecanum drive controller: a policy object whose
    bounds are fixed at construction and which clamps a commanded scalar
    velocity against a velocity envelope and an acceleration envelope. The
    previous cycle's velocity and the time step are passed in by the caller;
    the limiter keeps no history. Speeds are modelled as `real`. */
module SpeedLimiting {

  function Abs(x: real): (m: real) {
    if x < 0.0 then -x else x
  }

  /** Two-sided clamp of `x` into [lo, hi]. */
  function Clamp(x: real, lo: real, hi: real): (c: real)
    requires lo <= hi
    ensures lo <= c <= hi
    ensures lo <= x <= hi ==> c == x
  {
    if x < lo then lo else if hi < x then hi else x
  }

  /** The clamp is the point of [lo, hi] nearest to `x`. */
  lemma ClampIsNearest(x: real, lo: real, hi: real, y: real)
    requires lo <= y <= hi
    ensures Abs(Clamp(x, lo, hi) - x) <= Abs(y - x)
  {
  }

  /** ... and it is the only such point. */
  lemma ClampIsUniqueNearest(x: real, lo: real, hi: real, y: real)
    requires lo <= y <= hi
    requires Abs(y - x) <= Abs(Clamp(x, lo, hi) - x)
    ensures y == Clamp(x, lo, hi)
  {
  }

  lemma ClampIdempotent(x: real, lo: real, hi: real)
    requires lo <= hi
    ensures Clamp(Clamp(x, lo, hi), lo, hi) == Clamp(x, lo, hi)
  {
  }

  lemma ClampMonotonic(x1: real, x2: real, lo: real, hi: real)
    requires lo <= hi && x1 <= x2
    ensures Clamp(x1, lo, hi) <= Clamp(x2, lo, hi)
  {
  }

  /** The acceleration clamp: the implied acceleration (current - previous) / dt
      is clamped into [lo, hi] and the velocity is rebuilt from it. The result
      lies in the band [previous + lo*dt, previous + hi*dt], and it equals
      `current` exactly when the implied acceleration is already in bounds. */
  function AccelerationClamp(current: real, previous: real, dt: real, lo: real, hi: real): (v: real)
    requires dt > 0.0 && lo <= hi
    ensures previous + lo * dt <= v <= previous + hi * dt
    ensures v == current <==> lo <= (current - previous) / dt <= hi
  {
    previous + Clamp((current - previous) / dt, lo, hi) * dt
  }

  /** Clamping the acceleration is the same as clamping the velocity change
      current - previous into [lo*dt, hi*dt]. */
  lemma AccelerationClampIsDeltaClamp(current: real, previous: real, dt: real, lo: real, hi: real)
    requires dt > 0.0 && lo <= hi
    ensures lo * dt <= hi * dt
    ensures AccelerationClamp(current, previous, dt, lo, hi) == previous + Clamp(current - previous, lo * dt, hi * dt)
  {
  }

  lemma AccelerationClampIdempotent(current: real, previous: real, dt: real, lo: real, hi: real)
    requires dt > 0.0 && lo <= hi
    ensures AccelerationClamp(AccelerationClamp(current, previous, dt, lo, hi), previous, dt, lo, hi)
         == AccelerationClamp(current, previous, dt, lo, hi)
  {
  }

  /** An implied acceleration above `hi` gives previous + hi*dt; one below
      `lo` gives previous + lo*dt, so a positive floor also raises a request
      that does not change the velocity at all. */
  lemma AccelerationClampSaturates(current: real, previous: real, dt: real, lo: real, hi: real)
    requires dt > 0.0 && lo <= hi
    ensures (current - previous) / dt > hi ==> AccelerationClamp(current, previous, dt, lo, hi) == previous + hi * dt
    ensures (current - previous) / dt < lo ==> AccelerationClamp(current, previous, dt, lo, hi) == previous + lo * dt
  {
  }

  class SpeedLimiter {
    const hasVelocityLimits: bool
    const hasAccelerationLimits: bool
    const minVelocity: real
    const maxVelocity: real
    const minAcceleration: real
    const maxAcceleration: real

    /** Every enabled envelope is a non-empty interval. */
    predicate Valid() {
      (hasVelocityLimits ==> minVelocity <= maxVelocity) &&
      (hasAccelerationLimits ==> minAcceleration <= maxAcceleration)
    }

    /** The default limiter: no limit is enabled. The zero bounds are this
        model's choice; only the disabled flags are observable. */
    constructor Default()
      ensures Valid()
      ensures !hasVelocityLimits && !hasAccelerationLimits
      ensures minVelocity == maxVelocity == minAcceleration == maxAcceleration == 0.0
    {
      hasVelocityLimits, hasAccelerationLimits := false, false;
      minVelocity, maxVelocity := 0.0, 0.0;
      minAcceleration, maxAcceleration := 0.0, 0.0;
    }

    constructor (hasVelocityLimits: bool, hasAccelerationLimits: bool,
                 minVelocity: real, maxVelocity: real,
                 minAcceleration: real, maxAcceleration: real)
      requires hasVelocityLimits ==> minVelocity <= maxVelocity
      requires hasAccelerationLimits ==> minAcceleration <= maxAcceleration
      ensures Valid()
      ensures this.hasVelocityLimits == hasVelocityLimits && this.hasAccelerationLimits == hasAccelerationLimits
      ensures this.minVelocity == minVelocity && this.maxVelocity == maxVelocity
      ensures this.minAcceleration == minAcceleration && this.maxAcceleration == maxAcceleration
    {
      this.hasVelocityLimits, this.hasAccelerationLimits := hasVelocityLimits, hasAccelerationLimits;
      this.minVelocity, this.maxVelocity := minVelocity, maxVelocity;
      this.minAcceleration, this.maxAcceleration := minAcceleration, maxAcceleration;
    }

    /** limit_velocity: identity when velocity limits are off, otherwise a
        two-sided clamp into [minVelocity, maxVelocity]. */
    method LimitVelocity(v: real) returns (limited: real)
      requires Valid()
      ensures limited == if hasVelocityLimits then Clamp(v, minVelocity, maxVelocity) else v
      ensures !hasVelocityLimits ==> limited == v
      ensures hasVelocityLimits ==> minVelocity <= limited <= maxVelocity
      ensures hasVelocityLimits && minVelocity <= v <= maxVelocity ==> limited == v
      ensures hasVelocityLimits && v > maxVelocity ==> limited == maxVelocity
      ensures hasVelocityLimits && v < minVelocity ==> limited == minVelocity
    {
      limited := v;
      if hasVelocityLimits {
        limited := Clamp(v, minVelocity, maxVelocity);
      }
    }

    /** limit_acceleration: identity when acceleration limits are off,
        otherwise the implied acceleration is clamped into
        [minAcceleration, maxAcceleration] and the velocity rebuilt from it. */
    method LimitAcceleration(current: real, previous: real, dt: real) returns (limited: real)
      requires Valid() && (hasAccelerationLimits ==> dt > 0.0)
      ensures limited == if hasAccelerationLimits
                         then AccelerationClamp(current, previous, dt, minAcceleration, maxAcceleration)
                         else current
      ensures !hasAccelerationLimits ==> limited == current
      ensures hasAccelerationLimits ==>
                previous + minAcceleration * dt <= limited <= previous + maxAcceleration * dt
      ensures hasAccelerationLimits ==>
                (limited == current <==> minAcceleration <= (current - previous) / dt <= maxAcceleration)
    {
      limited := current;
      if hasAccelerationLimits {
        limited := AccelerationClamp(current, previous, dt, minAcceleration, maxAcceleration);
      }
    }

    /** limit: the velocity clamp first, then the acceleration clamp on its
        result. The acceleration band always holds of the result; the velocity
        envelope is guaranteed only when the acceleration clamp leaves the
        velocity-clamped value where it is. */
    method Limit(current: real, previous: real, dt: real) returns (limited: real)
      requires Valid() && (hasAccelerationLimits ==> dt > 0.0)
      ensures var v := if hasVelocityLimits then Clamp(current, minVelocity, maxVelocity) else current;
              limited == if hasAccelerationLimits
                         then AccelerationClamp(v, previous, dt, minAcceleration, maxAcceleration)
                         else v
      ensures !hasVelocityLimits && !hasAccelerationLimits ==> limited == current
      ensures hasAccelerationLimits ==>
                previous + minAcceleration * dt <= limited <= previous + maxAcceleration * dt
      ensures !hasAccelerationLimits && hasVelocityLimits ==> minVelocity <= limited <= maxVelocity
      ensures hasVelocityLimits && hasAccelerationLimits &&
              minAcceleration <= (Clamp(current, minVelocity, maxVelocity) - previous) / dt <= maxAcceleration
              ==> limited == Clamp(current, minVelocity, maxVelocity) && minVelocity <= limited <= maxVelocity
    {
      limited := LimitVelocity(current);
      limited := LimitAcceleration(limited, previous, dt);
    }
  }

  /** noLimitsEnabledDoesNotClamp: a default limiter changes nothing, for any
      previous velocity and time step. */
  method NoLimitsEnabledDoesNotClamp(v: real, current: real, previous: real, dt: real)
    returns (velocity: real, acceleration: real)
    ensures velocity == v && acceleration == current
  {
    var limiter := new SpeedLimiter.Default();
    velocity := limiter.LimitVelocity(v);
    acceleration := limiter.LimitAcceleration(current, previous, dt);
  }

  /** velocityShouldBeLimited: velocity bounds [1, 10], no acceleration limit. */
  method VelocityShouldBeLimited() returns (above: real, below: real, inside: real)
    ensures above == 10.0 && below == 1.0 && inside == 5.0
  {
    var limiter := new SpeedLimiter(true, false, 1.0, 10.0, 0.0, 0.0);
    above := limiter.LimitVelocity(100.0);
    below := limiter.LimitVelocity(0.1);
    inside := limiter.LimitVelocity(5.0);
  }

  /** accelerationShouldBeLimited: acceleration bounds [1, 10], no velocity
      limit, previous = 1, dt = 1. */
  method AccelerationShouldBeLimited() returns (above: real, below: real, inside: real)
    ensures above == 11.0 && below == 2.0 && inside == 5.0
  {
    var limiter := new SpeedLimiter(false, true, 0.0, 0.0, 1.0, 10.0);
    above := limiter.LimitAcceleration(20.0, 1.0, 1.0);
    below := limiter.LimitAcceleration(1.0, 1.0, 1.0);
    inside := limiter.LimitAcceleration(5.0, 1.0, 1.0);
  }

  /** bothShouldBeLimited: velocity bounds [1, 20], acceleration bounds
      [1, 10], previous = 1, dt = 1: 30 is cut to 20, then to 11. */
  method BothShouldBeLimited() returns (limited: real)
    ensures limited == 11.0
  {
    var limiter := new SpeedLimiter(true, true, 1.0, 20.0, 1.0, 10.0);
    limited := limiter.Limit(30.0, 1.0, 1.0);
  }

  /** The order of the two clamps in `limit` matters: with the bounds of
      bothShouldBeLimited and previous = 25, velocity-then-acceleration gives
      26, acceleration-then-velocity would give 20. */
  method LimitOrderMatters() returns (limited: real, reversed: real)
    ensures limited == 26.0 && reversed == 20.0
  {
    var limiter := new SpeedLimiter(true, true, 1.0, 20.0, 1.0, 10.0);
    limited := limiter.Limit(30.0, 25.0, 1.0);
    reversed := limiter.LimitAcceleration(30.0, 25.0, 1.0);
    reversed := limiter.LimitVelocity(reversed);
  }

  /** With a positive acceleration floor, `limit` can leave the velocity
      envelope even when the previous velocity was inside it: with the bounds
      of bothShouldBeLimited, previous = 20 at the ceiling and a request of 30
      give 21. */
  method LimitCanExceedMaxVelocity() returns (limited: real)
    ensures limited == 21.0
  {
    var limiter := new SpeedLimiter(true, true, 1.0, 20.0, 1.0, 10.0);
    limited := limiter.Limit(30.0, 20.0, 1.0);
  }
}
