# Ridgeback mecanum drive: inverse kinematics and speed limiter

This project models the two pieces of control arithmetic in the Ridgeback
mecanum-drive controller and proves properties of them in Dafny:

- `MecanumKinematics` (`mecanum_kinematics.dfy`): the static inverse-kinematics
  functions `calculateIkNormal` and `calculateIkFlipped` of
  `MecanumDriveController`. Each takes a body velocity `(Vx, Vy, Wz)` and the
  wheel geometry and returns a `WheelVelocities` record (`w0_vel`..`w3_vel`).
- `SpeedLimiting` (`speed_limiter.dfy`): the `SpeedLimiter` class. Its bounds are
  fixed when it is constructed. It has `limit_velocity`, `limit_acceleration`
  and `limit`, and the tests' four scenarios appear as client methods that
  build a limiter and call it.

The implementation files `mecanum_drive_controller.h/.cpp` and
`speed_limiter.h/.cpp` are not part of this model. The behaviour is taken from
the exact-value assertions and comments of the two gtest files. Speeds are
`real`.

Decisions where the two test files are silent or ambiguous:

- The normal-configuration comment (mecanum_drive_controller_test.cpp:12-16)
  reads literally as `1/R * V_x - V_y - ...`, which divides only `V_x` by `R`.
  The lateral assertions (:58-68) show that the `V_y` term is divided by `r`
  too, and this model divides every term by `r`. The comment calls the rotational term `wheel_k` without defining
  it, and the rotation assertions fix only `wheel_k = 1.5` for `a = 1,
  b = 0.5`. Taking it as `a + b`, the usual mecanum lever arm, is an
  assumption; other expressions such as `2a - b` fit the same assertions.
- The flipped variant's sign table comes from the assertions at :115-133.
- The flipped rotation gain is not determined by the tests. It is the parameter `k` of
  `CalculateIkFlipped`. The rotation test (a = 0.5, b = 1, r = 0.1, all wheels
  5) fixes `k = 0.5`. That value equals `a` and also `b - a`, so the tests do
  not tell which one the code uses. `IkFlippedRotationTestFixesGain` proves
  that no other `k`, including `a + b = 1.5`, passes that test.
- `limit_velocity`, `limit_acceleration` and `limit` overwrite a caller's
  `double&`. Here they are methods of the class that return the new value and
  change no state.
- The clamp is written as `if x < lo then lo else if hi < x then hi else x`.
  Every formulation agrees with it when `lo <= hi`, and the constructor
  requires that for each enabled envelope.

## Model

| member | source | states |
|---|---|---|
| `MecanumKinematics.CalculateIkNormal` | ridgeback_control/test/mecanum_drive_controller_test.cpp:12-16 | the four wheel speeds satisfy the mecanum rolling constraint w0 + w3 == w1 + w2, and their sum is 4·Vx/r |
| `MecanumKinematics.IkNormalForward` | ridgeback_control/test/mecanum_drive_controller_test.cpp:42-55 | pure x motion drives every wheel at Vx/r |
| `MecanumKinematics.IkNormalLateral` | ridgeback_control/test/mecanum_drive_controller_test.cpp:57-68 | pure y motion gives the pattern (−, +, −, +) at magnitude Vy/r |
| `MecanumKinematics.IkNormalRotation` | ridgeback_control/test/mecanum_drive_controller_test.cpp:70-81 | pure rotation gives −Wz(a+b)/r on wheels 0 and 1 and +Wz(a+b)/r on wheels 2 and 3 |
| `MecanumKinematics.IkNormalSuperposition` | ridgeback_control/test/mecanum_drive_controller_test.cpp:12-16 | the result for (Vx, Vy, Wz) is the sum of the three single-axis results |
| `MecanumKinematics.IkNormalAdditive` | ridgeback_control/test/mecanum_drive_controller_test.cpp:12-16 | the IK of a sum of body velocities is the sum of their IKs |
| `MecanumKinematics.IkNormalHomogeneous` | ridgeback_control/test/mecanum_drive_controller_test.cpp:12-16 | scaling the command by c scales all four wheels by c |
| `MecanumKinematics.IkNormalOdd` | ridgeback_control/test/mecanum_drive_controller_test.cpp:45-81 | negating the command negates all four wheels (the forward/backward pairs of the test) |
| `MecanumKinematics.IkNormalInjective` | ridgeback_control/test/mecanum_drive_controller_test.cpp:12-16 | when a + b ≠ 0, equal wheel speeds imply equal body velocities |
| `MecanumKinematics.IkNormalOnto` | ridgeback_control/test/mecanum_drive_controller_test.cpp:12-16 | when a + b ≠ 0, every wheel vector meeting the rolling constraint is the IK of some body velocity |
| `MecanumKinematics.IkNormalTestValues` | ridgeback_control/test/mecanum_drive_controller_test.cpp:37-81 | the six exact-value assertions for a = 1, b = 0.5, r = 0.1 (±10 and ±15 patterns) |
| `MecanumKinematics.CalculateIkFlipped` | ridgeback_control/test/mecanum_drive_controller_test.cpp:115-133 | the four wheel speeds satisfy the rolling constraint w0 + w2 == w1 + w3, and their sum is 4·Wz·k/r |
| `MecanumKinematics.IkFlippedForward` | ridgeback_control/test/mecanum_drive_controller_test.cpp:113-119 | pure x motion gives the pattern (+, −, −, +) at magnitude Vx/r |
| `MecanumKinematics.IkFlippedLateral` | ridgeback_control/test/mecanum_drive_controller_test.cpp:121-126 | pure y motion gives the pattern (−, −, +, +) at magnitude Vy/r |
| `MecanumKinematics.IkFlippedRotation` | ridgeback_control/test/mecanum_drive_controller_test.cpp:128-133 | pure rotation drives all four wheels at the same signed speed Wz·k/r |
| `MecanumKinematics.IkFlippedAdditive` | ridgeback_control/test/mecanum_drive_controller_test.cpp:115-133 | the flipped IK of a sum of body velocities is the sum of their IKs |
| `MecanumKinematics.IkFlippedHomogeneous` | ridgeback_control/test/mecanum_drive_controller_test.cpp:115-133 | scaling the command by c scales all four wheels by c |
| `MecanumKinematics.IkFlippedInjective` | ridgeback_control/test/mecanum_drive_controller_test.cpp:115-133 | when k ≠ 0, equal wheel speeds imply equal body velocities |
| `MecanumKinematics.IkFlippedOnto` | ridgeback_control/test/mecanum_drive_controller_test.cpp:115-133 | when k ≠ 0, every wheel vector meeting the flipped rolling constraint is the flipped IK of some body velocity |
| `MecanumKinematics.IkFlippedTestValues` | ridgeback_control/test/mecanum_drive_controller_test.cpp:107-133 | the three exact-value assertions for r = 0.1 with rotation gain 0.5 (±10 patterns and all wheels 5) |
| `MecanumKinematics.IkFlippedRotationTestFixesGain` | ridgeback_control/test/mecanum_drive_controller_test.cpp:107-133 | the rotation assertion (all wheels 5 at r = 0.1) holds exactly when the gain is 0.5, so the normal variant's a + b = 1.5 is ruled out |
| `SpeedLimiting.Clamp` | ridgeback_control/test/speed_limiter_test.cpp:28-37 | the result lies in [lo, hi], and a value already inside is unchanged |
| `SpeedLimiting.ClampIsNearest` | ridgeback_control/test/speed_limiter_test.cpp:28-37 | the clamp is at least as close to x as any point of [lo, hi] |
| `SpeedLimiting.ClampIsUniqueNearest` | ridgeback_control/test/speed_limiter_test.cpp:28-37 | every point of [lo, hi] that is as close to x as the clamp is the clamp |
| `SpeedLimiting.ClampIdempotent` | ridgeback_control/test/speed_limiter_test.cpp:35-37 | clamping an already clamped value changes nothing |
| `SpeedLimiting.ClampMonotonic` | ridgeback_control/test/speed_limiter_test.cpp:28-37 | the clamp preserves the order of its inputs |
| `SpeedLimiting.AccelerationClamp` | ridgeback_control/test/speed_limiter_test.cpp:49-58 | the result lies in [previous + lo·dt, previous + hi·dt], and it equals current exactly when (current − previous)/dt is in [lo, hi] |
| `SpeedLimiting.AccelerationClampIsDeltaClamp` | ridgeback_control/test/speed_limiter_test.cpp:49-58 | clamping the implied acceleration equals clamping the velocity change into [lo·dt, hi·dt] |
| `SpeedLimiting.AccelerationClampIdempotent` | ridgeback_control/test/speed_limiter_test.cpp:49-58 | applying the acceleration clamp twice with the same previous and dt equals applying it once |
| `SpeedLimiting.AccelerationClampSaturates` | ridgeback_control/test/speed_limiter_test.cpp:49-54 | an implied acceleration above hi gives previous + hi·dt, one below lo gives previous + lo·dt |
| `SpeedLimiting.SpeedLimiter.Default` | ridgeback_control/test/speed_limiter_test.cpp:9-10 | a default-constructed limiter has both limits disabled (its zero bounds are the model's choice) |
| `SpeedLimiting.SpeedLimiter.constructor` | ridgeback_control/test/speed_limiter_test.cpp:26 | the six arguments become the flags and bounds in the order given, and each enabled envelope is non-empty |
| `SpeedLimiting.SpeedLimiter.LimitVelocity` | ridgeback_control/test/speed_limiter_test.cpp:28-37 | identity when disabled; otherwise the result is in [minVelocity, maxVelocity], a value above the ceiling becomes the ceiling, one below the floor becomes the floor, one inside is unchanged |
| `SpeedLimiting.SpeedLimiter.LimitAcceleration` | ridgeback_control/test/speed_limiter_test.cpp:49-58 | identity when disabled; otherwise the result is in [previous + minAcc·dt, previous + maxAcc·dt] and equals current exactly when the implied acceleration is in bounds |
| `SpeedLimiting.SpeedLimiter.Limit` | ridgeback_control/test/speed_limiter_test.cpp:74-76 | the acceleration clamp applied to the velocity-clamped value; identity when both are off; always inside the acceleration band when that limit is on; inside [minVelocity, maxVelocity] when only the velocity limit is on, or when the velocity-clamped value already meets the acceleration bounds (then it is returned unchanged) |
| `SpeedLimiting.NoLimitsEnabledDoesNotClamp` | ridgeback_control/test/speed_limiter_test.cpp:7-19 | a default limiter leaves both the velocity and the current velocity unchanged, for any previous velocity and time step |
| `SpeedLimiting.VelocityShouldBeLimited` | ridgeback_control/test/speed_limiter_test.cpp:21-38 | with velocity bounds [1, 10]: 100 becomes 10, 0.1 becomes 1, 5 stays 5 |
| `SpeedLimiting.AccelerationShouldBeLimited` | ridgeback_control/test/speed_limiter_test.cpp:40-59 | with acceleration bounds [1, 10], previous 1, dt 1: 20 becomes 11, 1 becomes 2, 5 stays 5 |
| `SpeedLimiting.BothShouldBeLimited` | ridgeback_control/test/speed_limiter_test.cpp:61-77 | with velocity bounds [1, 20] and acceleration bounds [1, 10], previous 1, dt 1: 30 becomes 11 |
| `SpeedLimiting.LimitOrderMatters` | ridgeback_control/test/speed_limiter_test.cpp:68-76 | with the same bounds and previous 25, velocity-then-acceleration gives 26 but the reverse order would give 20 |
| `SpeedLimiting.LimitCanExceedMaxVelocity` | ridgeback_control/test/speed_limiter_test.cpp:68-76 | with the same bounds, previous 20 and request 30, `limit` returns 21, above maxVelocity, because of the positive acceleration floor |

## Left out

- Controller lifecycle, plugin registration, command-topic subscription, odometry publishing and hardware joint interfaces: framework glue and I/O, not visible in the modelled files.
- IEEE-754 arithmetic: speeds are `real`. Rounding, NaN, infinities and the ulp tolerance of `EXPECT_DOUBLE_EQ` are not modelled.
- MecanumKinematics.CalculateIkFlipped: its rotation gain is a parameter `k` instead of a fixed expression in `a` and `b`, because the implementation file is not part of this model and the tests do not determine the formula. The tests fix only `k = 0.5` for `a = 0.5, b = 1`.
- MecanumKinematics.CalculateIkNormal: requires `r > 0`. The tests use only `r = 0.1`, and behaviour at a zero or negative radius is not modelled. Its rotational term is taken to be `a + b`; the tests fix only its value 1.5 at `a = 1, b = 0.5`.
- SpeedLimiting.SpeedLimiter.LimitAcceleration: requires `dt > 0` when acceleration limits are on. The tests call it with `dt = 1`, and with `dt = 20` when the limits are off; `dt > 0` is this model's precondition, and the behaviour at `dt <= 0` is not modelled.
- SpeedLimiting.SpeedLimiter.constructor: requires `min <= max` for each enabled envelope. The tests construct only envelopes with `min <= max`, and behaviour with inverted bounds is not modelled.
- Signed handling of the floors for negative or decelerating commands: only positive cases are tested, so nothing beyond the signed two-sided clamp is claimed.
- In-place update through a `double&` argument: the methods return the new value, so aliasing of the reference is not modelled.
