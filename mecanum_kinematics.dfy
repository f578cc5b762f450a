/** Inverse kinematics of a four-wheel mecanum platform (the static functions
    `calculateIkNormal` and `calculateIkFlipped` of `MecanumDriveController`).

    Both variants map a body velocity (Vx, Vy, Wz) and the geometry (r, a, b)
    to four wheel angular velocities. Speeds are modelled as `real`; the
    floating-point rounding of the original is not part of this model. */
module MecanumKinematics {

  /** The four wheel angular velocities, `w0_vel` .. `w3_vel`. */
  datatype WheelVelocities = WheelVelocities(w0Vel: real, w1Vel: real, w2Vel: real, w3Vel: real)
  {
    function Plus(other: WheelVelocities): (sum: WheelVelocities) {
      WheelVelocities(w0Vel + other.w0Vel, w1Vel + other.w1Vel,
                      w2Vel + other.w2Vel, w3Vel + other.w3Vel)
    }

    function Scale(c: real): (scaled: WheelVelocities) {
      WheelVelocities(c * w0Vel, c * w1Vel, c * w2Vel, c * w3Vel)
    }
  }

  // ---------------------------------------------------------------------------
  // Normal configuration: the wheels' main rotation axis is the robot's y axis.
  // ---------------------------------------------------------------------------

  /** calculateIkNormal: every wheel gets (±Vx ± Vy ± Wz*(a+b)) / r with the
      sign table below. The tests name the rotational term `wheel_k` and fix it
      only at 1.5 for a = 1, b = 0.5; taking it as a + b, the usual mecanum
      lever arm, is an assumption of this model.
          w0 = ( Vx - Vy - Wz*(a+b)) / r
          w1 = ( Vx + Vy - Wz*(a+b)) / r
          w2 = ( Vx - Vy + Wz*(a+b)) / r
          w3 = ( Vx + Vy + Wz*(a+b)) / r
      The four outputs always satisfy the rolling constraint w0 + w3 == w1 + w2
      (a mecanum platform has three degrees of freedom, not four). */
  function CalculateIkNormal(vx: real, vy: real, wz: real, r: real, a: real, b: real): (w: WheelVelocities)
    requires r > 0.0
    ensures w.w0Vel + w.w3Vel == w.w1Vel + w.w2Vel
    ensures w.w0Vel + w.w1Vel + w.w2Vel + w.w3Vel == 4.0 * vx / r
  {
    var k := a + b;
    WheelVelocities((vx - vy - wz * k) / r,
                    (vx + vy - wz * k) / r,
                    (vx - vy + wz * k) / r,
                    (vx + vy + wz * k) / r)
  }

  /** Pure motion along x: every wheel turns at Vx / r. */
  lemma IkNormalForward(vx: real, r: real, a: real, b: real)
    requires r > 0.0
    ensures CalculateIkNormal(vx, 0.0, 0.0, r, a, b) == WheelVelocities(vx / r, vx / r, vx / r, vx / r)
  {
  }

  /** Pure motion along y: the sign pattern is (-, +, -, +), magnitude |Vy| / r. */
  lemma IkNormalLateral(vy: real, r: real, a: real, b: real)
    requires r > 0.0
    ensures CalculateIkNormal(0.0, vy, 0.0, r, a, b) == WheelVelocities(-vy / r, vy / r, -vy / r, vy / r)
  {
  }

  /** Pure rotation: wheels 0 and 1 get -Wz*(a+b)/r, wheels 2 and 3 get +Wz*(a+b)/r. */
  lemma IkNormalRotation(wz: real, r: real, a: real, b: real)
    requires r > 0.0
    ensures var s := wz * (a + b) / r;
            CalculateIkNormal(0.0, 0.0, wz, r, a, b) == WheelVelocities(-s, -s, s, s)
  {
  }

  /** Superposition: the result for (Vx, Vy, Wz) is the sum of the three
      single-axis results (a named corollary of IkNormalAdditive applied
      twice, stated because it is the form the sign-table comment takes). */
  lemma IkNormalSuperposition(vx: real, vy: real, wz: real, r: real, a: real, b: real)
    requires r > 0.0
    ensures CalculateIkNormal(vx, vy, wz, r, a, b)
         == CalculateIkNormal(vx, 0.0, 0.0, r, a, b)
              .Plus(CalculateIkNormal(0.0, vy, 0.0, r, a, b))
              .Plus(CalculateIkNormal(0.0, 0.0, wz, r, a, b))
  {
  }

  /** Additivity over two body velocities. */
  lemma IkNormalAdditive(vx1: real, vy1: real, wz1: real, vx2: real, vy2: real, wz2: real,
                         r: real, a: real, b: real)
    requires r > 0.0
    ensures CalculateIkNormal(vx1 + vx2, vy1 + vy2, wz1 + wz2, r, a, b)
         == CalculateIkNormal(vx1, vy1, wz1, r, a, b).Plus(CalculateIkNormal(vx2, vy2, wz2, r, a, b))
  {
  }

  /** Homogeneity: scaling the body velocity scales every wheel velocity. */
  lemma IkNormalHomogeneous(c: real, vx: real, vy: real, wz: real, r: real, a: real, b: real)
    requires r > 0.0
    ensures CalculateIkNormal(c * vx, c * vy, c * wz, r, a, b)
         == CalculateIkNormal(vx, vy, wz, r, a, b).Scale(c)
  {
  }

  /** Oddness: reversing the whole command reverses all four wheels (a named
      corollary of IkNormalHomogeneous with c = -1, matching the
      forward/backward pairs of the test). */
  lemma IkNormalOdd(vx: real, vy: real, wz: real, r: real, a: real, b: real)
    requires r > 0.0
    ensures CalculateIkNormal(-vx, -vy, -wz, r, a, b) == CalculateIkNormal(vx, vy, wz, r, a, b).Scale(-1.0)
  {
  }

  /** The wheel velocities determine the body velocity, as long as the lever
      arm a + b is not zero. */
  lemma IkNormalInjective(vx1: real, vy1: real, wz1: real, vx2: real, vy2: real, wz2: real,
                          r: real, a: real, b: real)
    requires r > 0.0 && a + b != 0.0
    requires CalculateIkNormal(vx1, vy1, wz1, r, a, b) == CalculateIkNormal(vx2, vy2, wz2, r, a, b)
    ensures vx1 == vx2 && vy1 == vy2 && wz1 == wz2
  {
  }

  /** Every wheel vector that satisfies the rolling constraint is produced by
      some body velocity. */
  lemma IkNormalOnto(w: WheelVelocities, r: real, a: real, b: real)
    requires r > 0.0 && a + b != 0.0
    requires w.w0Vel + w.w3Vel == w.w1Vel + w.w2Vel
    ensures exists vx, vy, wz :: CalculateIkNormal(vx, vy, wz, r, a, b) == w
  {
    var vx := r * (w.w0Vel + w.w1Vel + w.w2Vel + w.w3Vel) / 4.0;
    var vy := r * (w.w1Vel - w.w0Vel + w.w3Vel - w.w2Vel) / 4.0;
    var wz := r * (w.w2Vel + w.w3Vel - w.w0Vel - w.w1Vel) / (4.0 * (a + b));
    assert CalculateIkNormal(vx, vy, wz, r, a, b) == w;
  }

  /** The six assertions of the normal-configuration test (a = 1, b = 0.5, r = 0.1). */
  lemma IkNormalTestValues()
    ensures CalculateIkNormal(1.0, 0.0, 0.0, 0.1, 1.0, 0.5) == WheelVelocities(10.0, 10.0, 10.0, 10.0)
    ensures CalculateIkNormal(-1.0, 0.0, 0.0, 0.1, 1.0, 0.5) == WheelVelocities(-10.0, -10.0, -10.0, -10.0)
    ensures CalculateIkNormal(0.0, 1.0, 0.0, 0.1, 1.0, 0.5) == WheelVelocities(-10.0, 10.0, -10.0, 10.0)
    ensures CalculateIkNormal(0.0, -1.0, 0.0, 0.1, 1.0, 0.5) == WheelVelocities(10.0, -10.0, 10.0, -10.0)
    ensures CalculateIkNormal(0.0, 0.0, 1.0, 0.1, 1.0, 0.5) == WheelVelocities(-15.0, -15.0, 15.0, 15.0)
    ensures CalculateIkNormal(0.0, 0.0, -1.0, 0.1, 1.0, 0.5) == WheelVelocities(15.0, 15.0, -15.0, -15.0)
  {
  }

  // ---------------------------------------------------------------------------
  // Flipped configuration: the wheels' main rotation axis is the robot's x axis.
  // ---------------------------------------------------------------------------

  /** calculateIkFlipped, with the rotational lever arm `k` as a parameter: the
      formula for it is not determined by the tests, and the only rotation test
      (a = 0.5, b = 1, r = 0.1, every wheel 5) fixes k = 0.5 there, which is `a`
      (or `b - a`) and not `a + b`. The sign table fixed by the tests is
          w0 = ( Vx - Vy + Wz*k) / r
          w1 = (-Vx - Vy + Wz*k) / r
          w2 = (-Vx + Vy + Wz*k) / r
          w3 = ( Vx + Vy + Wz*k) / r
      and the outputs satisfy the rolling constraint w0 + w2 == w1 + w3. */
  function CalculateIkFlipped(vx: real, vy: real, wz: real, r: real, k: real): (w: WheelVelocities)
    requires r > 0.0
    ensures w.w0Vel + w.w2Vel == w.w1Vel + w.w3Vel
    ensures w.w0Vel + w.w1Vel + w.w2Vel + w.w3Vel == 4.0 * wz * k / r
  {
    WheelVelocities(( vx - vy + wz * k) / r,
                    (-vx - vy + wz * k) / r,
                    (-vx + vy + wz * k) / r,
                    ( vx + vy + wz * k) / r)
  }

  /** Pure motion along x: the sign pattern is (+, -, -, +), magnitude |Vx| / r. */
  lemma IkFlippedForward(vx: real, r: real, k: real)
    requires r > 0.0
    ensures CalculateIkFlipped(vx, 0.0, 0.0, r, k) == WheelVelocities(vx / r, -vx / r, -vx / r, vx / r)
  {
  }

  /** Pure motion along y: the sign pattern is (-, -, +, +), magnitude |Vy| / r. */
  lemma IkFlippedLateral(vy: real, r: real, k: real)
    requires r > 0.0
    ensures CalculateIkFlipped(0.0, vy, 0.0, r, k) == WheelVelocities(-vy / r, -vy / r, vy / r, vy / r)
  {
  }

  /** Pure rotation: all four wheels turn at the same signed speed Wz*k/r. */
  lemma IkFlippedRotation(wz: real, r: real, k: real)
    requires r > 0.0
    ensures var s := wz * k / r;
            CalculateIkFlipped(0.0, 0.0, wz, r, k) == WheelVelocities(s, s, s, s)
  {
  }

  lemma IkFlippedAdditive(vx1: real, vy1: real, wz1: real, vx2: real, vy2: real, wz2: real, r: real, k: real)
    requires r > 0.0
    ensures CalculateIkFlipped(vx1 + vx2, vy1 + vy2, wz1 + wz2, r, k)
         == CalculateIkFlipped(vx1, vy1, wz1, r, k).Plus(CalculateIkFlipped(vx2, vy2, wz2, r, k))
  {
  }

  lemma IkFlippedHomogeneous(c: real, vx: real, vy: real, wz: real, r: real, k: real)
    requires r > 0.0
    ensures CalculateIkFlipped(c * vx, c * vy, c * wz, r, k) == CalculateIkFlipped(vx, vy, wz, r, k).Scale(c)
  {
  }

  lemma IkFlippedInjective(vx1: real, vy1: real, wz1: real, vx2: real, vy2: real, wz2: real, r: real, k: real)
    requires r > 0.0 && k != 0.0
    requires CalculateIkFlipped(vx1, vy1, wz1, r, k) == CalculateIkFlipped(vx2, vy2, wz2, r, k)
    ensures vx1 == vx2 && vy1 == vy2 && wz1 == wz2
  {
  }

  lemma IkFlippedOnto(w: WheelVelocities, r: real, k: real)
    requires r > 0.0 && k != 0.0
    requires w.w0Vel + w.w2Vel == w.w1Vel + w.w3Vel
    ensures exists vx, vy, wz :: CalculateIkFlipped(vx, vy, wz, r, k) == w
  {
    var vx := r * (w.w0Vel - w.w1Vel - w.w2Vel + w.w3Vel) / 4.0;
    var vy := r * (w.w2Vel + w.w3Vel - w.w0Vel - w.w1Vel) / 4.0;
    var wz := r * (w.w0Vel + w.w1Vel + w.w2Vel + w.w3Vel) / (4.0 * k);
    assert CalculateIkFlipped(vx, vy, wz, r, k) == w;
  }

  /** The three assertions of the flipped-configuration test (a = 0.5, b = 1,
      r = 0.1), with the rotational lever arm k = 0.5. */
  lemma IkFlippedTestValues()
    ensures CalculateIkFlipped(1.0, 0.0, 0.0, 0.1, 0.5) == WheelVelocities(10.0, -10.0, -10.0, 10.0)
    ensures CalculateIkFlipped(0.0, 1.0, 0.0, 0.1, 0.5) == WheelVelocities(-10.0, -10.0, 10.0, 10.0)
    ensures CalculateIkFlipped(0.0, 0.0, 1.0, 0.1, 0.5) == WheelVelocities(5.0, 5.0, 5.0, 5.0)
  {
  }

  /** The rotation test determines the lever arm: for r = 0.1 every wheel is 5
      exactly when k = 0.5; in particular the normal variant's a + b = 1.5
      would give 15. */
  lemma IkFlippedRotationTestFixesGain(k: real)
    ensures CalculateIkFlipped(0.0, 0.0, 1.0, 0.1, k) == WheelVelocities(5.0, 5.0, 5.0, 5.0) <==> k == 0.5
  {
  }
}
