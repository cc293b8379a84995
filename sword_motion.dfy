/**
 * How a sword moves toward its target in one frame, and which way it faces
 * (components/Experience.tsx, the spring step and the look vector inside
 * `animate`).
 *
 * The step is linear in (error, velocity), where error = target - position.
 * On each axis it maps (e, v) to (0.949 e - 0.85 v, 0.051 e + 0.85 v): a
 * matrix with determinant 0.85 and complex eigenvalues, so the motion
 * overshoots and the distance to a fixed target is NOT monotone. What does
 * shrink, by exactly the factor 0.85 per frame, is the positive definite
 * quadratic form AxisEnergy below (the form x^T J A x of that matrix A).
 */
module SwordMotion {
  import opened Platform
  import opened Vectors

  const SPRING: real := 0.06
  const DAMPING: real := 0.85

  /** A sword's persistent state. */
  datatype Motion = Motion(position: Vec3, velocity: Vec3)

  /** The contracting quadratic form of one axis. */
  function AxisEnergy(e: real, v: real): real
  {
    0.051 * e * e - 0.099 * e * v + 0.85 * v * v
  }

  /** The sum of the three axes' energies for a sword and its target. */
  function Energy(target: Vec3, s: Motion): real
  {
    var e := Sub(target, s.position);
    AxisEnergy(e.x, s.velocity.x) + AxisEnergy(e.y, s.velocity.y) + AxisEnergy(e.z, s.velocity.z)
  }

  /** One axis of the step, written in terms of the error e and velocity v. */
  lemma AxisEnergyContracts(e: real, v: real)
    ensures AxisEnergy(e - (v + e * SPRING) * DAMPING, (v + e * SPRING) * DAMPING) == DAMPING * AxisEnergy(e, v)
  {
    calc {
      AxisEnergy(e - (v + e * SPRING) * DAMPING, (v + e * SPRING) * DAMPING);
    ==
      AxisEnergy(0.949 * e - 0.85 * v, 0.051 * e + 0.85 * v);
    ==
      0.051 * (0.949 * e - 0.85 * v) * (0.949 * e - 0.85 * v)
      - 0.099 * (0.949 * e - 0.85 * v) * (0.051 * e + 0.85 * v)
      + 0.85 * (0.051 * e + 0.85 * v) * (0.051 * e + 0.85 * v);
    ==
      0.85 * (0.051 * e * e - 0.099 * e * v + 0.85 * v * v);
    }
  }

  /** One frame of the spring-damper: the velocity is pulled toward the target
      by 0.06 of the error and damped by 0.85, then the position moves by the
      new velocity. */
  function SpringStep(target: Vec3, s: Motion): Motion
  {
    var velocity := Scale(Add(s.velocity, Scale(Sub(target, s.position), 0.06)), 0.85);
    Motion(Add(s.position, velocity), velocity)
  }

  /** In (error, velocity) coordinates the step is the linear map
      (e, v) -> (0.949 e - 0.85 v, 0.051 e + 0.85 v) on every axis. */
  lemma SpringStepInErrorCoordinates(target: Vec3, s: Motion)
    ensures var r := SpringStep(target, s);
      && r.velocity == Add(Scale(Sub(target, s.position), 0.051), Scale(s.velocity, 0.85))
      && Sub(target, r.position) == Sub(Scale(Sub(target, s.position), 0.949), Scale(s.velocity, 0.85))
  {
  }

  /** A sword is a fixed point of the step exactly when it rests on its target. */
  lemma SpringStepFixedPoint(target: Vec3, s: Motion)
    ensures SpringStep(target, s) == s <==> s.position == target && s.velocity == Zero
  {
    if SpringStep(target, s) == s {
      FixedPointHasNoVelocity(target, s);
      FixedPointStillIsOnTarget(target, s);
    }
    if s.position == target && s.velocity == Zero {
      RestIsFixed(target, s);
    }
  }

  lemma FixedPointHasNoVelocity(target: Vec3, s: Motion)
    requires SpringStep(target, s) == s
    ensures s.velocity == Zero
  {
  }

  lemma FixedPointStillIsOnTarget(target: Vec3, s: Motion)
    requires s.velocity == Zero && SpringStep(target, s) == s
    ensures s.position == target
  {
  }

  /** Every frame multiplies a sword's energy by exactly 0.85. */
  lemma SpringStepContracts(target: Vec3, s: Motion)
    ensures Energy(target, SpringStep(target, s)) == DAMPING * Energy(target, s)
  {
    var e := Sub(target, s.position);
    AxisEnergyContracts(e.x, s.velocity.x);
    AxisEnergyContracts(e.y, s.velocity.y);
    AxisEnergyContracts(e.z, s.velocity.z);
  }

  /** The energy is never negative and bounds the squared error on its axis. */
  lemma AxisEnergyBoundsError(e: real, v: real)
    ensures 0.0 <= e * e <= 25.0 * AxisEnergy(e, v)
  {
    var w := v - 99.0 / 1700.0 * e;
    calc {
      25.0 * AxisEnergy(e, v) - e * e;
    ==
      0.275 * e * e - 2.475 * e * v + 21.25 * v * v;
    ==
      21.25 * (w * w) + (17.249375 / 85.0) * (e * e);
    >=  { SquaresNonNegative(w, e); }
      0.0;
    }
    SquaresNonNegative(w, e);
  }

  lemma SquaresNonNegative(a: real, b: real)
    ensures a * a >= 0.0 && b * b >= 0.0
    ensures 21.25 * (a * a) + (17.249375 / 85.0) * (b * b) >= 0.0
  {
  }

  /** Summed over the axes: the squared distance to the target is at most 25
      times the energy. */
  lemma EnergyBoundsError(target: Vec3, s: Motion)
    ensures 0.0 <= NormSq(Sub(target, s.position)) <= 25.0 * Energy(target, s)
    ensures 0.0 <= Energy(target, s)
  {
    var e := Sub(target, s.position);
    AxisEnergyBoundsError(e.x, s.velocity.x);
    AxisEnergyBoundsError(e.y, s.velocity.y);
    AxisEnergyBoundsError(e.z, s.velocity.z);
  }

  /** k frames toward a target that does not move. */
  function Settle(target: Vec3, s: Motion, k: nat): Motion
    decreases k
  {
    if k == 0 then s else Settle(target, SpringStep(target, s), k - 1)
  }

  function Power(b: real, k: nat): real
  {
    if k == 0 then 1.0 else b * Power(b, k - 1)
  }

  lemma {:induction false} PowerOfDampingInUnitInterval(k: nat)
    ensures 0.0 < Power(DAMPING, k) <= 1.0
    ensures Power(DAMPING, k + 1) < Power(DAMPING, k)
  {
    if k > 0 {
      PowerOfDampingInUnitInterval(k - 1);
    }
  }

  /** After k frames toward a fixed target the energy is exactly 0.85^k of
      what it was. */
  lemma {:induction false} SettleEnergy(target: Vec3, s: Motion, k: nat)
    ensures Energy(target, Settle(target, s, k)) == Power(DAMPING, k) * Energy(target, s)
    decreases k
  {
    if k > 0 {
      var s' := SpringStep(target, s);
      SettleEnergy(target, s', k - 1);
      SpringStepContracts(target, s);
      calc {
        Energy(target, Settle(target, s, k));
      ==
        Energy(target, Settle(target, s', k - 1));
      ==
        Power(DAMPING, k - 1) * Energy(target, s');
      ==
        Power(DAMPING, k - 1) * (DAMPING * Energy(target, s));
      ==
        (DAMPING * Power(DAMPING, k - 1)) * Energy(target, s);
      ==
        Power(DAMPING, k) * Energy(target, s);
      }
    }
  }

  /** The motion never diverges: after k frames toward a fixed target the
      squared distance is at most 25 * 0.85^k times the initial energy. */
  lemma SettleApproachesTarget(target: Vec3, s: Motion, k: nat)
    ensures NormSq(Sub(target, Settle(target, s, k).position)) <= 25.0 * Power(DAMPING, k) * Energy(target, s)
  {
    SettleEnergy(target, s, k);
    EnergyBoundsError(target, Settle(target, s, k));
  }

  /** The energy bound holds for every k: the motion never diverges. */
  lemma SettleNeverDiverges(target: Vec3, s: Motion, k: nat)
    ensures NormSq(Sub(target, Settle(target, s, k).position)) <= 25.0 * Energy(target, s)
  {
    var e := Energy(target, s);
    var p := Power(DAMPING, k);
    SettleApproachesTarget(target, s, k);
    assert NormSq(Sub(target, Settle(target, s, k).position)) <= 25.0 * p * e;
    PowerOfDampingInUnitInterval(k);
    EnergyBoundsError(target, s);
    WithinFractionOfBound(NormSq(Sub(target, Settle(target, s, k).position)), p, e);
  }

  /** A quantity within a fraction in (0, 1] of a non-negative energy bound
      is within the bound. */
  lemma WithinFractionOfBound(d: real, p: real, e: real)
    requires 0.0 < p <= 1.0 && 0.0 <= e
    requires d <= 25.0 * p * e
    ensures d <= 25.0 * e
  {
    assert 25.0 * e - 25.0 * p * e == 25.0 * ((1.0 - p) * e);
    NonNegativeProduct(1.0 - p, e);
  }

  /** Frame k + 1 is one step after frame k. */
  lemma {:induction false} SettleLast(target: Vec3, s: Motion, k: nat)
    ensures Settle(target, s, k + 1) == SpringStep(target, Settle(target, s, k))
    decreases k
  {
    if k > 0 {
      var s' := SpringStep(target, s);
      calc {
        Settle(target, s, k + 1);
      ==
        Settle(target, s', k);
      ==  { SettleLast(target, s', k - 1); }
        SpringStep(target, Settle(target, s', k - 1));
      ==
        SpringStep(target, Settle(target, s, k));
      }
    }
  }

  /** A sword on the x axis, moving along it. */
  function AlongX(p: real, v: real): Motion
  {
    Motion(Vec3(p, 0.0, 0.0), Vec3(v, 0.0, 0.0))
  }

  /** Toward the origin, a sword on the x axis stays on it. */
  lemma SpringStepAlongX(p: real, v: real)
    ensures SpringStep(Zero, AlongX(p, v)) == AlongX(p + (v - p * 0.06) * 0.85, (v - p * 0.06) * 0.85)
  {
    var s := AlongX(p, v);
    var e := Sub(Zero, s.position);
    assert e == Vec3(-p, 0.0, 0.0);
    var w := Scale(Add(s.velocity, Scale(e, 0.06)), 0.85);
    assert w == Vec3((v - p * 0.06) * 0.85, 0.0, 0.0);
    assert SpringStep(Zero, s) == Motion(Add(s.position, w), w);
  }

  /** One more frame of a sword that is still on the x axis. */
  lemma SettleAlongX(start: Motion, k: nat, p: real, v: real, p': real, v': real)
    requires Settle(Zero, start, k) == AlongX(p, v)
    requires v' == (v - p * 0.06) * 0.85 && p' == p + v'
    ensures Settle(Zero, start, k + 1) == AlongX(p', v')
  {
    SettleLast(Zero, start, k);
    SpringStepAlongX(p, v);
  }

  lemma SquareGrows(a: real, b: real)
    requires 0.0 <= -b < a
    ensures b * b < a * a
  {
    var c := -b;
    assert b * b == c * c;
    assert c * (a - c) >= 0.0;
    assert a * (a - c) > 0.0;
  }

  lemma DistanceAlongX(p: real)
    ensures NormSq(Sub(Zero, Vec3(p, 0.0, 0.0))) == p * p
  {
    assert Sub(Zero, Vec3(p, 0.0, 0.0)) == Vec3(-p, 0.0, 0.0);
  }

  // The overshoot example's frames, in chunks. Each chunk starts from an
  // arbitrary frame k: with a literal frame number the verifier unrolls
  // Settle instead of using SettleAlongX.

  /** Frames 2 and 3 of the overshoot example. */
  lemma FramesFrom1(start: Motion, k: nat)
    requires Settle(Zero, start, k) == AlongX(-0.949, 0.051)
    ensures Settle(Zero, start, k + 2) == AlongX(-0.735544549, 0.121706451)
  {
    SettleAlongX(start, k, -0.949, 0.051, -0.857251, 0.091749);
    SettleAlongX(start, k + 1, -0.857251, 0.091749, -0.735544549, 0.121706451);
  }

  /** Frames 4 to 6 of the overshoot example. */
  lemma FramesFrom3(start: Motion, k: nat)
    requires Settle(Zero, start, k) == AlongX(-0.735544549, 0.121706451)
    ensures Settle(Zero, start, k + 3) == AlongX(-0.294151446646690051, 0.150287433981458949)
  {
    SettleAlongX(start, k, -0.735544549, 0.121706451, -0.594581293651, 0.140963255349);
    SettleAlongX(start, k + 1, -0.594581293651, 0.140963255349, -0.444438880628149, 0.150142413022851);
    SettleAlongX(start, k + 2, -0.444438880628149, 0.150142413022851, -0.294151446646690051, 0.150287433981458949);
  }

  /** Frames 7 to 9 of the overshoot example. */
  lemma FramesFrom6(start: Motion, k: nat)
    requires Settle(Zero, start, k) == AlongX(-0.294151446646690051, 0.150287433981458949)
    ensures Settle(Zero, start, k + 3) == AlongX(0.088487677168232278844084651, 0.110837269284806019890535651)
    ensures Settle(Zero, start, k + 2) == AlongX(-0.022349592116573741046451, 0.129055811866895010702549)
  {
    SettleAlongX(start, k, -0.294151446646690051, 0.150287433981458949, -0.151405403983468751749, 0.142746042663221299251);
    SettleAlongX(start, k + 1, -0.151405403983468751749, 0.142746042663221299251, -0.022349592116573741046451, 0.129055811866895010702549);
    SettleAlongX(start, k + 2, -0.022349592116573741046451, 0.129055811866895010702549, 0.088487677168232278844084651, 0.110837269284806019890535651);
  }

  /** The distance to a fixed target is not monotone. A sword that is one
      unit short of its target and at rest at some frame k (for instance
      the start, k = 0) overshoots: 8 frames later it is about 0.0223 short
      of the target, 9 frames later about 0.0885 beyond it. */
  lemma DistanceCanGrow(start: Motion, k: nat)
    requires Settle(Zero, start, k) == AlongX(-1.0, 0.0)
    ensures NormSq(Sub(Zero, Settle(Zero, start, k + 9).position)) > NormSq(Sub(Zero, Settle(Zero, start, k + 8).position))
  {
    SettleAlongX(start, k, -1.0, 0.0, -0.949, 0.051);
    FramesFrom1(start, k + 1);
    FramesFrom3(start, k + 3);
    FramesFrom6(start, k + 6);
    var p8, p9 := -0.022349592116573741046451, 0.088487677168232278844084651;
    DistanceAlongX(p9);
    DistanceAlongX(p8);
    SquareGrows(p9, p8);
  }

  /** A sword resting on a fixed target stays there for any number of frames. */
  lemma SettleAtRest(target: Vec3, s: Motion, k: nat)
    requires s.position == target && s.velocity == Zero
    ensures Settle(target, s, k) == s
  {
    RestIsFixed(target, s);
    SettleFixed(target, s, k);
  }

  lemma {:induction false} SettleFixed(target: Vec3, s: Motion, k: nat)
    requires SpringStep(target, s) == s
    ensures Settle(target, s, k) == s
    decreases k
  {
    if k > 0 {
      SettleFixed(target, s, k - 1);
    }
  }

  lemma RestIsFixed(target: Vec3, s: Motion)
    requires s.position == target && s.velocity == Zero
    ensures SpringStep(target, s) == s
  {
  }

  // --- Orientation ----------------------------------------------------------

  /** A sword below this speed keeps a fixed up vector instead of its velocity. */
  const LOOK_SPEED: real := 0.05
  const Up: Vec3 := Vec3(0.0, 1.0, 0.0)

  /** The direction a sword faces: its velocity when the speed exceeds 0.05,
      otherwise straight up. */
  function LookVector(sqrt: real -> real, velocity: Vec3): (l: Vec3)
    ensures l == velocity || l == Up
  {
    if Length(sqrt, velocity) > LOOK_SPEED then velocity else Up
  }

  /** With a true square root the speed test is a test on the squared speed. */
  lemma LookVectorChoice(sqrt: real -> real, velocity: Vec3)
    requires IsSqrt(sqrt)
    ensures LookVector(sqrt, velocity) == if NormSq(velocity) > 0.0025 then velocity else Up
  {
    NormSqPositive(velocity);
    SqrtExceeds(sqrt, NormSq(velocity), LOOK_SPEED);
  }
}
