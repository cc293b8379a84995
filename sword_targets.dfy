/**
 * Where each sword is pulled to in one frame (components/Experience.tsx,
 * the target selection inside `animate`). Every formula is a pure function
 * of the hand list, the sword's index `i` among `n` swords, the frame's
 * clock value and, in two branches, two random draws.
 */
module SwordTargets {
  import opened Platform
  import opened Vectors
  import opened Types

  /** The primary hand's palm centre in world space: the image centre maps to
      the origin, x spans 40 units, y spans 30 units and is flipped upwards,
      and the hand sits in the z = 0 plane. */
  function HandPosition(palm: Vec3): (w: Vec3)
    ensures w.z == 0.0
    ensures palm.x == 0.5 + w.x / 40.0 && palm.y == 0.5 - w.y / 30.0
    ensures w == Zero <==> palm.x == 0.5 && palm.y == 0.5
  {
    Vec3((palm.x - 0.5) * 40.0, -(palm.y - 0.5) * 30.0, 0.0)
  }

  /** The point light follows the primary hand with a 35 by 25 span, 8 units
      in front of the hand plane. */
  function LightPosition(palm: Vec3): (l: Vec3)
    ensures l.z == 8.0
    ensures palm.x == 0.5 + l.x / 35.0 && palm.y == 0.5 - l.y / 25.0
  {
    Vec3((palm.x - 0.5) * 35.0, -(palm.y - 0.5) * 25.0, 8.0)
  }

  /** Sword i's share of a full turn. */
  function Phase(i: nat, n: nat): real
    requires i < n
  {
    (i as real) / (n as real) * PI * 2.0
  }

  /** A unit-range factor times a radius stays within the radius bound. */
  lemma ScaledUnitBound(u: real, r: real, b: real)
    requires -1.0 <= u <= 1.0 && 0.0 <= r <= b
    ensures -b <= u * r <= b
  {
    if u >= 0.0 {
      assert u * r <= 1.0 * r;
    } else {
      assert (-u) * r <= 1.0 * r;
    }
  }

  /** Squared distance in the x/y plane. */
  function PlanarDistSq(a: Vec3, b: Vec3): real
  {
    (a.x - b.x) * (a.x - b.x) + (a.y - b.y) * (a.y - b.y)
  }

  /** Scaling a point of the unit circle by r puts it at squared distance r*r. */
  lemma OnCircle(c: real, s: real, r: real)
    requires c * c + s * s == 1.0
    ensures (c * r) * (c * r) + (s * r) * (s * r) == r * r
  {
    calc {
      (c * r) * (c * r) + (s * r) * (s * r);
    ==
      (c * c + s * s) * (r * r);
    ==
      r * r;
    }
  }

  // --- No hands: idle orbit -------------------------------------------------

  /** The breathing radius of the idle orbit. */
  function IdleRadius(m: MathLib, i: nat, time: real): (r: real)
    ensures 9.0 <= r <= 15.0
  {
    12.0 + m.sin(time * 0.5 + (i as real) * 0.05) * 3.0
  }

  function IdleOrbitTarget(m: MathLib, i: nat, n: nat, time: real): (t: Vec3)
    requires i < n
    ensures -15.0 <= t.x <= 15.0
    ensures -10.5 <= t.y <= 10.5
    ensures -8.0 <= t.z <= 8.0
  {
    var angle := Phase(i, n) + time * 0.3;
    var radius := IdleRadius(m, i, time);
    ScaledUnitBound(m.cos(angle), radius, 15.0);
    ScaledUnitBound(m.sin(angle * 0.8), radius, 15.0);
    Vec3(m.cos(angle) * radius,
         m.sin(angle * 0.8) * radius * 0.7,
         m.sin(time * 0.2 + (i as real) * 0.02) * 8.0)
  }

  // --- Primary fist, secondary fist: mega convergence -----------------------

  /** The hand position jittered by up to one unit in x and y. */
  function ConvergenceTarget(hand: Vec3, r0: Fraction, r1: Fraction): (t: Vec3)
    ensures -1.0 <= t.x - hand.x < 1.0 && -1.0 <= t.y - hand.y < 1.0
    ensures t.z == hand.z
  {
    Add(hand, Vec3((r0 - 0.5) * 2.0, (r1 - 0.5) * 2.0, 0.0))
  }

  // --- Primary fist alone: beam ---------------------------------------------

  /** A line of swords behind the hand, staggered in depth by `i % 20`, all
      shaken along the x = y diagonal by the same bounded noise. */
  function BeamTarget(m: MathLib, hand: Vec3, i: nat, time: real): (t: Vec3)
    ensures t.x - hand.x == t.y - hand.y
    ensures -0.8 <= t.x - hand.x <= 0.8
    ensures hand.z - 29.0 <= t.z <= hand.z - 10.0
  {
    var noise := m.sin(time * 15.0 + i as real) * 0.8;
    Vec3(hand.x + noise, hand.y + noise, hand.z - 10.0 - (i % 20) as real)
  }

  /** Swords twenty apart share a depth in the beam. */
  lemma BeamDepthRepeatsEveryTwenty(m: MathLib, hand: Vec3, i: nat, time: real)
    ensures BeamTarget(m, hand, i + 20, time).z == BeamTarget(m, hand, i, time).z
  {
    assert (i + 20) % 20 == i % 20;
  }

  // --- Open palm: defensive circle ------------------------------------------

  function CircleTarget(m: MathLib, hand: Vec3, i: nat, n: nat, time: real): (t: Vec3)
    requires i < n
    ensures -10.0 <= t.x - hand.x <= 10.0 && -10.0 <= t.y - hand.y <= 10.0
    ensures -2.0 <= t.z - hand.z <= 2.0
  {
    var angle := Phase(i, n) + time;
    Vec3(hand.x + m.cos(angle) * 10.0,
         hand.y + m.sin(angle) * 10.0,
         hand.z + m.cos(angle * 2.0) * 2.0)
  }

  /** The circle has radius exactly 10 around the hand in the x/y plane. */
  lemma CircleTargetOnRing(m: MathLib, hand: Vec3, i: nat, n: nat, time: real)
    requires i < n
    requires Pythagorean(m)
    ensures PlanarDistSq(CircleTarget(m, hand, i, n, time), hand) == 100.0
  {
    var angle := Phase(i, n) + time;
    var c: real, s: real := m.cos(angle), m.sin(angle);
    assert c * c + s * s == 1.0;
    var t := CircleTarget(m, hand, i, n, time);
    assert t.x - hand.x == c * 10.0 && t.y - hand.y == s * 10.0;
    calc {
      PlanarDistSq(t, hand);
    ==
      (c * 10.0) * (c * 10.0) + (s * 10.0) * (s * 10.0);
    ==  { OnCircle(c, s, 10.0); }
      100.0;
    }
  }

  // --- Pointing: focused ray ------------------------------------------------

  /** How far along the ray sword i sits: near swords close to the hand. */
  function RayDistance(i: nat, n: nat): (s: real)
    requires i < n
    ensures 5.0 <= s < 30.0
  {
    5.0 + (i as real) / (n as real) * 25.0
  }

  /** The jitter amplitude of sword i. */
  function Spread(i: nat): (s: real)
    ensures 0.0 <= s <= 0.9
  {
    (i % 10) as real * 0.1
  }

  /** Swords further along the index order sit further along the ray. */
  lemma RayDistanceIncreases(i: nat, j: nat, n: nat)
    requires i < j < n
    ensures RayDistance(i, n) < RayDistance(j, n)
  {
    assert (i as real) / (n as real) < (j as real) / (n as real);
  }

  /** The point on the normalised pointing ray before jitter: it lies on the
      line through the hand along the pointing direction, and on the hand when
      the direction is zero. */
  function RayPoint(m: MathLib, hand: Vec3, direction: Vec3, i: nat, n: nat): (p: Vec3)
    requires i < n
    ensures direction == Zero ==> p == hand
    ensures Cross(Sub(p, hand), direction) == Zero
  {
    var u := Normalize(m.sqrt, direction);
    var s := RayDistance(i, n);
    CrossScale(u, direction, s);
    assert Sub(Add(hand, Scale(u, s)), hand) == Scale(u, s);
    Add(hand, Scale(u, s))
  }

  /** The lateral offset of sword i for one random draw: at most half the
      spread either way. */
  function Jitter(r: Fraction, i: nat): (j: real)
    ensures -Spread(i) / 2.0 <= j <= Spread(i) / 2.0
    ensures -0.45 <= j <= 0.45
  {
    ScaledUnitBound(2.0 * (r - 0.5), Spread(i), Spread(i));
    (r - 0.5) * Spread(i)
  }

  /** The ray point with lateral jitter in x and y only. */
  function PointingTarget(m: MathLib, hand: Vec3, direction: Vec3, i: nat, n: nat, r0: Fraction, r1: Fraction): (t: Vec3)
    requires i < n
    ensures var p := RayPoint(m, hand, direction, i, n);
      && -Spread(i) / 2.0 <= t.x - p.x <= Spread(i) / 2.0
      && -Spread(i) / 2.0 <= t.y - p.y <= Spread(i) / 2.0
      && t.z == p.z
  {
    var p := RayPoint(m, hand, direction, i, n);
    Vec3(p.x + Jitter(r0, i), p.y + Jitter(r1, i), p.z)
  }

  /** With a true square root, the ray point lies exactly RayDistance(i, n)
      from the hand, forward along the pointed direction, when the direction
      is non-zero, and on the hand otherwise. */
  lemma RayPointAtDistance(m: MathLib, hand: Vec3, direction: Vec3, i: nat, n: nat)
    requires i < n
    requires IsSqrt(m.sqrt)
    ensures direction == Zero ==> RayPoint(m, hand, direction, i, n) == hand
    ensures direction != Zero ==>
      NormSq(Sub(RayPoint(m, hand, direction, i, n), hand)) == RayDistance(i, n) * RayDistance(i, n)
    ensures direction != Zero ==> Dot(Sub(RayPoint(m, hand, direction, i, n), hand), direction) > 0.0
  {
    var d := Normalize(m.sqrt, direction);
    var s := RayDistance(i, n);
    NormalizeIsUnit(m.sqrt, direction);
    assert Sub(RayPoint(m, hand, direction, i, n), hand) == Scale(d, s);
    if direction != Zero {
      calc {
        NormSq(Scale(d, s));
      ==  { NormSqScale(d, s); }
        s * s * NormSq(d);
      ==
        s * s * 1.0;
      }
      DotScale(d, direction, s);
      PositiveProduct(s, Dot(d, direction));
    }
  }

  // --- Any other gesture: relaxed orbit around the hand ---------------------

  function RelaxedRadius(m: MathLib, i: nat, time: real): (r: real)
    ensures 4.0 <= r <= 8.0
  {
    6.0 + m.sin(time + (i as real) * 0.1) * 2.0
  }

  function RelaxedOrbitTarget(m: MathLib, hand: Vec3, i: nat, n: nat, time: real): (t: Vec3)
    requires i < n
    ensures -8.0 <= t.x - hand.x <= 8.0 && -8.0 <= t.y - hand.y <= 8.0
    ensures -3.0 <= t.z - hand.z <= 3.0
  {
    var angle := Phase(i, n) + time * 0.5;
    var radius := RelaxedRadius(m, i, time);
    ScaledUnitBound(m.cos(angle), radius, 8.0);
    ScaledUnitBound(m.sin(angle), radius, 8.0);
    Vec3(hand.x + m.cos(angle) * radius,
         hand.y + m.sin(angle) * radius,
         hand.z + m.cos(time + i as real) * 3.0)
  }

  /** The relaxed orbit keeps a sword between 4 and 8 units from the hand in
      the x/y plane. */
  lemma RelaxedOrbitInAnnulus(m: MathLib, hand: Vec3, i: nat, n: nat, time: real)
    requires i < n
    requires Pythagorean(m)
    ensures 16.0 <= PlanarDistSq(RelaxedOrbitTarget(m, hand, i, n, time), hand) <= 64.0
  {
    var angle := Phase(i, n) + time * 0.5;
    var c: real, s: real := m.cos(angle), m.sin(angle);
    var r := RelaxedRadius(m, i, time);
    assert c * c + s * s == 1.0;
    var t := RelaxedOrbitTarget(m, hand, i, n, time);
    assert t.x - hand.x == c * r && t.y - hand.y == s * r;
    calc {
      PlanarDistSq(t, hand);
    ==
      (c * r) * (c * r) + (s * r) * (s * r);
    ==  { OnCircle(c, s, r); }
      r * r;
    }
    SquareBetween(r, 4.0, 8.0);
  }

  lemma SquareBetween(r: real, lo: real, hi: real)
    requires 0.0 <= lo <= r <= hi
    ensures lo * lo <= r * r <= hi * hi
  {
    assert lo * lo <= lo * r <= r * r;
    assert r * r <= r * hi <= hi * hi;
  }

  // --- Choosing the branch --------------------------------------------------

  datatype Behaviour = IdleOrbit | MegaConvergence | Beam | DefensiveCircle | PointingFocus | RelaxedOrbit

  /** The branch taken for every sword in a frame. Only the first two hands
      are ever consulted, and the second only when the first is a fist. */
  function BehaviourOf(hands: seq<HandData>): (b: Behaviour)
    ensures b == IdleOrbit <==> |hands| == 0
    ensures b == MegaConvergence <==> 2 <= |hands| && hands[0].gesture == Fist && hands[1].gesture == Fist
    ensures b == Beam <==> 1 <= |hands| && hands[0].gesture == Fist && (|hands| == 1 || hands[1].gesture != Fist)
    ensures b == DefensiveCircle <==> 1 <= |hands| && hands[0].gesture == OpenPalm
    ensures b == PointingFocus <==> 1 <= |hands| && hands[0].gesture == Pointing
    ensures b == RelaxedOrbit <==> 1 <= |hands| && (hands[0].gesture == Idle || hands[0].gesture == Vortex || hands[0].gesture == Merge)
  {
    if |hands| == 0 then IdleOrbit
    else if hands[0].gesture == Fist then
      if 1 < |hands| && hands[1].gesture == Fist then MegaConvergence else Beam
    else if hands[0].gesture == OpenPalm then DefensiveCircle
    else if hands[0].gesture == Pointing then PointingFocus
    else assert hands[0].gesture.Idle? || hands[0].gesture.Vortex? || hands[0].gesture.Merge?; RelaxedOrbit
  }

  /** Sword i's target for this frame. `draws(i, 0)` and `draws(i, 1)` are the
      two random values the convergence and pointing branches consume. */
  function TargetFor(m: MathLib, hands: seq<HandData>, i: nat, n: nat, time: real, draws: Draws): (t: Vec3)
    requires i < n
    ensures BehaviourOf(hands) == IdleOrbit ==> -8.0 <= t.z <= 8.0
    ensures BehaviourOf(hands) == MegaConvergence ==>
      var h := HandPosition(hands[0].palmCenter);
      -1.0 <= t.x - h.x < 1.0 && -1.0 <= t.y - h.y < 1.0 && t.z == 0.0
    ensures BehaviourOf(hands) == Beam ==> -29.0 <= t.z <= -10.0
    ensures BehaviourOf(hands) == DefensiveCircle ==> -2.0 <= t.z <= 2.0
    ensures BehaviourOf(hands) == PointingFocus ==>
      var p := RayPoint(m, HandPosition(hands[0].palmCenter), hands[0].direction, i, n);
      -0.45 <= t.x - p.x <= 0.45 && -0.45 <= t.y - p.y <= 0.45 && t.z == p.z
    ensures BehaviourOf(hands) == RelaxedOrbit ==> -3.0 <= t.z <= 3.0
  {
    match BehaviourOf(hands)
    case IdleOrbit => IdleOrbitTarget(m, i, n, time)
    case MegaConvergence => ConvergenceTarget(HandPosition(hands[0].palmCenter), draws(i, 0), draws(i, 1))
    case Beam => BeamTarget(m, HandPosition(hands[0].palmCenter), i, time)
    case DefensiveCircle => CircleTarget(m, HandPosition(hands[0].palmCenter), i, n, time)
    case PointingFocus =>
      PointingTarget(m, HandPosition(hands[0].palmCenter), hands[0].direction, i, n, draws(i, 0), draws(i, 1))
    case RelaxedOrbit => RelaxedOrbitTarget(m, HandPosition(hands[0].palmCenter), i, n, time)
  }

  /** No hand beyond the second one influences any target. */
  lemma TargetIgnoresLaterHands(m: MathLib, hands: seq<HandData>, i: nat, n: nat, time: real, draws: Draws)
    requires i < n && 2 <= |hands|
    ensures TargetFor(m, hands, i, n, time, draws) == TargetFor(m, hands[..2], i, n, time, draws)
  {
    assert hands[..2][0] == hands[0] && hands[..2][1] == hands[1];
  }
}
