/**
 * The sword swarm of components/Experience.tsx: three parallel arrays of
 * positions, velocities and targets, filled once at start-up and updated in
 * place by every animation frame, plus the point light that follows the
 * primary hand.
 */
module Experience {
  import opened Platform
  import opened Vectors
  import opened Types
  import opened SwordTargets
  import opened SwordMotion

  /** The light's position before any hand has been seen. */
  const InitialLight: Vec3 := Vec3(0.0, 5.0, 5.0)

  /** A start-up position from three uniform draws in [0, 1): each draw is
      centred and scaled to 50, 50 and 30 units. */
  function InitialPosition(r0: Fraction, r1: Fraction, r2: Fraction): (p: Vec3)
    ensures -25.0 <= p.x < 25.0 && -25.0 <= p.y < 25.0 && -15.0 <= p.z < 15.0
    ensures r0 == (p.x + 25.0) / 50.0 && r1 == (p.y + 25.0) / 50.0 && r2 == (p.z + 15.0) / 30.0
  {
    Vec3((r0 - 0.5) * 50.0, (r1 - 0.5) * 50.0, (r2 - 0.5) * 30.0)
  }

  class Swarm {
    const count: nat
    const position: array<Vec3>
    const velocity: array<Vec3>
    const target: array<Vec3>
    var light: Vec3
    /** The `hands` prop of the render whose effect built the swarm: the frame
        closure created by that effect keeps reading it. */
    const captured: seq<HandData>

    /** One entry per sword in each array, and three distinct arrays. */
    ghost predicate Valid()
      reads this
    {
      position.Length == count && velocity.Length == count && target.Length == count
      && position != velocity && position != target && velocity != target
    }

    /** Start-up: sword i is placed at a random point of the box, its target is
        that same point and it is at rest. `draws(i, k)` is the k-th random
        value drawn for sword i; `hands` is the prop of the render that runs
        the start-up effect. */
    constructor (count: nat, hands: seq<HandData>, draws: Draws)
      ensures Valid() && this.count == count && captured == hands
      ensures fresh(position) && fresh(velocity) && fresh(target)
      ensures forall i :: 0 <= i < count ==>
        position[i] == InitialPosition(draws(i, 0), draws(i, 1), draws(i, 2))
      ensures forall i :: 0 <= i < count ==> target[i] == position[i] && velocity[i] == Zero
      ensures light == InitialLight
    {
      var p := new Vec3[count];
      var v := new Vec3[count];
      var t := new Vec3[count];
      var i := 0;
      while i < count
        invariant 0 <= i <= count
        invariant forall k :: 0 <= k < i ==> p[k] == InitialPosition(draws(k, 0), draws(k, 1), draws(k, 2))
        invariant forall k :: 0 <= k < i ==> t[k] == p[k] && v[k] == Zero
      {
        var pos := InitialPosition(draws(i, 0), draws(i, 1), draws(i, 2));
        p[i] := pos;
        t[i] := pos;
        v[i] := Zero;
        i := i + 1;
      }
      this.count := count;
      captured := hands;
      position, velocity, target := p, v, t;
      light := InitialLight;
    }

    /** One animation frame. The light follows the primary hand when there is
        one; then, sword by sword, the target is chosen from the hands, the
        spring step moves the sword, and the point it faces is reported. */
    method Step(m: MathLib, hands: seq<HandData>, time: real, draws: Draws) returns (lookTargets: seq<Vec3>)
      requires Valid()
      modifies this, position, velocity, target
      ensures Valid()
      ensures |hands| == 0 ==> light == old(light)
      ensures 0 < |hands| ==> light == LightPosition(hands[0].palmCenter)
      ensures forall i :: 0 <= i < count ==> target[i] == TargetFor(m, hands, i, count, time, draws)
      ensures forall i :: 0 <= i < count ==>
        Motion(position[i], velocity[i]) == SpringStep(target[i], Motion(old(position[i]), old(velocity[i])))
      ensures |lookTargets| == count
      ensures forall i :: 0 <= i < count ==> lookTargets[i] == Add(position[i], LookVector(m.sqrt, velocity[i]))
    {
      if 0 < |hands| {
        light := LightPosition(hands[0].palmCenter);
      }
      lookTargets := [];
      var i := 0;
      while i < count
        invariant 0 <= i <= count
        invariant Valid()
        invariant |hands| == 0 ==> light == old(light)
        invariant 0 < |hands| ==> light == LightPosition(hands[0].palmCenter)
        invariant forall k :: 0 <= k < i ==> target[k] == TargetFor(m, hands, k, count, time, draws)
        invariant forall k :: 0 <= k < i ==>
          Motion(position[k], velocity[k]) == SpringStep(target[k], Motion(old(position[k]), old(velocity[k])))
        invariant forall k :: i <= k < count ==> position[k] == old(position[k]) && velocity[k] == old(velocity[k])
        invariant |lookTargets| == i
        invariant forall k :: 0 <= k < i ==> lookTargets[k] == Add(position[k], LookVector(m.sqrt, velocity[k]))
      {
        MoveSword(i, TargetFor(m, hands, i, count, time, draws));
        lookTargets := lookTargets + [Add(position[i], LookVector(m.sqrt, velocity[i]))];
        i := i + 1;
      }
    }

    /** The frame as the animation closure runs it: the hands it sees are the
        ones captured at start-up, not the current ones. */
    method Animate(m: MathLib, time: real, draws: Draws) returns (lookTargets: seq<Vec3>)
      requires Valid()
      modifies this, position, velocity, target
      ensures Valid()
      ensures |captured| == 0 ==> light == old(light)
      ensures 0 < |captured| ==> light == LightPosition(captured[0].palmCenter)
      ensures forall i :: 0 <= i < count ==> target[i] == TargetFor(m, captured, i, count, time, draws)
      ensures forall i :: 0 <= i < count ==>
        Motion(position[i], velocity[i]) == SpringStep(target[i], Motion(old(position[i]), old(velocity[i])))
      ensures |lookTargets| == count
      ensures forall i :: 0 <= i < count ==> lookTargets[i] == Add(position[i], LookVector(m.sqrt, velocity[i]))
    {
      lookTargets := Step(m, captured, time, draws);
    }

    /** Sword i aims at `goal` and takes one spring step toward it; no other
        sword is touched. */
    method MoveSword(i: nat, goal: Vec3)
      requires Valid() && i < count
      modifies position, velocity, target
      ensures target[i] == goal
      ensures Motion(position[i], velocity[i]) == SpringStep(goal, Motion(old(position[i]), old(velocity[i])))
      ensures forall k :: 0 <= k < count && k != i ==>
        position[k] == old(position[k]) && velocity[k] == old(velocity[k]) && target[k] == old(target[k])
    {
      target[i] := goal;
      var force := Scale(Sub(goal, position[i]), SPRING);
      velocity[i] := Scale(Add(velocity[i], force), DAMPING);
      position[i] := Add(position[i], velocity[i]);
    }
  }

  /** A swarm that captured an empty hand list keeps every sword on the idle
      orbit, while a primary fist with no second fist in the current hands
      asks for the beam: for every sword the two targets differ. */
  lemma FrozenHandsMissFist(m: MathLib, hands: seq<HandData>, i: nat, n: nat, time: real, draws: Draws)
    requires i < n
    requires 1 <= |hands| && hands[0].gesture == Fist && (|hands| == 1 || hands[1].gesture != Fist)
    ensures TargetFor(m, [], i, n, time, draws) == IdleOrbitTarget(m, i, n, time)
    ensures TargetFor(m, [], i, n, time, draws) != TargetFor(m, hands, i, n, time, draws)
  {
    assert BehaviourOf(hands) == Beam;
  }
}
