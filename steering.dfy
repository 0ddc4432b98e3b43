/** The five steering rules of a boid and the direction they compose to,
    as functions of the boid's position, its two lists and the scene's
    transforms. The boid's methods compute the same values with loops. */
module Steering {
  import opened Vectors
  import opened Tracker

  /** Where a tracked object is and which way it faces: its `Transform`. */
  datatype Pose = Pose(position: Vec3, forward: Vec3)

  /** The transforms of the scene at the moment the rules run, by handle. */
  type Scene = Id -> Pose

  /** The boid's serialized tunables. */
  datatype Settings = Settings(
    turnSensitivity: real,
    speed: real,
    cohesionValue: real,
    minDistance: real,
    avoidanceValue: real,
    obstacleAvoidanceValue: real,
    alignementValue: real,
    targetValue: real,
    distanceToTarget: real)

  /** The values a boid starts with unless the editor overrides them. */
  const Defaults: Settings := Settings(1.0, 10.0, 1.0, 1.5, 1.0, 5.0, 1.0, 1.0, 2.0)

  /** What one flockmate adds to the separation sum: the vector from it to
      the boid when it is strictly closer than `minDistance`, else nothing. */
  function Repulsion(self: Vec3, minDistance: real, scene: Scene): Id -> Vec3 {
    (id: Id) => if Shorter(Sub(self, scene(id).position), minDistance) then Sub(self, scene(id).position) else Zero
  }

  /** The vector from an object to the boid. */
  function Displacement(self: Vec3, scene: Scene): Id -> Vec3 {
    (id: Id) => Sub(self, scene(id).position)
  }

  function Location(scene: Scene): Id -> Vec3 { (id: Id) => scene(id).position }

  function Facing(scene: Scene): Id -> Vec3 { (id: Id) => scene(id).forward }

  /** `Rule_Separation`. */
  function Separation(n: Numerics, s: Settings, self: Vec3, flock: seq<Id>, scene: Scene): Vec3 {
    Scale(n.normalize(Sum(flock, Repulsion(self, s.minDistance, scene))), s.avoidanceValue)
  }

  /** `Rule_Obstacle`. */
  function Avoidance(n: Numerics, s: Settings, self: Vec3, obstacles: seq<Id>, scene: Scene): Vec3 {
    Scale(n.normalize(Sum(obstacles, Displacement(self, scene))), s.obstacleAvoidanceValue)
  }

  /** `Rule_Alignement`. */
  function Alignment(n: Numerics, s: Settings, flock: seq<Id>, scene: Scene): Vec3 {
    Scale(n.normalize(Sum(flock, Facing(scene))), s.alignementValue)
  }

  /** The centre of mass of a non-empty flock. */
  function Centroid(flock: seq<Id>, scene: Scene): Vec3
    requires flock != []
  {
    Div(Sum(flock, Location(scene)), |flock| as real)
  }

  /** `Rule_Cohesion`, with the empty flock giving the zero vector. */
  function Cohesion(n: Numerics, s: Settings, self: Vec3, flock: seq<Id>, scene: Scene): Vec3 {
    if flock == [] then Zero
    else Scale(n.normalize(Sub(Centroid(flock, scene), self)), s.cohesionValue)
  }

  /** `Rule_Target`. */
  function Target(n: Numerics, s: Settings, self: Vec3, target: Vec3): Vec3 {
    if target == Zero then Zero
    else if NoLonger(Sub(target, self), s.distanceToTarget) then Zero
    else Scale(n.normalize(Sub(target, self)), s.targetValue)
  }

  /** The unnormalized direction `Move` starts from, summed in the order
      the source writes it. */
  function Composite(n: Numerics, s: Settings, self: Vec3, c: Contacts, scene: Scene, target: Vec3): Vec3 {
    Add(Add(Add(Add(
      Alignment(n, s, c.flock, scene),
      Cohesion(n, s, self, c.flock, scene)),
      Separation(n, s, self, c.flock, scene)),
      Avoidance(n, s, self, c.obstacles, scene)),
      Target(n, s, self, target))
  }

  /** The heading `Move` turns the composite direction into: interpolated
      from the current heading by `deltaTime * turnSensitivity`, then
      normalized. */
  function Smoothed(n: Numerics, s: Settings, forward: Vec3, direction: Vec3, deltaTime: real): Vec3 {
    n.normalize(n.slerp(forward, direction, TurnFraction(s, deltaTime)))
  }

  /** How far along the turn one frame goes: `deltaTime * turnSensitivity`. */
  function TurnFraction(s: Settings, deltaTime: real): real { deltaTime * s.turnSensitivity }

  /** The heading `Move` leaves the boid with: the smoothed direction, or
      the old heading when the smoothed direction is zero. */
  function Heading(n: Numerics, s: Settings, forward: Vec3, direction: Vec3, deltaTime: real): Vec3 {
    var d := Smoothed(n, s, forward, direction, deltaTime);
    if d != Zero then d else forward
  }

  /** The velocity `Move` gives the boid: the smoothed direction at
      `speed`. */
  function Velocity(n: Numerics, s: Settings, forward: Vec3, direction: Vec3, deltaTime: real): Vec3 {
    Scale(Smoothed(n, s, forward, direction, deltaTime), s.speed)
  }

  /** The smoothed direction is the zero vector exactly when the
      interpolation gives zero, and a unit vector otherwise. */
  lemma SmoothedIsUnitOrZero(n: Numerics, s: Settings, forward: Vec3, direction: Vec3, deltaTime: real)
    requires Lawful(n)
    ensures var d := Smoothed(n, s, forward, direction, deltaTime);
      (d == Zero <==> n.slerp(forward, direction, TurnFraction(s, deltaTime)) == Zero) &&
      (d != Zero ==> SqMagnitude(d) == 1.0)
  {
    NormalizedIsUnitOrZero(n, n.slerp(forward, direction, TurnFraction(s, deltaTime)));
  }

  /** A boid facing along a unit vector still faces along a unit vector
      after a move, whatever the rules asked for. */
  lemma HeadingStaysUnit(n: Numerics, s: Settings, forward: Vec3, direction: Vec3, deltaTime: real)
    requires Lawful(n) && SqMagnitude(forward) == 1.0
    ensures SqMagnitude(Heading(n, s, forward, direction, deltaTime)) == 1.0
  {
    SmoothedIsUnitOrZero(n, s, forward, direction, deltaTime);
  }

  /** The velocity is either zero, exactly when the smoothed direction is
      (for a non-zero speed), or has length `|speed|`; and when it is not
      zero it points along the new heading. */
  lemma VelocityHasSpeed(n: Numerics, s: Settings, forward: Vec3, direction: Vec3, deltaTime: real)
    requires Lawful(n)
    ensures var v := Velocity(n, s, forward, direction, deltaTime);
      (v == Zero || SqMagnitude(v) == s.speed * s.speed) &&
      (s.speed != 0.0 ==> (v == Zero <==> Smoothed(n, s, forward, direction, deltaTime) == Zero)) &&
      (v != Zero ==> v == Scale(Heading(n, s, forward, direction, deltaTime), s.speed))
  {
    var d := Smoothed(n, s, forward, direction, deltaTime);
    SmoothedIsUnitOrZero(n, s, forward, direction, deltaTime);
    if d == Zero {
      assert Scale(d, s.speed) == Zero;
    } else {
      ScaleSqMagnitude(d, s.speed);
      if s.speed != 0.0 {
        ScaleZero(d, s.speed);
      }
    }
  }

  /** The flockmates strictly closer than `minDistance`, in list order. */
  function CloseNeighbours(self: Vec3, minDistance: real, flock: seq<Id>, scene: Scene): (r: seq<Id>)
    ensures forall id :: id in r <==> id in flock && Shorter(Sub(self, scene(id).position), minDistance)
    ensures forall id :: (multiset(r)[id] ==
      if Shorter(Sub(self, scene(id).position), minDistance) then multiset(flock)[id] else 0)
    decreases |flock|
  {
    if flock == [] then []
    else
      var last := flock[|flock| - 1];
      assert flock == flock[..|flock| - 1] + [last];
      assert multiset(flock) == multiset(flock[..|flock| - 1]) + multiset{last};
      var rest := CloseNeighbours(self, minDistance, flock[..|flock| - 1], scene);
      if Shorter(Sub(self, scene(last).position), minDistance) then
        assert multiset(rest + [last]) == multiset(rest) + multiset{last};
        rest + [last]
      else rest
  }

  /** Separation sums the displacement from exactly the flockmates strictly
      closer than `minDistance`; every other flockmate adds nothing. */
  lemma {:induction false} SeparationSumsCloseNeighbours(self: Vec3, minDistance: real, flock: seq<Id>, scene: Scene)
    ensures Sum(flock, Repulsion(self, minDistance, scene))
         == Sum(CloseNeighbours(self, minDistance, flock, scene), Displacement(self, scene))
    decreases |flock|
  {
    if flock != [] {
      var rest, last := flock[..|flock| - 1], flock[|flock| - 1];
      SeparationSumsCloseNeighbours(self, minDistance, rest, scene);
      var close := CloseNeighbours(self, minDistance, rest, scene);
      if Shorter(Sub(self, scene(last).position), minDistance) {
        assert (close + [last])[..|close|] == close;
      }
    }
  }

  /** With no flockmate strictly closer than `minDistance`, separation is
      the zero vector. */
  lemma SeparationWithoutCloseNeighbours(n: Numerics, s: Settings, self: Vec3, flock: seq<Id>, scene: Scene)
    requires Lawful(n)
    requires forall id :: id in flock ==> !Shorter(Sub(self, scene(id).position), s.minDistance)
    ensures Separation(n, s, self, flock, scene) == Zero
  {
    SeparationSumsCloseNeighbours(self, s.minDistance, flock, scene);
  }

  /** A flockmate at exactly `minDistance` leaves separation unchanged:
      the threshold is strict. */
  lemma SeparationIgnoresBoundary(n: Numerics, s: Settings, self: Vec3, flock: seq<Id>, scene: Scene, t: Id)
    requires SqMagnitude(Sub(self, scene(t).position)) == s.minDistance * s.minDistance
    ensures Separation(n, s, self, flock + [t], scene) == Separation(n, s, self, flock, scene)
  {
    assert (flock + [t])[..|flock|] == flock;
  }

  /** Obstacle avoidance counts every obstacle, however far: its sum is the
      boid's position taken once per obstacle minus all obstacle positions. */
  lemma {:induction false} AvoidanceCountsEveryObstacle(self: Vec3, obstacles: seq<Id>, scene: Scene)
    ensures Sum(obstacles, Displacement(self, scene))
         == Sub(Scale(self, |obstacles| as real), Sum(obstacles, Location(scene)))
    decreases |obstacles|
  {
    if obstacles != [] {
      var rest := obstacles[..|obstacles| - 1];
      AvoidanceCountsEveryObstacle(self, rest, scene);
      ScaleStep(self, |rest| as real);
    }
  }

  lemma ScaleStep(v: Vec3, k: real)
    ensures Scale(v, k + 1.0) == Add(Scale(v, k), v)
  {}

  /** An empty flock contributes nothing through separation, alignment or
      cohesion; cohesion by its explicit guard, the other two because the
      empty sum normalizes to zero. */
  lemma EmptyFlockIsSilent(n: Numerics, s: Settings, self: Vec3, scene: Scene)
    requires Lawful(n)
    ensures Separation(n, s, self, [], scene) == Zero
    ensures Alignment(n, s, [], scene) == Zero
    ensures Cohesion(n, s, self, [], scene) == Zero
  {}

  /** With a positive weight, cohesion points toward the centre of mass of a
      non-empty flock whenever the boid is not already there. */
  lemma CohesionPointsToCentroid(n: Numerics, s: Settings, self: Vec3, flock: seq<Id>, scene: Scene)
    requires Lawful(n) && 0.0 < s.cohesionValue
    requires flock != [] && Centroid(flock, scene) != self
    ensures 0.0 < Dot(Cohesion(n, s, self, flock, scene), Sub(Centroid(flock, scene), self))
  {
    var v := Sub(Centroid(flock, scene), self);
    assert v != Zero;
    WeightedDirection(n, v, s.cohesionValue);
  }

  /** The target rule is silent exactly when there is no target (the zero
      vector), the target is within `distanceToTarget`, or the boid sits on
      it; otherwise, with a positive weight, it points toward the target. */
  lemma TargetCases(n: Numerics, s: Settings, self: Vec3, target: Vec3)
    requires Lawful(n) && 0.0 < s.targetValue
    ensures Target(n, s, self, target) == Zero <==>
      target == Zero || NoLonger(Sub(target, self), s.distanceToTarget) || target == self
    ensures target != Zero && !NoLonger(Sub(target, self), s.distanceToTarget) && target != self ==>
      0.0 < Dot(Target(n, s, self, target), Sub(target, self))
  {
    var v := Sub(target, self);
    if v != Zero {
      WeightedDirection(n, v, s.targetValue);
    } else {
      assert target == self;
    }
  }

  /** The composite depends only on which handles the lists hold and how
      often, not on their order. */
  lemma CompositeIgnoresOrder(n: Numerics, s: Settings, self: Vec3, c: Contacts, d: Contacts, scene: Scene, target: Vec3)
    requires multiset(c.flock) == multiset(d.flock)
    requires multiset(c.obstacles) == multiset(d.obstacles)
    ensures Composite(n, s, self, c, scene, target) == Composite(n, s, self, d, scene, target)
  {
    SumPermutation(c.flock, d.flock, Repulsion(self, s.minDistance, scene));
    SumPermutation(c.flock, d.flock, Facing(scene));
    SumPermutation(c.flock, d.flock, Location(scene));
    SumPermutation(c.obstacles, d.obstacles, Displacement(self, scene));
    assert |c.flock| == |multiset(c.flock)| == |multiset(d.flock)| == |d.flock|;
  }

  /** An object that enters and then leaves the boid's trigger, with the same
      tag both times, leaves the steering exactly as it was, even when a copy
      of it was already listed. */
  lemma EnterExitKeepsComposite(n: Numerics, s: Settings, self: Vec3, c: Contacts, selfTag: Tag,
                                other: Collider, scene: Scene, target: Vec3)
    ensures Composite(n, s, self, Exit(Enter(c, selfTag, other), selfTag, other), scene, target)
         == Composite(n, s, self, c, scene, target)
  {
    EnterExitRoundTrip(c, selfTag, other);
    CompositeIgnoresOrder(n, s, self, Exit(Enter(c, selfTag, other), selfTag, other), c, scene, target);
  }

  /** A lone boid with nothing in range and no target gets the zero
      composite direction. */
  lemma IsolatedBoidHasNoDirection(n: Numerics, s: Settings, self: Vec3, scene: Scene)
    requires Lawful(n)
    ensures Composite(n, s, self, Contacts([], []), scene, Zero) == Zero
  {}

  /** Separation over a single flockmate strictly closer than
      `minDistance` is the weighted normalized vector away from it. */
  lemma SeparationOfOne(n: Numerics, s: Settings, self: Vec3, t: Id, scene: Scene)
    requires Shorter(Sub(self, scene(t).position), s.minDistance)
    ensures Separation(n, s, self, [t], scene) == Scale(n.normalize(Sub(self, scene(t).position)), s.avoidanceValue)
  {
    SumSingle(t, Repulsion(self, s.minDistance, scene));
  }

  /** A single flockmate strictly closer than `minDistance`, with a
      positive weight, pushes the boid directly away from it. */
  lemma LoneCloseNeighbourRepels(n: Numerics, s: Settings, self: Vec3, t: Id, scene: Scene)
    requires Lawful(n) && 0.0 < s.avoidanceValue
    requires self != scene(t).position
    requires Shorter(Sub(self, scene(t).position), s.minDistance)
    ensures 0.0 < Dot(Separation(n, s, self, [t], scene), Sub(self, scene(t).position))
  {
    SeparationOfOne(n, s, self, t, scene);
    SubZero(self, scene(t).position);
    WeightedDirection(n, Sub(self, scene(t).position), s.avoidanceValue);
  }

  /** A lone flockmate on the same x-axis line and closer than
      `minDistance` pushes the boid along that line, away from it. */
  lemma AxisSeparation(n: Numerics, s: Settings, self: Vec3, t: Id, scene: Scene)
    requires Lawful(n) && 0.0 < s.avoidanceValue
    requires self.y == scene(t).position.y && self.z == scene(t).position.z
    requires -s.minDistance < self.x - scene(t).position.x < s.minDistance
    ensures self.x < scene(t).position.x ==> Separation(n, s, self, [t], scene).x < 0.0
    ensures scene(t).position.x < self.x ==> 0.0 < Separation(n, s, self, [t], scene).x
  {
    var away := Sub(self, scene(t).position);
    AxisShorter(away, s.minDistance);
    SeparationOfOne(n, s, self, t, scene);
    if away.x != 0.0 {
      AxisDirection(n, away, s.avoidanceValue);
    }
  }

  /** Two boids one unit apart with the default `minDistance` of 1.5 push
      each other apart along the line between them. */
  lemma TwoCloseBoidsSeparate(n: Numerics, scene: Scene, a: Id, b: Id)
    requires Lawful(n)
    requires scene(a).position == Vec3(0.0, 0.0, 0.0)
    requires scene(b).position == Vec3(1.0, 0.0, 0.0)
    ensures Separation(n, Defaults, scene(a).position, [b], scene).x < 0.0
    ensures 0.0 < Separation(n, Defaults, scene(b).position, [a], scene).x
  {
    AxisSeparation(n, Defaults, scene(a).position, b, scene);
    AxisSeparation(n, Defaults, scene(b).position, a, scene);
  }

  /** A boid at the origin and a target at (10, 0, 0), beyond the default
      `distanceToTarget` of 2: the rule returns the x unit vector times
      `targetValue`. */
  lemma FarTargetAttracts(n: Numerics)
    requires Lawful(n)
    ensures Target(n, Defaults, Zero, Vec3(10.0, 0.0, 0.0)) == Scale(Vec3(1.0, 0.0, 0.0), Defaults.targetValue)
  {
    var v := Vec3(10.0, 0.0, 0.0);
    assert Sub(v, Zero) == v;
    assert !NoLonger(v, Defaults.distanceToTarget);
    AxisNormalized(n, 10.0);
  }

  /** A boid one unit from the target, inside the default
      `distanceToTarget` of 2: the rule is silent. */
  lemma NearTargetIsIgnored(n: Numerics, self: Vec3)
    requires SqMagnitude(Sub(Vec3(1.0, 0.0, 0.0), self)) == 1.0
    ensures Target(n, Defaults, self, Vec3(1.0, 0.0, 0.0)) == Zero
  {}
}
