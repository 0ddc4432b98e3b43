/** The `Boid` component: its two neighbour lists, filled and emptied by the
    trigger callbacks, the four rules that fold over those lists, and the
    `Move` step that turns the rules into a heading and a velocity. The
    boid's own transform is held in `position` and `forward`, its
    rigidbody's velocity in `velocity`; every other transform is read from
    the `Scene` passed in. */
module Boids {
  import opened Vectors
  import opened Lists
  import opened Tracker
  import opened Steering

  class Boid {
    /** `gameObject.tag`. */
    const tag: Tag
    /** The serialized fields. */
    const settings: Settings
    /** The flockmates: handles of sensed objects sharing the boid's tag. */
    var flock: seq<Id>
    /** Every other sensed object. */
    var obstacles: seq<Id>
    /** `transform.position`. */
    var position: Vec3
    /** `transform.forward`. */
    var forward: Vec3
    /** `rigidbody.velocity`. */
    var velocity: Vec3

    /** A boid as the engine creates it: both lists empty. */
    constructor (tag: Tag, settings: Settings, position: Vec3, forward: Vec3, velocity: Vec3)
      ensures this.tag == tag && this.settings == settings
      ensures flock == [] && obstacles == []
      ensures this.position == position && this.forward == forward && this.velocity == velocity
    {
      this.tag := tag;
      this.settings := settings;
      this.position := position;
      this.forward := forward;
      this.velocity := velocity;
      flock := [];
      obstacles := [];
    }

    /** The two lists as one value. */
    function Sensed(): Contacts
      reads this
    {
      Contacts(flock, obstacles)
    }

    /** `AddBoidToFlock`: appends, even when the handle is already listed. */
    method AddBoidToFlock(boid: Id)
      modifies this`flock
      ensures flock == old(flock) + [boid]
    {
      flock := flock + [boid];
    }

    /** `RemoveBoidFromFlock`: removes the first copy of the handle, if any. */
    method RemoveBoidFromFlock(boid: Id)
      modifies this`flock
      ensures flock == RemoveFirst(old(flock), boid)
    {
      flock := RemoveFirst(flock, boid);
    }

    /** `OnTriggerEnter`: an object with the boid's tag joins the flock,
        anything else the obstacles. */
    method OnTriggerEnter(other: Collider)
      modifies this`flock, this`obstacles
      ensures Sensed() == Enter(old(Sensed()), tag, other)
    {
      if other.tag == tag {
        AddBoidToFlock(other.transform);
      } else {
        obstacles := obstacles + [other.transform];
      }
    }

    /** `OnTriggerExit`: the same tag test picks the list the handle leaves. */
    method OnTriggerExit(other: Collider)
      modifies this`flock, this`obstacles
      ensures Sensed() == Exit(old(Sensed()), tag, other)
    {
      if other.tag == tag {
        RemoveBoidFromFlock(other.transform);
      } else {
        obstacles := RemoveFirst(obstacles, other.transform);
      }
    }

    /** `Rule_Separation`: the normalized sum of the vectors from each
        flockmate strictly closer than `minDistance` to the boid, weighted by
        `avoidanceValue`. */
    method RuleSeparation(n: Numerics, scene: Scene) returns (r: Vec3)
      ensures r == Separation(n, settings, position, flock, scene)
    {
      var term := Repulsion(position, settings.minDistance, scene);
      var displacement := Zero;
      for i := 0 to |flock|
        invariant displacement == Sum(flock[..i], term)
      {
        var t := flock[i];
        if Shorter(Sub(position, scene(t).position), settings.minDistance) {
          displacement := Add(displacement, Sub(position, scene(t).position));
        }
        assert flock[..i + 1][..i] == flock[..i];
      }
      assert flock[..|flock|] == flock;
      r := Scale(n.normalize(displacement), settings.avoidanceValue);
    }

    /** `Rule_Obstacle`: the normalized sum of the vectors from every
        obstacle to the boid, weighted by `obstacleAvoidanceValue`. */
    method RuleObstacle(n: Numerics, scene: Scene) returns (r: Vec3)
      ensures r == Avoidance(n, settings, position, obstacles, scene)
    {
      var displacementObstacle := Zero;
      for i := 0 to |obstacles|
        invariant displacementObstacle == Sum(obstacles[..i], Displacement(position, scene))
      {
        displacementObstacle := Add(displacementObstacle, Sub(position, scene(obstacles[i]).position));
        assert obstacles[..i + 1][..i] == obstacles[..i];
      }
      assert obstacles[..|obstacles|] == obstacles;
      r := Scale(n.normalize(displacementObstacle), settings.obstacleAvoidanceValue);
    }

    /** `Rule_Alignement`: the normalized sum of the flockmates' headings,
        weighted by `alignementValue`. */
    method RuleAlignement(n: Numerics, scene: Scene) returns (r: Vec3)
      ensures r == Alignment(n, settings, flock, scene)
    {
      var localAlignement := Zero;
      for i := 0 to |flock|
        invariant localAlignement == Sum(flock[..i], Facing(scene))
      {
        localAlignement := Add(localAlignement, scene(flock[i]).forward);
        assert flock[..i + 1][..i] == flock[..i];
      }
      assert flock[..|flock|] == flock;
      r := Scale(n.normalize(localAlignement), settings.alignementValue);
    }

    /** `Rule_Cohesion`: the normalized vector from the boid to the
        flockmates' centre of mass, weighted by `cohesionValue`; zero for an
        empty flock. */
    method RuleCohesion(n: Numerics, scene: Scene) returns (r: Vec3)
      ensures r == Cohesion(n, settings, position, flock, scene)
    {
      var centerOfMass := Zero;
      for i := 0 to |flock|
        invariant centerOfMass == Sum(flock[..i], Location(scene))
      {
        centerOfMass := Add(centerOfMass, scene(flock[i]).position);
        assert flock[..i + 1][..i] == flock[..i];
      }
      assert flock[..|flock|] == flock;
      if |flock| == 0 {
        r := Zero;
      } else {
        centerOfMass := Div(centerOfMass, |flock| as real);
        r := Scale(n.normalize(Sub(centerOfMass, position)), settings.cohesionValue);
      }
    }

    /** `Move`: sums the five rules, turns the current heading toward the
        sum by `deltaTime * turnSensitivity`, normalizes, faces the result
        unless it is zero, and sets the velocity to it times `speed`. */
    method Move(n: Numerics, scene: Scene, target: Vec3, deltaTime: real)
      modifies this`forward, this`velocity
      ensures var direction := Composite(n, settings, position, Sensed(), scene, target);
        forward == Heading(n, settings, old(forward), direction, deltaTime) &&
        velocity == Velocity(n, settings, old(forward), direction, deltaTime)
    {
      var alignement := RuleAlignement(n, scene);
      var cohesion := RuleCohesion(n, scene);
      var separation := RuleSeparation(n, scene);
      var obstacle := RuleObstacle(n, scene);
      var newDirection := Add(Add(Add(Add(alignement, cohesion), separation), obstacle),
                              Target(n, settings, position, target));
      newDirection := n.slerp(forward, newDirection, TurnFraction(settings, deltaTime));
      newDirection := n.normalize(newDirection);
      if newDirection != Zero {
        forward := newDirection;
      }
      velocity := Scale(newDirection, settings.speed);
    }
  }
}
