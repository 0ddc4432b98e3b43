# Boids: a verified model of one boid's bookkeeping and steering

This project models the `Boid` component of a Unity flocking simulation, in
Dafny. A boid keeps two lists of the objects its trigger volume currently
overlaps:

- `flock` holds the objects that share its tag;
- `obstacles` holds everything else.

The physics engine's enter and exit callbacks are the only code that changes
these lists. On every frame, `Move` does the following:

1. It adds up five steering rules: alignment, cohesion, separation, obstacle
   avoidance and target seeking.
2. It turns the current heading toward that sum with `Vector3.Slerp`.
3. It normalizes the result.
4. It faces the result, unless the result is zero.
5. It sets the rigidbody's velocity to the result times `speed`.

The project has five modules:

- `Lists` (`lists.dfy`): the two `List<T>` operations the boid uses. `Add`
  appends. `Remove` takes out the first occurrence, found as `IndexOf` finds
  it.
- `Vectors` (`vectors.dfy`): `Vector3` over exact reals, and a left fold
  `Sum` that mirrors a `foreach` accumulator. Lengths are compared through
  their squares. `normalized` and `Slerp` are not computed. They are function
  values in a `Numerics` record, and `Lawful` gives the laws the model relies
  on: zero stays zero, and any other vector becomes a unit vector that is a
  positive multiple of it.
- `Tracker` (`tracker.dfy`): the two lists as a value, `Contacts`. The
  callbacks' effect on them is the value functions `Enter` and `Exit`.
- `Steering` (`steering.dfy`): each rule, the composite direction, and the
  heading and velocity `Move` produces, as functions. The lemmas here carry
  the properties of the rules.
- `Boids` (`boid.dfy`): the `Boid` class. Its fields are `flock`,
  `obstacles`, `position`, `forward` and `velocity`, updated in place.
  - The callback methods are proved against `Enter` and `Exit`.
  - Each rule method is a `for` loop over a list, with an invariant that ties
    the accumulator to `Sum` over the prefix seen so far. Each is proved equal
    to its rule function.
  - `Move` is proved to leave exactly the `Heading` and the `Velocity` of the
    composite direction.

The other transforms of the scene are read through a parameter
`scene: Id -> Pose`. So are the per-frame quantities: `Time.deltaTime` and
the target position.

The defaults in `Steering.Defaults` are the serialized field values at
Assets/Scripts/Boid.cs:8-55:

| field | default |
|---|---|
| `turnSensitivity` | 1 |
| `speed` | 10 |
| `cohesionValue` | 1 |
| `minDistance` | 1.5 |
| `avoidanceValue` | 1 |
| `obstacleAvoidanceValue` | 5 |
| `alignementValue` | 1 |
| `targetValue` | 1 |
| `distanceToTarget` | 2 |

Two behaviours of the code are worth stating plainly:

- Entering is not idempotent: `List.Add` at Assets/Scripts/Boid.cs:183 and
  :209 appends a second copy of an object already listed.
  `Tracker.EnterCountsCopies` states this. Exiting removes one copy per call.
- Cohesion with an empty flock returns zero.
  - The code divides by `flock.Count` without a guard
    (Assets/Scripts/Boid.cs:152). For an empty flock, that is float `0/0`,
    so every component is NaN.
  - Unity's `normalized` returns the zero vector unless the magnitude is
    greater than 1e-5. That comparison is false for NaN, so the rule still
    returns the zero vector.
  - The model writes this outcome as an explicit guard (`Steering.Cohesion`,
    `Boids.Boid.RuleCohesion`).

## Model

| member | source | states |
|---|---|---|
| Lists.RemoveFirst | Assets/Scripts/Boid.cs:216-219 | `List.Remove` leaves a list without the element unchanged. Otherwise it deletes the element at its first occurrence (a position holding it with no copy before) and keeps the rest in order, so the list is one shorter and its multiset loses exactly one copy. |
| Lists.RemoveFirstKeeps | Assets/Scripts/Boid.cs:199 | Removal never introduces an element that was not in the list. |
| Lists.AppendThenRemoveFirst | Assets/Scripts/Boid.cs:207-219 | An append followed by a removal of the same element restores an element-free list exactly. When an earlier copy existed, that earlier copy is removed, so the list equals the old list without its first copy plus the element at the end. The multiset is restored either way. |
| Vectors.MagnitudeComparisons | Assets/Scripts/Boid.cs:104 | For the true length `m` of `v`, the squared comparisons `Shorter` and `NoLonger` hold exactly when `m < d` and `m <= d`. |
| Vectors.NormalizedIsUnitOrZero | Assets/Scripts/Boid.cs:87 | Under the laws of `normalized`, the result is zero exactly for the zero vector and has length 1 otherwise. |
| Vectors.WeightedDirection | Assets/Scripts/Boid.cs:110 | A normalized non-zero vector times a positive weight has a positive dot product with the original vector, and it is not zero. |
| Vectors.AxisNormalized | Assets/Scripts/Boid.cs:167-168 | Normalizing `(a, 0, 0)` with `a > 0` gives exactly `(1, 0, 0)`. |
| Vectors.SumPermutation | Assets/Scripts/Boid.cs:102-108 | A `foreach` sum over a list depends only on the multiset of the list. |
| Tracker.EnterAppends | Assets/Scripts/Boid.cs:175-185 | Entering appends the handle to `flock` exactly when the tags are equal, and to `obstacles` exactly when they differ. The other list stays unchanged. |
| Tracker.EnterCountsCopies | Assets/Scripts/Boid.cs:183 | Entering never deduplicates. The handle's count in the chosen list goes up by one. |
| Tracker.ExitRemovesOneCopy | Assets/Scripts/Boid.cs:191-201 | Exiting removes the first copy of the handle from the list the tag test picks, keeping the other entries in order, and shortens it by one when the handle is present. It is a no-op when the handle is absent, and the other list stays unchanged. |
| Tracker.EnterExitRoundTrip | Assets/Scripts/Boid.cs:175-201 | An enter then an exit of the same collider restores the multisets of both lists. It restores the lists exactly if the handle was not already in the chosen list. |
| Tracker.ClassifiedDisjoint | Assets/Scripts/Boid.cs:60-65 | While every flock entry has the boid's tag and no obstacle does, no handle is in both lists. |
| Tracker.CallbacksKeepClassified | Assets/Scripts/Boid.cs:175-201 | When colliders report their object's tag, entering and exiting keep flock entries same-tagged and obstacle entries differently tagged. |
| Steering.CloseNeighbours | Assets/Scripts/Boid.cs:102-108 | Its result holds exactly the flockmates strictly closer than `minDistance`, each as many times as it occurs in `flock`, and no other handle. |
| Steering.SeparationSumsCloseNeighbours | Assets/Scripts/Boid.cs:98-111 | The separation accumulator is the sum of `self - p` over exactly the flockmates strictly closer than `minDistance`. |
| Steering.SeparationWithoutCloseNeighbours | Assets/Scripts/Boid.cs:98-111 | With no flockmate strictly closer than `minDistance`, separation is zero. |
| Steering.SeparationIgnoresBoundary | Assets/Scripts/Boid.cs:104 | A flockmate at exactly `minDistance` does not change separation, because the threshold is strict. |
| Steering.AvoidanceCountsEveryObstacle | Assets/Scripts/Boid.cs:113-123 | Obstacle avoidance sums over every obstacle without a threshold. The sum is `|obstacles|·self` minus the sum of the obstacle positions. |
| Steering.EmptyFlockIsSilent | Assets/Scripts/Boid.cs:128-155 | For an empty flock, separation, alignment and cohesion are all zero. |
| Steering.CohesionPointsToCentroid | Assets/Scripts/Boid.cs:143-155 | With a positive weight, cohesion has a positive dot product with the vector from the boid to the flock's centre of mass. |
| Steering.TargetCases | Assets/Scripts/Boid.cs:157-169 | The target rule is zero exactly when the target is the zero vector, lies within `distanceToTarget`, or coincides with the boid. Otherwise it points toward the target. |
| Steering.CompositeIgnoresOrder | Assets/Scripts/Boid.cs:85 | The composite direction depends only on the multisets of the two lists. |
| Steering.EnterExitKeepsComposite | Assets/Scripts/Boid.cs:175-201 | An enter followed by an exit of the same collider leaves the composite direction unchanged, even when a copy was already listed. |
| Steering.IsolatedBoidHasNoDirection | Assets/Scripts/Boid.cs:83-93 | With both lists empty and no target, the composite direction is zero. |
| Steering.SeparationOfOne | Assets/Scripts/Boid.cs:98-111 | Separation over one flockmate closer than `minDistance` is the weighted normalized vector away from it. |
| Steering.LoneCloseNeighbourRepels | Assets/Scripts/Boid.cs:98-111 | With a positive weight, a lone close flockmate pushes the boid away from it: the dot product with `self - p` is positive. |
| Steering.AxisSeparation | Assets/Scripts/Boid.cs:98-111 | A lone close flockmate on the boid's x-axis line pushes the boid along the x axis, away from itself. |
| Steering.TwoCloseBoidsSeparate | Assets/Scripts/Boid.cs:98-111 | Two boids one unit apart, with the default `minDistance` of 1.5, get separation vectors pointing away from each other. |
| Steering.FarTargetAttracts | Assets/Scripts/Boid.cs:157-169 | A boid at the origin with a target at (10, 0, 0) gets exactly `(1, 0, 0)·targetValue`. |
| Steering.NearTargetIsIgnored | Assets/Scripts/Boid.cs:164-165 | A target one unit away, within the default `distanceToTarget` of 2, gives zero. |
| Steering.SmoothedIsUnitOrZero | Assets/Scripts/Boid.cs:86-87 | The smoothed direction is zero exactly when the interpolation is zero, and has length 1 otherwise. |
| Steering.HeadingStaysUnit | Assets/Scripts/Boid.cs:86-90 | A unit heading stays a unit heading after a move, whether the new direction is taken or the degenerate zero case keeps the old one. |
| Steering.VelocityHasSpeed | Assets/Scripts/Boid.cs:86-92 | The velocity is zero or has length `|speed|`. For a non-zero speed it is zero exactly in the degenerate case. When it is non-zero, it is the new heading times `speed`. |
| Boids.Boid.constructor | Assets/Scripts/Boid.cs:60-65 | A new boid starts with both lists empty. |
| Boids.Boid.AddBoidToFlock | Assets/Scripts/Boid.cs:207-210 | Appends the handle to `flock` and changes nothing else. |
| Boids.Boid.RemoveBoidFromFlock | Assets/Scripts/Boid.cs:216-219 | `flock` loses its first copy of the handle, and nothing else changes. |
| Boids.Boid.OnTriggerEnter | Assets/Scripts/Boid.cs:175-185 | The new lists are `Enter` of the old ones, which the `Tracker` lemmas characterize. |
| Boids.Boid.OnTriggerExit | Assets/Scripts/Boid.cs:191-201 | The new lists are `Exit` of the old ones. |
| Boids.Boid.RuleSeparation | Assets/Scripts/Boid.cs:98-111 | The loop computes `Separation` of the boid's position and flock. |
| Boids.Boid.RuleObstacle | Assets/Scripts/Boid.cs:113-123 | The loop computes `Avoidance` of the boid's position and obstacles. |
| Boids.Boid.RuleAlignement | Assets/Scripts/Boid.cs:128-138 | The loop computes `Alignment` of the flock. |
| Boids.Boid.RuleCohesion | Assets/Scripts/Boid.cs:143-155 | The loop computes `Cohesion`, which is zero for an empty flock. |
| Boids.Boid.Move | Assets/Scripts/Boid.cs:83-93 | The new `forward` is the smoothed composite when that is non-zero, and otherwise the old heading. The new `velocity` is the smoothed composite times `speed`. The lists and the position are unchanged. |

## Left out

- Assets/Scripts/FlockingSettings.cs is not part of this model. It only copies a serialized transform into a static field. `Update` (Assets/Scripts/Boid.cs:79-81) only passes that position to `Move`, so the target is a parameter of `Move` here. `Awake`'s component lookup is also left out.
- Floating point: vectors are exact reals. Unity's approximate `Vector3 ==` and `!=` (lines 89 and 159) are exact equality.
- `Vector3.Distance` and `magnitude` are compared through squares. `Vectors.MagnitudeComparisons` shows that this is equivalent.
- `normalized`, `Normalize` and `Vector3.Slerp` are not computed.
  - The model assumes that `normalized` sends zero to zero and any other vector to a positive multiple of length 1.
  - Unity also returns zero for non-zero vectors of magnitude at most 1e-5. The model does not capture that cut-off.
  - `Slerp` has no laws at all. Consequently, the model proves that an isolated boid without a target gets a zero composite direction (`Steering.IsolatedBoidHasNoDirection`), but not that its heading then stays the same.
- Steering.TwoCloseBoidsSeparate: states the sign of each separation vector along the line between the boids, not its exact value.
- Physics and actuation: setting `transform.forward` rotates the transform in Unity. Here it is a stored vector, and the rigidbody's integration of `velocity` into `position` is not modelled. Trigger detection is the callers' concern; the callbacks receive a `Collider` value (handle and tag).
- Transforms are handles (`Id`) into a snapshot of the scene taken when the rules run. Destroyed objects, whose handles Unity would report as null, are not modelled.
- `Rule_Target` (lines 157-169) changes no state and has no loop. It is the function `Steering.Target`, which `Move` calls directly.
