# PhantomLimb core in Dafny

PhantomLimb is a rehabilitation application. A depth sensor tracks a user's
skeleton, and the tracked arm rotations drive the arms of an animated MD5
character. A head-mounted display turns the camera. A small Bullet physics
game throws balls at the user's hands. This project models two pieces of
that program and proves properties of them.

1. **Arm retargeting and head delta.** These are the retargeting block of
   `PhantomLimb::update` and the head-rotation update in
   `PhantomLimb::display`.
   - Quaternions are exact reals with the Hamilton product.
   - The half turns `angleAxis(180, axis)` are the unit quaternions i, j and
     k. This reads `180.0f` as degrees, GLM's default before 0.9.6, which is
     also how the same literal reads at src/app.cpp:58.
   - The target skeleton is a map from bone name to relative rotation.
   - `PhantomLimb` is a class whose methods update the pose and the two head
     rotations.
2. **The physics pool.** `PhantomPhysics` is a handle on a shared object.
   - `SharedObject` is a class whose fields are updated in place by
     `InitPhysics` and `ExitPhysics`.
   - The handle's `Reset`, `AddBall`, `Update`, `MoveLeftHand` and
     `MoveRightHand` change the shared object.
   - Each method is proved to perform a transition function on a `World`
     value, and the properties are proved about those functions.
   - Bullet is opaque. A body is a record of what the application sets on
     it. A simulation step is an uninterpreted `Engine` function that gives
     each ball its post-step state (transform, velocity, activation).

Files:
- `quaternion.dfy` (module `Quaternions`): the Hamilton product, its
  associativity and identity, the inverse, and the half turn.
- `retarget.dfy` (module `Retargeting`): the arm frame changes, `Retarget`,
  the head delta, and class `PhantomLimb`.
- `physics_state.dfy` (module `PhysicsState`): `World` and its transitions.
- `physics.dfy` (module `Physics`): classes `SharedObject` and
  `PhantomPhysics`.

### The ball pool bound

`AddBall` resets only when more than 20 balls exist on entry
(src/physics.cpp:34). From an empty pool the 21st call leaves 21 balls, and the
22nd call is the first to reset. See `PhysicsState.BallCountAfterShots` and
`PhysicsState.ResetCalls`.

## Model

| member | source | states |
|---|---|---|
| Quaternions.MulIdentity | include/app.hpp:74-75 | The default quaternion, the identity, is neutral on both sides of the product. |
| Quaternions.MulAssociative | src/app.cpp:126-135 | The product is associative, so the left-to-right chains `ry * q * ryi` may be regrouped. |
| Quaternions.Inverse | src/app.cpp:116-123 | For a non-zero quaternion the inverse is a two-sided inverse and has a non-zero norm. The zero quaternion maps to zero. |
| Quaternions.InverseUnique | src/app.cpp:159 | A right inverse of a non-zero quaternion is its inverse. |
| Quaternions.InverseInvolution | src/app.cpp:158-159 | Inverting twice gives back any non-zero quaternion. |
| Quaternions.UnitInverse | src/app.cpp:116-123 | The inverse of a unit quaternion is its conjugate. |
| Quaternions.HalfTurn | src/app.cpp:116-122 | A 180-degree turn about an axis has squared norm equal to the axis's squared length, and squares to minus that norm. For a unit axis this is -1. |
| Retargeting.HalfTurnConstants | src/app.cpp:116-123 | `ry`, `rx` and `rz` are j, i and k, and their inverses are -j, -i and -k. |
| Retargeting.HalfTurnProduct | src/app.cpp:135 | `rx * ry` is k, and `ryi * rxi` is its inverse, -k. |
| Retargeting.LeftArmFrame | src/app.cpp:126-129 | `ry * q * ryi` maps (w,x,y,z) to (w,-x,y,-z) and keeps the norm. |
| Retargeting.RightUpperArmFrame | src/app.cpp:132 | `ry * q * ryi * rxi` maps (w,x,y,z) to (-x,-w,z,y). It is the left-arm frame change followed by `rxi`, and it keeps the norm. |
| Retargeting.RightLowerArmFrame | src/app.cpp:135 | `rx * ry * q * ryi * rxi` maps (w,x,y,z) to (w,-x,-y,z) and keeps the norm. |
| Retargeting.LeftArmIsConjugation | src/app.cpp:126 | The left-arm frame change is conjugation by `ry`. |
| Retargeting.RightLowerArmByK | src/app.cpp:135 | The right-forearm product equals k * q * (-k). |
| Retargeting.RightLowerArmIsConjugation | src/app.cpp:135 | The right-forearm frame change is conjugation by k = `rx * ry`. |
| Retargeting.ConjugationFixesIdentity | src/app.cpp:126-135 | Conjugation by any non-zero quaternion fixes the identity. |
| Retargeting.ConjugationMultiplicative | src/app.cpp:126-135 | Conjugation by a non-zero quaternion preserves products. |
| Retargeting.RightUpperArmNotConjugation | src/app.cpp:132 | The right upper-arm formula is no conjugation: it sends the identity to (0,-1,0,0), which no conjugation produces. |
| Retargeting.Retarget | src/app.cpp:125-135 | A tracked frame writes exactly the four arm bones, with their closed forms from the matching joints. All other bones and the key set are unchanged. |
| Retargeting.RetargetIdempotent | src/app.cpp:125-135 | Retargeting a second time with the same joints changes nothing. |
| Retargeting.HeadDelta | src/app.cpp:159 | For a non-zero `prev`, `inverse(prev) * q` carries `prev` to `q`. |
| Retargeting.HeadDeltaUnique | src/app.cpp:159 | A rotation carries `prev` to `q` if and only if it is the delta. |
| Retargeting.Deltas | src/app.cpp:158-160 | Over successive frames there is one delta per frame: the `HeadDelta` from the previous frame's `prev` (the initial one, then the inverse of the previous orientation) to the inverse of this frame's orientation. |
| Retargeting.DeltasTelescope | src/app.cpp:158-161 | Over any run of invertible orientations, composing all deltas onto the initial rotation gives the inverse of the last orientation. |
| Retargeting.PhantomLimb.constructor | include/app.hpp:74-75 | Both head rotations start as the identity. |
| Retargeting.PhantomLimb.Update | src/app.cpp:108-138 | The pose becomes `Retarget` of the old pose when the sensor is ready and user 1 is tracked. Otherwise it is unchanged. |
| Retargeting.PhantomLimb.Display | src/app.cpp:158-160 | `prev` becomes the inverse of the headset orientation. `dt` is the delta from the old `prev`, and old `prev` * `dt` = new `prev`. |
| PhysicsState.Unstarted | src/physics.cpp:125-127 | Before `InitPhysics` the object is not running and has no shapes, balls, cached transforms, ground or hands. Gravity points along y. |
| PhysicsState.Initialized | src/physics.cpp:136-223 | `InitPhysics` starts running and adds exactly two shapes to the pool. It keeps balls, gravity and hand radius, and keeps the world well formed. |
| PhysicsState.InitializedBodies | src/physics.cpp:154-218 | The ground is a static box of half-extent 50 at (0,-50,0), so its top face is y = 0. Both hands are kinematic, have mass 0, start at the origin, have deactivation disabled and share one sphere of the hand radius. |
| PhysicsState.Exited | src/physics.cpp:226-268 | `ExitPhysics` stops running and empties balls, cached transforms and shapes. It keeps gravity and hand radius. |
| PhysicsState.ResetWorld | src/physics.cpp:24-28 | `Reset` leaves the world running with no balls and exactly the ground box and hand sphere. Gravity and hand radius are unchanged, and the result is well formed from any state. |
| PhysicsState.ResetIdempotent | src/physics.cpp:24-28 | Resetting twice is resetting once. |
| PhysicsState.WithBall | src/physics.cpp:30-72 | With more than 20 balls on entry, the world is `ResetWorld` of the old one plus one shape and one ball, so one ball remains. Otherwise exactly one ball, one transform and one shape are appended and every other field (ground, hands, running flag) is kept. The count never exceeds 21. The new ball is a mass-1 sphere of the given radius at `pos` with velocity `velocity`, and its cached transform is the translation to `pos`. |
| PhysicsState.WithBallWellFormed | src/physics.cpp:69-70 | `AddBall` keeps balls and cached transforms in lockstep and the world well formed. |
| PhysicsState.BallCountAfterShots | src/physics.cpp:34-35 | From an empty pool, n calls leave (n-1) mod 21 + 1 balls. |
| PhysicsState.ResetCalls | src/physics.cpp:34-35 | Call k (from 0) resets exactly when k is a positive multiple of 21, so the 22nd call is the first reset. |
| PhysicsState.Stepped | src/physics.cpp:76-95 | When not running, nothing changes. When running, the count is kept. Each ball takes the engine's post-step transform, velocity and activation, and keeps its mass, kinematic flag and shape. Its cached transform becomes the post-step transform. No other field of the model changes; hand and ground velocities are not tracked (see "Left out"). |
| PhysicsState.SteppedWellFormed | src/physics.cpp:84-89 | `Update` keeps the world well formed. |
| PhysicsState.WithLeftHand | src/physics.cpp:97-107 | The left hand's origin becomes `pos` and its activation 4. Its rotation and all its other properties are kept, and nothing else in the world changes. |
| PhysicsState.WithRightHand | src/physics.cpp:109-117 | The right hand's origin becomes `pos` and its activation 4. Its rotation and all its other properties are kept, and nothing else in the world changes. |
| PhysicsState.HandMovesWellFormed | src/physics.cpp:97-117 | Moving either hand keeps the world well formed. |
| PhysicsState.HandMovesCommute | src/physics.cpp:97-117 | Left and right moves commute, and a second move of the same hand overrides the first. |
| Physics.SharedObject.constructor | src/physics.cpp:125-129 | The new object is `InitPhysics` applied to the unstarted state, and it is well formed. |
| Physics.SharedObject.InitPhysics | src/physics.cpp:136-223 | The fields become `Initialized` of the old fields. |
| Physics.SharedObject.ExitPhysics | src/physics.cpp:226-268 | The fields become `Exited` of the old fields. |
| Physics.PhantomPhysics.Empty | include/physics.hpp:29 | A default handle refers to no object and converts to false. |
| Physics.PhantomPhysics.constructor | src/physics.cpp:19-22 | A new handle refers to a fresh, running object with no balls. |
| Physics.PhantomPhysics.Holds | include/physics.hpp:82 | Conversion to bool: true exactly when the handle refers to an object. |
| Physics.PhantomPhysics.SameWorld | include/physics.hpp:80 | Handle equality is identity of the referenced object. Equal handles either both refer to an object or both do not. |
| Physics.PhantomPhysics.Copy | include/physics.hpp:77-80 | A copy refers to the same object and compares equal both ways. |
| Physics.PhantomPhysics.Release | include/physics.hpp:83 | After `reset()` the handle converts to false. |
| Physics.PhantomPhysics.BallOrients | include/physics.hpp:43 | Returns the shared object's cached transforms: one per ball, each equal to that ball's motion transform. |
| Physics.SharedOrients | include/physics.hpp:43 | Handles that compare equal read the same cached transforms. |
| Physics.PhantomPhysics.Reset | src/physics.cpp:24-28 | The shared object becomes `ResetWorld` of its old state, and the handle stays valid. |
| Physics.PhantomPhysics.AddBall | src/physics.cpp:30-72 | The shared object becomes `WithBall` of its old state, and the handle stays valid (at most 21 balls). |
| Physics.PhantomPhysics.Update | src/physics.cpp:76-95 | The shared object becomes `Stepped` of its old state. The loop refreshes every cached transform from its ball. |
| Physics.PhantomPhysics.MoveLeftHand | src/physics.cpp:97-107 | The shared object becomes `WithLeftHand` of its old state. |
| Physics.PhantomPhysics.MoveRightHand | src/physics.cpp:109-117 | The shared object becomes `WithRightHand` of its old state. |

## Left out

- Concurrency is left out. This covers the world's `update_mutex`, the fact that `AddBall` and the hand moves do not lock, and shared-pointer reference counting. The handle holds a plain reference.
- Memory management is left out: `new`/`delete`, the deletion loops of `ExitPhysics`, and the empty destructor. Teardown clears the sequences and drops the bodies.
- `CXSHARED` is defined outside the modelled files. The handle's operations model it as the precondition that the handle refers to an object.
- Physics.PhantomPhysics.Valid includes a running world, and the hand moves rely on it: the source dereferences the hand pointers, which exist exactly while the world is running, and every handle operation leaves it running because `ExitPhysics` is only called from `Reset`, right before `InitPhysics`.
- PhysicsState.Stepped keeps the hands' and the ground's `linearVelocity` at their creation values. The velocity Bullet derives during a step for a kinematic hand that has been moved is not tracked; nothing in the modelled code reads it.
- Bullet internals are left out: collision detection, integration, inertia and motion-state interpolation. Bodies are records. The step is the `Engine` parameter, which receives the sub-step limit 10. The activation states at creation follow Bullet's rules: a body added with mass 0 is put to sleep, `DISABLE_DEACTIVATION` is not overridden by `activate`, and a new dynamic ball starts as `ACTIVE_TAG`. After a step, a ball's transform, velocity and activation state are whatever the engine yields. The model does not say how Bullet computes them.
- The dynamics world, solver, dispatcher and broadphase objects are not modelled. The world exists whenever the shared object does, so `Update`'s guard reduces to the running flag.
- Transforms are a rotation quaternion plus an origin. The 4x4 OpenGL matrix cached per ball is represented by the same pair.
- Floating point is left out. Quaternions and vectors are exact reals, so `cos 90°` is exactly 0. `angleAxis` and `inverse` are stated by their exact values, and `HalfTurnConstants` proves those values.
- Quaternions.Inverse returns zero for the zero quaternion, where GLM's division yields non-finite values.
- `rz` and `rzi` are computed in the source but never used. They appear only in `RightLowerArmIsConjugation`, because `rx * ry` = k.
- Retargeting.Retarget and Retargeting.PhantomLimb.Update require the four target bones and the four tracked joints to exist. The source looks them up and dereferences the result without a check (src/app.cpp:125-135), so a missing bone or joint is undefined behaviour there and is not modelled.
- Physics.PhantomPhysics.BallOrients returns the cached transforms as a value. The source returns a mutable reference to the shared vector (include/physics.hpp:43). Writes by a caller through that reference are not modelled, and such writes could break the invariant that each cached transform equals its ball's transform.
- Device input and output are parameters: the sensor's readiness, user tracking and joint rotations, and the headset orientation. Applying the delta to the camera (`camera_.rotate`) is left out.
- Everything else in `app.cpp` is outside this model: the shaders, drawing, textures, MD5 loading and skinning, the window, and events.
