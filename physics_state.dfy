// The state of the ball-throwing physics world behind PhantomPhysics, as a
// value, and the transitions its operations perform on it. The classes in
// physics.dfy are proved to perform exactly these transitions.
//
// Bullet is opaque here: a rigid body is a record of the properties the
// application sets (mass, kinematic flag, activation state, shape, motion
// state transform, linear velocity), and a simulation step is an
// uninterpreted Engine that yields each ball's post-step state.

module PhysicsState {
  import opened Quaternions

  /** Pool bound: AddBall resets the world when more than this many balls exist. */
  const MaxBalls: nat := 20
  /** Sub-step limit handed to the simulation step. */
  const MaxSubSteps: int := 10
  /** Bullet activation states used by the application. */
  const ActiveTag: int := 1
  const IslandSleeping: int := 2
  const DisableDeactivation: int := 4

  datatype Option<T> = None | Some(value: T)

  /** A rigid transform: a rotation and an origin (btTransform, or the 4x4 matrix cached per ball). */
  datatype Transform = Transform(rotation: Quat, origin: Vec3)

  function Translation(p: Vec3): Transform {
    Transform(Identity, p)
  }

  datatype Shape = Box(halfExtents: Vec3) | Sphere(radius: real)

  /** A rigid body; `shape` indexes the world's shape pool. */
  datatype Body = Body(mass: real, kinematic: bool, activation: int, shape: nat,
                       motion: Transform, linearVelocity: Vec3)

  /** The fields of the shared physics object. A missing body is one that does not exist (yet, or any more). */
  datatype World = World(gravity: Vec3, handRadius: real,
                         shapes: seq<Shape>, balls: seq<Body>, ballOrients: seq<Transform>,
                         ground: Option<Body>, leftHand: Option<Body>, rightHand: Option<Body>,
                         running: bool)

  /**
   * One simulation step: (world, dt, max sub-steps, ball index) to that ball
   * after the step. Bullet may change the ball's transform, velocity and
   * activation state; its mass, kinematic flag and shape stay as created.
   */
  type Engine = (World, real, int, nat) -> Body

  predicate InPool(b: Option<Body>, shapes: seq<Shape>) {
    b.Some? ==> b.value.shape < |shapes|
  }

  /** Invariant kept by every operation: balls and their cached transforms in lockstep, shapes in the pool, and the world running exactly when its fixed bodies exist. */
  predicate WellFormed(w: World) {
    && |w.balls| == |w.ballOrients|
    && (forall i :: 0 <= i < |w.balls| ==> w.ballOrients[i] == w.balls[i].motion)
    && (forall i :: 0 <= i < |w.balls| ==> w.balls[i].shape < |w.shapes|)
    && InPool(w.ground, w.shapes) && InPool(w.leftHand, w.shapes) && InPool(w.rightHand, w.shapes)
    && (w.running <==> w.ground.Some? && w.leftHand.Some? && w.rightHand.Some?)
  }

  const GroundShape: Shape := Box(Vec3(50.0, 50.0, 50.0))
  const GroundOrigin: Vec3 := Vec3(0.0, -50.0, 0.0)

  /** The static ground: mass 0, so Bullet puts it to sleep when it is added to the world. */
  function GroundBody(shape: nat): Body {
    Body(0.0, false, IslandSleeping, shape, Translation(GroundOrigin), Origin)
  }

  /** A hand: kinematic, mass 0, at the origin, never deactivated. */
  function HandBody(shape: nat): Body {
    Body(0.0, true, DisableDeactivation, shape, Translation(Origin), Origin)
  }

  /** A thrown ball: dynamic, mass 1, at `pos`, moving with `velocity`. */
  function BallBody(shape: nat, pos: Vec3, velocity: Vec3): Body {
    Body(1.0, false, ActiveTag, shape, Translation(pos), velocity)
  }

  /** The shared object as its constructor finds it, before InitPhysics: gravity along y, nothing built, not running. */
  function Unstarted(gravity: real, handRadius: real): (r: World)
    ensures !r.running && WellFormed(r)
    ensures r.gravity == Vec3(0.0, gravity, 0.0) && r.handRadius == handRadius
    ensures r.shapes == [] && r.balls == [] && r.ballOrients == []
    ensures r.ground.None? && r.leftHand.None? && r.rightHand.None?
  {
    World(Vec3(0.0, gravity, 0.0), handRadius, [], [], [], None, None, None, false)
  }

  /** InitPhysics: add the ground box and one hand sphere to the pool, create the ground and both hands, start running. */
  function Initialized(w: World): (r: World)
    ensures r.running
    ensures WellFormed(w) ==> WellFormed(r)
    ensures r.balls == w.balls && r.ballOrients == w.ballOrients
    ensures r.gravity == w.gravity && r.handRadius == w.handRadius
    ensures |r.shapes| == |w.shapes| + 2 && r.shapes[..|w.shapes|] == w.shapes
  {
    var base := |w.shapes|;
    w.(shapes := w.shapes + [GroundShape, Sphere(w.handRadius)],
       ground := Some(GroundBody(base)),
       leftHand := Some(HandBody(base + 1)),
       rightHand := Some(HandBody(base + 1)),
       running := true)
  }

  /** ExitPhysics: stop, drop every body and every shape. */
  function Exited(w: World): (r: World)
    ensures !r.running && WellFormed(r)
    ensures r.balls == [] && r.ballOrients == [] && r.shapes == []
    ensures r.gravity == w.gravity && r.handRadius == w.handRadius
  {
    w.(shapes := [], balls := [], ballOrients := [],
       ground := None, leftHand := None, rightHand := None,
       running := false)
  }

  /** Reset: ExitPhysics then InitPhysics. */
  function ResetWorld(w: World): (r: World)
    ensures r.running && WellFormed(r)
    ensures r.balls == [] && r.ballOrients == []
    ensures r.shapes == [GroundShape, Sphere(w.handRadius)]
    ensures r.gravity == w.gravity && r.handRadius == w.handRadius
  {
    Initialized(Exited(w))
  }

  /** AddBall: reset when more than MaxBalls balls exist, then add one sphere shape, one ball and its cached transform. */
  function WithBall(w: World, radius: real, pos: Vec3, velocity: Vec3): (r: World)
    ensures |w.balls| > MaxBalls ==> |r.balls| == 1 && r.running
    ensures |w.balls| <= MaxBalls ==>
      && |r.balls| == |w.balls| + 1 && r.balls[..|w.balls|] == w.balls
      && |r.ballOrients| == |w.ballOrients| + 1 && r.ballOrients[..|w.ballOrients|] == w.ballOrients
      && |r.shapes| == |w.shapes| + 1 && r.shapes[..|w.shapes|] == w.shapes
    ensures |r.balls| <= MaxBalls + 1
    ensures |r.balls| > 0 && |r.ballOrients| > 0 && |r.shapes| > 0
    ensures r.shapes[|r.shapes| - 1] == Sphere(radius)
    ensures r.balls[|r.balls| - 1] == BallBody(|r.shapes| - 1, pos, velocity)
    ensures r.ballOrients[|r.ballOrients| - 1] == Translation(pos)
    ensures r.gravity == w.gravity && r.handRadius == w.handRadius
    ensures |w.balls| <= MaxBalls ==>
      r.(shapes := w.shapes, balls := w.balls, ballOrients := w.ballOrients) == w
    ensures |w.balls| > MaxBalls ==>
      && r.(shapes := ResetWorld(w).shapes, balls := [], ballOrients := []) == ResetWorld(w)
      && r.shapes == ResetWorld(w).shapes + [Sphere(radius)]
  {
    var w0 := if |w.balls| > MaxBalls then ResetWorld(w) else w;
    var shapes := w0.shapes + [Sphere(radius)];
    w0.(shapes := shapes,
        balls := w0.balls + [BallBody(|shapes| - 1, pos, velocity)],
        ballOrients := w0.ballOrients + [Translation(pos)])
  }

  /** Ball `b` after the step: what the engine gives, with mass, kinematic flag and shape kept. */
  function StepBall(b: Body, stepped: Body): Body {
    stepped.(mass := b.mass, kinematic := b.kinematic, shape := b.shape)
  }

  /** The balls after one simulation step. */
  function Advanced(w: World, dt: real, engine: Engine): (r: seq<Body>)
    ensures |r| == |w.balls|
  {
    seq(|w.balls|, i requires 0 <= i < |w.balls| => StepBall(w.balls[i], engine(w, dt, MaxSubSteps, i)))
  }

  /** The cached transforms read back from the balls, one per ball. */
  function Orients(balls: seq<Body>): (r: seq<Transform>)
    ensures |r| == |balls|
  {
    seq(|balls|, i requires 0 <= i < |balls| => balls[i].motion)
  }

  /** Update: when running, step the simulation and refresh every cached ball transform; otherwise nothing. */
  function Stepped(w: World, dt: real, engine: Engine): (r: World)
    ensures !w.running ==> r == w
    ensures w.running ==>
      && |r.balls| == |w.balls| && |r.ballOrients| == |w.balls|
      && (forall i :: 0 <= i < |w.balls| ==>
            var e := engine(w, dt, MaxSubSteps, i);
            && r.ballOrients[i] == e.motion
            && r.balls[i].motion == e.motion
            && r.balls[i].linearVelocity == e.linearVelocity
            && r.balls[i].activation == e.activation
            && r.balls[i].(motion := w.balls[i].motion, linearVelocity := w.balls[i].linearVelocity,
                           activation := w.balls[i].activation) == w.balls[i])
      && r.(balls := w.balls, ballOrients := w.ballOrients) == w
  {
    if !w.running then w
    else
      var balls := Advanced(w, dt, engine);
      w.(balls := balls, ballOrients := Orients(balls))
  }

  /** A hand moved to `pos`: origin replaced, rotation kept, deactivation disabled. */
  function MovedHand(b: Body, pos: Vec3): Body {
    b.(activation := DisableDeactivation, motion := b.motion.(origin := pos))
  }

  /** MoveLeftHand. */
  function WithLeftHand(w: World, pos: Vec3): (r: World)
    requires w.leftHand.Some?
    ensures r.leftHand.Some?
    ensures var h, h' := w.leftHand.value, r.leftHand.value;
      && h'.motion.origin == pos && h'.motion.rotation == h.motion.rotation
      && h'.activation == DisableDeactivation
      && h'.(activation := h.activation, motion := h.motion) == h
    ensures r.(leftHand := w.leftHand) == w
  {
    w.(leftHand := Some(MovedHand(w.leftHand.value, pos)))
  }

  /** MoveRightHand. */
  function WithRightHand(w: World, pos: Vec3): (r: World)
    requires w.rightHand.Some?
    ensures r.rightHand.Some?
    ensures var h, h' := w.rightHand.value, r.rightHand.value;
      && h'.motion.origin == pos && h'.motion.rotation == h.motion.rotation
      && h'.activation == DisableDeactivation
      && h'.(activation := h.activation, motion := h.motion) == h
    ensures r.(rightHand := w.rightHand) == w
  {
    w.(rightHand := Some(MovedHand(w.rightHand.value, pos)))
  }

  // ---------------------------------------------------------------------
  // Properties of the transitions

  /** InitPhysics builds a static box of half-extent 50 centred at (0,-50,0), whose top face is y = 0, and two kinematic, mass-0 hands at the origin sharing one sphere of the hand radius. */
  lemma InitializedBodies(w: World)
    ensures var r := Initialized(w);
      && r.ground.Some? && r.leftHand.Some? && r.rightHand.Some?
      && r.ground.value.shape < |r.shapes| && r.shapes[r.ground.value.shape] == GroundShape
      && r.ground.value.mass == 0.0 && !r.ground.value.kinematic
      && r.ground.value.motion == Translation(GroundOrigin)
      && r.ground.value.motion.origin.y + r.shapes[r.ground.value.shape].halfExtents.y == 0.0
      && r.leftHand.value.shape == r.rightHand.value.shape
      && r.leftHand.value.shape < |r.shapes| && r.shapes[r.leftHand.value.shape] == Sphere(w.handRadius)
      && (forall h :: h in {r.leftHand.value, r.rightHand.value} ==>
            h.mass == 0.0 && h.kinematic && h.activation == DisableDeactivation
            && h.motion == Translation(Origin))
  {
  }

  /** Reset twice is Reset once. */
  lemma ResetIdempotent(w: World)
    ensures ResetWorld(ResetWorld(w)) == ResetWorld(w)
  {
  }

  /** AddBall keeps the world well formed. */
  lemma WithBallWellFormed(w: World, radius: real, pos: Vec3, velocity: Vec3)
    requires WellFormed(w)
    ensures WellFormed(WithBall(w, radius, pos, velocity))
  {
  }

  /** Update keeps the world well formed. */
  lemma SteppedWellFormed(w: World, dt: real, engine: Engine)
    requires WellFormed(w)
    ensures WellFormed(Stepped(w, dt, engine))
  {
  }

  /** Moving either hand keeps the world well formed. */
  lemma HandMovesWellFormed(w: World, pos: Vec3)
    requires WellFormed(w)
    ensures w.leftHand.Some? ==> WellFormed(WithLeftHand(w, pos))
    ensures w.rightHand.Some? ==> WellFormed(WithRightHand(w, pos))
  {
  }

  /** Moving the two hands commutes, and a second move of the same hand overrides the first. */
  lemma HandMovesCommute(w: World, p: Vec3, q: Vec3)
    requires w.leftHand.Some? && w.rightHand.Some?
    ensures WithRightHand(WithLeftHand(w, p), q) == WithLeftHand(WithRightHand(w, q), p)
    ensures WithLeftHand(WithLeftHand(w, p), q) == WithLeftHand(w, q)
    ensures WithRightHand(WithRightHand(w, p), q) == WithRightHand(w, q)
  {
  }

  // ---------------------------------------------------------------------
  // Repeated AddBall calls

  datatype Shot = Shot(radius: real, pos: Vec3, velocity: Vec3)

  /** The world after one AddBall call per shot, in order. */
  function Fired(w: World, shots: seq<Shot>): World
    decreases |shots|
  {
    if shots == [] then w
    else
      var s := shots[|shots| - 1];
      WithBall(Fired(w, shots[..|shots| - 1]), s.radius, s.pos, s.velocity)
  }

  /** From a world without balls, after n calls there are (n-1) mod 21 + 1 balls. */
  lemma {:induction false} BallCountAfterShots(w: World, shots: seq<Shot>)
    requires w.balls == []
    ensures |Fired(w, shots).balls| == if shots == [] then 0 else (|shots| - 1) % (MaxBalls + 1) + 1
    decreases |shots|
  {
    if shots != [] {
      var n := |shots|;
      var prev := shots[..n - 1];
      BallCountAfterShots(w, prev);
      if n > 1 {
        ModStep(n - 2);
      }
    }
  }

  /** Counting modulo MaxBalls + 1: the remainder wraps to 0 after MaxBalls and grows by one otherwise. */
  lemma ModStep(k: nat)
    ensures (k % (MaxBalls + 1) == MaxBalls ==> (k + 1) % (MaxBalls + 1) == 0)
    ensures (k % (MaxBalls + 1) < MaxBalls ==> (k + 1) % (MaxBalls + 1) == k % (MaxBalls + 1) + 1)
  {
  }

  /** From a world without balls, call k (counting from 0) resets exactly when k is a positive multiple of 21: the 22nd call is the first to reset. */
  lemma ResetCalls(w: World, shots: seq<Shot>, k: nat)
    requires w.balls == [] && k <= |shots|
    ensures |Fired(w, shots[..k]).balls| > MaxBalls <==> k > 0 && k % (MaxBalls + 1) == 0
  {
    BallCountAfterShots(w, shots[..k]);
    if k > 0 {
      ModStep(k - 1);
    }
  }
}
