// The physics object of PhantomLimb: a shared object holding the world's
// fields, updated in place by InitPhysics and ExitPhysics, and the handle
// PhantomPhysics that refers to it (possibly from several copies) and
// performs Reset, AddBall, Update and the hand moves on it. Every method is
// proved to perform the transition of the same name in PhysicsState.

module Physics {
  import opened Quaternions
  import opened PhysicsState

  class SharedObject {
    var gravity: Vec3
    var handRadius: real
    var shapes: seq<Shape>
    var balls: seq<Body>
    var ballOrients: seq<Transform>
    var ground: Option<Body>
    var leftHand: Option<Body>
    var rightHand: Option<Body>
    var running: bool

    /** The fields as a World value. */
    function State(): World
      reads this
    {
      World(gravity, handRadius, shapes, balls, ballOrients, ground, leftHand, rightHand, running)
    }

    predicate Valid()
      reads this
    {
      WellFormed(State())
    }

    /** Gravity along y, the hand radius, then InitPhysics. */
    constructor (gravity: real, handRadius: real)
      ensures Valid() && State() == Initialized(Unstarted(gravity, handRadius))
    {
      this.gravity := Vec3(0.0, gravity, 0.0);
      this.handRadius := handRadius;
      shapes, balls, ballOrients := [], [], [];
      ground, leftHand, rightHand := None, None, None;
      running := false;
      new;
      InitPhysics();
    }

    method InitPhysics()
      modifies this
      ensures State() == Initialized(old(State()))
    {
      shapes := shapes + [GroundShape];
      ground := Some(GroundBody(|shapes| - 1));
      shapes := shapes + [Sphere(handRadius)];
      var handShape := |shapes| - 1;
      leftHand := Some(HandBody(handShape));
      rightHand := Some(HandBody(handShape));
      running := true;
    }

    method ExitPhysics()
      modifies this
      ensures State() == Exited(old(State()))
    {
      running := false;
      ballOrients := [];
      balls := [];
      leftHand, rightHand, ground := None, None, None;
      shapes := [];
    }
  }

  /** A handle on a shared physics object; copies of a handle share the object. */
  class PhantomPhysics {
    var obj: SharedObject?

    /**
     * Every handle's object is well formed, running and holds at most
     * MaxBalls + 1 balls: ExitPhysics is only ever followed by InitPhysics.
     */
    predicate Valid()
      reads this, obj
    {
      obj != null ==> obj.Valid() && obj.running && |obj.balls| <= MaxBalls + 1
    }

    /** The default handle refers to nothing. */
    constructor Empty()
      ensures Valid() && !Holds()
    {
      obj := null;
    }

    constructor (gravity: real, handRadius: real)
      ensures Valid() && Holds() && fresh(obj)
      ensures obj.State() == Initialized(Unstarted(gravity, handRadius))
      ensures obj.balls == []
    {
      obj := new SharedObject(gravity, handRadius);
    }

    /** Conversion to bool: true exactly when the handle refers to an object. */
    predicate Holds()
      reads this
    {
      obj != null
    }

    /** Handle equality is identity of the referenced object. */
    predicate SameWorld(other: PhantomPhysics)
      reads this, other
      ensures SameWorld(other) ==> (Holds() <==> other.Holds())
    {
      obj == other.obj
    }

    /** A copy of the handle, referring to the same object. */
    method Copy() returns (h: PhantomPhysics)
      ensures fresh(h) && h.obj == obj && SameWorld(h) && h.SameWorld(this)
    {
      h := new PhantomPhysics.Empty();
      h.obj := obj;
    }

    /** reset(): drop the object. */
    method Release()
      modifies this
      ensures !Holds()
    {
      obj := null;
    }

    /** The cached ball transforms of the shared object. */
    function BallOrients(): (r: seq<Transform>)
      requires Holds()
      reads this, obj
      ensures Valid() ==> |r| == |obj.balls| && forall i :: 0 <= i < |r| ==> r[i] == obj.balls[i].motion
    {
      obj.ballOrients
    }

    method Reset()
      requires Holds() && Valid()
      modifies obj
      ensures Valid()
      ensures obj.State() == ResetWorld(old(obj.State()))
    {
      obj.ExitPhysics();
      obj.InitPhysics();
    }

    method AddBall(radius: real, pos: Vec3, velocity: Vec3)
      requires Holds() && Valid()
      modifies obj
      ensures Valid()
      ensures obj.State() == WithBall(old(obj.State()), radius, pos, velocity)
    {
      ghost var w := obj.State();
      if |obj.balls| > MaxBalls {
        Reset();
      }
      obj.shapes := obj.shapes + [Sphere(radius)];
      var body := BallBody(|obj.shapes| - 1, pos, velocity);
      obj.balls := obj.balls + [body];
      obj.ballOrients := obj.ballOrients + [Translation(pos)];
      WithBallWellFormed(w, radius, pos, velocity);
    }

    method Update(dt: real, engine: Engine)
      requires Holds() && Valid()
      modifies obj
      ensures Valid()
      ensures obj.State() == Stepped(old(obj.State()), dt, engine)
    {
      if obj.running {
        var w := obj.State();
        // the simulation step moves every ball
        obj.balls := Advanced(w, dt, engine);
        // then each cached transform is read back from its ball
        for i := 0 to |obj.balls|
          invariant obj.balls == Advanced(w, dt, engine)
          invariant |obj.ballOrients| == |obj.balls|
          invariant forall j :: 0 <= j < i ==> obj.ballOrients[j] == obj.balls[j].motion
          invariant forall j :: i <= j < |obj.balls| ==> obj.ballOrients[j] == w.ballOrients[j]
          invariant obj.State() == w.(balls := obj.balls, ballOrients := obj.ballOrients)
        {
          obj.ballOrients := obj.ballOrients[i := obj.balls[i].motion];
        }
        assert obj.ballOrients == Orients(obj.balls);
        SteppedWellFormed(w, dt, engine);
      }
    }

    method MoveLeftHand(pos: Vec3)
      requires Holds() && Valid()
      modifies obj
      ensures Valid()
      ensures obj.State() == WithLeftHand(old(obj.State()), pos)
    {
      HandMovesWellFormed(obj.State(), pos);
      var hand := obj.leftHand.value;
      var trans := hand.motion.(origin := pos);
      obj.leftHand := Some(hand.(activation := DisableDeactivation, motion := trans));
    }

    method MoveRightHand(pos: Vec3)
      requires Holds() && Valid()
      modifies obj
      ensures Valid()
      ensures obj.State() == WithRightHand(old(obj.State()), pos)
    {
      HandMovesWellFormed(obj.State(), pos);
      var hand := obj.rightHand.value;
      var trans := hand.motion.(origin := pos);
      obj.rightHand := Some(hand.(activation := DisableDeactivation, motion := trans));
    }
  }

  /** Handles that compare equal read the same ball transforms. */
  lemma SharedOrients(a: PhantomPhysics, b: PhantomPhysics)
    requires a.Holds() && a.SameWorld(b)
    ensures b.Holds() && a.BallOrients() == b.BallOrients()
  {
  }
}
