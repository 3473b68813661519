/**
 * The arm retargeting step of PhantomLimb::update and the head-rotation
 * delta of PhantomLimb::display. The tracked user's joint rotations, as the
 * depth sensor reports them, are carried over to four bones of the rendered
 * MD5 skeleton after a fixed change of frame; the head-mounted display's
 * orientation is turned into a per-frame rotation delta for the camera.
 */
module Retargeting {
  import opened Quaternions

  // Joint names of the captured (sensor) skeleton.
  const LeftShoulder: string := "Left Shoulder"
  const LeftElbow: string := "Left Elbow"
  const RightShoulder: string := "Right Shoulder"
  const RightElbow: string := "Right Elbow"

  // Bone names of the target (MD5) skeleton.
  const LeftUpperArm: string := "luparm"
  const LeftLowerArm: string := "lloarm"
  const RightUpperArm: string := "ruparm"
  const RightLowerArm: string := "rloarm"

  const ArmBones: set<string> := {LeftUpperArm, LeftLowerArm, RightUpperArm, RightLowerArm}

  /**
   * The half turns about Y, X and Z and their inverses, by value: the unit
   * quaternions j, i and k and their negations. HalfTurnConstants shows they
   * are what angleAxis(180, axis) and inverse compute.
   */
  const Ry: Quat := Quat(0.0, 0.0, 1.0, 0.0)
  const RyInv: Quat := Quat(0.0, 0.0, -1.0, 0.0)
  const Rx: Quat := Quat(0.0, 1.0, 0.0, 0.0)
  const RxInv: Quat := Quat(0.0, -1.0, 0.0, 0.0)
  const Rz: Quat := Quat(0.0, 0.0, 0.0, 1.0)
  const RzInv: Quat := Quat(0.0, 0.0, 0.0, -1.0)

  lemma HalfTurnConstants()
    ensures Ry == HalfTurn(YAxis) && RyInv == Inverse(Ry)
    ensures Rx == HalfTurn(XAxis) && RxInv == Inverse(Rx)
    ensures Rz == HalfTurn(ZAxis) && RzInv == Inverse(Rz)
  {
    HalfTurnJ();
    HalfTurnI();
    HalfTurnK();
  }

  lemma HalfTurnJ()
    ensures Ry == HalfTurn(YAxis) && RyInv == Inverse(Ry)
  {
    assert Norm2(Ry) == 1.0;
    UnitInverse(Ry);
  }

  lemma HalfTurnI()
    ensures Rx == HalfTurn(XAxis) && RxInv == Inverse(Rx)
  {
    assert Norm2(Rx) == 1.0;
    UnitInverse(Rx);
  }

  lemma HalfTurnK()
    ensures Rz == HalfTurn(ZAxis) && RzInv == Inverse(Rz)
  {
    assert Norm2(Rz) == 1.0;
    UnitInverse(Rz);
  }

  /** rx · ry = i·j = k is the half turn about Z, and ry⁻¹ · rx⁻¹ is its inverse. */
  lemma HalfTurnProduct()
    ensures Mul(Rx, Ry) == Rz
    ensures Mul(RyInv, RxInv) == RzInv
  {
  }

  /** Conjugation of q by c: the rotation q expressed in the frame c. */
  function Conjugated(c: Quat, q: Quat): Quat {
    Mul(Mul(c, q), Inverse(c))
  }

  /** Frame change for luparm and lloarm: ry · q · ry⁻¹ negates x and z. */
  function LeftArmFrame(q: Quat): (r: Quat)
    ensures r == Quat(q.w, -q.x, q.y, -q.z)
    ensures Norm2(r) == Norm2(q)
  {
    Mul(Mul(Ry, q), RyInv)
  }

  /**
   * Frame change for ruparm: ry · q · ry⁻¹ · rx⁻¹, the left-arm conjugation
   * followed by a right multiplication by rx⁻¹.
   */
  function RightUpperArmFrame(q: Quat): (r: Quat)
    ensures r == Quat(-q.x, -q.w, q.z, q.y)
    ensures r == Mul(LeftArmFrame(q), RxInv)
    ensures Norm2(r) == Norm2(q)
  {
    Mul(Mul(Mul(Ry, q), RyInv), RxInv)
  }

  /** Frame change for rloarm: rx · ry · q · ry⁻¹ · rx⁻¹ negates x and y. */
  function RightLowerArmFrame(q: Quat): (r: Quat)
    ensures r == Quat(q.w, -q.x, -q.y, q.z)
    ensures Norm2(r) == Norm2(q)
  {
    Mul(Mul(Mul(Mul(Rx, Ry), q), RyInv), RxInv)
  }

  /** The left-arm frame change is conjugation by ry. */
  lemma LeftArmIsConjugation(q: Quat)
    ensures LeftArmFrame(q) == Conjugated(Ry, q)
  {
    HalfTurnConstants();
  }

  /**
   * The right-lower-arm frame change is conjugation by rx·ry, the half turn
   * about Z.
   */
  lemma RightLowerArmIsConjugation(q: Quat)
    ensures RightLowerArmFrame(q) == Conjugated(Rz, q)
  {
    RightLowerArmByK(q);
    HalfTurnK();
  }

  lemma RightLowerArmByK(q: Quat)
    ensures RightLowerArmFrame(q) == Mul(Mul(Rz, q), RzInv)
  {
  }

  /** Conjugation by an invertible quaternion fixes the identity rotation. */
  lemma ConjugationFixesIdentity(c: Quat)
    requires Norm2(c) != 0.0
    ensures Conjugated(c, Identity) == Identity
  {
    MulIdentity(c);
  }

  /** Conjugation by an invertible quaternion respects composition. */
  lemma ConjugationMultiplicative(c: Quat, p: Quat, q: Quat)
    requires Norm2(c) != 0.0
    ensures Conjugated(c, Mul(p, q)) == Mul(Conjugated(c, p), Conjugated(c, q))
  {
    var ci := Inverse(c);
    calc {
      Mul(Conjugated(c, p), Conjugated(c, q));
      Mul(Mul(Mul(c, p), ci), Mul(Mul(c, q), ci));
      { MulAssociative(Mul(Mul(c, p), ci), Mul(c, q), ci); }
      Mul(Mul(Mul(Mul(c, p), ci), Mul(c, q)), ci);
      { MulAssociative(Mul(Mul(c, p), ci), c, q); }
      Mul(Mul(Mul(Mul(Mul(c, p), ci), c), q), ci);
      { MulAssociative(Mul(c, p), ci, c); }
      Mul(Mul(Mul(Mul(c, p), Mul(ci, c)), q), ci);
      Mul(Mul(Mul(Mul(c, p), Identity), q), ci);
      { MulIdentity(Mul(c, p)); }
      Mul(Mul(Mul(c, p), q), ci);
      { MulAssociative(c, p, q); }
      Mul(Mul(c, Mul(p, q)), ci);
      Conjugated(c, Mul(p, q));
    }
  }

  /**
   * The right-upper-arm frame change is not a conjugation by anything: it
   * moves the identity rotation, which every conjugation keeps fixed.
   */
  lemma RightUpperArmNotConjugation(c: Quat)
    requires Norm2(c) != 0.0
    ensures RightUpperArmFrame(Identity) == Quat(0.0, -1.0, 0.0, 0.0)
    ensures RightUpperArmFrame(Identity) != Conjugated(c, Identity)
  {
    ConjugationFixesIdentity(c);
  }

  /** Every bone the retargeting step writes exists in the target skeleton. */
  predicate HasArmBones(pose: map<string, Quat>) {
    ArmBones <= pose.Keys
  }

  /** Every joint the retargeting step reads exists in the captured skeleton. */
  predicate HasTrackedJoints(joints: map<string, Quat>) {
    LeftShoulder in joints && LeftElbow in joints && RightShoulder in joints && RightElbow in joints
  }

  /**
   * One tracked frame: the four arm bones take the frame-changed rotations of
   * the matching captured joints; every other bone keeps its rotation.
   */
  function Retarget(pose: map<string, Quat>, joints: map<string, Quat>): (r: map<string, Quat>)
    requires HasArmBones(pose) && HasTrackedJoints(joints)
    ensures r.Keys == pose.Keys
    ensures forall b :: b in pose && b !in ArmBones ==> r[b] == pose[b]
    ensures var s := joints[LeftShoulder]; r[LeftUpperArm] == Quat(s.w, -s.x, s.y, -s.z)
    ensures var e := joints[LeftElbow]; r[LeftLowerArm] == Quat(e.w, -e.x, e.y, -e.z)
    ensures var s := joints[RightShoulder]; r[RightUpperArm] == Quat(-s.x, -s.w, s.z, s.y)
    ensures var e := joints[RightElbow]; r[RightLowerArm] == Quat(e.w, -e.x, -e.y, e.z)
  {
    pose[LeftUpperArm := LeftArmFrame(joints[LeftShoulder])]
        [LeftLowerArm := LeftArmFrame(joints[LeftElbow])]
        [RightUpperArm := RightUpperArmFrame(joints[RightShoulder])]
        [RightLowerArm := RightLowerArmFrame(joints[RightElbow])]
  }

  /** Retargeting the same captured frame twice changes nothing more. */
  lemma RetargetIdempotent(pose: map<string, Quat>, joints: map<string, Quat>)
    requires HasArmBones(pose) && HasTrackedJoints(joints)
    ensures HasArmBones(Retarget(pose, joints))
    ensures Retarget(Retarget(pose, joints), joints) == Retarget(pose, joints)
  {
  }

  /**
   * The camera's rotation delta for one frame: the rotation that carries the
   * previous head rotation to the new one, prev⁻¹ · q.
   */
  function HeadDelta(prev: Quat, q: Quat): (d: Quat)
    ensures Norm2(prev) != 0.0 ==> Mul(prev, d) == q
  {
    MulAssociative(prev, Inverse(prev), q);
    MulIdentity(q);
    Mul(Inverse(prev), q)
  }

  /** The delta is the only rotation that carries prev to q. */
  lemma HeadDeltaUnique(prev: Quat, q: Quat, d: Quat)
    requires Norm2(prev) != 0.0
    ensures Mul(prev, d) == q <==> d == HeadDelta(prev, q)
  {
    if Mul(prev, d) == q {
      calc {
        d;
        { MulIdentity(d); }
        Mul(Identity, d);
        Mul(Mul(Inverse(prev), prev), d);
        { MulAssociative(Inverse(prev), prev, d); }
        Mul(Inverse(prev), q);
      }
    }
  }

  /**
   * The deltas Display computes over successive frames, starting from `prev`
   * and given the headset orientation of each frame.
   */
  function Deltas(prev: Quat, orientations: seq<Quat>): (ds: seq<Quat>)
    ensures |ds| == |orientations|
    ensures forall i :: 0 <= i < |ds| ==>
      ds[i] == HeadDelta(if i == 0 then prev else Inverse(orientations[i - 1]), Inverse(orientations[i]))
    decreases |orientations|
  {
    if orientations == [] then []
    else
      var q := Inverse(orientations[0]);
      [HeadDelta(prev, q)] + Deltas(q, orientations[1..])
  }

  /** prev · d₀ · d₁ · … · dₙ₋₁, composed left to right. */
  function Compose(prev: Quat, ds: seq<Quat>): Quat
    decreases |ds|
  {
    if ds == [] then prev else Compose(Mul(prev, ds[0]), ds[1..])
  }

  /**
   * Over any run of frames with invertible orientations, applying every delta
   * in turn to the initial rotation gives the inverse of the latest
   * orientation: the deltas neither lose nor add rotation.
   */
  lemma {:induction false} DeltasTelescope(prev: Quat, orientations: seq<Quat>)
    requires Norm2(prev) != 0.0
    requires orientations != []
    requires forall i :: 0 <= i < |orientations| ==> Norm2(orientations[i]) != 0.0
    ensures Compose(prev, Deltas(prev, orientations)) == Inverse(orientations[|orientations| - 1])
    decreases |orientations|
  {
    var q := Inverse(orientations[0]);
    var ds := Deltas(prev, orientations);
    assert ds == [HeadDelta(prev, q)] + Deltas(q, orientations[1..]);
    assert Mul(prev, ds[0]) == q;
    assert ds[1..] == Deltas(q, orientations[1..]);
    if |orientations| > 1 {
      var rest := orientations[1..];
      assert forall i :: 0 <= i < |rest| ==> Norm2(rest[i]) != 0.0 by {
        forall i | 0 <= i < |rest| ensures Norm2(rest[i]) != 0.0 {
          assert rest[i] == orientations[i + 1];
        }
      }
      DeltasTelescope(q, rest);
      assert rest[|rest| - 1] == orientations[|orientations| - 1];
    }
  }

  /** The application state the retargeting and display steps touch. */
  class PhantomLimb {
    /** Relative rotation of each bone of the target skeleton, by bone name. */
    var pose: map<string, Quat>
    var oculusRotationDt: Quat
    var oculusRotationPrev: Quat

    /** Both head rotations start as GLM's default quaternion, the identity. */
    constructor (pose0: map<string, Quat>)
      ensures pose == pose0
      ensures oculusRotationDt == Identity && oculusRotationPrev == Identity
    {
      pose := pose0;
      oculusRotationDt := Identity;
      oculusRotationPrev := Identity;
    }

    /**
     * The retargeting block of update(): sensorReady is openni_.ready(),
     * userTracked is user(1).isTracked(), joints that user's joint rotations.
     */
    method Update(sensorReady: bool, userTracked: bool, joints: map<string, Quat>)
      requires sensorReady && userTracked ==> HasArmBones(pose) && HasTrackedJoints(joints)
      modifies this`pose
      ensures pose == if sensorReady && userTracked then Retarget(old(pose), joints) else old(pose)
    {
      if sensorReady {
        if userTracked {
          pose := pose[LeftUpperArm := LeftArmFrame(joints[LeftShoulder])];
          pose := pose[LeftLowerArm := LeftArmFrame(joints[LeftElbow])];
          pose := pose[RightUpperArm := RightUpperArmFrame(joints[RightShoulder])];
          pose := pose[RightLowerArm := RightLowerArmFrame(joints[RightElbow])];
        }
      }
    }

    /**
     * The head-rotation part of display(): prev becomes the inverse of the
     * headset orientation and dt the delta from the old prev to it.
     */
    method Display(orientation: Quat)
      modifies this`oculusRotationDt, this`oculusRotationPrev
      ensures oculusRotationPrev == Inverse(orientation)
      ensures Norm2(orientation) != 0.0 ==> Mul(oculusRotationPrev, orientation) == Identity
      ensures oculusRotationDt == HeadDelta(old(oculusRotationPrev), oculusRotationPrev)
      ensures Norm2(old(oculusRotationPrev)) != 0.0 ==>
                Mul(old(oculusRotationPrev), oculusRotationDt) == oculusRotationPrev
    {
      var q := Inverse(orientation);
      oculusRotationDt := Mul(Inverse(oculusRotationPrev), q);
      oculusRotationPrev := q;
    }
  }
}
