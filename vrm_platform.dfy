/** The retargeting engine in the source's own form: the live avatar and the
    persisted gaze are mutable state, and `RigPosition`, `RigRotation`,
    `RigFace` and `AnimateVRM` change it step by step. Each method is proved
    to leave the state that the matching function of module Retarget gives. */
module VRMPlatform {
  import opened Options
  import opened ThreeMath
  import opened Humanoid
  import opened Tracking
  import opened Retarget

  class Retargeter {
    /** Kalidokit's solvers and three's quaternion maths (foreign code). */
    const kit: Solvers
    const three: Quaternions

    /** `currentVrm` is set. */
    var loaded: bool
    /** `currentVrm.humanoid`'s bone nodes, by humanoid bone name. */
    var bones: map<BoneName, Transform>
    /** `currentVrm.blendShapeProxy`'s channels. */
    var blendShapes: map<Preset, real>
    /** The gaze carried from one face frame to the next. */
    var oldLookTarget: Euler
    /** The last direction given to `currentVrm.lookAt.applyer.lookAt`. */
    var lookAt: Option<Euler>

    function State(): RigState
      reads this
    {
      RigState(loaded, bones, blendShapes, oldLookTarget, lookAt)
    }

    /** A session before any avatar has loaded; the gaze starts at `new Euler()`. */
    constructor (kit: Solvers, three: Quaternions)
      ensures this.kit == kit && this.three == three
      ensures State() == RigState(false, map[], map[], EulerZero, None)
    {
      this.kit := kit;
      this.three := three;
      loaded := false;
      bones := map[];
      blendShapes := map[];
      oldLookTarget := EulerZero;
      lookAt := None;
    }

    /** The loader's success callback: `currentVrm = vrm`. The gaze is not reset. */
    method AttachAvatar(vrmBones: map<BoneName, Transform>, vrmBlendShapes: map<Preset, real>)
      modifies this
      ensures State() == old(State()).(loaded := true, bones := vrmBones, blendShapes := vrmBlendShapes)
    {
      loaded := true;
      bones := vrmBones;
      blendShapes := vrmBlendShapes;
    }

    method RigPosition(name: BoneName, position: Option<Vec3> := None, dampener: real := 1.0, lerpAmount: real := 0.3)
      modifies this
      ensures State() == PositionStep(old(State()), name, position, dampener, lerpAmount)
    {
      if !loaded {
        return;
      }
      if name !in bones {
        return;
      }
      var part := bones[name];
      var vector := Dampened(position.GetOr(Zero), dampener);
      bones := bones[name := part.(position := Vec3Lerp(part.position, vector, lerpAmount))];
    }

    method RigRotation(name: BoneName, rotation: Option<Rotation> := None, dampener: real := 1.0, lerpAmount: real := 0.3)
      modifies this
      ensures State() == RotationStep(old(State()), name, rotation, dampener, lerpAmount, three)
    {
      if !loaded {
        return;
      }
      if name !in bones {
        return;
      }
      var part := bones[name];
      var euler := DampenedEuler(rotation.GetOr(NoRotation), dampener);
      var quaternion := three.setFromEuler(euler);
      bones := bones[name := part.(quaternion := three.slerp(part.quaternion, quaternion, lerpAmount))];
    }

    /** `Blendshape.getValue(p)`: undefined when the avatar has no such channel. */
    method GetValue(p: Preset) returns (v: Option<real>)
      ensures v.Some? <==> p in blendShapes
      ensures v.Some? ==> v.value == blendShapes[p]
    {
      v := if p in blendShapes then Some(blendShapes[p]) else None;
    }

    /** `Blendshape.setValue(p, v)`: ignored when the avatar has no such channel. */
    method SetValue(p: Preset, v: real)
      modifies this`blendShapes
      ensures blendShapes == if p in old(blendShapes) then old(blendShapes)[p := v] else old(blendShapes)
    {
      if p in blendShapes {
        blendShapes := blendShapes[p := v];
      }
    }

    /** One viseme: `setValue(p, lerp(shape, getValue(p), 0.5))`. */
    method BlendViseme(p: Preset, shape: real)
      modifies this`blendShapes
      ensures blendShapes == Blend(old(blendShapes), p, shape)
    {
      var current := GetValue(p);
      if current.Some? {
        SetValue(p, Lerp(shape, current.value, 0.5));
      }
    }

    method RigFace(riggedFace: SolvedFace)
      modifies this
      ensures State() == FaceStep(old(State()), riggedFace, kit, three)
    {
      if !loaded {
        return;
      }
      RigRotation(Neck, Some(riggedFace.head), 0.7);
      RigBlink(riggedFace);
      RigVisemes(riggedFace.mouth);

      var lookTarget := GazeTarget(oldLookTarget, riggedFace.pupil);
      oldLookTarget := lookTarget;
      lookAt := Some(lookTarget);
    }

    /** `rigFace`'s Blink write. Both eyes read the Blink channel before it
        is written; without a Blink channel the reading is undefined and the
        write is ignored. */
    method RigBlink(riggedFace: SolvedFace)
      modifies this`blendShapes
      ensures blendShapes == BlinkChannel(old(blendShapes), riggedFace, kit)
    {
      var blink := GetValue(Blink);
      if blink.Some? {
        var eye := EyeOpenness(BlinkInput(riggedFace.eye.l, blink.value), BlinkInput(riggedFace.eye.r, blink.value));
        eye := kit.stabilizeBlink(eye, riggedFace.head.y);
        assert eye.l == BlinkValue(riggedFace, blink.value, kit);
        SetValue(Blink, eye.l);
      }
    }

    /** `rigFace`'s viseme writes, in `Visemes` order. */
    method RigVisemes(shape: MouthShape)
      modifies this`blendShapes
      ensures blendShapes == BlendVisemes(old(blendShapes), shape, Visemes)
    {
      BlendViseme(I, shape.I);
      BlendViseme(A, shape.A);
      BlendViseme(E, shape.E);
      BlendViseme(O, shape.O);
      BlendViseme(U, shape.U);
      VisemesInOrder(old(blendShapes), shape);
    }

    /** The pose branch of `animateVRM`. */
    method RigPose(riggedPose: SolvedPose)
      modifies this
      ensures State() == PoseStep(old(State()), riggedPose, three)
    {
      RigTorso(riggedPose);
      ghost var torso := State();
      RigArms(riggedPose);
      RigLegs(riggedPose);
      RotateAllAppend(torso, ArmCalls(riggedPose), LegCalls(riggedPose), three);
    }

    method RigArms(riggedPose: SolvedPose)
      modifies this
      ensures State() == RotateAll(old(State()), ArmCalls(riggedPose), three)
    {
      RigRotation(UpperArm(Right), Some(riggedPose.rightUpperArm), 1.0, 0.3);
      ghost var s1 := State();
      RigRotation(LowerArm(Right), Some(riggedPose.rightLowerArm), 1.0, 0.3);
      ghost var s2 := State();
      RigRotation(UpperArm(Left), Some(riggedPose.leftUpperArm), 1.0, 0.3);
      ghost var s3 := State();
      RigRotation(LowerArm(Left), Some(riggedPose.leftLowerArm), 1.0, 0.3);
      ghost var calls := ArmCalls(riggedPose);
      assert State() == RotateAll(s3, calls[3..], three);
      assert State() == RotateAll(s2, calls[2..], three);
      assert State() == RotateAll(s1, calls[1..], three);
    }

    method RigLegs(riggedPose: SolvedPose)
      modifies this
      ensures State() == RotateAll(old(State()), LegCalls(riggedPose), three)
    {
      RigRotation(UpperLeg(Left), Some(riggedPose.leftUpperLeg), 1.0, 0.3);
      ghost var s1 := State();
      RigRotation(LowerLeg(Left), Some(riggedPose.leftLowerLeg), 1.0, 0.3);
      ghost var s2 := State();
      RigRotation(UpperLeg(Right), Some(riggedPose.rightUpperLeg), 1.0, 0.3);
      ghost var s3 := State();
      RigRotation(LowerLeg(Right), Some(riggedPose.rightLowerLeg), 1.0, 0.3);
      ghost var calls := LegCalls(riggedPose);
      assert State() == RotateAll(s3, calls[3..], three);
      assert State() == RotateAll(s2, calls[2..], three);
      assert State() == RotateAll(s1, calls[1..], three);
    }

    /** The torso part of the pose branch: hips rotation and position, then chest and spine. */
    method RigTorso(riggedPose: SolvedPose)
      modifies this
      ensures State() == TorsoStep(old(State()), riggedPose, three)
    {
      var hips := riggedPose.hips;
      var hipsTarget := HipsTarget(hips);
      RigRotation(Hips, Some(hips.rotation), 0.7);
      RigPosition(Hips, Some(hipsTarget), 1.0, 0.07);

      RigRotation(Chest, Some(riggedPose.spine), 0.25, 0.3);
      RigRotation(Spine, Some(riggedPose.spine), 0.45, 0.3);
    }

    /** A hand branch of `animateVRM` once the hand is solved: the Hand bone
        (its z from the pose solve), then each finger proximal to distal. */
    method RigHand(side: Side, poseHand: Rotation, riggedHand: SolvedHand)
      modifies this
      ensures State() == HandStep(old(State()), side, poseHand, riggedHand, three)
    {
      RigRotation(Hand(side), Some(Rotation(riggedHand.wrist.x, riggedHand.wrist.y, poseHand.z, None)));
      ghost var wrist := State();
      ghost var call := RotationCall(Hand(side), WristRotation(poseHand, riggedHand));
      assert [call][1..] == [];
      assert wrist == RotateAll(old(State()), [call], three);
      RigFingers(side, riggedHand);
      RotateAllAppend(old(State()), [call], FingerCalls(side, FingerOrder, riggedHand), three);
    }

    /** The finger part of a hand branch: each digit in `FingerOrder`. */
    method RigFingers(side: Side, riggedHand: SolvedHand)
      modifies this
      ensures State() == RotateAll(old(State()), FingerCalls(side, FingerOrder, riggedHand), three)
    {
      ghost var start := State();
      RigDigit(side, Ring, riggedHand);
      ghost var done := DigitCalls(side, Ring, riggedHand);
      RigDigit(side, Index, riggedHand);
      RotateAllAppend(start, done, DigitCalls(side, Index, riggedHand), three);
      done := done + DigitCalls(side, Index, riggedHand);
      RigDigit(side, Middle, riggedHand);
      RotateAllAppend(start, done, DigitCalls(side, Middle, riggedHand), three);
      done := done + DigitCalls(side, Middle, riggedHand);
      RigDigit(side, Thumb, riggedHand);
      RotateAllAppend(start, done, DigitCalls(side, Thumb, riggedHand), three);
      done := done + DigitCalls(side, Thumb, riggedHand);
      RigDigit(side, Little, riggedHand);
      RotateAllAppend(start, done, DigitCalls(side, Little, riggedHand), three);
      FingerOrderCalls(side, riggedHand);
    }

    method RigDigit(side: Side, digit: Digit, riggedHand: SolvedHand)
      modifies this
      ensures State() == RotateAll(old(State()), DigitCalls(side, digit, riggedHand), three)
    {
      ghost var calls := DigitCalls(side, digit, riggedHand);
      RigRotation(Finger(side, digit, Proximal), Some(riggedHand.joint(digit, Proximal)));
      ghost var proximal := State();
      RigRotation(Finger(side, digit, Intermediate), Some(riggedHand.joint(digit, Intermediate)));
      ghost var intermediate := State();
      RigRotation(Finger(side, digit, Distal), Some(riggedHand.joint(digit, Distal)));
      assert State() == RotateAll(intermediate, calls[2..], three);
      assert State() == RotateAll(proximal, calls[1..], three);
    }

    /** One hand branch of `animateVRM`: nothing without landmarks; solve the
        hand, then fail on `riggedPose.LeftHand` (or `RightHand`) when no pose
        was solved in this call; otherwise rig the hand. */
    method RigHandBranch(side: Side, landmarks: Option<Landmarks>, riggedPose: Option<SolvedPose>)
      returns (outcome: Outcome)
      modifies this
      ensures Frame(State(), outcome) == HandBranch(old(State()), side, landmarks, riggedPose, kit, three)
    {
      if landmarks.None? {
        return Completed;
      }
      var riggedHand := kit.handSolve(landmarks.value, side);
      if riggedPose.None? {
        return Thrown(UndefinedPose(side));
      }
      RigHand(side, PoseHand(riggedPose.value, side), riggedHand);
      return Completed;
    }

    /** `animateVRM(currentVrm, results)`. The outcome says whether a hand
        branch threw on the undefined `riggedPose`; the changes made before
        the throw stay. */
    method AnimateVRM(results: Results) returns (outcome: Outcome)
      modifies this
      ensures Frame(State(), outcome) == Animate(old(State()), results, kit, three)
    {
      if !loaded {
        return Completed;
      }
      var riggedPose: Option<SolvedPose> := None;

      var faceLandmarks := results.faceLandmarks;
      var pose3DLandmarks := results.ea;
      var pose2DLandmarks := results.poseLandmarks;
      var leftHandLandmarks := results.rightHandLandmarks;
      var rightHandLandmarks := results.leftHandLandmarks;

      if faceLandmarks.Some? {
        var riggedFace := kit.faceSolve(faceLandmarks.value);
        RigFace(riggedFace);
      }
      if pose2DLandmarks.Some? && pose3DLandmarks.Some? {
        var pose := kit.poseSolve(pose3DLandmarks.value, pose2DLandmarks.value);
        riggedPose := Some(pose);
        RigPose(pose);
      }
      outcome := RigHandBranch(Left, leftHandLandmarks, riggedPose);
      if outcome.Thrown? {
        return;
      }
      outcome := RigHandBranch(Right, rightHandLandmarks, riggedPose);
    }
  }
}
