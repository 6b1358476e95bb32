/** What the retargeting engine promises, proved about the functions of
    module Retarget (and so, through their contracts, about the methods of
    class VRMPlatform.Retargeter). */
module RetargetProperties {
  import opened Options
  import opened ThreeMath
  import opened Humanoid
  import opened Tracking
  import opened Retarget

  // ---------------------------------------------------------------------
  // rigPosition / rigRotation

  /** A position update moves each axis from `p` toward the dampened target
      `d*t` by the fraction `lerpAmount`: the new value is
      `p + (d*t - p) * lerpAmount`, whatever the fraction. */
  lemma PositionStepBlends(s: RigState, name: BoneName, target: Vec3, d: real, lerpAmount: real)
    requires s.loaded && name in s.bones
    ensures var p := s.bones[name].position;
            var p' := PositionStep(s, name, Some(target), d, lerpAmount).bones[name].position;
            && p'.x == p.x + (d * target.x - p.x) * lerpAmount
            && p'.y == p.y + (d * target.y - p.y) * lerpAmount
            && p'.z == p.z + (d * target.z - p.z) * lerpAmount
  {
  }

  /** For a fraction in [0,1], each new axis lies between the old value and
      the dampened target. */
  lemma PositionStepBetween(s: RigState, name: BoneName, target: Vec3, d: real, lerpAmount: real)
    requires s.loaded && name in s.bones
    requires 0.0 <= lerpAmount <= 1.0
    ensures var p := s.bones[name].position;
            var p' := PositionStep(s, name, Some(target), d, lerpAmount).bones[name].position;
            && Between(p'.x, p.x, target.x * d)
            && Between(p'.y, p.y, target.y * d)
            && Between(p'.z, p.z, target.z * d)
  {
    var p := s.bones[name].position;
    var v := Dampened(target, d);
    assert PositionStep(s, name, Some(target), d, lerpAmount).bones[name].position == Vec3Lerp(p, v, lerpAmount);
    LerpBetween(p.x, v.x, lerpAmount);
    LerpBetween(p.y, v.y, lerpAmount);
    LerpBetween(p.z, v.z, lerpAmount);
  }

  /** `v` lies between `a` and `b`, whichever is larger. */
  predicate Between(v: real, a: real, b: real)
  {
    (a <= v <= b) || (b <= v <= a)
  }

  /** With no position, no dampener and no blend fraction given, a bone is
      pulled 30% of the way toward the origin. */
  lemma PositionDefaults(s: RigState, name: BoneName)
    requires s.loaded && name in s.bones
    ensures var p := s.bones[name].position;
            PositionStep(s, name, None, 1.0, 0.3).bones[name].position == Vec3(0.7 * p.x, 0.7 * p.y, 0.7 * p.z)
  {
  }

  /** An omitted rotation is the zero rotation, and an omitted axis order is
      XYZ: whatever the dampener, the bone is slerped toward the identity
      target built from (0, 0, 0, "XYZ"). */
  lemma RotationDefaults(s: RigState, name: BoneName, d: real, d': real, lerpAmount: real, q: Quaternions)
    ensures RotationStep(s, name, None, d, lerpAmount, q)
         == RotationStep(s, name, Some(Rotation(0.0, 0.0, 0.0, Some(XYZ))), d', lerpAmount, q)
  {
    assert DampenedEuler(NoRotation, d) == EulerZero == DampenedEuler(Rotation(0.0, 0.0, 0.0, Some(XYZ)), d');
  }

  /** A solved rotation without an axis order is applied in order XYZ; one
      with an order keeps it. */
  lemma RotationOrderKept(r: Rotation, d: real)
    ensures r.rotationOrder.None? ==> DampenedEuler(r, d).order == XYZ
    ensures r.rotationOrder.Some? ==> DampenedEuler(r, d).order == r.rotationOrder.value
  {
  }

  /** The same `rigPosition` call made on `n` successive frames. */
  function PositionFrames(s: RigState, name: BoneName, target: Vec3, d: real, lerpAmount: real, n: nat): RigState
    decreases n
  {
    if n == 0 then s else PositionFrames(PositionStep(s, name, Some(target), d, lerpAmount), name, target, d, lerpAmount, n - 1)
  }

  /** Repeating a position update toward a fixed target is exponential
      smoothing: after `n` frames each axis is where `n` blends of the
      fraction `lerpAmount` toward the dampened target put it, that is
      `(1 - lerpAmount)^n` of its initial distance away (`LerpIterDistance`),
      never farther than one frame earlier (`LerpIterConverges`). */
  lemma {:induction false} PositionConverges(s: RigState, name: BoneName, target: Vec3, d: real, lerpAmount: real, n: nat)
    requires s.loaded && name in s.bones
    ensures var f := PositionFrames(s, name, target, d, lerpAmount, n);
            var p, goal := s.bones[name].position, Dampened(target, d);
            && f.loaded && name in f.bones
            && f.bones[name].position.x == LerpIter(p.x, goal.x, lerpAmount, n)
            && f.bones[name].position.y == LerpIter(p.y, goal.y, lerpAmount, n)
            && f.bones[name].position.z == LerpIter(p.z, goal.z, lerpAmount, n)
    decreases n
  {
    if n > 0 {
      var s1 := PositionStep(s, name, Some(target), d, lerpAmount);
      assert s1.bones[name].position == Vec3Lerp(s.bones[name].position, Dampened(target, d), lerpAmount);
      PositionConverges(s1, name, target, d, lerpAmount, n - 1);
    }
  }

  // ---------------------------------------------------------------------
  // rigFace

  /** Each viseme channel the avatar has becomes half the solved shape plus
      half its previous value. */
  lemma FaceVisemes(s: RigState, face: SolvedFace, kit: Solvers, q: Quaternions, p: Preset)
    requires s.loaded && IsViseme(p) && p in s.blendShapes
    ensures p in FaceStep(s, face, kit, q).blendShapes
    ensures FaceStep(s, face, kit, q).blendShapes[p] == 0.5 * Shape(face.mouth, p) + 0.5 * s.blendShapes[p]
  {
    FaceStepChannels(s, face, kit, q);
    ChannelsViseme(s.blendShapes, face, kit, p);
  }

  lemma ChannelsViseme(channels: map<Preset, real>, face: SolvedFace, kit: Solvers, p: Preset)
    requires IsViseme(p) && p in channels
    ensures p in FaceChannels(channels, face, kit)
    ensures FaceChannels(channels, face, kit)[p] == Lerp(Shape(face.mouth, p), channels[p], 0.5)
  {
    var blinked := BlinkChannel(channels, face, kit);
    assert blinked[p] == channels[p];
    VisemesBlended(blinked, face.mouth, p);
  }

  /** Each viseme channel is blended exactly once by the viseme writes. */
  lemma VisemesBlended(channels: map<Preset, real>, m: MouthShape, p: Preset)
    requires IsViseme(p) && p in channels
    ensures BlendVisemes(channels, m, Visemes)[p] == Lerp(Shape(m, p), channels[p], 0.5)
  {
    VisemesComplete(p);
    VisemeOnce(channels, m, Visemes, p);
  }

  /** `Visemes` lists every viseme, each once. */
  lemma VisemesComplete(p: Preset)
    requires IsViseme(p)
    ensures p in Visemes
    ensures forall i, j :: 0 <= i < j < |Visemes| ==> Visemes[i] != Visemes[j]
  {
    match p
    case I => assert Visemes[0] == p;
    case A => assert Visemes[1] == p;
    case E => assert Visemes[2] == p;
    case O => assert Visemes[3] == p;
    case U => assert Visemes[4] == p;
  }

  /** Over a list of distinct visemes, each listed channel is blended once,
      from its value before the list. */
  lemma {:induction false} VisemeOnce(channels: map<Preset, real>, m: MouthShape, ps: seq<Preset>, p: Preset)
    requires forall i :: 0 <= i < |ps| ==> IsViseme(ps[i])
    requires p in ps && p in channels
    requires forall i, j :: 0 <= i < j < |ps| ==> ps[i] != ps[j]
    ensures BlendVisemes(channels, m, ps)[p] == Lerp(Shape(m, p), channels[p], 0.5)
    decreases |ps|
  {
    var blended := Blend(channels, ps[0], Shape(m, ps[0]));
    assert BlendVisemes(channels, m, ps) == BlendVisemes(blended, m, ps[1..]);
    DistinctTail(ps, p);
    if ps[0] != p {
      VisemeOnce(blended, m, ps[1..], p);
    } else {
      OtherVisemesKeep(blended, m, ps[1..], p);
    }
  }

  /** Viseme writes that do not list channel `p` leave it as it was. */
  lemma {:induction false} OtherVisemesKeep(channels: map<Preset, real>, m: MouthShape, ps: seq<Preset>, p: Preset)
    requires forall i :: 0 <= i < |ps| ==> IsViseme(ps[i])
    requires p in channels && p !in ps
    ensures BlendVisemes(channels, m, ps)[p] == channels[p]
    decreases |ps|
  {
    if ps != [] {
      var blended := Blend(channels, ps[0], Shape(m, ps[0]));
      assert p !in ps[1..] by {
        forall k | 0 <= k < |ps[1..]|
          ensures ps[1..][k] != p
        {
          assert ps[1..][k] == ps[k + 1];
        }
      }
      OtherVisemesKeep(blended, m, ps[1..], p);
    }
  }

  /** If the solved shape and the previous value are in [0,1], so is the new viseme value. */
  lemma FaceVisemeInUnit(s: RigState, face: SolvedFace, kit: Solvers, q: Quaternions, p: Preset)
    requires s.loaded && IsViseme(p) && p in s.blendShapes
    requires 0.0 <= Shape(face.mouth, p) <= 1.0 && 0.0 <= s.blendShapes[p] <= 1.0
    ensures 0.0 <= FaceStep(s, face, kit, q).blendShapes[p] <= 1.0
  {
    FaceVisemes(s, face, kit, q, p);
  }

  /** The Blink channel takes the stabilised reading of the eyes (see
      `BlinkValue`); BlinkL and BlinkR are left alone. */
  lemma FaceBlink(s: RigState, face: SolvedFace, kit: Solvers, q: Quaternions)
    requires s.loaded && Blink in s.blendShapes
    ensures FaceStep(s, face, kit, q).blendShapes[Blink] == BlinkValue(face, s.blendShapes[Blink], kit)
    ensures BlinkL in s.blendShapes ==> FaceStep(s, face, kit, q).blendShapes[BlinkL] == s.blendShapes[BlinkL]
    ensures BlinkR in s.blendShapes ==> FaceStep(s, face, kit, q).blendShapes[BlinkR] == s.blendShapes[BlinkR]
  {
    FaceStepChannels(s, face, kit, q);
    ChannelsBlink(s.blendShapes, face, kit);
  }

  /** `FaceBlink` on the channels alone: the viseme writes that follow the
      Blink write leave Blink as written. */
  lemma ChannelsBlink(channels: map<Preset, real>, face: SolvedFace, kit: Solvers)
    requires Blink in channels
    ensures FaceChannels(channels, face, kit)[Blink] == BlinkValue(face, channels[Blink], kit)
    ensures BlinkL in channels ==> FaceChannels(channels, face, kit)[BlinkL] == channels[BlinkL]
    ensures BlinkR in channels ==> FaceChannels(channels, face, kit)[BlinkR] == channels[BlinkR]
  {
    var blinked := BlinkChannel(channels, face, kit);
    assert FaceChannels(channels, face, kit)[Blink] == blinked[Blink];
  }


  /** With an avatar, a face step's channels are `FaceChannels` of the old ones. */
  lemma FaceStepChannels(s: RigState, face: SolvedFace, kit: Solvers, q: Quaternions)
    requires s.loaded
    ensures FaceStep(s, face, kit, q).blendShapes == FaceChannels(s.blendShapes, face, kit)
  {
  }

  /** An open eye (openness 1) over a Blink channel at 0.6 gives the
      stabiliser a reading of 0.3. */
  lemma BlinkOpenEye()
    ensures BlinkInput(1.0, 0.6) == 0.3
  {
  }

  /** The new gaze target is 60% of the previous one plus 40% of the pupil
      reading, with the pupil's x and y swapped and no roll; it is both
      persisted and handed to the look-at applier. */
  lemma FaceGaze(s: RigState, face: SolvedFace, kit: Solvers, q: Quaternions)
    requires s.loaded
    ensures var r := FaceStep(s, face, kit, q);
            && r.oldLookTarget == Euler(0.6 * s.oldLookTarget.x + 0.4 * face.pupil.y,
                                        0.6 * s.oldLookTarget.y + 0.4 * face.pupil.x, 0.0, XYZ)
            && r.lookAt == Some(r.oldLookTarget)
  {
  }

  /** The Neck is the only bone a face frame moves, and it is rotated toward
      the solved head rotation at 70% strength with the default blend. */
  lemma FaceNeck(s: RigState, face: SolvedFace, kit: Solvers, q: Quaternions)
    requires s.loaded && Neck in s.bones
    ensures var t := s.bones[Neck];
            FaceStep(s, face, kit, q).bones[Neck]
              == t.(quaternion := q.slerp(t.quaternion, q.setFromEuler(DampenedEuler(face.head, 0.7)), 0.3))
  {
  }

  // ---------------------------------------------------------------------
  // The pose branch

  /** The Hips are pulled 7% of the way toward `HipsTarget`, the solved
      position lifted by one unit with only z reversed; the Hips rotation
      leaves the position alone. */
  lemma PoseHips(s: RigState, pose: SolvedPose, q: Quaternions)
    requires s.loaded && Hips in s.bones
    ensures var h := pose.hips.position;
            PoseStep(s, pose, q).bones[Hips].position == Vec3Lerp(s.bones[Hips].position, Vec3(h.x, h.y + 1.0, -h.z), 0.07)
  {
    var h := pose.hips.position;
    assert HipsTarget(pose.hips) == Vec3(h.x, h.y + 1.0, -h.z);
    assert PoseStep(s, pose, q).bones[Hips] == TorsoStep(s, pose, q).bones[Hips];
  }

  /** The Hips are slerped toward the solved hips rotation at 70% strength,
      with the default blend; the position update leaves the rotation alone. */
  lemma PoseHipsRotation(s: RigState, pose: SolvedPose, q: Quaternions)
    requires s.loaded && Hips in s.bones
    ensures PoseStep(s, pose, q).bones[Hips].quaternion
         == q.slerp(s.bones[Hips].quaternion, q.setFromEuler(DampenedEuler(pose.hips.rotation, 0.7)), 0.3)
  {
  }

  /** Hips at the origin, solved at (0.2, -0.1, 0.3): one frame puts them at
      (0.014, 0.063, -0.021). */
  lemma HipsFirstFrame(s: RigState, pose: SolvedPose, q: Quaternions)
    requires s.loaded && Hips in s.bones && s.bones[Hips].position == Zero
    requires pose.hips.position == Vec3(0.2, -0.1, 0.3)
    ensures PoseStep(s, pose, q).bones[Hips].position == Vec3(0.014, 0.063, -0.021)
  {
    PoseHips(s, pose, q);
  }

  /** Chest and Spine both follow the solved spine rotation, the Chest at 25%
      and the Spine at 45%, with the default blend. */
  lemma PoseSpine(s: RigState, pose: SolvedPose, q: Quaternions)
    requires s.loaded && Chest in s.bones && Spine in s.bones
    ensures var c, sp := s.bones[Chest], s.bones[Spine];
            var r := PoseStep(s, pose, q);
            && r.bones[Chest] == c.(quaternion := q.slerp(c.quaternion, q.setFromEuler(DampenedEuler(pose.spine, 0.25)), 0.3))
            && r.bones[Spine] == sp.(quaternion := q.slerp(sp.quaternion, q.setFromEuler(DampenedEuler(pose.spine, 0.45)), 0.3))
  {
  }

  /** Each of the eight arm and leg bones is slerped toward its own solved
      rotation, undamped, with the default blend: the right arm from the
      right-arm fields, the left leg from the left-leg fields, and so on. */
  lemma PoseLimb(s: RigState, pose: SolvedPose, q: Quaternions, b: BoneName)
    requires s.loaded && b in s.bones && IsLimbBone(b)
    ensures var t := s.bones[b];
            PoseStep(s, pose, q).bones[b]
              == t.(quaternion := q.slerp(t.quaternion, q.setFromEuler(DampenedEuler(LimbRotation(pose, b), 1.0)), 0.3))
  {
  }

  // ---------------------------------------------------------------------
  // The hand branches

  /** The Hand bone's target takes x and y from the hand solve's wrist but z
      from the pose solve's hand, in order XYZ. */
  lemma HandWrist(s: RigState, side: Side, poseHand: Rotation, hand: SolvedHand, q: Quaternions)
    requires s.loaded && Hand(side) in s.bones
    ensures var t := s.bones[Hand(side)];
            var target := Euler(hand.wrist.x, hand.wrist.y, poseHand.z, XYZ);
            HandStep(s, side, poseHand, hand, q).bones[Hand(side)]
              == t.(quaternion := q.slerp(t.quaternion, q.setFromEuler(target), 0.3))
  {
    var call := RotationCall(Hand(side), WristRotation(poseHand, hand));
    var wrist := RotationStep(s, Hand(side), Some(call.rotation), 1.0, 0.3, q);
    HandAfterWrist(s, side, poseHand, hand, q);
    OtherCallsKeep(wrist, FingerCalls(side, FingerOrder, hand), q, Hand(side));
    assert DampenedEuler(call.rotation, 1.0) == Euler(hand.wrist.x, hand.wrist.y, poseHand.z, XYZ);
  }

  /** A hand step is the wrist call, then the finger calls from there. */
  lemma HandAfterWrist(s: RigState, side: Side, poseHand: Rotation, hand: SolvedHand, q: Quaternions)
    ensures var wrist := RotationStep(s, Hand(side), Some(WristRotation(poseHand, hand)), 1.0, 0.3, q);
            HandStep(s, side, poseHand, hand, q) == RotateAll(wrist, FingerCalls(side, FingerOrder, hand), q)
  {
    var calls := [RotationCall(Hand(side), WristRotation(poseHand, hand))] + FingerCalls(side, FingerOrder, hand);
    assert calls[1..] == FingerCalls(side, FingerOrder, hand);
  }

  /** The rotation a finger joint is slerped toward: the hand solve's angles
      for that joint, undamped, in their own order or XYZ. */
  function JointTarget(t: Transform, hand: SolvedHand, digit: Digit, seg: Segment, q: Quaternions): Transform
  {
    t.(quaternion := q.slerp(t.quaternion, q.setFromEuler(DampenedEuler(hand.joint(digit, seg), 1.0)), 0.3))
  }

  /** A digit's calls drive each of its three joints from the hand solve. */
  lemma DigitJoint(s: RigState, side: Side, digit: Digit, seg: Segment, hand: SolvedHand, q: Quaternions)
    requires s.loaded && Finger(side, digit, seg) in s.bones
    ensures RotateAll(s, DigitCalls(side, digit, hand), q).bones[Finger(side, digit, seg)]
         == JointTarget(s.bones[Finger(side, digit, seg)], hand, digit, seg, q)
  {
    var calls := DigitCalls(side, digit, hand);
    var s1 := RotationStep(s, calls[0].name, Some(calls[0].rotation), 1.0, 0.3, q);
    var s2 := RotationStep(s1, calls[1].name, Some(calls[1].rotation), 1.0, 0.3, q);
    var s3 := RotationStep(s2, calls[2].name, Some(calls[2].rotation), 1.0, 0.3, q);
    assert RotateAll(s, calls, q) == RotateAll(s1, calls[1..], q);
    assert RotateAll(s1, calls[1..], q) == RotateAll(s2, calls[2..], q);
    assert RotateAll(s2, calls[2..], q) == RotateAll(s3, calls[3..], q);
  }

  /** Every one of the fifteen finger joints of a side is slerped toward the
      hand solve's angles for it, whichever digit it belongs to. */
  lemma HandFinger(s: RigState, side: Side, poseHand: Rotation, hand: SolvedHand, q: Quaternions, digit: Digit, seg: Segment)
    requires s.loaded && Finger(side, digit, seg) in s.bones
    ensures HandStep(s, side, poseHand, hand, q).bones[Finger(side, digit, seg)]
         == JointTarget(s.bones[Finger(side, digit, seg)], hand, digit, seg, q)
  {
    var wrist := RotationStep(s, Hand(side), Some(WristRotation(poseHand, hand)), 1.0, 0.3, q);
    HandAfterWrist(s, side, poseHand, hand, q);
    FingerOrderComplete(digit);
    FingersJoint(wrist, side, FingerOrder, hand, q, digit, seg);
    DigitJoint(wrist, side, digit, seg, hand, q);
  }

  /** `FingerOrder` lists every digit, each once. */
  lemma FingerOrderComplete(digit: Digit)
    ensures digit in FingerOrder
    ensures forall i, j :: 0 <= i < j < |FingerOrder| ==> FingerOrder[i] != FingerOrder[j]
  {
    match digit
    case Ring => assert FingerOrder[0] == digit;
    case Index => assert FingerOrder[1] == digit;
    case Middle => assert FingerOrder[2] == digit;
    case Thumb => assert FingerOrder[3] == digit;
    case Little => assert FingerOrder[4] == digit;
  }

  /** Over a list of distinct digits, each listed digit's joints end up
      slerped toward the hand solve once, from their values before the list. */
  lemma {:induction false} FingersJoint(s: RigState, side: Side, digits: seq<Digit>, hand: SolvedHand, q: Quaternions,
                                        digit: Digit, seg: Segment)
    requires Finger(side, digit, seg) in s.bones
    requires digit in digits
    requires forall i, j :: 0 <= i < j < |digits| ==> digits[i] != digits[j]
    ensures RotateAll(s, FingerCalls(side, digits, hand), q).bones[Finger(side, digit, seg)]
         == RotateAll(s, DigitCalls(side, digit, hand), q).bones[Finger(side, digit, seg)]
    decreases |digits|
  {
    DistinctTail(digits, digit);
    if digits[0] == digit {
      FingersJointFirst(s, side, digits, hand, q, seg);
    } else {
      var b := Finger(side, digit, seg);
      var s1 := RotateAll(s, DigitCalls(side, digits[0], hand), q);
      FingerCallsFirst(s, side, digits, hand, q);
      OtherCallsKeep(s, DigitCalls(side, digits[0], hand), q, b);
      FingersJoint(s1, side, digits[1..], hand, q, digit, seg);
      SameBoneSameResult(s1, s, DigitCalls(side, digit, hand), q, b);
    }
  }

  /** The first digit of a list whose other digits differ from it keeps what
      its own calls gave it. */
  lemma FingersJointFirst(s: RigState, side: Side, digits: seq<Digit>, hand: SolvedHand, q: Quaternions, seg: Segment)
    requires digits != [] && Finger(side, digits[0], seg) in s.bones && digits[0] !in digits[1..]
    ensures RotateAll(s, FingerCalls(side, digits, hand), q).bones[Finger(side, digits[0], seg)]
         == RotateAll(s, DigitCalls(side, digits[0], hand), q).bones[Finger(side, digits[0], seg)]
  {
    FingerCallsFirst(s, side, digits, hand, q);
    OtherCallsKeep(RotateAll(s, DigitCalls(side, digits[0], hand), q), FingerCalls(side, digits[1..], hand), q, Finger(side, digits[0], seg));
  }

  /** In a list without repeats, a listed element is either the head and
      absent from the tail, or in the tail, which has no repeats either. */
  lemma DistinctTail<T>(xs: seq<T>, x: T)
    requires x in xs
    requires forall i, j :: 0 <= i < j < |xs| ==> xs[i] != xs[j]
    ensures xs[0] == x ==> x !in xs[1..]
    ensures xs[0] != x ==> x in xs[1..]
    ensures forall i, j :: 0 <= i < j < |xs[1..]| ==> xs[1..][i] != xs[1..][j]
  {
    if xs[0] == x {
      forall k | 0 <= k < |xs[1..]|
        ensures xs[1..][k] != x
      {
        assert xs[1..][k] == xs[k + 1];
      }
    }
  }

  /** What a list of calls does to bone `b` depends only on `b`'s own
      transform and on whether an avatar is loaded. */
  lemma {:induction false} SameBoneSameResult(s: RigState, s': RigState, calls: seq<RotationCall>, q: Quaternions, b: BoneName)
    requires b in s.bones && b in s'.bones && s.bones[b] == s'.bones[b] && s.loaded == s'.loaded
    ensures RotateAll(s, calls, q).bones[b] == RotateAll(s', calls, q).bones[b]
    decreases |calls|
  {
    if calls != [] {
      var c := calls[0];
      var t := RotationStep(s, c.name, Some(c.rotation), 1.0, 0.3, q);
      var t' := RotationStep(s', c.name, Some(c.rotation), 1.0, 0.3, q);
      assert t.bones[b] == t'.bones[b];
      SameBoneSameResult(t, t', calls[1..], q, b);
    }
  }

  // ---------------------------------------------------------------------
  // animateVRM



  /** A frame changes not the set of bones; a bone changes only if it is a
      body bone, a hand bone, or the Neck in a frame with face landmarks. */
  lemma AnimateFrame(s: RigState, results: Results, kit: Solvers, q: Quaternions, b: BoneName)
    requires b in s.bones && !IsBodyBone(b) && !IsHandBone(b, Left) && !IsHandBone(b, Right)
    requires b != Neck || results.faceLandmarks.None?
    ensures var r := Animate(s, results, kit, q).state;
            r.loaded == s.loaded && r.bones.Keys == s.bones.Keys && r.bones[b] == s.bones[b]
  {
  }

  /** Without face landmarks every blend-shape channel and the gaze are left
      as they were (and the Neck too, by `AnimateFrame`). */
  lemma AnimateWithoutFace(s: RigState, results: Results, kit: Solvers, q: Quaternions)
    requires results.faceLandmarks.None?
    ensures var r := Animate(s, results, kit, q).state;
            r.blendShapes == s.blendShapes && r.oldLookTarget == s.oldLookTarget && r.lookAt == s.lookAt
  {
    if s.loaded {
      var riggedPose := RiggedPose(results, kit);
      assert FaceBranch(s, results, kit, q) == s;
      var posed := PoseBranch(s, riggedPose, q);
      assert Animate(s, results, kit, q) == HandBranches(posed, results, riggedPose, kit, q);
    }
  }

  /** Without both pose projections no bone other than the Neck moves: the
      body branch is skipped, and a hand branch either is skipped or throws
      before touching anything. */
  lemma AnimateWithoutPose(s: RigState, results: Results, kit: Solvers, q: Quaternions, b: BoneName)
    requires results.poseLandmarks.None? || results.ea.None?
    requires b in s.bones && b != Neck
    ensures Animate(s, results, kit, q).state.bones[b] == s.bones[b]
  {
  }

  /** The hands are swapped on input: the left hand's bones stay put unless
      `rightHandLandmarks` is present. */
  lemma AnimateLeftHandSource(s: RigState, results: Results, kit: Solvers, q: Quaternions, b: BoneName)
    requires b in s.bones && IsHandBone(b, Left) && results.rightHandLandmarks.None?
    ensures Animate(s, results, kit, q).state.bones[b] == s.bones[b]
  {
    assert b != Neck && !IsBodyBone(b);
  }

  /** ... and the right hand's bones stay put unless `leftHandLandmarks` is present. */
  lemma AnimateRightHandSource(s: RigState, results: Results, kit: Solvers, q: Quaternions, b: BoneName)
    requires b in s.bones && IsHandBone(b, Right) && results.leftHandLandmarks.None?
    ensures Animate(s, results, kit, q).state.bones[b] == s.bones[b]
  {
    assert b != Neck && !IsBodyBone(b);
  }

  /** A frame that throws keeps what ran before the throw, which is exactly
      the frame without its hand landmarks: the face update, and no hand update. */
  lemma AnimateThrownKeepsFace(s: RigState, results: Results, kit: Solvers, q: Quaternions)
    requires Animate(s, results, kit, q).outcome.Thrown?
    ensures Animate(s, results, kit, q).state
         == Animate(s, results.(leftHandLandmarks := None, rightHandLandmarks := None), kit, q).state
  {
  }

  /** A frame with a single hand and nothing else does not animate that hand:
      it throws and leaves the rig untouched. */
  lemma AnimateLoneHand(s: RigState, results: Results, kit: Solvers, q: Quaternions)
    requires s.loaded && results.faceLandmarks.None? && results.poseLandmarks.None? && results.ea.None?
    requires results.leftHandLandmarks.Some? || results.rightHandLandmarks.Some?
    ensures Animate(s, results, kit, q).outcome.Thrown?
    ensures Animate(s, results, kit, q).state == s
  {
  }

  /** With every landmark group present, a frame completes and is the face
      step, then the pose step, then the left and the right hand. */
  lemma AnimateFullFrame(s: RigState, results: Results, kit: Solvers, q: Quaternions,
                         face: Landmarks, pose2D: Landmarks, pose3D: Landmarks, leftLms: Landmarks, rightLms: Landmarks)
    requires s.loaded
    requires results == Results(Some(face), Some(pose2D), Some(pose3D), Some(leftLms), Some(rightLms))
    ensures var pose := kit.poseSolve(pose3D, pose2D);
            var posed := PoseStep(FaceStep(s, kit.faceSolve(face), kit, q), pose, q);
            var lefted := HandStep(posed, Left, pose.leftHand, kit.handSolve(rightLms, Left), q);
            Animate(s, results, kit, q) == Frame(HandStep(lefted, Right, pose.rightHand, kit.handSolve(leftLms, Right), q), Completed)
  {
    var pose := kit.poseSolve(pose3D, pose2D);
    assert RiggedPose(results, kit) == Some(pose);
    var posed := PoseStep(FaceStep(s, kit.faceSolve(face), kit, q), pose, q);
    assert PoseBranch(FaceBranch(s, results, kit, q), Some(pose), q) == posed;
    assert Animate(s, results, kit, q) == HandBranches(posed, results, Some(pose), kit, q);
    HandBranchRuns(posed, Left, rightLms, pose, kit, q);
    var left := HandBranch(posed, Left, Some(rightLms), Some(pose), kit, q);
    HandBranchRuns(left.state, Right, leftLms, pose, kit, q);
  }

  /** A hand branch with landmarks and a pose solved in the same call runs the hand step. */
  lemma HandBranchRuns(s: RigState, side: Side, lms: Landmarks, pose: SolvedPose, kit: Solvers, q: Quaternions)
    ensures HandBranch(s, side, Some(lms), Some(pose), kit, q)
         == Frame(HandStep(s, side, PoseHand(pose, side), kit.handSolve(lms, side), q), Completed)
  {
  }
}
