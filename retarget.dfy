/** The retargeting engine as functions on a snapshot of the rig: what one
    call of `rigPosition`, `rigRotation`, `rigFace` or `animateVRM` does to
    the avatar's bones, its blend-shape channels and the persisted gaze.
    The class in module VRMPlatform is proved to follow these functions. */
module Retarget {
  import opened Options
  import opened ThreeMath
  import opened Humanoid
  import opened Tracking

  /** Everything a retargeting call can read or change. */
  datatype RigState = RigState(
    loaded: bool,                        // an avatar (`currentVrm`) is present
    bones: map<BoneName, Transform>,     // the humanoid's bone nodes; a rig may lack some
    blendShapes: map<Preset, real>,      // the blend-shape proxy's channels; a rig may lack some
    oldLookTarget: Euler,                // the gaze persisted across calls
    lookAt: Option<Euler>)               // the last direction handed to the look-at applier

  /** `r` may differ from `s` only in the transforms of existing bones: the
      avatar, the set of bones, the channels and the gaze are as they were. */
  predicate BonesOnly(s: RigState, r: RigState)
  {
    && r.loaded == s.loaded && r.blendShapes == s.blendShapes
    && r.oldLookTarget == s.oldLookTarget && r.lookAt == s.lookAt
    && r.bones.Keys == s.bones.Keys
  }

  /** The position target after damping: every axis scaled by `dampener`. */
  function Dampened(position: Vec3, dampener: real): (r: Vec3)
    ensures r.x == position.x * dampener && r.y == position.y * dampener && r.z == position.z * dampener
    ensures dampener == 1.0 ==> r == position
    ensures dampener == 0.0 ==> r == Zero
  {
    Vec3(position.x * dampener, position.y * dampener, position.z * dampener)
  }

  /** The Euler target after damping; the axis order is the solved one, or XYZ. */
  function DampenedEuler(rotation: Rotation, dampener: real): (r: Euler)
    ensures r.x == rotation.x * dampener && r.y == rotation.y * dampener && r.z == rotation.z * dampener
    ensures rotation.rotationOrder.Some? ==> r.order == rotation.rotationOrder.value
    ensures rotation.rotationOrder.None? ==> r.order == XYZ
    ensures dampener == 0.0 ==> r.x == r.y == r.z == 0.0
  {
    Euler(rotation.x * dampener, rotation.y * dampener, rotation.z * dampener,
          rotation.rotationOrder.GetOr(XYZ))
  }

  /** `rigPosition(name, position, dampener, lerpAmount)`. */
  function PositionStep(s: RigState, name: BoneName, position: Option<Vec3>, dampener: real, lerpAmount: real): (r: RigState)
    ensures !s.loaded || name !in s.bones ==> r == s
    ensures BonesOnly(s, r)
    ensures forall b :: b in s.bones && b != name ==> r.bones[b] == s.bones[b]
    ensures name in s.bones ==> r.bones[name].quaternion == s.bones[name].quaternion
  {
    if !s.loaded || name !in s.bones then s
    else
      var part := s.bones[name];
      var vector := Dampened(position.GetOr(Zero), dampener);
      s.(bones := s.bones[name := part.(position := Vec3Lerp(part.position, vector, lerpAmount))])
  }

  /** `rigRotation(name, rotation, dampener, lerpAmount)`. */
  function RotationStep(s: RigState, name: BoneName, rotation: Option<Rotation>, dampener: real, lerpAmount: real,
                        q: Quaternions): (r: RigState)
    ensures !s.loaded || name !in s.bones ==> r == s
    ensures BonesOnly(s, r)
    ensures forall b :: b in s.bones && b != name ==> r.bones[b] == s.bones[b]
    ensures name in s.bones ==> r.bones[name].position == s.bones[name].position
  {
    if !s.loaded || name !in s.bones then s
    else
      var part := s.bones[name];
      var quaternion := q.setFromEuler(DampenedEuler(rotation.GetOr(NoRotation), dampener));
      s.(bones := s.bones[name := part.(quaternion := q.slerp(part.quaternion, quaternion, lerpAmount))])
  }

  /** One eye's reading before stabilisation: its closedness, clamped to
      [0,1], blended half and half with the Blink channel's current value. */
  function BlinkInput(openness: real, previous: real): (r: real)
    ensures 0.0 <= previous <= 1.0 ==> 0.0 <= r <= 1.0
    ensures openness >= 1.0 ==> r == 0.5 * previous
    ensures openness <= 0.0 ==> r == 0.5 + 0.5 * previous
    ensures 0.0 <= openness <= 1.0 ==> r == 0.5 * (1.0 - openness) + 0.5 * previous
  {
    Lerp(Clamp(1.0 - openness, 0.0, 1.0), previous, 0.5)
  }

  /** The value written to the Blink channel: the left eye's stabilised reading. */
  function BlinkValue(face: SolvedFace, previous: real, kit: Solvers): (r: real)
    ensures r == kit.stabilizeBlink(EyeOpenness(0.5 * Clamp(1.0 - face.eye.l, 0.0, 1.0) + 0.5 * previous,
                                                0.5 * Clamp(1.0 - face.eye.r, 0.0, 1.0) + 0.5 * previous), face.head.y).l
  {
    var eye := EyeOpenness(BlinkInput(face.eye.l, previous), BlinkInput(face.eye.r, previous));
    kit.stabilizeBlink(eye, face.head.y).l
  }

  /** `setValue(p, lerp(shape, getValue(p), 0.5))`; the proxy ignores a
      channel the avatar does not have. */
  function Blend(channels: map<Preset, real>, p: Preset, shape: real): (r: map<Preset, real>)
    ensures r.Keys == channels.Keys
    ensures forall p' :: p' in channels && p' != p ==> r[p'] == channels[p']
  {
    if p in channels then channels[p := Lerp(shape, channels[p], 0.5)] else channels
  }

  /** `rigFace`'s channel writes: Blink, then the visemes in `Visemes` order. */
  function FaceChannels(channels: map<Preset, real>, face: SolvedFace, kit: Solvers): (r: map<Preset, real>)
    ensures r.Keys == channels.Keys
    ensures forall p :: p in channels && p != Blink && !IsViseme(p) ==> r[p] == channels[p]
  {
    BlendVisemes(BlinkChannel(channels, face, kit), face.mouth, Visemes)
  }

  /** `setValue(Blink, ...)` of the stabilised reading; the proxy ignores it
      when the avatar has no Blink channel. */
  function BlinkChannel(channels: map<Preset, real>, face: SolvedFace, kit: Solvers): (r: map<Preset, real>)
    ensures r.Keys == channels.Keys
    ensures forall p :: p in channels && p != Blink ==> r[p] == channels[p]
  {
    if Blink in channels then channels[Blink := BlinkValue(face, channels[Blink], kit)] else channels
  }

  /** The solved intensity of a viseme channel. */
  function Shape(m: MouthShape, p: Preset): real
    requires IsViseme(p)
  {
    match p
    case I => m.I
    case A => m.A
    case E => m.E
    case O => m.O
    case U => m.U
  }

  /** The order in which `rigFace` writes the visemes. */
  const Visemes: seq<Preset> := [I, A, E, O, U]

  /** The given viseme channels, each blended with its solved shape, in the order given. */
  function BlendVisemes(channels: map<Preset, real>, m: MouthShape, ps: seq<Preset>): (r: map<Preset, real>)
    requires forall i :: 0 <= i < |ps| ==> IsViseme(ps[i])
    ensures r.Keys == channels.Keys
    ensures forall p :: p in channels && !IsViseme(p) ==> r[p] == channels[p]
    decreases |ps|
  {
    if ps == [] then channels else BlendVisemes(Blend(channels, ps[0], Shape(m, ps[0])), m, ps[1..])
  }

  /** The viseme writes in `Visemes` order, one `Blend` after another. */
  lemma VisemesInOrder(channels: map<Preset, real>, m: MouthShape)
    ensures BlendVisemes(channels, m, Visemes)
         == Blend(Blend(Blend(Blend(Blend(channels, I, m.I), A, m.A), E, m.E), O, m.O), U, m.U)
  {
    var i := Blend(channels, I, m.I);
    assert Visemes[1..] == [A, E, O, U];
    assert [A, E, O, U][1..] == [E, O, U];
    LastVisemesInOrder(Blend(i, A, m.A), m);
  }

  /** The last three viseme writes, one `Blend` after another. */
  lemma LastVisemesInOrder(channels: map<Preset, real>, m: MouthShape)
    ensures BlendVisemes(channels, m, [E, O, U]) == Blend(Blend(Blend(channels, E, m.E), O, m.O), U, m.U)
  {
    var o := Blend(Blend(channels, E, m.E), O, m.O);
    assert BlendVisemes(o, m, [U]) == Blend(o, U, m.U);
    assert [E, O, U][1..] == [O, U];
  }

  /** The smoothed gaze: 40% of the way from the previous target toward the
      pupil reading, with the pupil's axes swapped; no roll; order XYZ. */
  function GazeTarget(previous: Euler, pupil: Pupil): (r: Euler)
    ensures pupil.y - r.x == 0.6 * (pupil.y - previous.x)
    ensures pupil.x - r.y == 0.6 * (pupil.x - previous.y)
    ensures r.z == 0.0 && r.order == XYZ
  {
    Euler(Lerp(previous.x, pupil.y, 0.4), Lerp(previous.y, pupil.x, 0.4), 0.0, XYZ)
  }

  /** `rigFace(riggedFace)`. */
  function FaceStep(s: RigState, face: SolvedFace, kit: Solvers, q: Quaternions): (r: RigState)
    ensures !s.loaded ==> r == s
    ensures r.loaded == s.loaded && r.bones.Keys == s.bones.Keys
    ensures forall b :: b in s.bones && b != Neck ==> r.bones[b] == s.bones[b]
  {
    if !s.loaded then s
    else
      var neck := RotationStep(s, Neck, Some(face.head), 0.7, 0.3, q);
      var look := GazeTarget(neck.oldLookTarget, face.pupil);
      neck.(blendShapes := FaceChannels(neck.blendShapes, face, kit), oldLookTarget := look, lookAt := Some(look))
  }

  /** The Hips position target: the solved position lifted by one unit with
      its z axis reversed (x is kept as solved). */
  function HipsTarget(hips: SolvedHips): (r: Vec3)
    ensures r.x == hips.position.x
    ensures r.y == hips.position.y + 1.0
    ensures r.z == -hips.position.z
  {
    Vec3(hips.position.x, hips.position.y + 1.0, -hips.position.z)
  }

  /** The pose branch of `animateVRM`: the torso, then the limbs. */
  function PoseStep(s: RigState, pose: SolvedPose, q: Quaternions): (r: RigState)
    ensures BonesOnly(s, r)
    ensures forall b :: b in s.bones && !IsBodyBone(b) ==> r.bones[b] == s.bones[b]
    ensures forall b :: b in s.bones && IsTorsoBone(b) ==> r.bones[b] == TorsoStep(s, pose, q).bones[b]
    ensures forall b :: s.loaded && b in s.bones && IsLimbBone(b) ==> r.bones[b] == Rotated(s.bones[b], LimbRotation(pose, b), 1.0, q)
  {
    LimbStep(TorsoStep(s, pose, q), pose, q)
  }

  /** The first part of the pose branch, in source order: the Hips, then
      Chest and Spine, both from the solved spine. */
  function TorsoStep(s: RigState, pose: SolvedPose, q: Quaternions): (r: RigState)
    ensures BonesOnly(s, r)
    ensures forall b :: b in s.bones && !IsTorsoBone(b) ==> r.bones[b] == s.bones[b]
    ensures s.loaded && Hips in s.bones ==>
              r.bones[Hips] == Rotated(s.bones[Hips], pose.hips.rotation, 0.7, q)
                                 .(position := Vec3Lerp(s.bones[Hips].position, HipsTarget(pose.hips), 0.07))
    ensures s.loaded && Chest in s.bones ==> r.bones[Chest] == Rotated(s.bones[Chest], pose.spine, 0.25, q)
    ensures s.loaded && Spine in s.bones ==> r.bones[Spine] == Rotated(s.bones[Spine], pose.spine, 0.45, q)
  {
    TorsoValues(s, pose, q);
    SpineStep(HipsStep(s, pose.hips, q), pose.spine, q)
  }

  /** The Hips calls and the spine calls touch disjoint bones, so each torso
      bone ends as its own calls leave it. */
  lemma TorsoValues(s: RigState, pose: SolvedPose, q: Quaternions)
    ensures var h := HipsStep(s, pose.hips, q);
            var r := SpineStep(h, pose.spine, q);
            && (forall b :: b in s.bones && !IsTorsoBone(b) ==> r.bones[b] == s.bones[b])
            && (Hips in s.bones ==> r.bones[Hips] == h.bones[Hips])
            && (Chest in s.bones ==> h.bones[Chest] == s.bones[Chest])
            && (Spine in s.bones ==> h.bones[Spine] == s.bones[Spine])
  {
  }

  /** The Hips calls: the rotation at 70% strength, then the position 7% of
      the way toward `HipsTarget`. */
  function HipsStep(s: RigState, hips: SolvedHips, q: Quaternions): (r: RigState)
    ensures BonesOnly(s, r)
    ensures forall b :: b in s.bones && b != Hips ==> r.bones[b] == s.bones[b]
    ensures s.loaded && Hips in s.bones ==>
              r.bones[Hips] == Rotated(s.bones[Hips], hips.rotation, 0.7, q)
                                 .(position := Vec3Lerp(s.bones[Hips].position, HipsTarget(hips), 0.07))
  {
    var s1 := RotationStep(s, Hips, Some(hips.rotation), 0.7, 0.3, q);
    assert Dampened(HipsTarget(hips), 1.0) == HipsTarget(hips);
    PositionStep(s1, Hips, Some(HipsTarget(hips)), 1.0, 0.07)
  }

  /** The Chest at 25% and the Spine at 45% of the solved spine rotation. */
  function SpineStep(s: RigState, spine: Rotation, q: Quaternions): (r: RigState)
    ensures BonesOnly(s, r)
    ensures forall b :: b in s.bones && b != Chest && b != Spine ==> r.bones[b] == s.bones[b]
    ensures s.loaded && Chest in s.bones ==> r.bones[Chest] == Rotated(s.bones[Chest], spine, 0.25, q)
    ensures s.loaded && Spine in s.bones ==> r.bones[Spine] == Rotated(s.bones[Spine], spine, 0.45, q)
  {
    RotationStep(RotationStep(s, Chest, Some(spine), 0.25, 0.3, q), Spine, Some(spine), 0.45, 0.3, q)
  }

  /** The rest of the pose branch: the limbs, in `LimbCalls` order. Each
      arm and leg bone is slerped once toward its own solved rotation. */
  function LimbStep(s: RigState, pose: SolvedPose, q: Quaternions): (r: RigState)
    ensures BonesOnly(s, r)
    ensures forall b :: b in s.bones && !IsLimbBone(b) ==> r.bones[b] == s.bones[b]
    ensures forall b :: s.loaded && b in s.bones && IsLimbBone(b) ==> r.bones[b] == Rotated(s.bones[b], LimbRotation(pose, b), 1.0, q)
  {
    KeepsNonLimbs(s, LimbCalls(pose), q);
    LimbsRotated(s, pose, q);
    RotateAll(s, LimbCalls(pose), q)
  }

  /** A `rigRotation` call with the default dampener and blend. */
  datatype RotationCall = RotationCall(name: BoneName, rotation: Rotation)

  /** A bone's transform after a `rigRotation` call toward `rotation` with
      the given dampener and the default blend. */
  function Rotated(t: Transform, rotation: Rotation, dampener: real, q: Quaternions): Transform
  {
    t.(quaternion := q.slerp(t.quaternion, q.setFromEuler(DampenedEuler(rotation, dampener)), 0.3))
  }

  /** The solved rotation that drives each arm and leg bone. */
  function LimbRotation(pose: SolvedPose, b: BoneName): (r: Rotation)
    requires IsLimbBone(b)
    ensures b == UpperArm(Left) ==> r == pose.leftUpperArm
    ensures b == UpperArm(Right) ==> r == pose.rightUpperArm
    ensures b == LowerArm(Left) ==> r == pose.leftLowerArm
    ensures b == LowerArm(Right) ==> r == pose.rightLowerArm
    ensures b == UpperLeg(Left) ==> r == pose.leftUpperLeg
    ensures b == UpperLeg(Right) ==> r == pose.rightUpperLeg
    ensures b == LowerLeg(Left) ==> r == pose.leftLowerLeg
    ensures b == LowerLeg(Right) ==> r == pose.rightLowerLeg
  {
    match b
    case UpperArm(side) => if side == Left then pose.leftUpperArm else pose.rightUpperArm
    case LowerArm(side) => if side == Left then pose.leftLowerArm else pose.rightLowerArm
    case UpperLeg(side) => if side == Left then pose.leftUpperLeg else pose.rightUpperLeg
    case LowerLeg(side) => if side == Left then pose.leftLowerLeg else pose.rightLowerLeg
  }

  /** Where each limb bone's call sits in `LimbCalls`. */
  function LimbSlot(b: BoneName): (k: nat)
    requires IsLimbBone(b)
    ensures k < 8
  {
    match b
    case UpperArm(side) => if side == Right then 0 else 2
    case LowerArm(side) => if side == Right then 1 else 3
    case UpperLeg(side) => if side == Left then 4 else 6
    case LowerLeg(side) => if side == Left then 5 else 7
  }

  /** A call toward its own solved rotation names each limb bone's slot;
      no bone is named twice. */
  predicate LimbCallsFor(pose: SolvedPose, calls: seq<RotationCall>)
  {
    && (forall i :: 0 <= i < |calls| ==> IsLimbBone(calls[i].name) && calls[i].rotation == LimbRotation(pose, calls[i].name))
    && (forall i, j :: 0 <= i < j < |calls| ==> calls[i].name != calls[j].name)
  }

  /** The limb calls in source order: the arms, then the legs; every arm
      and leg bone once, each toward its own solved rotation. */
  function LimbCalls(pose: SolvedPose): (r: seq<RotationCall>)
    ensures |r| == 8 && LimbCallsFor(pose, r)
    ensures forall b :: IsLimbBone(b) ==> r[LimbSlot(b)].name == b
  {
    var arms, legs := ArmCalls(pose), LegCalls(pose);
    CallsForAppend(pose, arms, legs);
    LimbSlots(pose);
    arms + legs
  }

  /** Each limb bone's call sits at its `LimbSlot`. */
  lemma LimbSlots(pose: SolvedPose)
    ensures forall b :: IsLimbBone(b) ==> (ArmCalls(pose) + LegCalls(pose))[LimbSlot(b)].name == b
  {
    var r := ArmCalls(pose) + LegCalls(pose);
    assert r[0].name == UpperArm(Right) && r[1].name == LowerArm(Right);
    assert r[2].name == UpperArm(Left) && r[3].name == LowerArm(Left);
    assert r[4].name == UpperLeg(Left) && r[5].name == LowerLeg(Left);
    assert r[6].name == UpperLeg(Right) && r[7].name == LowerLeg(Right);
    forall b | IsLimbBone(b)
      ensures r[LimbSlot(b)].name == b
    {
      match b
      case UpperArm(side) =>
      case LowerArm(side) =>
      case UpperLeg(side) =>
      case LowerLeg(side) =>
    }
  }

  /** Two lists of limb calls on disjoint bones make one. */
  lemma CallsForAppend(pose: SolvedPose, calls: seq<RotationCall>, more: seq<RotationCall>)
    requires LimbCallsFor(pose, calls) && LimbCallsFor(pose, more)
    requires forall i, j :: 0 <= i < |calls| && 0 <= j < |more| ==> calls[i].name != more[j].name
    ensures LimbCallsFor(pose, calls + more)
  {
    var r := calls + more;
    forall i, j | 0 <= i < j < |r|
      ensures r[i].name != r[j].name
    {
      if j < |calls| {
      } else if i < |calls| {
        assert r[j] == more[j - |calls|];
      } else {
        assert r[i] == more[i - |calls|] && r[j] == more[j - |calls|];
      }
    }
  }

  /** The right then the left arm, each upper bone before the lower one;
      each toward its own solved rotation. */
  function ArmCalls(pose: SolvedPose): (r: seq<RotationCall>)
    ensures |r| == 4 && LimbCallsFor(pose, r)
    ensures forall i :: 0 <= i < |r| ==> r[i].name.UpperArm? || r[i].name.LowerArm?
  {
    [RotationCall(UpperArm(Right), pose.rightUpperArm), RotationCall(LowerArm(Right), pose.rightLowerArm),
     RotationCall(UpperArm(Left), pose.leftUpperArm), RotationCall(LowerArm(Left), pose.leftLowerArm)]
  }

  /** The left then the right leg, each upper bone before the lower one;
      each toward its own solved rotation. */
  function LegCalls(pose: SolvedPose): (r: seq<RotationCall>)
    ensures |r| == 4 && LimbCallsFor(pose, r)
    ensures forall i :: 0 <= i < |r| ==> r[i].name.UpperLeg? || r[i].name.LowerLeg?
  {
    [RotationCall(UpperLeg(Left), pose.leftUpperLeg), RotationCall(LowerLeg(Left), pose.leftLowerLeg),
     RotationCall(UpperLeg(Right), pose.rightUpperLeg), RotationCall(LowerLeg(Right), pose.rightLowerLeg)]
  }

  /** Limb calls leave each limb bone as its own call alone would. */
  lemma LimbsRotated(s: RigState, pose: SolvedPose, q: Quaternions)
    ensures forall b :: s.loaded && b in s.bones && IsLimbBone(b) ==>
              RotateAll(s, LimbCalls(pose), q).bones[b] == Rotated(s.bones[b], LimbRotation(pose, b), 1.0, q)
  {
    var calls := LimbCalls(pose);
    forall b | s.loaded && b in s.bones && IsLimbBone(b) {
      CallOnce(s, calls, q, LimbSlot(b));
    }
  }

  /** Among calls that name distinct bones, the bone of call `k` ends as
      that call alone leaves it. */
  lemma {:induction false} CallOnce(s: RigState, calls: seq<RotationCall>, q: Quaternions, k: nat)
    requires s.loaded && k < |calls| && calls[k].name in s.bones
    requires forall i, j :: 0 <= i < j < |calls| ==> calls[i].name != calls[j].name
    ensures RotateAll(s, calls, q).bones[calls[k].name] == Rotated(s.bones[calls[k].name], calls[k].rotation, 1.0, q)
    decreases |calls|
  {
    var b := calls[k].name;
    var s1 := RotationStep(s, calls[0].name, Some(calls[0].rotation), 1.0, 0.3, q);
    assert RotateAll(s, calls, q) == RotateAll(s1, calls[1..], q);
    if k == 0 {
      forall i | 0 <= i < |calls[1..]|
        ensures calls[1..][i].name != b
      {
        assert calls[1..][i] == calls[i + 1];
      }
      OtherCallsKeep(s1, calls[1..], q, b);
    } else {
      assert calls[1..][k - 1] == calls[k];
      forall i, j | 0 <= i < j < |calls[1..]|
        ensures calls[1..][i].name != calls[1..][j].name
      {
        assert calls[1..][i] == calls[i + 1] && calls[1..][j] == calls[j + 1];
      }
      CallOnce(s1, calls[1..], q, k - 1);
    }
  }

  /** The given calls, one after the other. */
  function RotateAll(s: RigState, calls: seq<RotationCall>, q: Quaternions): (r: RigState)
    ensures BonesOnly(s, r)
    decreases |calls|
  {
    if calls == [] then s
    else RotateAll(RotationStep(s, calls[0].name, Some(calls[0].rotation), 1.0, 0.3, q), calls[1..], q)
  }

  /** Calls that never name bone `b` leave it as it was. */
  lemma {:induction false} OtherCallsKeep(s: RigState, calls: seq<RotationCall>, q: Quaternions, b: BoneName)
    requires b in s.bones && forall i :: 0 <= i < |calls| ==> calls[i].name != b
    ensures RotateAll(s, calls, q).bones[b] == s.bones[b]
    decreases |calls|
  {
    if calls != [] {
      OtherCallsKeep(RotationStep(s, calls[0].name, Some(calls[0].rotation), 1.0, 0.3, q), calls[1..], q, b);
    }
  }

  /** Limb calls leave every other bone as it was. */
  lemma KeepsNonLimbs(s: RigState, calls: seq<RotationCall>, q: Quaternions)
    requires forall i :: 0 <= i < |calls| ==> IsLimbBone(calls[i].name)
    ensures forall b :: b in s.bones && !IsLimbBone(b) ==> RotateAll(s, calls, q).bones[b] == s.bones[b]
  {
    forall b | b in s.bones && !IsLimbBone(b) {
      OtherCallsKeep(s, calls, q, b);
    }
  }

  /** Calls on one side's hand bones leave every other bone as it was. */
  lemma KeepsOtherThanHand(s: RigState, side: Side, calls: seq<RotationCall>, q: Quaternions)
    requires forall i :: 0 <= i < |calls| ==> IsHandBone(calls[i].name, side)
    ensures forall b :: b in s.bones && !IsHandBone(b, side) ==> RotateAll(s, calls, q).bones[b] == s.bones[b]
  {
    forall b | b in s.bones && !IsHandBone(b, side) {
      OtherCallsKeep(s, calls, q, b);
    }
  }

  /** Running two call lists one after the other is running their concatenation. */
  lemma {:induction false} RotateAllAppend(s: RigState, calls: seq<RotationCall>, more: seq<RotationCall>, q: Quaternions)
    ensures RotateAll(s, calls + more, q) == RotateAll(RotateAll(s, calls, q), more, q)
    decreases |calls|
  {
    if calls == [] {
      assert calls + more == more;
    } else {
      assert (calls + more)[0] == calls[0];
      assert (calls + more)[1..] == calls[1..] + more;
      RotateAllAppend(RotationStep(s, calls[0].name, Some(calls[0].rotation), 1.0, 0.3, q), calls[1..], more, q);
    }
  }

  /** One digit's three joint calls, proximal to distal, each toward the hand
      solve's angles for that joint. */
  function DigitCalls(side: Side, digit: Digit, hand: SolvedHand): (r: seq<RotationCall>)
    ensures forall i :: 0 <= i < |r| ==>
              && r[i].name.Finger? && r[i].name.side == side && r[i].name.digit == digit
              && r[i].rotation == hand.joint(digit, r[i].name.segment)
  {
    [RotationCall(Finger(side, digit, Proximal), hand.joint(digit, Proximal)),
     RotationCall(Finger(side, digit, Intermediate), hand.joint(digit, Intermediate)),
     RotationCall(Finger(side, digit, Distal), hand.joint(digit, Distal))]
  }

  /** The wrist rotation: x and y from the hand solve, z from the pose
      solve's hand, and no axis order (so XYZ). */
  function WristRotation(poseHand: Rotation, hand: SolvedHand): (r: Rotation)
    ensures r.x == hand.wrist.x && r.y == hand.wrist.y
    ensures r.z == poseHand.z
    ensures r.rotationOrder.None?
  {
    Rotation(hand.wrist.x, hand.wrist.y, poseHand.z, None)
  }

  /** The order in which a hand branch visits the digits. */
  const FingerOrder: seq<Digit> := [Ring, Index, Middle, Thumb, Little]

  /** The joint calls of the given digits, digit by digit in the order given. */
  function FingerCalls(side: Side, digits: seq<Digit>, hand: SolvedHand): (r: seq<RotationCall>)
    ensures forall i :: 0 <= i < |r| ==> r[i].name.Finger? && r[i].name.side == side && r[i].name.digit in digits
    decreases |digits|
  {
    if digits == [] then [] else DigitCalls(side, digits[0], hand) + FingerCalls(side, digits[1..], hand)
  }

  /** Running the calls of a list of digits is running the first digit's
      calls, then the rest. */
  lemma FingerCallsFirst(s: RigState, side: Side, digits: seq<Digit>, hand: SolvedHand, q: Quaternions)
    requires digits != []
    ensures RotateAll(s, FingerCalls(side, digits, hand), q)
         == RotateAll(RotateAll(s, DigitCalls(side, digits[0], hand), q), FingerCalls(side, digits[1..], hand), q)
  {
    RotateAllAppend(s, DigitCalls(side, digits[0], hand), FingerCalls(side, digits[1..], hand), q);
  }

  /** The finger calls of `FingerOrder`, digit block by digit block. */
  lemma FingerOrderCalls(side: Side, hand: SolvedHand)
    ensures FingerCalls(side, FingerOrder, hand)
         == DigitCalls(side, Ring, hand) + DigitCalls(side, Index, hand) + DigitCalls(side, Middle, hand)
            + DigitCalls(side, Thumb, hand) + DigitCalls(side, Little, hand)
  {
    var ring, index, middle, thumb, little :=
      DigitCalls(side, Ring, hand), DigitCalls(side, Index, hand), DigitCalls(side, Middle, hand),
      DigitCalls(side, Thumb, hand), DigitCalls(side, Little, hand);
    assert FingerCalls(side, [Little], hand) == little;
    assert FingerCalls(side, [Thumb, Little], hand) == thumb + little;
    assert FingerCalls(side, [Middle, Thumb, Little], hand) == middle + (thumb + little);
    assert FingerCalls(side, [Index, Middle, Thumb, Little], hand) == index + (middle + (thumb + little));
    assert FingerCalls(side, FingerOrder, hand) == ring + (index + (middle + (thumb + little)));
  }

  /** One hand branch of `animateVRM`: the Hand bone, then the fingers in
      `FingerOrder`, all with the default dampener and blend. */
  function HandStep(s: RigState, side: Side, poseHand: Rotation, hand: SolvedHand, q: Quaternions): (r: RigState)
    ensures BonesOnly(s, r)
    ensures forall b :: b in s.bones && !IsHandBone(b, side) ==> r.bones[b] == s.bones[b]
  {
    var calls := [RotationCall(Hand(side), WristRotation(poseHand, hand))] + FingerCalls(side, FingerOrder, hand);
    KeepsOtherThanHand(s, side, calls, q);
    RotateAll(s, calls, q)
  }

  /** The fault a hand branch raises: reading `riggedPose.LeftHand` (or
      `RightHand`) while `riggedPose` is still undefined. */
  datatype FrameError = UndefinedPose(side: Side)

  datatype Outcome = Completed | Thrown(error: FrameError)

  /** The rig after a call, and whether the call completed or threw. */
  datatype Frame = Frame(state: RigState, outcome: Outcome)

  /** `riggedPose`: solved only when both the 2-D and the 3-D pose are present. */
  function RiggedPose(results: Results, kit: Solvers): (r: Option<SolvedPose>)
    ensures r.Some? <==> results.poseLandmarks.Some? && results.ea.Some?
  {
    if results.poseLandmarks.Some? && results.ea.Some?
    then Some(kit.poseSolve(results.ea.value, results.poseLandmarks.value))
    else None
  }

  /** A hand branch: skipped without landmarks; throws without a pose solved in this call. */
  function HandBranch(s: RigState, side: Side, landmarks: Option<Landmarks>, riggedPose: Option<SolvedPose>,
                      kit: Solvers, q: Quaternions): (f: Frame)
    ensures f.outcome.Thrown? <==> landmarks.Some? && riggedPose.None?
    ensures f.outcome.Thrown? ==> f.outcome.error == UndefinedPose(side)
    ensures BonesOnly(s, f.state)
    ensures forall b :: b in s.bones && !IsHandBone(b, side) ==> f.state.bones[b] == s.bones[b]
    ensures landmarks.None? || riggedPose.None? ==> f.state == s
  {
    if landmarks.None? then Frame(s, Completed)
    else if riggedPose.None? then Frame(s, Thrown(UndefinedPose(side)))
    else
      var hand := kit.handSolve(landmarks.value, side);
      Frame(HandStep(s, side, PoseHand(riggedPose.value, side), hand, q), Completed)
  }

  /** The face branch of `animateVRM`: `rigFace` of the solved face, when face landmarks are present. */
  function FaceBranch(s: RigState, results: Results, kit: Solvers, q: Quaternions): (r: RigState)
    ensures results.faceLandmarks.None? ==> r == s
    ensures r.loaded == s.loaded && r.bones.Keys == s.bones.Keys
    ensures forall b :: b in s.bones && b != Neck ==> r.bones[b] == s.bones[b]
  {
    if results.faceLandmarks.Some? then FaceStep(s, kit.faceSolve(results.faceLandmarks.value), kit, q) else s
  }

  /** The pose branch of `animateVRM`, when the pose was solved in this call. */
  function PoseBranch(s: RigState, riggedPose: Option<SolvedPose>, q: Quaternions): (r: RigState)
    ensures riggedPose.None? ==> r == s
    ensures BonesOnly(s, r)
    ensures forall b :: b in s.bones && !IsBodyBone(b) ==> r.bones[b] == s.bones[b]
  {
    if riggedPose.Some? then PoseStep(s, riggedPose.value, q) else s
  }

  /** The two hand branches of `animateVRM`: the left hand from
      `rightHandLandmarks`, then, unless that threw, the right hand from
      `leftHandLandmarks`. */
  function HandBranches(s: RigState, results: Results, riggedPose: Option<SolvedPose>, kit: Solvers, q: Quaternions): (f: Frame)
    ensures f.outcome.Thrown? <==>
              (results.leftHandLandmarks.Some? || results.rightHandLandmarks.Some?) && riggedPose.None?
    ensures f.outcome.Thrown? ==>
              f.outcome.error == UndefinedPose(if results.rightHandLandmarks.Some? then Left else Right)
    ensures riggedPose.None? ==> f.state == s
    ensures BonesOnly(s, f.state)
    ensures forall b :: b in s.bones && !IsHandBone(b, Left) && !IsHandBone(b, Right) ==> f.state.bones[b] == s.bones[b]
    ensures results.rightHandLandmarks.None? ==>
              forall b :: b in s.bones && IsHandBone(b, Left) ==> f.state.bones[b] == s.bones[b]
    ensures results.leftHandLandmarks.None? ==>
              forall b :: b in s.bones && IsHandBone(b, Right) ==> f.state.bones[b] == s.bones[b]
  {
    var left := HandBranch(s, Left, results.rightHandLandmarks, riggedPose, kit, q);
    if left.outcome.Thrown? then left
    else HandBranch(left.state, Right, results.leftHandLandmarks, riggedPose, kit, q)
  }

  /** `animateVRM(currentVrm, results)`: face, then pose, then the hands. A
      throw ends the call; what ran before it stays. */
  function Animate(s: RigState, results: Results, kit: Solvers, q: Quaternions): (f: Frame)
    ensures !s.loaded ==> f == Frame(s, Completed)
    ensures f.state.loaded == s.loaded && f.state.bones.Keys == s.bones.Keys
    ensures f.outcome.Thrown? <==>
              && s.loaded
              && (results.leftHandLandmarks.Some? || results.rightHandLandmarks.Some?)
              && !(results.poseLandmarks.Some? && results.ea.Some?)
    ensures f.outcome.Thrown? ==>
              f.outcome.error == UndefinedPose(if results.rightHandLandmarks.Some? then Left else Right)
  {
    if !s.loaded then Frame(s, Completed)
    else
      var riggedPose := RiggedPose(results, kit);
      HandBranches(PoseBranch(FaceBranch(s, results, kit, q), riggedPose, q), results, riggedPose, kit, q)
  }
}
