/** The avatar side of retargeting: the VRM humanoid bone names, the
    blend-shape presets and a bone node's local transform. */
module Humanoid {
  import opened ThreeMath

  datatype Side = Left | Right

  datatype Digit = Ring | Index | Middle | Thumb | Little

  datatype Segment = Proximal | Intermediate | Distal

  /** `VRMSchema.HumanoidBoneName`: the bones the retargeting code drives,
      plus the ones it never touches (which a rig may still have). */
  datatype BoneName =
    | Hips | Spine | Chest | UpperChest | Neck | Head | Jaw
    | Eye(side: Side) | Shoulder(side: Side)
    | UpperArm(side: Side) | LowerArm(side: Side) | Hand(side: Side)
    | UpperLeg(side: Side) | LowerLeg(side: Side) | Foot(side: Side) | Toes(side: Side)
    | Finger(side: Side, digit: Digit, segment: Segment)

  /** `VRMSchema.BlendShapePresetName` (VRM 0.x). */
  datatype Preset =
    | Unknown | Neutral | A | I | U | E | O
    | Blink | BlinkL | BlinkR
    | Joy | Angry | Sorrow | Fun
    | LookUp | LookDown | LookLeft | LookRight

  /** A bone node's local `position` and `quaternion`. */
  datatype Transform = Transform(position: Vec3, quaternion: Quat)

  /** The five mouth-shape channels. */
  predicate IsViseme(p: Preset)
  {
    p == I || p == A || p == E || p == O || p == U
  }

  /** The bones the pose branch drives: hips, spine, chest, arms and legs. */
  predicate IsBodyBone(b: BoneName)
  {
    IsTorsoBone(b) || IsLimbBone(b)
  }

  predicate IsTorsoBone(b: BoneName)
  {
    b == Hips || b == Chest || b == Spine
  }

  predicate IsLimbBone(b: BoneName)
  {
    b.UpperArm? || b.LowerArm? || b.UpperLeg? || b.LowerLeg?
  }

  /** The 16 bones a hand branch drives: one side's Hand and its 15 finger joints. */
  predicate IsHandBone(b: BoneName, side: Side)
  {
    b == Hand(side) || (b.Finger? && b.side == side)
  }
}
