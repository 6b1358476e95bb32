/** The inputs of retargeting: one MediaPipe Holistic results bundle, and
    the Kalidokit solvers that turn landmarks into joint rotations and face
    readings. The solvers are foreign code; they are function values handed
    to the model, and the model relies on no property of them. */
module Tracking {
  import opened Options
  import opened ThreeMath
  import opened Humanoid

  /** Normalised landmark coordinates as the detector reports them. */
  type Landmarks = seq<Vec3>

  /** One Holistic results bundle. Each landmark group may be missing.
      `ea` is the bundle's (minified) name for the 3-D world pose. */
  datatype Results = Results(
    faceLandmarks: Option<Landmarks>,
    poseLandmarks: Option<Landmarks>,
    ea: Option<Landmarks>,
    leftHandLandmarks: Option<Landmarks>,
    rightHandLandmarks: Option<Landmarks>)

  /** A solved joint rotation: Euler angles, with an optional axis order. */
  datatype Rotation = Rotation(x: real, y: real, z: real, rotationOrder: Option<RotationOrder>)

  /** The JavaScript default `{ x: 0, y: 0, z: 0 }`. */
  const NoRotation: Rotation := Rotation(0.0, 0.0, 0.0, None)

  /** Eye openness, 0 closed .. 1 open, per eye. */
  datatype EyeOpenness = EyeOpenness(l: real, r: real)

  datatype MouthShape = MouthShape(I: real, A: real, E: real, O: real, U: real)

  datatype Pupil = Pupil(x: real, y: real)

  /** `Face.solve`'s result. */
  datatype SolvedFace = SolvedFace(head: Rotation, eye: EyeOpenness, mouth: MouthShape, pupil: Pupil)

  datatype SolvedHips = SolvedHips(position: Vec3, rotation: Rotation)

  /** `Pose.solve`'s result. */
  datatype SolvedPose = SolvedPose(
    hips: SolvedHips, spine: Rotation,
    rightUpperArm: Rotation, rightLowerArm: Rotation, leftUpperArm: Rotation, leftLowerArm: Rotation,
    rightHand: Rotation, leftHand: Rotation,
    rightUpperLeg: Rotation, rightLowerLeg: Rotation, leftUpperLeg: Rotation, leftLowerLeg: Rotation)

  /** `Hand.solve`'s result: the wrist and the 15 finger joints of one side. */
  datatype SolvedHand = SolvedHand(wrist: Rotation, joint: (Digit, Segment) -> Rotation)

  /** Kalidokit's `Face.solve`, `Pose.solve(pose3D, pose2D)`, `Hand.solve`
      and `Face.stabilizeBlink(eye, headY)`, left uninterpreted. */
  datatype Solvers = Solvers(
    faceSolve: Landmarks -> SolvedFace,
    poseSolve: (Landmarks, Landmarks) -> SolvedPose,
    handSolve: (Landmarks, Side) -> SolvedHand,
    stabilizeBlink: (EyeOpenness, real) -> EyeOpenness)

  /** `riggedPose.LeftHand` / `riggedPose.RightHand`. */
  function PoseHand(pose: SolvedPose, side: Side): (r: Rotation)
    ensures side == Left ==> r == pose.leftHand
    ensures side == Right ==> r == pose.rightHand
  {
    match side
    case Left => pose.leftHand
    case Right => pose.rightHand
  }
}
