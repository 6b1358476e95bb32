# Kalidokit-React avatar retargeting, modelled in Dafny

This project models the core of a browser application that drives a VRM
avatar from MediaPipe Holistic landmarks through the Kalidokit solvers.
That core is the retargeting engine, which the repository carries in three
copies (`src/components/VRMPlatform/index.tsx`,
`src/components/VRMPlatform/ThreeSetup.jsx` and `src/ThreeSetup.jsx`). The
copies agree line for line in the modelled region. The project also models
the settings reducer `src/context/AppReducer.ts`.

The engine has four parts:

- `rigPosition` / `rigRotation` pull one humanoid bone a fraction of the
  way toward a dampened target. The position is blended linearly and the
  rotation is slerped. Without an avatar or without that bone, they do
  nothing.
- `rigFace` does four things:
  - rotates the Neck;
  - writes the stabilised Blink reading;
  - blends the five viseme channels half and half with their current values;
  - smooths the gaze against `oldLookTarget`, which persists across frames.
- `animateVRM` is the per-frame dispatcher:
  - it runs the face branch when face landmarks are present;
  - it runs the pose branch when both pose projections are present;
  - it then runs the two hand branches, with the hands swapped on input.
  - A hand branch reads `riggedPose`, a local of the same call. A frame with
    hand landmarks but no pose therefore throws there. The throw ends the
    call, and the updates made before it stay.

The modules are:

- `ThreeMath`: three's `MathUtils.lerp` and `Vector3.lerp`, Kalidokit's
  `clamp`, and facts about repeated blending. Quaternions are kept abstract.
- `Humanoid`, `Tracking`: bone names, blend-shape presets, the Holistic
  results bundle, and the solver results. The solvers are function values
  handed to the model.
- `Retarget`: what each call does to a snapshot `RigState` of the rig,
  written as functions. Each state is the bone map, the blend-shape channels
  and the persisted gaze.
- `VRMPlatform`: the class `Retargeter`. Its fields are the mutable avatar
  state, and its methods follow the source's statements one by one. Each
  method is proved to leave exactly the state that the matching `Retarget`
  function gives.
- `RetargetProperties`: lemmas about the `Retarget` functions. They cover
  blending, defaults, viseme and blink formulas, the gaze, the bones each
  branch touches, the dispatch rules and the error path. Through the
  methods' contracts they hold for `Retargeter` as well.
- `AppReducer`: the reducer as a pure function, with per-action frame
  properties, idempotence and commutation.

Two details of the code are easy to misread:

- At `src/components/VRMPlatform/index.tsx:349` the Hips x coordinate
  carries a `// Reverse direction` comment, but only z is negated
  (line 351). The model negates only z; see `RetargetProperties.PoseHips`.
- `riggedPose` is declared inside `animateVRM` (index.tsx:325) and is set
  only by the pose branch. A frame with hand landmarks but without both pose
  projections therefore throws at the first hand branch that reads it
  (index.tsx:373 or 417). A throw in the left-hand branch also skips the
  right-hand branch. See `Retarget.Animate` and
  `RetargetProperties.AnimateLoneHand`.

## Model

| member | source | states |
|---|---|---|
| Options.GetOr | src/components/VRMPlatform/index.tsx:239 | an absent value falls back to the default; a present one is kept |
| ThreeMath.Lerp | src/components/VRMPlatform/index.tsx:311-316 | a blend with weight 0 is its start and with weight 1 its end |
| ThreeMath.LerpGap | src/components/VRMPlatform/ThreeSetup.jsx:297-302 | after a blend toward `y`, the fraction `1 - t` of the way is left |
| ThreeMath.Vec3Lerp | src/components/VRMPlatform/ThreeSetup.jsx:203 | `Vector3.lerp` moves every axis as the scalar blend does |
| ThreeMath.LerpStep | src/components/VRMPlatform/index.tsx:212-217 | the in-place update `x + (v - x) * t` is the blend `lerp(x, v, t)` |
| ThreeMath.Clamp | src/ThreeSetup.jsx:176 | the result lies in `[lo, hi]`; a value already in range is unchanged, a value above `hi` becomes `hi` and one below `lo` becomes `lo` |
| ThreeMath.LerpBetween | src/components/VRMPlatform/index.tsx:212-217 | a blend with weight in [0,1] lands between its two ends |
| ThreeMath.LerpIterDistance | src/ThreeSetup.jsx:133-138 | after `n` blends toward a fixed target, the distance left is `(1 - t)^n` times the initial one |
| ThreeMath.LerpIterConverges | src/components/VRMPlatform/ThreeSetup.jsx:198-203 | with weight in [0,1], repeated blending never moves away from the target: each frame is at least as close as the one before and the start |
| ThreeMath.LerpIterLast | src/components/VRMPlatform/index.tsx:212-217 | one more frame is one more blend of the value reached so far |
| ThreeMath.LerpShrinks | src/ThreeSetup.jsx:133-138 | one blend with weight in [0,1] does not increase the distance to the target |
| Tracking.PoseHand | src/components/VRMPlatform/index.tsx:372-376 | the left branch reads the pose solve's left hand, and the right branch its right hand |
| Retarget.Dampened | src/components/VRMPlatform/index.tsx:212-216 | the position target is the solved position with every axis scaled by the dampener; 1 keeps it, 0 collapses it to the origin |
| Retarget.DampenedEuler | src/components/VRMPlatform/index.tsx:235-240 | the Euler target scales every axis by the dampener and keeps the solved axis order, or takes XYZ when there is none |
| Retarget.PositionStep | src/components/VRMPlatform/index.tsx:197-218 | with no avatar or no such bone, nothing changes; otherwise only that bone's position changes, and its rotation, all other bones, the channels and the gaze are kept |
| Retarget.RotationStep | src/components/VRMPlatform/ThreeSetup.jsx:205-229 | with no avatar or no such bone, nothing changes; otherwise only that bone's quaternion changes, and its position and everything else are kept |
| Retarget.BlinkInput | src/components/VRMPlatform/index.tsx:254-263 | an eye's reading is half its closedness and half the previous Blink value: a shut eye gives `0.5 + 0.5*previous`, an open one `0.5*previous`, and a previous value in [0,1] keeps it in [0,1] |
| Retarget.BlinkValue | src/components/VRMPlatform/ThreeSetup.jsx:240-254 | the Blink value is the stabiliser's `l` for two readings `0.5*clamp(1 - openness, 0, 1) + 0.5*previousBlink`, with the head's y passed along |
| Retarget.Blend | src/components/VRMPlatform/index.tsx:270-277 | a channel write changes only the named channel, and an absent channel is never created |
| Retarget.FaceChannels | src/components/VRMPlatform/index.tsx:254-309 | the face's channel writes keep the set of channels and every channel other than Blink and the visemes |
| Retarget.BlinkChannel | src/components/VRMPlatform/ThreeSetup.jsx:240-254 | the Blink write changes no channel other than Blink |
| Retarget.BlendVisemes | src/ThreeSetup.jsx:191-230 | the viseme writes keep the set of channels and every non-viseme channel |
| Retarget.VisemesInOrder | src/components/VRMPlatform/index.tsx:270-309 | the viseme writes are the five blends I, A, E, O, U, one after another |
| Retarget.LastVisemesInOrder | src/components/VRMPlatform/index.tsx:286-309 | the last three viseme writes are the blends E, O, U in that order |
| Retarget.GazeTarget | src/components/VRMPlatform/index.tsx:311-316 | the new gaze closes 40% of the gap to the pupil reading, with the pupil's y feeding x and its x feeding y; no roll, order XYZ |
| Retarget.FaceStep | src/components/VRMPlatform/index.tsx:245-319 | without an avatar nothing changes; a face step keeps the set of bones and moves no bone other than the Neck |
| Retarget.HipsTarget | src/components/VRMPlatform/index.tsx:348-352 | the Hips target is `(x, y+1, -z)` of the solved position: x as solved, y lifted by one unit, only z reversed |
| Retarget.PoseStep | src/components/VRMPlatform/index.tsx:340-368 | the pose branch changes only bone transforms, and only those of the body bones; each torso bone ends as the torso calls set it, and each arm and leg bone is slerped once, undamped with blend 0.3, toward its own solved rotation |
| Retarget.TorsoStep | src/components/VRMPlatform/ThreeSetup.jsx:331-344 | the torso calls change only the Hips, Chest and Spine: the Hips are slerped at 70% toward the solved hips rotation and moved 7% toward `(x, y+1, -z)`, the Chest and the Spine are slerped at 25% and 45% toward the solved spine |
| Retarget.TorsoValues | src/components/VRMPlatform/index.tsx:345-358 | the Hips calls and the Chest and Spine calls touch disjoint bones: each torso bone ends as its own calls leave it, and every other bone is kept |
| Retarget.HipsStep | src/components/VRMPlatform/index.tsx:345-355 | the Hips calls change only the Hips: their rotation at 70% strength with blend 0.3, then their position 7% of the way toward `HipsTarget` |
| Retarget.SpineStep | src/components/VRMPlatform/index.tsx:357-358 | the Chest and the Spine are slerped toward the solved spine at 25% and 45% strength; every other bone is kept |
| Retarget.LimbStep | src/components/VRMPlatform/index.tsx:360-368 | the limb calls change only the arm and leg bones, and each of them is slerped once toward its own solved rotation (`LimbRotation`) |
| Retarget.LimbRotation | src/components/VRMPlatform/index.tsx:360-368 | each of the eight arm and leg bones is driven by the solved field of the same side and segment |
| Retarget.LimbCalls | src/ThreeSetup.jsx:281-289 | eight calls naming every arm and leg bone exactly once, each toward its own solved rotation, the arms before the legs |
| Retarget.LimbSlots | src/ThreeSetup.jsx:281-289 | each arm and leg bone's call sits at that bone's position in the source's call order |
| Retarget.CallsForAppend | src/components/VRMPlatform/index.tsx:360-368 | two lists of limb calls on disjoint bones, each toward its own solved rotation, make one such list |
| Retarget.ArmCalls | src/components/VRMPlatform/index.tsx:360-363 | four calls on four distinct arm bones, each toward that bone's own solved rotation |
| Retarget.LegCalls | src/components/VRMPlatform/ThreeSetup.jsx:351-354 | four calls on four distinct leg bones, each toward that bone's own solved rotation |
| Retarget.LimbsRotated | src/components/VRMPlatform/index.tsx:360-368 | after the limb calls, each arm and leg bone is slerped once toward its own solved rotation |
| Retarget.CallOnce | src/components/VRMPlatform/index.tsx:219-243 | among calls on distinct bones, each named bone ends as its own call alone leaves it |
| Retarget.RotateAll | src/components/VRMPlatform/index.tsx:360-368 | a run of rotation calls changes only bone transforms |
| Retarget.OtherCallsKeep | src/components/VRMPlatform/index.tsx:219-243 | rotation calls that never name bone `b` leave `b` as it was |
| Retarget.KeepsNonLimbs | src/components/VRMPlatform/index.tsx:360-368 | limb calls leave every bone that is not an arm or leg bone as it was |
| Retarget.KeepsOtherThanHand | src/components/VRMPlatform/index.tsx:370-413 | calls on one side's hand bones leave every other bone as it was |
| Retarget.RotateAllAppend | src/components/VRMPlatform/ThreeSetup.jsx:346-354 | running two call lists one after the other is running their concatenation |
| Retarget.DigitCalls | src/components/VRMPlatform/index.tsx:377-382 | a digit's calls name that side's joints of that digit, each driven by the hand solve's angles for that joint |
| Retarget.WristRotation | src/components/VRMPlatform/index.tsx:372-376 | the wrist target takes x and y from the hand solve's wrist, z from the pose solve's hand, and no axis order |
| Retarget.FingerCalls | src/components/VRMPlatform/ThreeSetup.jsx:363-398 | the finger calls name only finger joints of the given side and of the listed digits |
| Retarget.FingerCallsFirst | src/ThreeSetup.jsx:298-333 | the finger calls are the first digit's calls, then the rest's |
| Retarget.FingerOrderCalls | src/components/VRMPlatform/index.tsx:377-412 | a hand's finger calls are the Ring, Index, Middle, Thumb and Little blocks in that order |
| Retarget.HandStep | src/ThreeSetup.jsx:291-334 | a hand step changes only bone transforms, and only those of that side's Hand and finger joints |
| Retarget.RiggedPose | src/components/VRMPlatform/index.tsx:340-344 | a pose is solved exactly when both the 2-D and the 3-D pose landmarks are present |
| Retarget.HandBranch | src/components/VRMPlatform/ThreeSetup.jsx:356-399 | the branch throws exactly when hand landmarks are present and no pose was solved; it then changes nothing; otherwise it touches only that side's hand bones |
| Retarget.FaceBranch | src/components/VRMPlatform/index.tsx:333-339 | without face landmarks nothing changes; otherwise no bone other than the Neck moves |
| Retarget.PoseBranch | src/components/VRMPlatform/ThreeSetup.jsx:326-355 | without a solved pose nothing changes; otherwise only body bones move |
| Retarget.HandBranches | src/components/VRMPlatform/index.tsx:370-463 | the hands throw exactly when some hand is present without a pose (left branch first); without a pose nothing changes; a side's bones move only if the swapped landmark group for that side is present |
| Retarget.Animate | src/components/VRMPlatform/index.tsx:322-464 | without an avatar a frame changes nothing and completes; the bone set is kept; a frame throws exactly when an avatar is loaded and some hand is present while a pose projection is missing, and the left-hand branch throws first |
| VRMPlatform.Retargeter.constructor | src/components/VRMPlatform/index.tsx:244 | a session starts with no avatar and the gaze at `new Euler()` |
| VRMPlatform.Retargeter.AttachAvatar | src/components/VRMPlatform/index.tsx:177 | loading sets the avatar's bones and channels and keeps the gaze |
| VRMPlatform.Retargeter.RigPosition | src/components/VRMPlatform/ThreeSetup.jsx:183-204 | the new state is `Retarget.PositionStep` of the old |
| VRMPlatform.Retargeter.RigRotation | src/components/VRMPlatform/index.tsx:219-243 | the new state is `Retarget.RotationStep` of the old |
| VRMPlatform.Retargeter.GetValue | src/components/VRMPlatform/index.tsx:256 | a channel's value is defined exactly when the avatar has that channel |
| VRMPlatform.Retargeter.SetValue | src/components/VRMPlatform/index.tsx:268 | a write to an absent channel is ignored; otherwise only that channel changes |
| VRMPlatform.Retargeter.BlendViseme | src/components/VRMPlatform/ThreeSetup.jsx:256-263 | the channels become `Retarget.Blend` of the old ones |
| VRMPlatform.Retargeter.RigFace | src/ThreeSetup.jsx:166-240 | the new state is `Retarget.FaceStep` of the old |
| VRMPlatform.Retargeter.RigBlink | src/components/VRMPlatform/index.tsx:254-268 | the channels become `Retarget.BlinkChannel` of the old ones |
| VRMPlatform.Retargeter.RigVisemes | src/components/VRMPlatform/ThreeSetup.jsx:256-295 | the channels become the viseme blends of the old ones, in source order |
| VRMPlatform.Retargeter.RigPose | src/ThreeSetup.jsx:261-289 | the new state is `Retarget.PoseStep` of the old, so the torso and limb values stated there hold for the avatar |
| VRMPlatform.Retargeter.RigTorso | src/components/VRMPlatform/index.tsx:345-358 | the new state is `Retarget.TorsoStep` of the old: Hips at 70% and 7% toward `(x, y+1, -z)`, Chest at 25%, Spine at 45% |
| VRMPlatform.Retargeter.RigArms | src/components/VRMPlatform/ThreeSetup.jsx:346-349 | the new state is `Retarget.ArmCalls` run on the old: four distinct arm bones, each toward its own solved rotation |
| VRMPlatform.Retargeter.RigLegs | src/ThreeSetup.jsx:286-289 | the new state is `Retarget.LegCalls` run on the old: four distinct leg bones, each toward its own solved rotation |
| VRMPlatform.Retargeter.RigHand | src/components/VRMPlatform/index.tsx:414-463 | the new state is `Retarget.HandStep` of the old |
| VRMPlatform.Retargeter.RigFingers | src/components/VRMPlatform/ThreeSetup.jsx:363-398 | the new state is the finger calls, in `FingerOrder`, run on the old |
| VRMPlatform.Retargeter.RigDigit | src/ThreeSetup.jsx:298-303 | the new state is one digit's three joint calls run on the old |
| VRMPlatform.Retargeter.RigHandBranch | src/components/VRMPlatform/index.tsx:370-376 | the new state and the outcome are `Retarget.HandBranch` of the old state |
| VRMPlatform.Retargeter.AnimateVRM | src/components/VRMPlatform/ThreeSetup.jsx:308-450 | the new state and the outcome are `Retarget.Animate` of the old state |
| RetargetProperties.PositionStepBlends | src/components/VRMPlatform/index.tsx:212-217 | each new axis is `p + (d*t - p) * lerpAmount`, for every fraction |
| RetargetProperties.PositionStepBetween | src/components/VRMPlatform/ThreeSetup.jsx:198-203 | for a fraction in [0,1], each new axis lies between `p` and `d*t` |
| RetargetProperties.PositionDefaults | src/components/VRMPlatform/ThreeSetup.jsx:185-187 | with every default, a bone is pulled 30% of the way toward the origin |
| RetargetProperties.RotationDefaults | src/ThreeSetup.jsx:142-160 | an omitted rotation acts as the zero rotation in order XYZ, whatever the dampener |
| RetargetProperties.RotationOrderKept | src/components/VRMPlatform/index.tsx:239 | the solved axis order is kept, and a missing one becomes XYZ |
| RetargetProperties.PositionConverges | src/components/VRMPlatform/ThreeSetup.jsx:198-203 | `n` equal position calls leave each axis at `n` blends toward the dampened target (exponential smoothing) |
| RetargetProperties.FaceVisemes | src/components/VRMPlatform/index.tsx:270-309 | each viseme channel the avatar has becomes `0.5*shape + 0.5*previous` |
| RetargetProperties.ChannelsViseme | src/components/VRMPlatform/ThreeSetup.jsx:256-295 | after the face's channel writes, a viseme channel is the half-and-half blend of its shape and old value |
| RetargetProperties.VisemesBlended | src/ThreeSetup.jsx:191-230 | the viseme writes blend each viseme channel once, from its old value |
| RetargetProperties.VisemesComplete | src/components/VRMPlatform/index.tsx:270-309 | the writes cover all five visemes, each once |
| RetargetProperties.VisemeOnce | src/components/VRMPlatform/ThreeSetup.jsx:256-295 | over distinct visemes, each listed channel is blended exactly once |
| RetargetProperties.OtherVisemesKeep | src/ThreeSetup.jsx:191-230 | viseme writes that do not list a channel leave it as it was |
| RetargetProperties.FaceVisemeInUnit | src/components/VRMPlatform/index.tsx:270-277 | if the shape and the old value are in [0,1], so is the new viseme value |
| RetargetProperties.FaceBlink | src/components/VRMPlatform/index.tsx:254-268 | Blink becomes the stabilised left reading of the eyes; BlinkL and BlinkR are not written |
| RetargetProperties.ChannelsBlink | src/components/VRMPlatform/ThreeSetup.jsx:240-254 | the viseme writes after the Blink write leave Blink as written, and BlinkL and BlinkR are kept |
| RetargetProperties.FaceStepChannels | src/components/VRMPlatform/index.tsx:251-309 | with an avatar, the face step's channels are the face's channel writes on the old channels |
| RetargetProperties.BlinkOpenEye | src/components/VRMPlatform/index.tsx:254-258 | an open eye over a Blink value of 0.6 gives the stabiliser 0.3 |
| RetargetProperties.FaceGaze | src/components/VRMPlatform/ThreeSetup.jsx:297-304 | the new gaze is `(0.6*old.x + 0.4*pupil.y, 0.6*old.y + 0.4*pupil.x, 0)`, is persisted, and is handed to the look-at applier |
| RetargetProperties.FaceNeck | src/components/VRMPlatform/index.tsx:249 | the Neck is slerped toward the head rotation at 70% strength with blend 0.3 |
| RetargetProperties.PoseHips | src/components/VRMPlatform/index.tsx:345-355 | the Hips move 7% of the way toward `(x, y+1, -z)` (only z reversed), and the Hips rotation leaves the position alone |
| RetargetProperties.PoseHipsRotation | src/components/VRMPlatform/index.tsx:345 | the Hips quaternion is slerped toward the solved hips rotation at 70% strength with blend 0.3 |
| RetargetProperties.HipsFirstFrame | src/ThreeSetup.jsx:266-276 | Hips at the origin and solved at (0.2, -0.1, 0.3) end up at (0.014, 0.063, -0.021) |
| RetargetProperties.PoseSpine | src/components/VRMPlatform/index.tsx:357-358 | Chest and Spine follow the solved spine at 25% and 45% strength, with blend 0.3 |
| RetargetProperties.PoseLimb | src/components/VRMPlatform/index.tsx:360-368 | each arm and leg bone is slerped toward its own solved rotation, undamped, with blend 0.3; its position is kept |
| RetargetProperties.HandWrist | src/components/VRMPlatform/index.tsx:372-376 | the Hand bone's target takes x and y from the hand solve's wrist and z from the pose solve's hand, in order XYZ |
| RetargetProperties.HandAfterWrist | src/components/VRMPlatform/ThreeSetup.jsx:358-362 | a hand step is the wrist call, then the finger calls |
| RetargetProperties.DigitJoint | src/ThreeSetup.jsx:298-303 | a digit's calls slerp each of its three joints toward the hand solve's angles |
| RetargetProperties.HandFinger | src/components/VRMPlatform/index.tsx:377-412 | every one of the fifteen finger joints is slerped once toward the hand solve's angles for it |
| RetargetProperties.FingerOrderComplete | src/components/VRMPlatform/ThreeSetup.jsx:363-398 | the hand branch visits all five digits, each once |
| RetargetProperties.FingersJoint | src/ThreeSetup.jsx:298-333 | over distinct digits, each listed digit's joint ends as its own calls leave it |
| RetargetProperties.FingersJointFirst | src/components/VRMPlatform/index.tsx:377-382 | the first digit's joints are not touched again by the later digits |
| RetargetProperties.SameBoneSameResult | src/components/VRMPlatform/index.tsx:219-243 | what rotation calls do to a bone depends only on its own transform and on whether an avatar is loaded |
| RetargetProperties.AnimateFrame | src/components/VRMPlatform/ThreeSetup.jsx:308-450 | a frame keeps the set of bones, and moves no bone that is not a body bone, a hand bone or (with face landmarks) the Neck |
| RetargetProperties.AnimateWithoutFace | src/ThreeSetup.jsx:254-260 | without face landmarks, every channel and the gaze stay as they were |
| RetargetProperties.AnimateWithoutPose | src/components/VRMPlatform/index.tsx:340-373 | without both pose projections, no bone other than the Neck moves |
| RetargetProperties.AnimateLeftHandSource | src/components/VRMPlatform/index.tsx:330 | the left hand's bones move only when `rightHandLandmarks` is present |
| RetargetProperties.AnimateRightHandSource | src/components/VRMPlatform/ThreeSetup.jsx:317 | the right hand's bones move only when `leftHandLandmarks` is present |
| RetargetProperties.AnimateThrownKeepsFace | src/components/VRMPlatform/index.tsx:333-376 | a frame that throws keeps exactly the updates of the same frame without its hands |
| RetargetProperties.AnimateLoneHand | src/components/VRMPlatform/ThreeSetup.jsx:311-362 | a frame with only a hand throws and leaves the rig untouched |
| RetargetProperties.AnimateFullFrame | src/ThreeSetup.jsx:243-385 | with every landmark group present, a frame completes and is the face step, the pose step, the left hand, then the right hand |
| RetargetProperties.HandBranchRuns | src/components/VRMPlatform/index.tsx:414-420 | a hand branch with landmarks and a pose solved in the same call runs the hand step |
| AppReducer.InitialState | src/context/AppContext.tsx:11-15 | the three paths start empty and the window size is unset |
| AppReducer.Target | src/context/AppReducer.ts:14-37 | each of the four action types, and only it, selects its field |
| AppReducer.Reduce | src/context/AppReducer.ts:13-43 | every field takes the payload if the action type names it, and otherwise keeps its value |
| AppReducer.SetsOnlyItsField | src/context/AppReducer.ts:15-37 | a recognised action sets its field to the payload and leaves every other field unchanged |
| AppReducer.TargetsDistinct | src/context/AppReducer.ts:14-37 | the four action types set four different fields |
| AppReducer.UnknownActionIgnored | src/context/AppReducer.ts:40-41 | an unrecognised action type returns the state unchanged |
| AppReducer.Idempotent | src/context/AppReducer.ts:13-43 | applying an action twice is applying it once |
| AppReducer.DifferentFieldsCommute | src/context/AppReducer.ts:13-43 | two actions that set different fields commute |
| AppReducer.LastWriteWins | src/context/AppReducer.ts:13-43 | of two actions on the same field, the later one wins |

## Left out

- Scene setup, rendering and the `animate` loop (renderer, camera, controls, light, `currentVrm.update`): these are rendering, not retargeting.
- GLTF/VRM and texture loading: asynchronous I/O. `AttachAvatar` stands for the loader's success callback only.
- The Holistic detector, the camera, `drawResults`, recording, window sizing, `setTracking` and the other UI files: these are I/O and UI.
- Kalidokit's `Face.solve`, `Pose.solve`, `Hand.solve` and `Face.stabilizeBlink` are foreign code. They are function values handed to the model, and the model relies on no property of them. Their options (`runtime`, `video`) are not modelled, and a solver that returns nothing is not modelled either.
- `Quaternion.setFromEuler` and `Quaternion.slerp` are trigonometric, so they are kept abstract. No property of the rotation maths is proved.
- Numbers are reals, not IEEE doubles. Rounding, NaN and infinities are not modelled.
- Bone names are a datatype, so a bone-name string that the humanoid enumeration does not know cannot be expressed. The source passes only literal, valid names.
- The three-vrm blend-shape proxy is modelled as a plain map. A read of an absent channel is undefined, and a write to it is ignored. Any weighting or clamping that the proxy applies when the avatar updates is not modelled.
- VRMPlatform.Retargeter.RigBlink: without a Blink channel, the source still hands an undefined reading to `stabilizeBlink` before its write is ignored. The model skips that call, because the stabiliser is modelled as a pure function and its result is then unused.
- The source reassigns `riggedFace.eye`, but the solved face is a value local to the frame and is not read again, so the model does not mutate it.
- The look-at applier is external. The model records the last direction handed to it (`lookAt`).
- The straight-line blocks of calls in `animateVRM` are split into helper methods (`RigTorso`, `RigArms`, `RigLegs`, `RigFingers`, `RigDigit`). The matching functions take them as lists of `RotationCall`, run by `Retarget.RotateAll`.
- VRMPlatform.Retargeter.AnimateVRM: the source tests its `vrm` parameter (index.tsx:323), while `rigRotation` and `rigFace` test the closure's `currentVrm`. The model has one `loaded` flag for both. That is sound because the only caller passes `currentVrm` (index.tsx:531).
- Exceptions other than the read of the undefined `riggedPose` (for example, one thrown inside a solver) are not modelled.
