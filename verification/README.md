# Fuselage frame-sequence builder

A Dafny model of the part of the KBE aircraft-design toolkit that derives
the fuselage's cross-sections ("frames") from its internal compartments.

The fuselage is described by two parallel lists:
- the compartment kinds, each `nose`, `container` or `motor`;
- one sizing descriptor per compartment: nothing for a nose, the bounding
  box of the payload for a container, and diameter and position for a motor.

The builder walks the compartments in order and emits the frames through
which the fuselage skin is lofted. It keeps three pieces of state:
- whether the first container is still to come;
- whether the apex, the station of maximum cross-section, has been reached;
- the placement mode, which says whether a frame sits on the front face
  (`Start`) or on the rear face (`End`) of its box.

The loop visits compartments 0 to n - 2 only. The last compartment is never the current
compartment, so it never gets a cross-section of its own. This holds even when it is the first
or the widest container. A trailing motor gets only the motor frame added on the pass before it. The rules, for every compartment except the last, are:
- The first container gets one frame.
- A later container followed by a strictly wider and strictly taller
  container gets one frame.
- A later container followed by a container that does not outgrow it is the
  apex. It gets a frame at the current placement and one at `End`, and the
  mode switches to `End`. A second such container stops the build with the
  one-apex error.
- A later container followed by a non-container also gets two frames and
  switches the mode to `End`.
- When there are at least two compartments and the last is a motor, the last pass adds one
  motor frame for it.

`bbox_to_frame` turns a box into width, height and length (the absolute
extents along y, z and x) and a placement point. Its x is the front face
for `Start`, the rear face for `End`, and 0 for any other request. Its y
is the middle of the box sideways and its z is the bottom of the box.

Files:
- `geometry.dfy` (module `BoundingBox`): points, boxes, `BboxToFrame` and
  its geometric lemmas.
- `fuselage.dfy` (module `Fuselage`): the builder. One loop pass is
  `Step` (`ContainerStep` followed by `TailStep`). The whole loop is `Run`.
  The result is `BuildPlan` / `FrameBuilder`. `BuildFrames` is the same loop
  written with mutable variables, proved equal to `FrameBuilder`. The builder
  records each emitted frame as a `Slot` (box and placement, or motor) so that
  placement can be reasoned about. `Frames` maps slots to frames.
- `properties.dfy` (module `FuselageProperties`): what one pass does for
  each kind of compartment, the motor-frame guarantee, and frame validity.
- `reference.dfy` (module `FrameReference`): a stateless description of
  the output. It fixes, compartment by compartment and without threading
  state, how many frames a container gets and where they are placed. It is
  proved to agree with the run. For well-formed input (equal list lengths, a
  box in every container slot, a motor in a trailing motor slot) the build is
  proved to fail exactly when two apexes occur.

Two behaviours of the code are worth stating directly:
- A leading nose is only appended to `still_to_build`, which nothing reads, so it adds no
  frame (components/fuselage/fuselage.py:67-68).
- The first container is never compared with its successor
  (components/fuselage/fuselage.py:71-74).

A consequence of the code as written, proved in
`FrameReference.TaperedTailRejected`: a fuselage that tapers over two
successive container steps after its widest container is rejected with the
one-apex error, although its cross-section is largest at a single station.

## Model

| member | source | states |
|---|---|---|
| BoundingBox.Width | components/fuselage/fuselage.py:155 | the frame width is the box's non-negative extent along y, hi.y - lo.y when the corners are ordered |
| BoundingBox.Height | components/fuselage/fuselage.py:156 | the frame height is the box's non-negative extent along z |
| BoundingBox.Length | components/fuselage/fuselage.py:157 | the frame length is the box's non-negative extent along x |
| BoundingBox.BboxToFrame | components/fuselage/fuselage.py:148-172 | width, height and length are non-negative box extents; the frame's y centre is lo.y + width/2, its z is lo.z, its x is lo.x at Start and 0 for any placement other than Start or End |
| BoundingBox.PlacementKeepsShape | components/fuselage/fuselage.py:155-163 | the frame's width, height, length, y and z do not depend on the placement requested |
| BoundingBox.EndIsStartPlusLength | components/fuselage/fuselage.py:157-161 | for a given box the End x equals the Start x plus the length |
| BoundingBox.OrderedBoxFrame | components/fuselage/fuselage.py:151-163 | for a box given by its minimum and maximum corners the frame spans lo.y to hi.y sideways, its height is hi.z - lo.z, and it sits on the front face at Start and on the rear face at End |
| Fuselage.FramesAppend | components/fuselage/fuselage.py:72-113 | the frames of a plan extended by further slots are the plan's frames followed by the new slots' frames, so each emitted slot appends exactly its own frame, as each `frames.append` does |
| Fuselage.ContainerStep | components/fuselage/fuselage.py:70-108 | a container pass adds one or two frames, all for this container's own box, keeps earlier frames, clears the first-container flag, never resets End to Start nor clears the apex flag; it fails only for a missing shape (here or in the next container) or a second apex, that is a non-growing container-to-container step after the apex |
| Fuselage.TailStep | components/fuselage/fuselage.py:110-113 | the tail check adds at most one frame, always a motor frame carrying the last compartment's diameter and position, keeps earlier frames and all three flags, adds it whenever the last of the compartments is a motor and this is the pass over the one before it, and fails only there, with the missing-motor error for the last compartment |
| Fuselage.Step | components/fuselage/fuselage.py:62-113 | one loop pass only appends frames, keeps the End mode and the apex flag once set, and never reports a length mismatch |
| Fuselage.Run | components/fuselage/fuselage.py:62-113 | the loop over compartments 0 .. n-2 only appends frames, keeps the End mode and the apex flag once set, and never reports a length mismatch |
| Fuselage.RunInvariants | components/fuselage/fuselage.py:61-108 | over the whole loop the placement never returns to Start after an End frame, the first frame is at Start, and every box frame is the box of a container compartment other than the last |
| Fuselage.BuildPlan | components/fuselage/fuselage.py:55-119 | fails with the length error exactly when the two lists differ in length; on success the placement never returns to Start after an End frame, the first frame is at Start, and every box frame is the box of a container other than the last compartment |
| Fuselage.FrameBuilder | components/fuselage/fuselage.py:52-119 | fails with the length error, producing no frames, exactly when the compartment and sizing lists differ in length; otherwise yields the frames of the plan |
| Fuselage.BuildFrames | components/fuselage/fuselage.py:52-119 | the loop with mutable first-container, apex and placement variables computes exactly the result of the functional builder |
| FuselageProperties.FirstContainerOneFrame | components/fuselage/fuselage.py:71-74 | the first container contributes exactly one frame at the current placement, whatever its successor is, and leaves placement and apex flag unchanged |
| FuselageProperties.GrowingContainerOneFrame | components/fuselage/fuselage.py:84-92 | a later container followed by a strictly wider and taller container contributes one frame; placement mode and apex flag unchanged |
| FuselageProperties.FirstApexDoubled | components/fuselage/fuselage.py:91-99 | the first non-growing container-to-container step emits a frame at the current placement and one at End for the same box, sets the apex flag and switches to End |
| FuselageProperties.SecondApexRejected | components/fuselage/fuselage.py:100-103 | a non-growing container-to-container step after the apex fails with the one-apex error |
| FuselageProperties.LastContainerDoubled | components/fuselage/fuselage.py:104-108 | a later container followed by a non-container emits two frames for its box (current placement, then End), switches to End and leaves the apex flag untouched |
| FuselageProperties.NonContainerAddsNothing | components/fuselage/fuselage.py:63-70 | a nose or motor as current compartment adds no frame and changes no state, so a leading nose adds nothing |
| FuselageProperties.ShortInputsBuildNothing | components/fuselage/fuselage.py:57-62 | with at most one compartment the loop does not run and the result is an empty frame list |
| FuselageProperties.LastCompartmentGetsNoFrame | components/fuselage/fuselage.py:62 | the last compartment gets no cross-section of its own: a nose followed by a container builds nothing, and two containers build only the first one's Start frame |
| FuselageProperties.RunTail | components/fuselage/fuselage.py:110-113 | a run that starts without a motor frame ends with exactly one motor frame, the last, when the last compartment is a motor, and with none otherwise |
| FuselageProperties.MotorFrameLast | components/fuselage/fuselage.py:110-113 | with a trailing motor (and at least two compartments) the last frame is that motor's frame, with its diameter and position, and every other frame is a cross-section; otherwise all frames are cross-sections |
| FuselageProperties.EmittedFramesAcceptable | components/fuselage/primitives/fframe.py:37-38 | if every container box has positive width and height, every emitted cross-section passes the frame validator's positivity check |
| FrameReference.StepTracks | components/fuselage/fuselage.py:62-113 | from a state whose flags agree with the stateless description, a pass emits exactly that compartment's reference contribution and keeps the agreement |
| FrameReference.RunFollowsReference | components/fuselage/fuselage.py:62-113 | with at most one apex the run emits exactly the reference plan |
| FrameReference.RunHitsSecondApex | components/fuselage/fuselage.py:91-103 | if an apex with an earlier apex lies ahead, the run fails with the one-apex error |
| FrameReference.SingleApexIff | components/fuselage/fuselage.py:52-119 | for well-formed input the build succeeds if and only if at most one apex occurs; on success it emits the reference plan, and otherwise it fails with the one-apex error |
| FrameReference.StepSound | components/fuselage/fuselage.py:70-113 | a pass only sets the first-container and apex flags for containers and apexes actually seen, and each error it raises is explained by the input |
| FrameReference.RunSound | components/fuselage/fuselage.py:62-113 | every error of the loop is explained by the input |
| FrameReference.FailuresExplained | components/fuselage/fuselage.py:52-119 | every failure names its cause: differing lengths, a container without a shape, a trailing motor slot without a motor, or an apex preceded by another apex |
| FrameReference.TaperedTailRejected | components/fuselage/fuselage.py:84-103 | containers of widths 1, 3, 2, 1 followed by a motor are rejected with the one-apex error at the third container |

## Left out

- Fusing several parts into one bounding box (`bbox_extractor`) uses the geometry kernel. Each container's descriptor is given as its already-fused box.
- A container given as a one-element or empty list fails in the source: `bbox_extractor` asks the list itself for `internal_shape` (components/fuselage/fuselage.py:184-185), which raises `AttributeError`. Such a slot corresponds to `Absent` in the model, which fails with `NoShape` for that compartment.
- Reducing a box to its corners (`min`/`max` over `bbox.corners`) uses the kernel's point type. The two corners are given directly.
- Curve construction in `FFrame` and `MFrame` is left out, as are the lofted shell, the nose cone, `nose_cone_frame`, `frame_grabber`, `length` and the GUI display. All of these are kernel geometry. A frame is represented by its parameters only.
- BoundingBox.BboxToFrame: box coordinates and frame dimensions are exact reals, so the floating-point rounding of `abs(...)`, `width / 2.0` and `point0.x + length` is not modelled.
- Fuselage.ContainerStep: the width and height comparisons are exact on reals. In the source they compare rounded float differences, so two extents that are equal as reals can compare as strictly growing in floats, or the reverse. The model can then take the apex, or reject a second apex, where the source does not.
- The `print` statements are left out. So is the `still_to_build` list, which never affects the output.
- Compartment kinds are limited to nose, container and motor. In the source, any other string would behave like a nose.
- A container slot holding a motor descriptor is reported as `NoShape`. The motor's own shape is not part of this model.
- Python's `IndexError`, `TypeError` and `AttributeError` are modelled as the error values `LengthMismatch`, `MultipleApex`, `NoShape` and `NoMotor`. Exception messages are not modelled.
- Fuselage.FrameBuilder: the frame validator's rejection of non-positive width or height is not raised by the builder. `FuselageProperties.EmittedFramesAcceptable` states instead when every emitted frame passes it.
- components/liftingsurfaces/scissorplot.py is not part of this model. It holds floating-point stability formulas and a plot.
- setup.py is not part of this model. It is packaging metadata.
