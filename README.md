# Camera animation engine

This project models the camera-animation engine of a 3D viewer,
`src/navigation/animations.ts`, and proves properties of the model. The
engine moves the viewer's camera pose, a model-view matrix plus a projection
width. It has three kinds of request:

- `viewTo` animates to a target pose over a duration, with one of four easing
  curves.
- `addZoom` moves the camera a distance along its view direction and narrows
  the width to match. A guard keeps the width from dropping below one meter.
- `startRotation` / `stopRotation` start and stop a continuous turn about the
  vertical axis, 0.2 degrees per frame.

View and zoom requests wait in two FIFO queues, `viewQueue` and `zoomQueue`.
Each request's frame callback does nothing until its request heads its queue.
Then it interpolates by elapsed time. At the end it writes the exact target,
leaves the queue and resolves its promise. A new request starts from the last
queued target of its kind, or from the live pose when its queue is empty. A
zoom with zero duration empties the zoom queue. The frame callbacks of the
dropped zooms then stop without resolving.

The model has four modules:

- `Geometry` (`geometry.dfy`) holds poses, the easing curves `getSinEasing` and
  `getCircleEasing`, and the elapsed-time fraction. It also holds `Library`, a
  record of the matrix-library and `Math` operations the engine calls.
- `AnimationModel` (`model.dfy`) is the engine as a pure state machine.
  - The `State` record holds the live pose, both queues, the captured requests,
    start times, the rotation flag, and the ids of resolved promises and of
    callbacks still scheduled.
  - Each public call and each frame callback is a function from a state to the
    next state and the outcome of the frame: `Waiting`, `Running`, `Done` or
    `Abandoned`.
  - Every function keeps the invariant `Inv`. The main clauses: queues are in
    submission order, hold only scheduled animated requests, and only a head
    has started its clock.
- `AnimationProperties` (`properties.dfy`) runs any sequence of calls and frame
  callbacks, in any order the frame clock might pick. Its lemmas:
  - across whole runs: requests complete in submission order within a queue,
    start times are set once, resolved promises stay resolved, and zooms
    dropped by a zero-duration zoom never resolve;
  - about a single request and frame: animations end exactly on their
    targets, the one-meter guard holds, and the rotation flag is cooperative.
- `Navigation` (`animations.dfy`) holds the class `Animations`, whose fields
  are the engine's queues and flags, and the class `Viewer`, whose camera it
  writes. There is one method per public operation and per frame callback of
  the source. A few helpers split one of them: `Register` records a new
  request, `EnqueueView` and `EnqueueZoom` queue one, and `ViewHeadStep` and
  `ZoomHeadStep` are a callback's frame once its request heads the queue.
  Each method is proved to leave the object in exactly the state the matching
  `AnimationModel` function computes.

Two behaviours of the code may surprise a caller. The model follows the code
and proves both.

- **Rotation restarted within one frame.** A rotation loop stops only when its
  next frame finds the flag cleared (lines 40-44). So start, stop and start
  again before that frame leaves two loops scheduled. The old loop finds the
  flag set again, goes on turning the camera and does not resolve.
  `RestartWithinOneFrameKeepsOldLoop` shows this.
- **Dropped zooms.** A zero-duration zoom empties the zoom queue (line 196).
  The next frame of each dropped zoom finds it gone and returns without
  resolving (lines 208-212). A caller awaiting such a zoom waits forever.
  `ZeroZoomAbandonsPending` shows this for any calls and frames that follow.

## Model

| member | source | states |
|---|---|---|
| Geometry.Lerp | src/navigation/animations.ts:225 | the interpolated translation is the start at fraction 0 and the end at fraction 1 |
| Geometry.SinEasing | src/navigation/animations.ts:268-272 | the sine easing stays in [0, 1] whenever `Math.sin` stays in [-1, 1] |
| Geometry.CircleEasing | src/navigation/animations.ts:254-266 | the circle easing maps the first half of [0, 1] into [0, 1/2] and the second half into [1/2, 1] |
| Geometry.Ease | src/navigation/animations.ts:110-126 | linear easing is the identity; every easing maps [0, 1] into [0, 1] |
| Geometry.EasingEndpoints | src/navigation/animations.ts:254-272 | every easing curve starts at 0 and ends at 1 |
| Geometry.Progress | src/navigation/animations.ts:107-108 | while an animation runs, its progress `(now - startTime) / duration` lies in [0, 1) and is 0 on its first frame |
| AnimationModel.Initial | src/navigation/animations.ts:33-56 | a fresh engine has both queues empty, rotation off, and meets the invariant |
| AnimationModel.StartClock | src/navigation/animations.ts:105 | a head frame leaves its request with a start time, `now` if it had none; every other start time and every other field are unchanged; starting a head's clock keeps the invariant |
| AnimationModel.HeadClockKeepsInv | src/navigation/animations.ts:105 | setting the start time of a queue head keeps the invariant that only heads have started |
| AnimationModel.ViewFrame | src/navigation/animations.ts:128-135 | an intermediate view frame's width lies between the start and target widths |
| AnimationModel.ZoomFrame | src/navigation/animations.ts:224-230 | an intermediate zoom frame's width lies between the base width and the target width |
| AnimationModel.ViewHeadTick | src/navigation/animations.ts:105-144 | as head: runs while time is short of the duration (queue and promises untouched); afterwards writes the exact target, pops only its own entry and resolves |
| AnimationModel.ViewTick | src/navigation/animations.ts:99-145 | waits, changing nothing, exactly when not head; otherwise runs or completes as above; never abandons; keeps the invariant and every start time |
| AnimationModel.ViewTo | src/navigation/animations.ts:63-149 | zero duration jumps to the target and resolves; a target equal to the effective start resolves without mutation; otherwise appends at the tail, running now if the queue was empty and waiting otherwise |
| AnimationModel.EnqueueView | src/navigation/animations.ts:98-148 | the new request goes to the tail of the view queue with its callback scheduled; it starts at once only on an empty queue |
| AnimationModel.GuardedDelta | src/navigation/animations.ts:183-185 | the width change is dropped exactly when it would take the width below one meter |
| AnimationModel.ZoomRequestFor | src/navigation/animations.ts:173-191 | the move is the view direction scaled by the distance; the target is the base translated by it; the width narrows by 2·distance·tan(fov/2) exactly when that leaves at least one meter, and is kept otherwise |
| AnimationModel.ZoomHeadTick | src/navigation/animations.ts:218-239 | as head: runs while time is short of the duration, with the width between base and target; afterwards writes the exact target, pops its own entry and resolves |
| AnimationModel.ZoomTick | src/navigation/animations.ts:207-240 | abandons, unresolved and unscheduled, exactly when no longer queued; waits, changing nothing, exactly when queued behind another; otherwise runs or completes |
| AnimationModel.AddZoom | src/navigation/animations.ts:161-244 | zero duration empties the zoom queue, jumps to the target and resolves; otherwise appends at the tail, running now only on an empty queue |
| AnimationModel.EnqueueZoom | src/navigation/animations.ts:206-243 | the new zoom goes to the tail of the zoom queue with its callback scheduled; it starts at once only on an empty queue |
| AnimationModel.RotateTick | src/navigation/animations.ts:40-47 | with the flag off the loop resolves and stops; with it on it turns the camera by exactly one step and changes nothing else |
| AnimationModel.StartRotation | src/navigation/animations.ts:34-50 | when already on it resolves at once and changes nothing else; otherwise it sets the flag and turns the camera by one step in its first frame |
| AnimationModel.StopRotation | src/navigation/animations.ts:52-54 | clears the flag and changes nothing else |
| AnimationProperties.ApplyStepwise | src/navigation/animations.ts:34-244 | any call or frame keeps recorded requests and start times, only resolves new, head or rotation requests, and changes a queue only by appending, popping a resolved head or (zoom) clearing |
| AnimationProperties.RunEvolves | src/navigation/animations.ts:34-244 | across any sequence of calls and frames: recorded requests and start times are kept, resolved promises stay resolved, and a promise newly resolved or a callback newly scheduled belongs to a request that was scheduled or is new |
| AnimationProperties.StartTimeSetOnce | src/navigation/animations.ts:105 | a recorded start time never changes afterwards |
| AnimationProperties.ResolvedStaysResolved | src/navigation/animations.ts:142 | a resolved promise stays resolved |
| AnimationProperties.StoppedNeverResolves | src/navigation/animations.ts:210-212 | a callback that stopped without resolving is never rescheduled and never resolves |
| AnimationProperties.RunKeepsDropped | src/navigation/animations.ts:195-212 | a zoom request that left its queue unresolved stays out of the queue and unresolved after any sequence of calls and frames |
| AnimationProperties.ZeroZoomAbandonsPending | src/navigation/animations.ts:195-212 | after a zero-duration zoom, a formerly queued zoom's next frame abandons it, and after any calls and frames that follow the zoom it is neither queued nor resolved |
| AnimationProperties.CompletesInSubmissionOrder | src/navigation/animations.ts:98-104 | within one queue a later request never resolves while an earlier one has not |
| AnimationProperties.ChainedViewContinuesFromTarget | src/navigation/animations.ts:73-81 | a second view call made while the first is queued starts from the first call's target |
| AnimationProperties.ViewEndsOnTarget | src/navigation/animations.ts:138-143 | a view animation on an idle queue is done at the first frame past its duration, with the camera exactly on the target and the queue empty |
| AnimationProperties.ZoomEndsOnTarget | src/navigation/animations.ts:233-238 | a zoom on an idle queue is done at the first frame past its duration, exactly on its target |
| AnimationProperties.ZoomKeepsOneMeter | src/navigation/animations.ts:183-191 | from a width of at least one meter, no zoom frame and no zoom target has a width below one meter |
| AnimationProperties.StartThenStopEndsInOneFrame | src/navigation/animations.ts:38-54 | start then stop: the loop's next frame resolves, and the camera has turned by exactly one step |
| AnimationProperties.RestartWithinOneFrameKeepsOldLoop | src/navigation/animations.ts:33-54 | start, stop, start before a frame leaves both loops scheduled, and the old loop keeps turning instead of resolving |
| Navigation.Animations.constructor | src/navigation/animations.ts:20-33 | a new engine over a viewer is the initial state at the viewer's pose |
| Navigation.Animations.StartRotation | src/navigation/animations.ts:34-50 | leaves the engine and camera as `AnimationModel.StartRotation` computes |
| Navigation.Animations.Rotate | src/navigation/animations.ts:40-47 | one rotation frame, as `AnimationModel.RotateTick` computes |
| Navigation.Animations.StopRotation | src/navigation/animations.ts:52-54 | clears only the flag, as `AnimationModel.StopRotation` computes |
| Navigation.Animations.ViewTo | src/navigation/animations.ts:63-149 | leaves the engine and camera as `AnimationModel.ViewTo` computes |
| Navigation.Animations.EnqueueView | src/navigation/animations.ts:98-148 | queues and starts a view request, as `AnimationModel.EnqueueView` computes |
| Navigation.Animations.ViewStep | src/navigation/animations.ts:99-145 | one view frame, as `AnimationModel.ViewTick` computes |
| Navigation.Animations.ViewHeadStep | src/navigation/animations.ts:105-144 | one view frame as head, as `AnimationModel.ViewHeadTick` computes |
| Navigation.Animations.AddZoom | src/navigation/animations.ts:161-244 | leaves the engine and camera as `AnimationModel.AddZoom` computes, reading the viewer's field of view and meter scale |
| Navigation.Animations.EnqueueZoom | src/navigation/animations.ts:206-243 | queues and starts a zoom request, as `AnimationModel.EnqueueZoom` computes |
| Navigation.Animations.ZoomStep | src/navigation/animations.ts:207-240 | one zoom frame, as `AnimationModel.ZoomTick` computes |
| Navigation.Animations.ZoomHeadStep | src/navigation/animations.ts:218-239 | one zoom frame as head, as `AnimationModel.ZoomHeadTick` computes |
| Navigation.Contains | src/navigation/animations.ts:210 | the membership scan is true exactly when the id is in the queue |

## Left out

- The matrix library is not modelled. Its operations are the fields of
  `Geometry.Library`:
  - `blend` is the decompose, slerp, lerp and recompose of lines 89-96 and
    128-133;
  - `translate` is `mat4.translate`;
  - `viewDirection` is the invert, rotate and negate of lines 174-177;
  - `rotateZ` is `mat4.rotateZ`.
  Nothing is assumed about them.
- `Math.sin`, `Math.sqrt` and `Math.tan` are `Library` fields. The easing
  bounds assume only `MathBounded`: a sine lies in [-1, 1], and the square root
  of a number in [0, 1] lies in [0, 1]. The endpoint lemma also assumes the
  exact values of the sine at plus and minus half pi and of the square root
  of 1.
- Floating point is modelled as real arithmetic. `Math.PI` is the decimal
  literal 3.141592653589793. Rounding, NaN and infinities are not modelled.
- `mat4.equals` compares matrices up to a small relative epsilon. The model
  compares transforms exactly, so a no-op `viewTo` whose matrices differ only
  by rounding is not recognised as a no-op.
- `Date.now()` is the parameter `now` of each call and frame. The two reads in
  one frame (lines 105-106 and 219-221) are taken as one instant. The clock is
  not assumed monotonic. A frame only needs its request's start time to be no
  later than `now`.
- `requestAnimationFrame` and the fallback chosen in the constructor (lines
  21-30) are not modelled. A scheduled callback is an id in `scheduled`. Which
  callback runs next, and when, is chosen by the event sequence in
  `AnimationProperties.Run`.
- A `Promise` is modelled as its request id entering `resolved`. The awaiting
  code is not modelled.
- In the source, `viewQueue` and `zoomQueue` are static and shared by every
  engine in a process. The model gives each engine its own queues, which is
  the same when there is only one engine.
- The source identifies a queued request by the identity of its `end` object.
  The model gives each request a fresh id instead. The model therefore does not
  capture a caller passing the same `end` object to two `viewTo` calls, which
  makes both entries look like the head at once.
- `end.mv` is aliased, not copied, into the viewer. Value semantics makes this
  invisible in the model.
- The `default` branch of the easing switch (lines 124-125) cannot be reached
  with the closed `Easing` datatype.
- The unused `fs` import and the `Viewer` class are not part of this model
  beyond the fields the engine reads and writes: `mvMatrix`,
  `cameraProperties.width`, `cameraProperties.fov` and `unitsInMeter`.
