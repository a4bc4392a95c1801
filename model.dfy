/** The request-queue state machine of the animation engine, as pure functions
    on an explicit state. Each public operation and each frame callback of the
    engine is one function from a state to the next state and, for the
    callbacks, the outcome of that frame:
      - Waiting:   the callback rescheduled itself without touching anything;
      - Running:   it wrote an intermediate pose and rescheduled itself;
      - Done:      it wrote the exact target, left its queue and resolved its promise;
      - Abandoned: it found its request gone and stopped, unresolved.
    A promise is modelled by its request id entering `resolved`; a callback
    waiting for the next frame by its id being in `scheduled`. */
module AnimationModel {
  import opened Geometry

  /** Requests are told apart by identity, never by their target pose. */
  type Id = nat

  /** The angle the continuous rotation turns the camera by per frame: 0.2 degrees, in radians. */
  const RotationStep: real := Radians(0.2)

  /** What a call captured when it was made. */
  datatype Request =
    | ViewRequest(start: Pose, end: Pose, duration: real, easing: Easing)
    | ZoomRequest(base: Pose, move: Vec3, deltaWidth: real, end: Pose, duration: real)
    | RotationRequest

  datatype Step = Waiting | Running | Done | Abandoned

  datatype State = State(
    live: Pose,                   // the viewer's model-view matrix and width
    viewQueue: seq<Id>,           // pending view animations, oldest first
    zoomQueue: seq<Id>,           // pending zoom animations, oldest first
    requests: map<Id, Request>,   // every request made so far
    startTime: map<Id, int>,      // the first frame at which a request was head
    resolved: set<Id>,            // requests whose promise has resolved
    scheduled: set<Id>,           // requests whose callback waits for the next frame
    rotationOn: bool,             // the continuous-rotation flag
    nextId: Id)                   // the id the next request gets

  predicate IsHead(q: seq<Id>, id: Id) {
    |q| > 0 && q[0] == id
  }

  /** Ids in a queue increase from head to tail: queue order is submission order. */
  predicate Increasing(q: seq<Id>) {
    forall i, j :: 0 <= i < j < |q| ==> q[i] < q[j]
  }

  /** A request that may sit in the view queue (`view`) or in the zoom queue. */
  predicate Animated(r: Request, view: bool) {
    (if view then r.ViewRequest? else r.ZoomRequest?) && r.duration > 0.0
  }

  /** A queue holds pending animated requests of its kind, in submission order,
      each with its callback scheduled; only the head can have started. */
  ghost predicate QueueInv(s: State, q: seq<Id>, view: bool) {
    Increasing(q) &&
    (forall i :: 0 <= i < |q| ==> q[i] in s.scheduled && q[i] in s.requests && Animated(s.requests[q[i]], view)) &&
    (forall i :: 0 < i < |q| ==> q[i] !in s.startTime)
  }

  ghost predicate Inv(s: State) {
    (forall k :: k in s.requests ==> k < s.nextId) &&
    s.scheduled <= s.requests.Keys &&
    s.resolved <= s.requests.Keys &&
    s.startTime.Keys <= s.requests.Keys &&
    s.scheduled !! s.resolved &&
    QueueInv(s, s.viewQueue, true) &&
    QueueInv(s, s.zoomQueue, false) &&
    // view callbacks only ever stop by completing
    (forall k :: k in s.scheduled && s.requests[k].ViewRequest? ==> k in s.viewQueue)
  }

  /** Existing start times survive a transition unchanged. */
  ghost predicate StartTimesKept(s: State, t: State) {
    forall k :: k in s.startTime ==> k in t.startTime && t.startTime[k] == s.startTime[k]
  }

  /** After a head frame of `id`: its start time is the one it had, or `now` if it had none. */
  ghost predicate StartTimeFixed(s: State, t: State, id: Id, now: int) {
    if id in s.startTime then t.startTime == s.startTime
    else t.startTime == s.startTime[id := now]
  }

  /** An engine that has done nothing yet, showing pose `live`. */
  function Initial(live: Pose): (s: State)
    ensures Inv(s)
    ensures s.live == live && s.viewQueue == [] && s.zoomQueue == [] && !s.rotationOn
    ensures s.resolved == {} && s.scheduled == {}
  {
    State(live, [], [], map[], map[], {}, {}, false, 0)
  }

  /** The start pose a new view animation continues from. */
  function ViewStart(s: State): Pose
    requires Inv(s)
  {
    if |s.viewQueue| > 0 then s.requests[s.viewQueue[|s.viewQueue| - 1]].end else s.live
  }

  /** The start pose a new zoom continues from. */
  function ZoomStart(s: State): Pose
    requires Inv(s)
  {
    if |s.zoomQueue| > 0 then s.requests[s.zoomQueue[|s.zoomQueue| - 1]].end else s.live
  }

  /** Records a new request under the next id. */
  function Register(s: State, req: Request): State {
    s.(requests := s.requests[s.nextId := req], nextId := s.nextId + 1)
  }

  lemma RegisterKeepsInv(s: State, req: Request)
    requires Inv(s)
    ensures Inv(Register(s, req))
    ensures Inv(Register(s, req).(resolved := s.resolved + {s.nextId}))
  {
    var t := Register(s, req);
    forall k | k in s.requests ensures t.requests[k] == s.requests[k] {
      assert k < s.nextId;
    }
    assert QueueInv(t, t.viewQueue, true);
    assert QueueInv(t, t.zoomQueue, false);
  }

  /** Registering an animated view request and queueing it at the tail keeps the invariant. */
  lemma EnqueueViewKeepsInv(s: State, req: Request)
    requires Inv(s) && Animated(req, true)
    ensures Inv(Register(s, req).(viewQueue := s.viewQueue + [s.nextId], scheduled := s.scheduled + {s.nextId}))
  {
    RegisterKeepsInv(s, req);
    var id := s.nextId;
    var t := Register(s, req).(viewQueue := s.viewQueue + [id], scheduled := s.scheduled + {id});
    forall i | 0 <= i < |s.viewQueue| ensures s.viewQueue[i] < id {
      assert s.viewQueue[i] in s.requests;
    }
    assert id !in s.startTime;
    assert QueueInv(t, t.viewQueue, true);
    assert QueueInv(t, t.zoomQueue, false);
  }

  /** Registering an animated zoom request and queueing it at the tail keeps the invariant. */
  lemma EnqueueZoomKeepsInv(s: State, req: Request)
    requires Inv(s) && Animated(req, false)
    ensures Inv(Register(s, req).(zoomQueue := s.zoomQueue + [s.nextId], scheduled := s.scheduled + {s.nextId}))
  {
    RegisterKeepsInv(s, req);
    var id := s.nextId;
    var t := Register(s, req).(zoomQueue := s.zoomQueue + [id], scheduled := s.scheduled + {id});
    forall i | 0 <= i < |s.zoomQueue| ensures s.zoomQueue[i] < id {
      assert s.zoomQueue[i] in s.requests;
    }
    assert id !in s.startTime;
    assert QueueInv(t, t.viewQueue, true);
    assert QueueInv(t, t.zoomQueue, false);
  }

  /** Starting the clock of a head request keeps the invariant: only a head may have started. */
  lemma HeadClockKeepsInv(s: State, id: Id, now: int)
    ensures Inv(s) && (IsHead(s.viewQueue, id) || IsHead(s.zoomQueue, id)) ==>
      Inv(s.(startTime := s.startTime[id := now]))
  {
    if Inv(s) && (IsHead(s.viewQueue, id) || IsHead(s.zoomQueue, id)) {
      var t := s.(startTime := s.startTime[id := now]);
      forall i | 0 < i < |s.viewQueue| ensures s.viewQueue[i] != id {
        if IsHead(s.viewQueue, id) { assert s.viewQueue[0] < s.viewQueue[i]; }
      }
      forall i | 0 < i < |s.zoomQueue| ensures s.zoomQueue[i] != id {
        if IsHead(s.zoomQueue, id) { assert s.zoomQueue[0] < s.zoomQueue[i]; }
      }
      assert QueueInv(t, t.viewQueue, true);
      assert QueueInv(t, t.zoomQueue, false);
    }
  }

  /** The first head frame of `id` records its start time; later ones keep
      it. Nothing else changes, and a head may start its clock without
      breaking the invariant. */
  function StartClock(s: State, id: Id, now: int): (t: State)
    ensures t.(startTime := s.startTime) == s
    ensures id in t.startTime && StartTimesKept(s, t) && StartTimeFixed(s, t, id, now)
    ensures Inv(s) && (IsHead(s.viewQueue, id) || IsHead(s.zoomQueue, id)) ==> Inv(t)
  {
    if id in s.startTime then s
    else
      HeadClockKeepsInv(s, id, now);
      s.(startTime := s.startTime[id := now])
  }

  /** Completing the head of the view queue keeps the invariant. */
  lemma FinishViewKeepsInv(s: State, id: Id, live: Pose)
    requires Inv(s) && IsHead(s.viewQueue, id)
    ensures Inv(s.(live := live, viewQueue := s.viewQueue[1..],
                   resolved := s.resolved + {id}, scheduled := s.scheduled - {id}))
  {
    var q := s.viewQueue;
    var t := s.(live := live, viewQueue := q[1..], resolved := s.resolved + {id}, scheduled := s.scheduled - {id});
    forall i | 0 < i < |q| ensures q[i] != id && q[i] in t.scheduled {
      assert q[0] < q[i];
    }
    forall k | k in t.scheduled && t.requests[k].ViewRequest? ensures k in t.viewQueue {
      var i :| 0 <= i < |q| && q[i] == k;
      assert i != 0;
      assert t.viewQueue[i - 1] == k;
    }
    assert QueueInv(t, t.viewQueue, true);
    assert QueueInv(t, t.zoomQueue, false);
  }

  /** Completing the head of the zoom queue keeps the invariant. */
  lemma FinishZoomKeepsInv(s: State, id: Id, live: Pose)
    requires Inv(s) && IsHead(s.zoomQueue, id)
    ensures Inv(s.(live := live, zoomQueue := s.zoomQueue[1..],
                   resolved := s.resolved + {id}, scheduled := s.scheduled - {id}))
  {
    var q := s.zoomQueue;
    var t := s.(live := live, zoomQueue := q[1..], resolved := s.resolved + {id}, scheduled := s.scheduled - {id});
    forall i | 0 < i < |q| ensures q[i] != id && q[i] in t.scheduled {
      assert q[0] < q[i];
    }
    assert QueueInv(t, t.viewQueue, true);
    assert QueueInv(t, t.zoomQueue, false);
  }

  /** The frame callback of view request `id` may run at time `now`. */
  ghost predicate ViewTickable(s: State, id: Id, now: int) {
    id in s.scheduled && id in s.requests && s.requests[id].ViewRequest? &&
    (id in s.startTime ==> s.startTime[id] <= now)
  }

  /** The frame callback of zoom request `id` may run at time `now`. */
  ghost predicate ZoomTickable(s: State, id: Id, now: int) {
    id in s.scheduled && id in s.requests && s.requests[id].ZoomRequest? &&
    (id in s.startTime ==> s.startTime[id] <= now)
  }

  /** The pose a running view frame writes at eased progress `state`:
      rotation, scaling and translation blended, the width interpolated. */
  function ViewFrame(lib: Library, req: Request, state: real): (p: Pose)
    requires req.ViewRequest?
    ensures 0.0 <= state <= 1.0 ==> Between(p.width, req.start.width, req.end.width)
  {
    var span := req.end.width - req.start.width;
    StepBetween(req.start.width, span, state);
    Pose(lib.blend(req.start.mv, req.end.mv, state), req.start.width + span * state)
  }

  /** The pose a running zoom frame writes at progress `state`: the start
      matrix translated by that fraction of the move, the width reduced by
      that fraction of the width change. */
  function ZoomFrame(lib: Library, req: Request, state: real): (p: Pose)
    requires req.ZoomRequest?
    ensures 0.0 <= state <= 1.0 ==> Between(p.width, req.base.width, req.base.width - req.deltaWidth)
  {
    StepBetween(req.base.width, req.deltaWidth, state);
    Pose(lib.translate(req.base.mv, Lerp(Origin, req.move, state)), req.base.width - req.deltaWidth * state)
  }

  /** A frame of view request `id` while it heads the view queue. */
  function ViewHeadTick(lib: Library, s: State, id: Id, now: int): (r: (State, Step))
    requires Inv(s) && ViewTickable(s, id, now) && IsHead(s.viewQueue, id)
    ensures Inv(r.0) && StartTimeFixed(s, r.0, id, now)
    ensures r.1 == Running || r.1 == Done
    ensures r.1 == Running ==>
      (now as real) < (r.0.startTime[id] as real) + s.requests[id].duration &&
      r.0.viewQueue == s.viewQueue && r.0.resolved == s.resolved && r.0.scheduled == s.scheduled
    ensures r.1 == Running && MathBounded(lib) ==>
      Between(r.0.live.width, s.requests[id].start.width, s.requests[id].end.width)
    ensures r.1 == Done ==>
      (now as real) >= (r.0.startTime[id] as real) + s.requests[id].duration &&
      r.0.live == s.requests[id].end && r.0.viewQueue == s.viewQueue[1..] &&
      r.0.resolved == s.resolved + {id} && r.0.scheduled == s.scheduled - {id}
    ensures r.0.zoomQueue == s.zoomQueue && r.0.requests == s.requests
    ensures r.0.rotationOn == s.rotationOn && r.0.nextId == s.nextId
  {
    var req := s.requests[id];
    var s1 := StartClock(s, id, now);
    var startTime := s1.startTime[id];
    if (now as real) < (startTime as real) + req.duration then
      var state := Ease(lib, req.easing, Progress(now, startTime, req.duration));
      (s1.(live := ViewFrame(lib, req, state)), Running)
    else
      FinishViewKeepsInv(s1, id, req.end);
      (s1.(live := req.end, viewQueue := s.viewQueue[1..],
           resolved := s.resolved + {id}, scheduled := s.scheduled - {id}), Done)
  }

  /** One frame of the view animation `id` at time `now`. */
  function ViewTick(lib: Library, s: State, id: Id, now: int): (r: (State, Step))
    requires Inv(s) && ViewTickable(s, id, now)
    ensures Inv(r.0) && StartTimesKept(s, r.0)
    ensures r.1 != Abandoned
    // only the head does anything; the others wait and change nothing
    ensures r.1 == Waiting <==> !IsHead(s.viewQueue, id)
    ensures r.1 == Waiting ==> r.0 == s
    ensures r.1 != Waiting ==> StartTimeFixed(s, r.0, id, now)
    ensures r.1 == Running ==>
      (now as real) < (r.0.startTime[id] as real) + s.requests[id].duration &&
      r.0.viewQueue == s.viewQueue && r.0.resolved == s.resolved && r.0.scheduled == s.scheduled
    ensures r.1 == Running && MathBounded(lib) ==>
      Between(r.0.live.width, s.requests[id].start.width, s.requests[id].end.width)
    // completion writes the exact target and removes only the head
    ensures r.1 == Done ==>
      (now as real) >= (r.0.startTime[id] as real) + s.requests[id].duration &&
      r.0.live == s.requests[id].end && r.0.viewQueue == s.viewQueue[1..] &&
      r.0.resolved == s.resolved + {id} && r.0.scheduled == s.scheduled - {id}
    ensures r.0.zoomQueue == s.zoomQueue && r.0.requests == s.requests
    ensures r.0.rotationOn == s.rotationOn && r.0.nextId == s.nextId
  {
    if !IsHead(s.viewQueue, id) then (s, Waiting)
    else ViewHeadTick(lib, s, id, now)
  }

  /** `viewTo(end, duration, easing)` called at time `now`: the request gets
      id `s.nextId`, and an animated one runs its first frame at once. */
  function ViewTo(lib: Library, s: State, end: Pose, duration: real, easing: Easing, now: int): (r: (State, Step))
    requires Inv(s)
    ensures Inv(r.0) && StartTimesKept(s, r.0)
    ensures r.0.nextId == s.nextId + 1
    // the effective start is the last queued target, or else the live pose
    ensures r.0.requests == s.requests[s.nextId := ViewRequest(
      if |s.viewQueue| > 0 then s.requests[s.viewQueue[|s.viewQueue| - 1]].end else s.live,
      end, duration, easing)]
    // no duration: jump to the target
    ensures duration <= 0.0 ==>
      r.1 == Done && r.0.live == end && r.0.viewQueue == s.viewQueue &&
      r.0.resolved == s.resolved + {s.nextId} && r.0.scheduled == s.scheduled
    // already there: resolve and touch nothing
    ensures duration > 0.0 && SamePose(r.0.requests[s.nextId].start, end) ==>
      r.1 == Done && r.0.live == s.live && r.0.viewQueue == s.viewQueue &&
      r.0.resolved == s.resolved + {s.nextId} && r.0.scheduled == s.scheduled
    // otherwise: appended at the tail; it starts now if nothing is ahead of it
    ensures duration > 0.0 && !SamePose(r.0.requests[s.nextId].start, end) ==>
      r.0.viewQueue == s.viewQueue + [s.nextId] &&
      r.0.resolved == s.resolved && r.0.scheduled == s.scheduled + {s.nextId} &&
      (|s.viewQueue| == 0 ==> r.1 == Running && r.0.startTime == s.startTime[s.nextId := now]) &&
      (|s.viewQueue| > 0 ==> r.1 == Waiting && r.0.live == s.live && r.0.startTime == s.startTime)
    ensures r.0.zoomQueue == s.zoomQueue && r.0.rotationOn == s.rotationOn
  {
    var id := s.nextId;
    var start := ViewStart(s);
    var req := ViewRequest(start, end, duration, easing);
    var s1 := Register(s, req);
    RegisterKeepsInv(s, req);
    if duration <= 0.0 then
      (s1.(live := end, resolved := s.resolved + {id}), Done)
    else if SamePose(start, end) then
      (s1.(resolved := s.resolved + {id}), Done)
    else
      EnqueueView(lib, s, req, now)
  }

  /** Queues the animated view request `req` under the next id and runs its first frame. */
  function EnqueueView(lib: Library, s: State, req: Request, now: int): (r: (State, Step))
    requires Inv(s) && Animated(req, true)
    ensures Inv(r.0) && StartTimesKept(s, r.0)
    ensures r.0.nextId == s.nextId + 1 && r.0.requests == s.requests[s.nextId := req]
    ensures r.0.viewQueue == s.viewQueue + [s.nextId]
    ensures r.0.resolved == s.resolved && r.0.scheduled == s.scheduled + {s.nextId}
    ensures |s.viewQueue| == 0 ==> r.1 == Running && r.0.startTime == s.startTime[s.nextId := now]
    ensures |s.viewQueue| > 0 ==> r.1 == Waiting && r.0.live == s.live && r.0.startTime == s.startTime
    ensures r.0.zoomQueue == s.zoomQueue && r.0.rotationOn == s.rotationOn
  {
    var id := s.nextId;
    EnqueueViewKeepsInv(s, req);
    ViewTick(lib, Register(s, req).(viewQueue := s.viewQueue + [id], scheduled := s.scheduled + {id}), id, now)
  }

  /** The singularity guard: the width change is dropped when it would bring the
      width below one meter. */
  function GuardedDelta(currentWidth: real, deltaWidth: real, oneMeter: real): (d: real)
    ensures currentWidth - deltaWidth < oneMeter ==> d == 0.0
    ensures currentWidth - deltaWidth >= oneMeter ==> d == deltaWidth
    ensures d == 0.0 || currentWidth - d >= oneMeter
  {
    if currentWidth - deltaWidth < oneMeter then 0.0 else deltaWidth
  }

  /** A frame of zoom request `id` while it heads the zoom queue. */
  function ZoomHeadTick(lib: Library, s: State, id: Id, now: int): (r: (State, Step))
    requires Inv(s) && ZoomTickable(s, id, now) && IsHead(s.zoomQueue, id)
    ensures Inv(r.0) && StartTimeFixed(s, r.0, id, now)
    ensures r.1 == Running || r.1 == Done
    ensures r.1 == Running ==>
      (now as real) < (r.0.startTime[id] as real) + s.requests[id].duration &&
      r.0.zoomQueue == s.zoomQueue && r.0.resolved == s.resolved && r.0.scheduled == s.scheduled &&
      Between(r.0.live.width, s.requests[id].base.width, s.requests[id].base.width - s.requests[id].deltaWidth)
    ensures r.1 == Done ==>
      (now as real) >= (r.0.startTime[id] as real) + s.requests[id].duration &&
      r.0.live == s.requests[id].end && r.0.zoomQueue == s.zoomQueue[1..] &&
      r.0.resolved == s.resolved + {id} && r.0.scheduled == s.scheduled - {id}
    ensures r.0.viewQueue == s.viewQueue && r.0.requests == s.requests
    ensures r.0.rotationOn == s.rotationOn && r.0.nextId == s.nextId
  {
    var req := s.requests[id];
    var s1 := StartClock(s, id, now);
    var startTime := s1.startTime[id];
    if (now as real) < (startTime as real) + req.duration then
      (s1.(live := ZoomFrame(lib, req, Progress(now, startTime, req.duration))), Running)
    else
      FinishZoomKeepsInv(s1, id, req.end);
      (s1.(live := req.end, zoomQueue := s.zoomQueue[1..],
           resolved := s.resolved + {id}, scheduled := s.scheduled - {id}), Done)
  }

  /** One frame of the zoom animation `id` at time `now`. */
  function ZoomTick(lib: Library, s: State, id: Id, now: int): (r: (State, Step))
    requires Inv(s) && ZoomTickable(s, id, now)
    ensures Inv(r.0) && StartTimesKept(s, r.0)
    // a request no longer queued stops: no reschedule, no resolve
    ensures r.1 == Abandoned <==> id !in s.zoomQueue
    ensures r.1 == Abandoned ==> r.0 == s.(scheduled := s.scheduled - {id})
    // a queued request that is not the head waits and changes nothing
    ensures r.1 == Waiting <==> id in s.zoomQueue && !IsHead(s.zoomQueue, id)
    ensures r.1 == Waiting ==> r.0 == s
    ensures r.1 == Running || r.1 == Done ==> StartTimeFixed(s, r.0, id, now)
    ensures r.1 == Running ==>
      (now as real) < (r.0.startTime[id] as real) + s.requests[id].duration &&
      r.0.zoomQueue == s.zoomQueue && r.0.resolved == s.resolved && r.0.scheduled == s.scheduled &&
      Between(r.0.live.width, s.requests[id].base.width, s.requests[id].base.width - s.requests[id].deltaWidth)
    // completion writes the exact target and removes only the head
    ensures r.1 == Done ==>
      (now as real) >= (r.0.startTime[id] as real) + s.requests[id].duration &&
      r.0.live == s.requests[id].end && r.0.zoomQueue == s.zoomQueue[1..] &&
      r.0.resolved == s.resolved + {id} && r.0.scheduled == s.scheduled - {id}
    ensures r.0.viewQueue == s.viewQueue && r.0.requests == s.requests
    ensures r.0.rotationOn == s.rotationOn && r.0.nextId == s.nextId
  {
    if !IsHead(s.zoomQueue, id) then
      if id !in s.zoomQueue then (s.(scheduled := s.scheduled - {id}), Abandoned)
      else (s, Waiting)
    else ZoomHeadTick(lib, s, id, now)
  }

  /** The request `addZoom` builds from its effective start pose `base`: the
      move along the view direction, the guarded width change and the target. */
  function ZoomRequestFor(lib: Library, base: Pose, distance: real, duration: real, fov: real, oneMeter: real): (req: Request)
    ensures req.ZoomRequest? && req.base == base && req.duration == duration
    ensures req.move == Scale(lib.viewDirection(base.mv), distance)
    ensures req.end == Pose(lib.translate(base.mv, req.move), base.width - req.deltaWidth)
    // the width narrows by 2 * distance * tan(fov / 2) exactly when that keeps it at one meter or more
    ensures base.width - 2.0 * distance * lib.tan(Radians(fov) / 2.0) >= oneMeter ==>
      req.deltaWidth == 2.0 * distance * lib.tan(Radians(fov) / 2.0)
    ensures base.width - 2.0 * distance * lib.tan(Radians(fov) / 2.0) < oneMeter ==> req.deltaWidth == 0.0
    // the guard: either the width is kept or it stays at least one meter
    ensures req.end.width == base.width || req.end.width >= oneMeter
  {
    var move := Scale(lib.viewDirection(base.mv), distance);
    var deltaWidth := GuardedDelta(base.width, 2.0 * distance * lib.tan(Radians(fov) / 2.0), oneMeter);
    ZoomRequest(base, move, deltaWidth, Pose(lib.translate(base.mv, move), base.width - deltaWidth), duration)
  }

  /** `addZoom(distance, duration)` called at time `now`, with the viewer's field
      of view `fov` (degrees) and scale `oneMeter` (scene units per meter). */
  function AddZoom(lib: Library, s: State, distance: real, duration: real, fov: real, oneMeter: real, now: int): (r: (State, Step))
    requires Inv(s)
    ensures Inv(r.0) && StartTimesKept(s, r.0)
    ensures r.0.nextId == s.nextId + 1
    // the effective start is the last queued target, or else the live pose
    ensures r.0.requests == s.requests[s.nextId := ZoomRequestFor(lib,
      if |s.zoomQueue| > 0 then s.requests[s.zoomQueue[|s.zoomQueue| - 1]].end else s.live,
      distance, duration, fov, oneMeter)]
    // no duration: drop every pending zoom and jump to the target
    ensures duration <= 0.0 ==>
      r.1 == Done && r.0.zoomQueue == [] && r.0.live == r.0.requests[s.nextId].end &&
      r.0.resolved == s.resolved + {s.nextId} && r.0.scheduled == s.scheduled
    // otherwise: appended at the tail; it starts now if nothing is ahead of it
    ensures duration > 0.0 ==>
      r.0.zoomQueue == s.zoomQueue + [s.nextId] &&
      r.0.resolved == s.resolved && r.0.scheduled == s.scheduled + {s.nextId} &&
      (|s.zoomQueue| == 0 ==> r.1 == Running && r.0.startTime == s.startTime[s.nextId := now]) &&
      (|s.zoomQueue| > 0 ==> r.1 == Waiting && r.0.live == s.live && r.0.startTime == s.startTime)
    ensures r.0.viewQueue == s.viewQueue && r.0.rotationOn == s.rotationOn
  {
    var id := s.nextId;
    var req := ZoomRequestFor(lib, ZoomStart(s), distance, duration, fov, oneMeter);
    var s1 := Register(s, req);
    RegisterKeepsInv(s, req);
    if duration <= 0.0 then
      (s1.(zoomQueue := [], live := req.end, resolved := s.resolved + {id}), Done)
    else
      EnqueueZoom(lib, s, req, now)
  }

  /** Queues the animated zoom request `req` under the next id and runs its first frame. */
  function EnqueueZoom(lib: Library, s: State, req: Request, now: int): (r: (State, Step))
    requires Inv(s) && Animated(req, false)
    ensures Inv(r.0) && StartTimesKept(s, r.0)
    ensures r.0.nextId == s.nextId + 1 && r.0.requests == s.requests[s.nextId := req]
    ensures r.0.zoomQueue == s.zoomQueue + [s.nextId]
    ensures r.0.resolved == s.resolved && r.0.scheduled == s.scheduled + {s.nextId}
    ensures |s.zoomQueue| == 0 ==> r.1 == Running && r.0.startTime == s.startTime[s.nextId := now]
    ensures |s.zoomQueue| > 0 ==> r.1 == Waiting && r.0.live == s.live && r.0.startTime == s.startTime
    ensures r.0.viewQueue == s.viewQueue && r.0.rotationOn == s.rotationOn
  {
    var id := s.nextId;
    EnqueueZoomKeepsInv(s, req);
    ZoomTick(lib, Register(s, req).(zoomQueue := s.zoomQueue + [id], scheduled := s.scheduled + {id}), id, now)
  }

  /** One frame of the rotation loop `id`. */
  function RotateTick(lib: Library, s: State, id: Id): (r: (State, Step))
    requires Inv(s) && id in s.scheduled && s.requests[id].RotationRequest?
    ensures Inv(r.0) && StartTimesKept(s, r.0)
    // a cleared flag ends the loop: resolve, no reschedule, nothing else
    ensures !s.rotationOn ==> r.1 == Done && r.0 == s.(resolved := s.resolved + {id}, scheduled := s.scheduled - {id})
    // a set flag turns the camera by one step and reschedules
    ensures s.rotationOn ==> r.1 == Running && r.0 == s.(live := Pose(lib.rotateZ(s.live.mv, RotationStep), s.live.width))
  {
    if !s.rotationOn then (s.(resolved := s.resolved + {id}, scheduled := s.scheduled - {id}), Done)
    else (s.(live := s.live.(mv := lib.rotateZ(s.live.mv, RotationStep))), Running)
  }

  /** `startRotation()`: the request gets id `s.nextId`. */
  function StartRotation(lib: Library, s: State): (r: (State, Step))
    requires Inv(s)
    ensures Inv(r.0) && StartTimesKept(s, r.0)
    ensures r.0.nextId == s.nextId + 1 && r.0.requests == s.requests[s.nextId := RotationRequest]
    // already rotating: resolve at once, start no second loop
    ensures s.rotationOn ==>
      r.1 == Done && r.0.rotationOn && r.0.live == s.live &&
      r.0.resolved == s.resolved + {s.nextId} && r.0.scheduled == s.scheduled
    // otherwise: set the flag and run the first frame of a new loop
    ensures !s.rotationOn ==>
      r.1 == Running && r.0.rotationOn &&
      r.0.live == Pose(lib.rotateZ(s.live.mv, RotationStep), s.live.width) &&
      r.0.resolved == s.resolved && r.0.scheduled == s.scheduled + {s.nextId}
    ensures r.0.viewQueue == s.viewQueue && r.0.zoomQueue == s.zoomQueue && r.0.startTime == s.startTime
  {
    var id := s.nextId;
    var s1 := Register(s, RotationRequest);
    RegisterKeepsInv(s, RotationRequest);
    if s.rotationOn then (s1.(resolved := s.resolved + {id}), Done)
    else RotateTick(lib, s1.(rotationOn := true, scheduled := s.scheduled + {id}), id)
  }

  /** `stopRotation()`: clears the flag and nothing else. */
  function StopRotation(s: State): (t: State)
    requires Inv(s)
    ensures Inv(t)
    ensures !t.rotationOn
    ensures t.(rotationOn := s.rotationOn) == s
  {
    s.(rotationOn := false)
  }
}
