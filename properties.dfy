/** Properties of whole runs of the engine: any interleaving of calls and
    frame callbacks, the callbacks running in any order the frame clock picks. */
module AnimationProperties {
  import opened Geometry
  import opened AnimationModel

  /** Something that happens to the engine: a public call, or one frame
      callback running. */
  datatype Event =
    | CallViewTo(end: Pose, duration: real, easing: Easing, now: int)
    | CallAddZoom(distance: real, duration: real, fov: real, oneMeter: real, now: int)
    | CallStartRotation
    | CallStopRotation
    | ViewFrameDue(id: Id, now: int)
    | ZoomFrameDue(id: Id, now: int)
    | RotationFrameDue(id: Id)

  /** The queue of one kind: the view queue when `view`, else the zoom queue. */
  function Queue(s: State, view: bool): seq<Id> {
    if view then s.viewQueue else s.zoomQueue
  }

  /** What may become of earlier state in one step. Requests and start times,
      once recorded, never change; a resolved promise stays resolved; only a
      scheduled callback or a new call resolves a promise, and only a new call
      schedules a callback that was not scheduled. */
  ghost predicate Evolves(s: State, t: State) {
    s.nextId <= t.nextId &&
    (forall k :: k in s.requests ==> k in t.requests && t.requests[k] == s.requests[k]) &&
    StartTimesKept(s, t) &&
    s.resolved <= t.resolved &&
    (forall k :: k in t.resolved && k !in s.resolved ==> k in s.scheduled || s.nextId <= k) &&
    (forall k :: k in t.scheduled ==> k in s.scheduled || s.nextId <= k)
  }

  /** Newly resolved promises belong to a new call, to the head of a queue,
      or to a rotation loop. */
  ghost predicate ResolvesOnly(s: State, t: State) {
    forall k :: k in t.resolved && k !in s.resolved ==>
      s.nextId <= k || IsHead(s.viewQueue, k) || IsHead(s.zoomQueue, k) ||
      (k in s.requests && s.requests[k].RotationRequest?)
  }

  /** How a queue changes in one step: not at all, by a new request at the
      tail, by its head leaving with its promise resolved, or (zoom only) by
      being emptied. */
  predicate QueueStep(s: State, t: State, view: bool) {
    var q, q' := Queue(s, view), Queue(t, view);
    q' == q || q' == q + [s.nextId] ||
    (|q| > 0 && q' == q[1..] && q[0] in t.resolved) ||
    (!view && q' == [])
  }

  /** The callback of `id` may run now: it is scheduled, of the right kind,
      and the clock has not gone back past its start time. */
  ghost predicate FrameEnabled(s: State, e: Event) {
    match e
    case ViewFrameDue(id, now) => ViewTickable(s, id, now)
    case ZoomFrameDue(id, now) => ZoomTickable(s, id, now)
    case RotationFrameDue(id) => id in s.scheduled && id in s.requests && s.requests[id].RotationRequest?
    case _ => true
  }

  /** What one step may do to earlier state, all of it. */
  ghost predicate Stepwise(s: State, t: State) {
    Evolves(s, t) && ResolvesOnly(s, t) && QueueStep(s, t, true) && QueueStep(s, t, false)
  }

  /** One event; a callback that is not due leaves the state as it is. */
  ghost function Apply(lib: Library, s: State, e: Event): (t: State)
    requires Inv(s)
    ensures Inv(t)
  {
    if !FrameEnabled(s, e) then s
    else
      match e
      case CallViewTo(end, duration, easing, now) => ViewTo(lib, s, end, duration, easing, now).0
      case CallAddZoom(distance, duration, fov, oneMeter, now) => AddZoom(lib, s, distance, duration, fov, oneMeter, now).0
      case CallStartRotation => StartRotation(lib, s).0
      case CallStopRotation => StopRotation(s)
      case ViewFrameDue(id, now) => ViewTick(lib, s, id, now).0
      case ZoomFrameDue(id, now) => ZoomTick(lib, s, id, now).0
      case RotationFrameDue(id) => RotateTick(lib, s, id).0
  }

  lemma ViewToStepwise(lib: Library, s: State, end: Pose, duration: real, easing: Easing, now: int)
    requires Inv(s)
    ensures Stepwise(s, ViewTo(lib, s, end, duration, easing, now).0)
  {
  }

  lemma AddZoomStepwise(lib: Library, s: State, distance: real, duration: real, fov: real, oneMeter: real, now: int)
    requires Inv(s)
    ensures Stepwise(s, AddZoom(lib, s, distance, duration, fov, oneMeter, now).0)
  {
  }

  lemma StartRotationStepwise(lib: Library, s: State)
    requires Inv(s)
    ensures Stepwise(s, StartRotation(lib, s).0)
  {
  }

  lemma StopRotationStepwise(s: State)
    requires Inv(s)
    ensures Stepwise(s, StopRotation(s))
  {
  }

  lemma RotateTickStepwise(lib: Library, s: State, id: Id)
    requires Inv(s) && id in s.scheduled && s.requests[id].RotationRequest?
    ensures Stepwise(s, RotateTick(lib, s, id).0)
  {
  }

  lemma ViewTickStepwise(lib: Library, s: State, id: Id, now: int)
    requires Inv(s) && ViewTickable(s, id, now)
    ensures Stepwise(s, ViewTick(lib, s, id, now).0)
  {
    var r := ViewTick(lib, s, id, now);
    if r.1 == Done {
      assert IsHead(s.viewQueue, id);
    }
  }

  lemma ZoomTickStepwise(lib: Library, s: State, id: Id, now: int)
    requires Inv(s) && ZoomTickable(s, id, now)
    ensures Stepwise(s, ZoomTick(lib, s, id, now).0)
  {
    var r := ZoomTick(lib, s, id, now);
    if r.1 == Done {
      assert IsHead(s.zoomQueue, id);
    }
  }

  /** Every event keeps to what one step may do. */
  lemma ApplyStepwise(lib: Library, s: State, e: Event)
    requires Inv(s)
    ensures Stepwise(s, Apply(lib, s, e))
  {
    if FrameEnabled(s, e) {
      match e
      case CallViewTo(end, duration, easing, now) => ViewToStepwise(lib, s, end, duration, easing, now);
      case CallAddZoom(distance, duration, fov, oneMeter, now) => AddZoomStepwise(lib, s, distance, duration, fov, oneMeter, now);
      case CallStartRotation => StartRotationStepwise(lib, s);
      case CallStopRotation => StopRotationStepwise(s);
      case ViewFrameDue(id, now) => ViewTickStepwise(lib, s, id, now);
      case ZoomFrameDue(id, now) => ZoomTickStepwise(lib, s, id, now);
      case RotationFrameDue(id) => RotateTickStepwise(lib, s, id);
    }
  }

  /** The state after the events `evs`, in order. */
  ghost function Run(lib: Library, s: State, evs: seq<Event>): (t: State)
    requires Inv(s)
    ensures Inv(t)
    decreases |evs|
  {
    if evs == [] then s else Run(lib, Apply(lib, s, evs[0]), evs[1..])
  }

  lemma EvolvesTransitive(s: State, t: State, u: State)
    requires Evolves(s, t) && Evolves(t, u)
    ensures Evolves(s, u)
  {
  }

  lemma {:induction false} RunEvolves(lib: Library, s: State, evs: seq<Event>)
    requires Inv(s)
    ensures Evolves(s, Run(lib, s, evs))
    decreases |evs|
  {
    if evs != [] {
      var t := Apply(lib, s, evs[0]);
      ApplyStepwise(lib, s, evs[0]);
      RunEvolves(lib, t, evs[1..]);
      EvolvesTransitive(s, t, Run(lib, t, evs[1..]));
    }
  }

  /** A start time is set once and never changes afterwards. */
  lemma StartTimeSetOnce(lib: Library, s: State, evs: seq<Event>, id: Id)
    requires Inv(s) && id in s.startTime
    ensures id in Run(lib, s, evs).startTime && Run(lib, s, evs).startTime[id] == s.startTime[id]
  {
    RunEvolves(lib, s, evs);
  }

  /** A resolved promise stays resolved. */
  lemma ResolvedStaysResolved(lib: Library, s: State, evs: seq<Event>)
    requires Inv(s)
    ensures s.resolved <= Run(lib, s, evs).resolved
  {
    RunEvolves(lib, s, evs);
  }

  /** A request whose callback has stopped without resolving never resolves
      and is never rescheduled. */
  lemma StoppedNeverResolves(lib: Library, s: State, evs: seq<Event>, id: Id)
    requires Inv(s) && id in s.requests && id !in s.scheduled && id !in s.resolved
    ensures id !in Run(lib, s, evs).resolved && id !in Run(lib, s, evs).scheduled
  {
    RunEvolves(lib, s, evs);
  }

  /** `a` was queued before `b`, so `b` cannot resolve before `a`; for the zoom
      queue, `b` may also have been dropped by a zero-duration zoom. */
  ghost predicate Ordered(s: State, a: Id, b: Id, view: bool) {
    a in s.resolved ||
    (a in Queue(s, view) && b in Queue(s, view) && a < b) ||
    (!view && b in s.requests && s.requests[b].ZoomRequest? && b !in s.zoomQueue && b !in s.resolved)
  }

  /** Two queued requests: the earlier one resolves first or both stay queued in order
      (or, for zoom, the later one is dropped). */
  lemma QueuedOrderStep(s: State, t: State, a: Id, b: Id, view: bool)
    requires Inv(s) && Evolves(s, t) && ResolvesOnly(s, t) && QueueStep(s, t, view)
    requires a !in s.resolved && a in Queue(s, view) && b in Queue(s, view) && a < b
    ensures Ordered(t, a, b, view)
  {
    var q, q' := Queue(s, view), Queue(t, view);
    var i :| 0 <= i < |q| && q[i] == a;
    var j :| 0 <= j < |q| && q[j] == b;
    assert i < j;
    if q' == q[1..] && q[0] in t.resolved {
      if i > 0 {
        assert q'[i - 1] == a && q'[j - 1] == b;
      }
    } else if q' == q + [s.nextId] {
      assert q'[i] == a && q'[j] == b;
    } else if q' != q {
      assert !view && q' == [];
      assert q[j] in s.requests && Animated(s.requests[q[j]], false);
      assert b < s.nextId && !IsHead(s.zoomQueue, b) && b !in s.viewQueue;
    }
  }

  /** A dropped zoom request stays dropped and unresolved. */
  lemma DroppedOrderStep(s: State, t: State, b: Id)
    requires Inv(s) && Evolves(s, t) && ResolvesOnly(s, t) && QueueStep(s, t, false)
    requires b in s.requests && s.requests[b].ZoomRequest? && b !in s.zoomQueue && b !in s.resolved
    ensures b in t.requests && t.requests[b].ZoomRequest? && b !in t.zoomQueue && b !in t.resolved
  {
    assert b < s.nextId;
    assert b !in s.viewQueue;
  }

  /** A zoom request that has left its queue unresolved stays out of the queue
      and unresolved, whatever happens afterwards. */
  lemma {:induction false} RunKeepsDropped(lib: Library, s: State, evs: seq<Event>, id: Id)
    requires Inv(s) && id in s.requests && s.requests[id].ZoomRequest? && id !in s.zoomQueue && id !in s.resolved
    ensures var t := Run(lib, s, evs);
      id in t.requests && t.requests[id].ZoomRequest? && id !in t.zoomQueue && id !in t.resolved
    decreases |evs|
  {
    if evs != [] {
      var t := Apply(lib, s, evs[0]);
      ApplyStepwise(lib, s, evs[0]);
      DroppedOrderStep(s, t, id);
      RunKeepsDropped(lib, t, evs[1..], id);
    }
  }

  /** A zero-duration zoom abandons every pending zoom: the next frame of a
      formerly queued request stops it unresolved, and whatever calls and
      frames follow the zoom, that request never resolves. */
  lemma ZeroZoomAbandonsPending(lib: Library, s: State, distance: real, duration: real, fov: real,
                                oneMeter: real, now: int, id: Id, later: int, evs: seq<Event>)
    requires Inv(s) && duration <= 0.0 && id in s.zoomQueue
    requires id in s.startTime ==> s.startTime[id] <= later
    ensures
      var t := AddZoom(lib, s, distance, duration, fov, oneMeter, now).0;
      id in t.scheduled && id !in t.zoomQueue && ZoomTickable(t, id, later) &&
      var u := ZoomTick(lib, t, id, later);
      u.1 == Abandoned && id !in u.0.resolved && id !in u.0.scheduled &&
      id !in Run(lib, t, evs).resolved && id !in Run(lib, t, evs).zoomQueue
  {
    var t := AddZoom(lib, s, distance, duration, fov, oneMeter, now).0;
    var i :| 0 <= i < |s.zoomQueue| && s.zoomQueue[i] == id;
    assert id in s.scheduled && id in s.requests && Animated(s.requests[id], false);
    RunKeepsDropped(lib, t, evs, id);
  }

  lemma OrderedStep(s: State, t: State, a: Id, b: Id, view: bool)
    requires Inv(s) && Evolves(s, t) && ResolvesOnly(s, t) && QueueStep(s, t, view)
    requires Ordered(s, a, b, view)
    ensures Ordered(t, a, b, view)
  {
    if a in s.resolved {
    } else if a in Queue(s, view) && b in Queue(s, view) && a < b {
      QueuedOrderStep(s, t, a, b, view);
    } else {
      DroppedOrderStep(s, t, b);
    }
  }

  lemma {:induction false} RunOrdered(lib: Library, s: State, evs: seq<Event>, a: Id, b: Id, view: bool)
    requires Inv(s) && Ordered(s, a, b, view)
    ensures Ordered(Run(lib, s, evs), a, b, view)
    decreases |evs|
  {
    if evs != [] {
      var t := Apply(lib, s, evs[0]);
      ApplyStepwise(lib, s, evs[0]);
      OrderedStep(s, t, a, b, view);
      RunOrdered(lib, t, evs[1..], a, b, view);
    }
  }

  /** Within one queue, requests complete in submission order: whatever
      happens, a later request never resolves while an earlier one has not. */
  lemma CompletesInSubmissionOrder(lib: Library, s: State, evs: seq<Event>, a: Id, b: Id, view: bool)
    requires Inv(s) && a in Queue(s, view) && b in Queue(s, view) && a < b
    ensures b in Run(lib, s, evs).resolved ==> a in Run(lib, s, evs).resolved
  {
    RunOrdered(lib, s, evs, a, b, view);
    var t := Run(lib, s, evs);
    if a !in t.resolved && a in Queue(t, view) && b in Queue(t, view) {
      var j :| 0 <= j < |Queue(t, view)| && Queue(t, view)[j] == b;
      assert b in t.scheduled;
    }
  }

  /** Two view calls back to back: the second continues from the first one's
      target, not from the pose live when it was made. */
  lemma ChainedViewContinuesFromTarget(lib: Library, s: State, a: Pose, da: real, ea: Easing, na: int,
                                       b: Pose, db: real, eb: Easing, nb: int)
    requires Inv(s) && da > 0.0 && !SamePose(ViewStart(s), a)
    ensures
      var t := ViewTo(lib, s, a, da, ea, na).0;
      ViewTo(lib, t, b, db, eb, nb).0.requests[s.nextId + 1].start == a
  {
    var t := ViewTo(lib, s, a, da, ea, na).0;
    assert t.viewQueue[|t.viewQueue| - 1] == s.nextId;
  }

  /** A view animation started on an idle queue ends exactly on its target at
      the first frame at or after its duration has elapsed. */
  lemma ViewEndsOnTarget(lib: Library, s: State, end: Pose, duration: real, easing: Easing, now: int, later: int)
    requires Inv(s) && |s.viewQueue| == 0 && duration > 0.0 && !SamePose(s.live, end)
    requires (later as real) >= (now as real) + duration
    ensures
      var t := ViewTo(lib, s, end, duration, easing, now).0;
      ViewTickable(t, s.nextId, later) &&
      var u := ViewTick(lib, t, s.nextId, later);
      u.1 == Done && u.0.live == end && s.nextId in u.0.resolved && u.0.viewQueue == []
  {
    var t := ViewTo(lib, s, end, duration, easing, now).0;
    assert t.startTime[s.nextId] == now;
  }

  /** A zoom started on an idle queue ends exactly on its target at the first
      frame at or after its duration has elapsed. */
  lemma ZoomEndsOnTarget(lib: Library, s: State, distance: real, duration: real, fov: real, oneMeter: real,
                         now: int, later: int)
    requires Inv(s) && |s.zoomQueue| == 0 && duration > 0.0
    requires (later as real) >= (now as real) + duration
    ensures
      var t := AddZoom(lib, s, distance, duration, fov, oneMeter, now).0;
      ZoomTickable(t, s.nextId, later) &&
      var u := ZoomTick(lib, t, s.nextId, later);
      u.1 == Done && u.0.live == t.requests[s.nextId].end && s.nextId in u.0.resolved && u.0.zoomQueue == []
  {
    var t := AddZoom(lib, s, distance, duration, fov, oneMeter, now).0;
    assert t.startTime[s.nextId] == now;
  }

  /** The singularity guard: a zoom from a width of at least one meter never
      shows, in any frame or at its end, a width below one meter. */
  lemma ZoomKeepsOneMeter(lib: Library, base: Pose, distance: real, duration: real, fov: real,
                          oneMeter: real, state: real)
    requires base.width >= oneMeter && 0.0 <= state <= 1.0
    ensures
      var req := ZoomRequestFor(lib, base, distance, duration, fov, oneMeter);
      req.end.width >= oneMeter && ZoomFrame(lib, req, state).width >= oneMeter
  {
  }

  /** Starting and at once stopping the rotation: the loop's next frame
      resolves its promise, and the camera has turned by exactly one step. */
  lemma StartThenStopEndsInOneFrame(lib: Library, s: State)
    requires Inv(s) && !s.rotationOn
    ensures
      var t := StopRotation(StartRotation(lib, s).0);
      s.nextId in t.scheduled && t.requests[s.nextId].RotationRequest? &&
      var u := RotateTick(lib, t, s.nextId);
      u.1 == Done && s.nextId in u.0.resolved && s.nextId !in u.0.scheduled &&
      u.0.live == Pose(lib.rotateZ(s.live.mv, RotationStep), s.live.width)
  {
  }

  /** The stop is cooperative: a start that follows a stop before the old
      loop's next frame leaves two loops scheduled, and the old one carries on
      instead of resolving. */
  lemma RestartWithinOneFrameKeepsOldLoop(lib: Library, s: State)
    requires Inv(s) && !s.rotationOn
    ensures
      var t := StartRotation(lib, StopRotation(StartRotation(lib, s).0)).0;
      s.nextId in t.scheduled && s.nextId + 1 in t.scheduled && t.requests[s.nextId].RotationRequest? &&
      RotateTick(lib, t, s.nextId).1 == Running && s.nextId !in RotateTick(lib, t, s.nextId).0.resolved
  {
  }
}
