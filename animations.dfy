/** The animation engine as the object it is: the viewer whose camera it
    moves, the two request queues, the rotation flag, and one method per public
    operation and per frame callback. Each method is proved to do exactly what
    the matching function of `AnimationModel` does to `Model()`. */
module Navigation {
  import opened Geometry
  import opened AnimationModel

  /** The host viewer: its live camera matrix and width, which the engine
      writes, and the field of view (degrees) and scale it reads. */
  class Viewer {
    var mvMatrix: Transform
    var width: real
    var fov: real
    var unitsInMeter: real

    constructor (mvMatrix: Transform, width: real, fov: real, unitsInMeter: real)
      ensures this.mvMatrix == mvMatrix && this.width == width
      ensures this.fov == fov && this.unitsInMeter == unitsInMeter
    {
      this.mvMatrix := mvMatrix;
      this.width := width;
      this.fov := fov;
      this.unitsInMeter := unitsInMeter;
    }
  }

  class Animations {
    const viewer: Viewer
    const lib: Library

    var rotationOn: bool
    var viewQueue: seq<Id>
    var zoomQueue: seq<Id>
    // what each call captured: its start, target, duration and easing
    var requests: map<Id, Request>
    // each request's `startTime`, absent until its first frame as head
    var startTime: map<Id, int>
    // promises that have resolved
    var resolved: set<Id>
    // callbacks waiting for the next animation frame
    var scheduled: set<Id>
    var nextId: Id

    /** The engine and the viewer's camera as one `AnimationModel.State`. */
    ghost function Model(): State
      reads this, viewer
    {
      State(Pose(viewer.mvMatrix, viewer.width), viewQueue, zoomQueue, requests,
            startTime, resolved, scheduled, rotationOn, nextId)
    }

    ghost predicate Valid()
      reads this, viewer
    {
      Inv(Model())
    }

    constructor (viewer: Viewer, lib: Library)
      ensures this.viewer == viewer && this.lib == lib
      ensures Valid() && Model() == Initial(Pose(viewer.mvMatrix, viewer.width))
    {
      this.viewer := viewer;
      this.lib := lib;
      rotationOn := false;
      viewQueue, zoomQueue := [], [];
      requests, startTime := map[], map[];
      resolved, scheduled := {}, {};
      nextId := 0;
    }

    /** Record a new request under a fresh id, the counterpart of creating its promise. */
    method Register(req: Request) returns (id: Id)
      requires Valid()
      modifies this`nextId, this`requests
      ensures Model() == AnimationModel.Register(old(Model()), req)
      ensures Valid() && id == old(nextId)
    {
      ghost var s0 := Model();
      id := nextId;
      nextId := nextId + 1;
      requests := requests[id := req];
      assert Model() == AnimationModel.Register(s0, req);
      RegisterKeepsInv(s0, req);
    }

    /** `startRotation()`: the returned id stands for the promise. */
    method StartRotation() returns (id: Id, step: Step)
      requires Valid()
      modifies this, viewer`mvMatrix
      ensures (Model(), step) == AnimationModel.StartRotation(lib, old(Model()))
      ensures Valid() && id == old(nextId)
    {
      id := Register(RotationRequest);
      if rotationOn {
        resolved := resolved + {id};
        return id, Done;
      }
      rotationOn := true;
      scheduled := scheduled + {id};
      step := Rotate(id);
    }

    /** The `rotate` callback of rotation loop `id`. */
    method Rotate(id: Id) returns (step: Step)
      requires Valid() && id in scheduled && id in requests && requests[id].RotationRequest?
      modifies this, viewer`mvMatrix
      ensures (Model(), step) == RotateTick(lib, old(Model()), id)
      ensures Valid()
    {
      if !rotationOn {
        resolved := resolved + {id};
        scheduled := scheduled - {id};
        return Done;
      }
      viewer.mvMatrix := lib.rotateZ(viewer.mvMatrix, RotationStep);
      step := Running;
    }

    /** `stopRotation()`. */
    method StopRotation()
      requires Valid()
      modifies this`rotationOn
      ensures Model() == AnimationModel.StopRotation(old(Model()))
      ensures Valid()
    {
      rotationOn := false;
    }

    /** `viewTo(end, duration, easing)`, called at time `now`; the returned id
        stands for the promise. */
    method ViewTo(end: Pose, duration: real, now: int, easing: Easing := Sinus2) returns (id: Id, step: Step)
      requires Valid()
      modifies this, viewer`mvMatrix, viewer`width
      ensures (Model(), step) == AnimationModel.ViewTo(lib, old(Model()), end, duration, easing, now)
      ensures Valid() && id == old(nextId)
    {
      // the request records its effective start even when it jumps straight to `end`
      var start := if |viewQueue| > 0 then requests[viewQueue[|viewQueue| - 1]].end
                   else Pose(viewer.mvMatrix, viewer.width);
      var req := ViewRequest(start, end, duration, easing);
      if duration <= 0.0 {
        id := Register(req);
        viewer.mvMatrix, viewer.width := end.mv, end.width;
        resolved := resolved + {id};
        step := Done;
      } else if SamePose(start, end) {
        id := Register(req);
        resolved := resolved + {id};
        step := Done;
      } else {
        id, step := EnqueueView(req, now);
      }
    }

    /** Queue an animated view request behind the pending ones and run its first frame. */
    method EnqueueView(req: Request, now: int) returns (id: Id, step: Step)
      requires Valid() && Animated(req, true)
      modifies this, viewer`mvMatrix, viewer`width
      ensures (Model(), step) == AnimationModel.EnqueueView(lib, old(Model()), req, now)
      ensures Valid() && id == old(nextId)
    {
      ghost var s0 := Model();
      id := Register(req);
      viewQueue := viewQueue + [id];
      scheduled := scheduled + {id};
      EnqueueViewKeepsInv(s0, req);
      step := ViewStep(id, now);
    }

    /** The `step` callback of view request `id`, run at time `now`. */
    method ViewStep(id: Id, now: int) returns (step: Step)
      requires Valid() && ViewTickable(Model(), id, now)
      modifies this, viewer`mvMatrix, viewer`width
      ensures (Model(), step) == ViewTick(lib, old(Model()), id, now)
      ensures Valid()
    {
      if |viewQueue| == 0 || viewQueue[0] != id {
        // not our run: wait for the next frame
        return Waiting;
      }
      step := ViewHeadStep(id, now);
    }

    /** One frame of view request `id` once it heads the queue. */
    method ViewHeadStep(id: Id, now: int) returns (step: Step)
      requires Valid() && ViewTickable(Model(), id, now) && IsHead(viewQueue, id)
      modifies this, viewer`mvMatrix, viewer`width
      ensures (Model(), step) == ViewHeadTick(lib, old(Model()), id, now)
      ensures Valid()
    {
      ghost var s0 := Model();
      ghost var s1 := StartClock(s0, id, now);
      if id !in startTime {
        startTime := startTime[id := now];
      }
      assert Model() == s1;
      var req := requests[id];
      var t0 := startTime[id];
      if (now as real) < (t0 as real) + req.duration {
        var state := Ease(lib, req.easing, Progress(now, t0, req.duration));
        var pose := ViewFrame(lib, req, state);
        viewer.mvMatrix, viewer.width := pose.mv, pose.width;
        step := Running;
        assert Model() == s1.(live := pose);
      } else {
        // the exact target, then leave the queue
        viewer.mvMatrix, viewer.width := req.end.mv, req.end.width;
        viewQueue := viewQueue[1..];
        resolved := resolved + {id};
        scheduled := scheduled - {id};
        step := Done;
        assert Model() == s1.(live := req.end, viewQueue := s0.viewQueue[1..],
          resolved := s0.resolved + {id}, scheduled := s0.scheduled - {id});
        FinishViewKeepsInv(s1, id, req.end);
      }
    }

    /** `addZoom(distance, duration)`, called at time `now`; the returned id
        stands for the promise. */
    method AddZoom(distance: real, duration: real, now: int) returns (id: Id, step: Step)
      requires Valid()
      modifies this, viewer`mvMatrix, viewer`width
      ensures (Model(), step) ==
        AnimationModel.AddZoom(lib, old(Model()), distance, duration, viewer.fov, viewer.unitsInMeter, now)
      ensures Valid() && id == old(nextId)
    {
      ghost var s0 := Model();
      var current := Pose(viewer.mvMatrix, viewer.width);
      if |zoomQueue| > 0 {
        // zoom from where the last pending zoom ends
        current := requests[zoomQueue[|zoomQueue| - 1]].end;
      }
      assert current == ZoomStart(s0);
      // the target: `distance` along the view direction, the width narrowed unless that
      // would take it below one meter
      var req := ZoomRequestFor(lib, current, distance, duration, viewer.fov, viewer.unitsInMeter);
      if duration <= 0.0 {
        // jump, and drop every pending zoom
        id := Register(req);
        zoomQueue := [];
        viewer.mvMatrix, viewer.width := req.end.mv, req.end.width;
        resolved := resolved + {id};
        step := Done;
        assert Model() == AnimationModel.Register(s0, req).(zoomQueue := [], live := req.end, resolved := s0.resolved + {id});
      } else {
        id, step := EnqueueZoom(req, now);
      }
    }

    /** Queue an animated zoom request behind the pending ones and run its first frame. */
    method EnqueueZoom(req: Request, now: int) returns (id: Id, step: Step)
      requires Valid() && Animated(req, false)
      modifies this, viewer`mvMatrix, viewer`width
      ensures (Model(), step) == AnimationModel.EnqueueZoom(lib, old(Model()), req, now)
      ensures Valid() && id == old(nextId)
    {
      ghost var s0 := Model();
      id := Register(req);
      zoomQueue := zoomQueue + [id];
      scheduled := scheduled + {id};
      EnqueueZoomKeepsInv(s0, req);
      step := ZoomStep(id, now);
    }

    /** The `step` callback of zoom request `id`, run at time `now`. */
    method ZoomStep(id: Id, now: int) returns (step: Step)
      requires Valid() && ZoomTickable(Model(), id, now)
      modifies this, viewer`mvMatrix, viewer`width
      ensures (Model(), step) == ZoomTick(lib, old(Model()), id, now)
      ensures Valid()
    {
      if |zoomQueue| == 0 || zoomQueue[0] != id {
        var queued := Contains(zoomQueue, id);
        if !queued {
          // dropped by a zero-duration zoom: stop without resolving
          scheduled := scheduled - {id};
          return Abandoned;
        }
        // not our run: wait for the next frame
        return Waiting;
      }
      step := ZoomHeadStep(id, now);
    }

    /** One frame of zoom request `id` once it heads the queue. */
    method ZoomHeadStep(id: Id, now: int) returns (step: Step)
      requires Valid() && ZoomTickable(Model(), id, now) && IsHead(zoomQueue, id)
      modifies this, viewer`mvMatrix, viewer`width
      ensures (Model(), step) == ZoomHeadTick(lib, old(Model()), id, now)
      ensures Valid()
    {
      ghost var s0 := Model();
      ghost var s1 := StartClock(s0, id, now);
      if id !in startTime {
        startTime := startTime[id := now];
      }
      assert Model() == s1;
      var req := requests[id];
      var t0 := startTime[id];
      if (now as real) < (t0 as real) + req.duration {
        var pose := ZoomFrame(lib, req, Progress(now, t0, req.duration));
        viewer.mvMatrix, viewer.width := pose.mv, pose.width;
        step := Running;
        assert Model() == s1.(live := pose);
      } else {
        // the exact target, then leave the queue
        viewer.mvMatrix, viewer.width := req.end.mv, req.end.width;
        zoomQueue := zoomQueue[1..];
        resolved := resolved + {id};
        scheduled := scheduled - {id};
        step := Done;
        assert Model() == s1.(live := req.end, zoomQueue := s0.zoomQueue[1..],
          resolved := s0.resolved + {id}, scheduled := s0.scheduled - {id});
        FinishZoomKeepsInv(s1, id, req.end);
      }
    }
  }

  /** Whether `id` is still queued: the scan `filter(m => m == end).pop() != null`. */
  method Contains(q: seq<Id>, id: Id) returns (found: bool)
    ensures found <==> id in q
  {
    found := false;
    var i := 0;
    while i < |q|
      invariant 0 <= i <= |q|
      invariant found <==> id in q[..i]
    {
      if q[i] == id {
        found := true;
      }
      i := i + 1;
    }
    assert q[..i] == q;
  }
}
