/** Camera poses, the easing curves, and the numeric collaborators the
    animation engine relies on. The matrix library and `Math.sin`, `Math.sqrt`
    and `Math.tan` are not modelled; they enter as the fields of a `Library`
    value, so nothing is assumed about them beyond what a caller states (for
    the easing curves: `MathBounded`). */
module Geometry {

  /** A 4x4 model-view matrix. Its entries are never inspected by the engine;
      two transforms are equal when all their entries are. */
  datatype Transform = Mat4(entries: seq<real>)

  datatype Vec3 = Vec3(x: real, y: real, z: real)

  const Origin: Vec3 := Vec3(0.0, 0.0, 0.0)

  /** `vec3.scale`: every component multiplied by `k`. */
  function Scale(v: Vec3, k: real): Vec3 {
    Vec3(v.x * k, v.y * k, v.z * k)
  }

  /** `vec3.lerp`: the point a fraction `t` of the way from `a` to `b`. */
  function Lerp(a: Vec3, b: Vec3, t: real): (r: Vec3)
    ensures t == 0.0 ==> r == a
    ensures t == 1.0 ==> r == b
  {
    Vec3(a.x + t * (b.x - a.x), a.y + t * (b.y - a.y), a.z + t * (b.z - a.z))
  }

  /** The camera state an animation moves between: the model-view matrix and
      the projection width. */
  datatype Pose = Pose(mv: Transform, width: real)

  /** Widths closer than this count as equal when deciding that an animation is a no-op. */
  const WidthTolerance: real := 0.000001

  function Abs(x: real): real {
    if x < 0.0 then -x else x
  }

  /** Start and target are the same pose: identical matrices, widths within the tolerance. */
  predicate SamePose(a: Pose, b: Pose) {
    a.mv == b.mv && Abs(a.width - b.width) < WidthTolerance
  }

  /** `x` lies on the closed segment between `a` and `b`, in either order. */
  predicate Between(x: real, a: real, b: real) {
    (a <= x <= b) || (b <= x <= a)
  }

  /** The four easing curves a view animation can use. */
  datatype Easing = Linear | Sinus | Sinus2 | Circle

  /** `Math.PI`, to the digits a JavaScript engine prints for it. */
  const Pi: real := 3.141592653589793

  /** The conversion from degrees to radians the engine writes out: `deg * Math.PI / 180.0`. */
  function Radians(degrees: real): real {
    degrees * Pi / 180.0
  }

  /** The operations of the matrix library and of `Math` that the engine calls.
      - blend: decompose both matrices into rotation, scaling and translation,
        slerp the rotations, lerp the rest by the given fraction and recompose;
      - translate: `mat4.translate`;
      - viewDirection: the zoom direction of a model-view matrix (invert it,
        take its rotation, rotate the forward vector (0, 0, -1), negate);
      - rotateZ: `mat4.rotateZ` by an angle in radians;
      - sin, sqrt, tan: `Math.sin`, `Math.sqrt`, `Math.tan`. */
  datatype Library = Library(
    blend: (Transform, Transform, real) -> Transform,
    translate: (Transform, Vec3) -> Transform,
    viewDirection: Transform -> Vec3,
    rotateZ: (Transform, real) -> Transform,
    sin: real -> real,
    sqrt: real -> real,
    tan: real -> real)

  /** The two facts about `Math` the easing curves rely on: a sine lies in
      [-1, 1], and the square root of a number in [0, 1] lies in [0, 1]. */
  ghost predicate MathBounded(lib: Library) {
    (forall x: real :: -1.0 <= lib.sin(x) <= 1.0) &&
    (forall x: real :: 0.0 <= x <= 1.0 ==> 0.0 <= lib.sqrt(x) <= 1.0)
  }

  /** `getSinEasing`: the sine from its minimum to its maximum, stretched over [0, 1]. */
  function SinEasing(lib: Library, value: real): (e: real)
    ensures MathBounded(lib) ==> 0.0 <= e <= 1.0
  {
    var period := value * Pi - Pi / 2.0;
    lib.sin(period) * 0.5 + 0.5
  }

  /** A number in [-1, 1] squares into [0, 1]. */
  lemma SquareInUnit(x: real)
    ensures -1.0 <= x <= 1.0 ==> 0.0 <= x * x <= 1.0
  {
    if 0.0 <= x <= 1.0 {
      assert x * x <= x * 1.0;
    } else if -1.0 <= x < 0.0 {
      assert (-x) * (-x) <= (-x) * 1.0;
    }
  }

  /** `getCircleEasing`: a quarter circle rising to 1/2 over the first half,
      another one rising from 1/2 to 1 over the second. */
  function CircleEasing(lib: Library, value: real): (e: real)
    ensures MathBounded(lib) && 0.0 <= value <= 0.5 ==> 0.0 <= e <= 0.5
    ensures MathBounded(lib) && 0.5 < value <= 1.0 ==> 0.5 <= e <= 1.0
  {
    if value <= 0.5 then
      var period := value * 2.0;
      var y := lib.sqrt(1.0 - period * period);
      SquareInUnit(period);
      (1.0 - y) / 2.0
    else
      var period := value * 2.0 - 2.0;
      var y := lib.sqrt(1.0 - period * period);
      SquareInUnit(period);
      (1.0 + y) / 2.0
  }

  /** The eased progress for a raw progress `p`; the sine curve is applied twice for `Sinus2`. */
  function Ease(lib: Library, kind: Easing, p: real): (e: real)
    ensures kind == Linear ==> e == p
    ensures MathBounded(lib) && 0.0 <= p <= 1.0 ==> 0.0 <= e <= 1.0
  {
    match kind
    case Linear => p
    case Circle => CircleEasing(lib, p)
    case Sinus => SinEasing(lib, p)
    case Sinus2 => SinEasing(lib, SinEasing(lib, p))
  }

  /** Every curve starts at 0 and ends at 1, given the exact values of the
      sine at its extremes and of the square root of 1. */
  lemma EasingEndpoints(lib: Library, kind: Easing)
    requires lib.sin(-Pi / 2.0) == -1.0 && lib.sin(Pi / 2.0) == 1.0 && lib.sqrt(1.0) == 1.0
    ensures Ease(lib, kind, 0.0) == 0.0 && Ease(lib, kind, 1.0) == 1.0
  {
    assert 0.0 * Pi - Pi / 2.0 == -Pi / 2.0;
    assert 1.0 * Pi - Pi / 2.0 == Pi / 2.0;
  }

  /** The fraction of `duration` elapsed since `start`, while the animation runs. */
  function Progress(now: int, start: int, duration: real): (p: real)
    requires duration > 0.0 && start <= now
    requires (now as real) < (start as real) + duration
    ensures 0.0 <= p < 1.0
    ensures now == start ==> p == 0.0
  {
    var elapsed := (now - start) as real;
    assert elapsed / duration * duration == elapsed;
    elapsed / duration
  }

  /** A fraction `t` of `d` lies between 0 and `d`. */
  lemma ScaledBetween(d: real, t: real)
    requires 0.0 <= t <= 1.0
    ensures Between(d * t, 0.0, d)
  {
    if d >= 0.0 {
      assert d * t <= d * 1.0;
    } else {
      assert -d * t <= -d * 1.0;
    }
  }

  /** Moving from `w` by a fraction `t` of `d` stays between `w` and `w + d`. */
  lemma StepBetween(w: real, d: real, t: real)
    ensures 0.0 <= t <= 1.0 ==> Between(w + d * t, w, w + d)
    ensures 0.0 <= t <= 1.0 ==> Between(w - d * t, w, w - d)
  {
    if 0.0 <= t <= 1.0 {
      ScaledBetween(d, t);
    }
  }
}
