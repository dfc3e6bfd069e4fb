/** Points, poses and the two pure geometric helpers of the parser:
    `get_origin` (the point a joint's geometry or origin designates) and
    `Configurator.close_enough` (component-wise comparison with a tolerance).
    Coordinates are exact reals; orientations are opaque. */
module Geometry {
  import opened Wrappers

  datatype Point3 = Point3(x: real, y: real, z: real)

  /** An orientation of the host CAD system; the model never computes with it. */
  datatype Axes = Axes(id: nat)

  /** A placement: an origin and the axes of a coordinate system. */
  datatype Pose = Pose(origin: Point3, axes: Axes)

  /** `setWithCoordinateSystem(origin, *axes)`: the same axes moved to a new origin. */
  function MovedTo(p: Pose, o: Point3): (r: Pose)
    ensures r.origin == o && r.axes == p.axes
  {
    Pose(o, p.axes)
  }

  /** The frames the exporter emits, kept symbolic: the placement of one pose
      seen from another (a joint origin) and the inverse of a pose (the visual
      origin of a link). The matrix arithmetic that evaluates them is not
      part of this model. */
  datatype Frame = Relative(from: Pose, to: Pose) | Inverse(of: Pose)

  /** What a joint reports as its geometry or origin on one side. `HostFailure`
      is the host raising a runtime error while being read. */
  datatype GeomRef =
    | JointGeometry(origin: GeomRef)
    | NoGeometry
    | JointOrigin(geometry: GeomRef)
    | VectorRef(v: Point3)
    | PointRef(p: Point3)
    | UnexpectedRef
    | HostFailure

  /** The outcome of `get_origin`: a point or none, a runtime error of the
      host, or the ValueError the function raises for an unexpected object. */
  datatype Lookup = Got(point: Option<Point3>) | RuntimeFailure | ValueFailure

  /** `get_origin(o)`: follows joint geometries and joint origins down to a
      vector or a point. */
  function GetOrigin(g: GeomRef): Lookup
    decreases g
  {
    match g
    case JointGeometry(o) => GetOrigin(o)
    case NoGeometry => Got(None)
    case JointOrigin(o) => GetOrigin(o)
    case VectorRef(v) => Got(Some(v))
    case PointRef(p) => Got(Some(p))
    case UnexpectedRef => ValueFailure
    case HostFailure => RuntimeFailure
  }

  /** The innermost reference a chain of joint geometries and joint origins leads to. */
  function Leaf(g: GeomRef): (r: GeomRef)
    ensures !r.JointGeometry? && !r.JointOrigin?
    decreases g
  {
    match g
    case JointGeometry(o) => Leaf(o)
    case JointOrigin(o) => Leaf(o)
    case _ => g
  }

  /** get_origin depends only on the innermost reference, and reports a point
      exactly when that reference is a vector or a point. */
  lemma {:induction false} GetOriginLeaf(g: GeomRef)
    ensures GetOrigin(g) == GetOrigin(Leaf(g))
    ensures GetOrigin(g).Got? && GetOrigin(g).point.Some? <==> Leaf(g).VectorRef? || Leaf(g).PointRef?
    ensures GetOrigin(g) == ValueFailure <==> Leaf(g) == UnexpectedRef
    ensures GetOrigin(g) == RuntimeFailure <==> Leaf(g) == HostFailure
    decreases g
  {
    match g
    case JointGeometry(o) => GetOriginLeaf(o);
    case JointOrigin(o) => GetOriginLeaf(o);
    case _ =>
  }

  /** The values `close_enough` is asked about. */
  datatype Value =
    | Float(r: real)
    | List(items: seq<Value>)
    | Tuple(items: seq<Value>)
    | Vector(v: Point3)
    | Point(p: Point3)
    | Other

  function Abs(r: real): real {
    if r < 0.0 then -r else r
  }

  function AsArray(p: Point3): seq<Value> {
    [Float(p.x), Float(p.y), Float(p.z)]
  }

  /** `close_enough(a, b)`: floats within eps; lists and tuples element-wise,
      stopping at the first pair that is not close (as `all` over a generator
      does); vectors and points through their coordinates; anything else a
      ValueError. Sequences of different lengths fail the length assertion. */
  function CloseEnough(a: Value, b: Value, eps: real): Result<bool>
    decreases a, 2
  {
    if a.Float? && b.Float? then Ok(Abs(a.r - b.r) < eps)
    else if a.List? && b.List? then
      if |a.items| != |b.items| then Err("AssertionError") else AllClose(a.items, b.items, eps)
    else if a.Tuple? && b.Tuple? then
      if |a.items| != |b.items| then Err("AssertionError") else AllClose(a.items, b.items, eps)
    else if a.Vector? && b.Vector? then Ok(PointsClose(a.v, b.v, eps))
    else if a.Point? && b.Point? then Ok(PointsClose(a.p, b.p, eps))
    else Err("ValueError: close_enough: not supported")
  }

  /** Two points coincide within eps exactly when every coordinate differs by less than eps. */
  predicate PointsClose(a: Point3, b: Point3, eps: real) {
    Abs(a.x - b.x) < eps && Abs(a.y - b.y) < eps && Abs(a.z - b.z) < eps
  }

  /** `all(close_enough(aa, bb) for aa, bb in zip(as, bs))`. */
  function AllClose(xs: seq<Value>, ys: seq<Value>, eps: real): Result<bool>
    requires |xs| == |ys|
    decreases xs, 1
  {
    if |xs| == 0 then Ok(true)
    else
      match CloseEnough(xs[0], ys[0], eps)
      case Err(m) => Err(m)
      case Ok(c) => if !c then Ok(false) else AllClose(xs[1..], ys[1..], eps)
  }

  /** Vectors and points are compared as the lists of their coordinates,
      which never fails. */
  lemma PointsAsLists(a: Point3, b: Point3, eps: real)
    ensures CloseEnough(Point(a), Point(b), eps) == CloseEnough(List(AsArray(a)), List(AsArray(b)), eps)
    ensures CloseEnough(Vector(a), Vector(b), eps) == CloseEnough(List(AsArray(a)), List(AsArray(b)), eps)
    ensures CloseEnough(Point(a), Point(b), eps).Ok?
  {
    var xs, ys := AsArray(a), AsArray(b);
    assert xs[1..][1..][1..] == [] && ys[1..][1..][1..] == [];
    assert AllClose(xs[1..][1..][1..], ys[1..][1..][1..], eps) == Ok(true);
    assert AllClose(xs[1..][1..], ys[1..][1..], eps) == Ok(Abs(a.z - b.z) < eps);
    assert AllClose(xs[1..], ys[1..], eps) == Ok(Abs(a.y - b.y) < eps && Abs(a.z - b.z) < eps);
    assert CloseEnough(xs[0], ys[0], eps) == Ok(Abs(a.x - b.x) < eps);
    assert AllClose(xs, ys, eps) == Ok(PointsClose(a, b, eps));
  }

  /** close_enough is symmetric, in its value and in its failures. */
  lemma {:induction false} CloseEnoughSymmetric(a: Value, b: Value, eps: real)
    ensures CloseEnough(a, b, eps) == CloseEnough(b, a, eps)
    decreases a, 2
  {
    if a.List? && b.List? && |a.items| == |b.items| {
      AllCloseSymmetric(a.items, b.items, eps);
    } else if a.Tuple? && b.Tuple? && |a.items| == |b.items| {
      AllCloseSymmetric(a.items, b.items, eps);
    }
  }

  lemma {:induction false} AllCloseSymmetric(xs: seq<Value>, ys: seq<Value>, eps: real)
    requires |xs| == |ys|
    ensures AllClose(xs, ys, eps) == AllClose(ys, xs, eps)
    decreases xs, 1
  {
    if |xs| > 0 {
      CloseEnoughSymmetric(xs[0], ys[0], eps);
      AllCloseSymmetric(xs[1..], ys[1..], eps);
    }
  }

  /** A value made only of floats, lists, tuples, vectors and points. */
  predicate Numeric(v: Value)
    decreases v
  {
    match v
    case Float(_) => true
    case List(xs) => forall i :: 0 <= i < |xs| ==> Numeric(xs[i])
    case Tuple(xs) => forall i :: 0 <= i < |xs| ==> Numeric(xs[i])
    case Vector(_) => true
    case Point(_) => true
    case Other => false
  }

  /** With a positive tolerance every numeric value is close to itself. */
  lemma {:induction false} CloseEnoughReflexive(v: Value, eps: real)
    requires eps > 0.0 && Numeric(v)
    ensures CloseEnough(v, v, eps) == Ok(true)
    decreases v, 2
  {
    match v
    case Float(_) =>
    case List(xs) => AllCloseReflexive(xs, eps);
    case Tuple(xs) => AllCloseReflexive(xs, eps);
    case Vector(p) =>
    case Point(p) =>
  }

  lemma {:induction false} AllCloseReflexive(xs: seq<Value>, eps: real)
    requires eps > 0.0 && forall i :: 0 <= i < |xs| ==> Numeric(xs[i])
    ensures AllClose(xs, xs, eps) == Ok(true)
    decreases xs, 1
  {
    if |xs| > 0 {
      CloseEnoughReflexive(xs[0], eps);
      AllCloseReflexive(xs[1..], eps);
    }
  }

  /** Comparing a number with anything that is not a number is a ValueError. */
  lemma MixedKindsFail(r: real, v: Value, eps: real)
    requires !v.Float?
    ensures CloseEnough(Float(r), v, eps).Err?
  {
  }
}
