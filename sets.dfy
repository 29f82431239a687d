/**
 * `sets.py`: validation of the points and counts handed to the sampled-set
 * factories and the configuration each one builds. The mesh, the mesh
 * search and `sampledSet.New` are foreign; the model stops at the request
 * handed to `sampledSet.New`: the set's name and its configuration.
 */
module Sets {
  import opened Wrappers
  import opened Vectors
  import opened Text

  /** A point argument as the caller passes it: a list, a tuple, or something else (named by its type). */
  datatype PointArg = ListArg(items: seq<real>) | TupleArg(items: seq<real>) | OtherArg(typeName: string)

  /** `_to_tuple(point)`: a list or tuple of exactly three numbers becomes a point. */
  function ToTuple(p: PointArg): (r: Result<Vec3>)
    ensures r.Success? <==> !p.OtherArg? && |p.items| == 3
    ensures r.Success? ==> r.value == Vec3(p.items[0], p.items[1], p.items[2])
    ensures !p.OtherArg? && |p.items| != 3 ==> r.Failure? && r.error.ValueError?
    ensures p.OtherArg? ==> r.Failure? && r.error.TypeError?
  {
    match p
    case OtherArg(t) => Failure(TypeError("Point must be tuple or list, got " + t))
    case _ =>
      if |p.items| != 3 then Failure(ValueError("Point must have exactly 3 coordinates, got " + NatToString(|p.items|)))
      else Success(Vec3(p.items[0], p.items[1], p.items[2]))
  }

  /** `list(point)`. */
  function AsList(v: Vec3): seq<real> {
    [v.x, v.y, v.z]
  }

  /** A point passed as its own coordinate list (or tuple) converts back to itself. */
  lemma ToTupleAsList(v: Vec3)
    ensures ToTuple(ListArg(AsList(v))) == Success(v)
    ensures ToTuple(TupleArg(AsList(v))) == Success(v)
  {
  }

  /**
   * `[list(_to_tuple(p)) for p in points]`: every point converted in
   * order; the first point that fails raises its error.
   */
  function ConvertPoints(ps: seq<PointArg>): (r: Result<seq<seq<real>>>)
    ensures r.Success? <==> forall i :: 0 <= i < |ps| ==> ToTuple(ps[i]).Success?
    ensures r.Success? ==> |r.value| == |ps| && forall i :: 0 <= i < |ps| ==> r.value[i] == AsList(ToTuple(ps[i]).value)
    ensures r.Failure? ==>
      (exists k :: 0 <= k < |ps| && ToTuple(ps[k]).Failure? && r.error == ToTuple(ps[k]).error &&
        forall i :: 0 <= i < k ==> ToTuple(ps[i]).Success?)
  {
    if |ps| == 0 then Success([])
    else
      var first :- ToTuple(ps[0]);
      var rest :- ConvertPoints(ps[1..]);
      Success([AsList(first)] + rest)
  }

  /** The configuration models of the four set types, as they are turned into the set's dictionary. */
  datatype SetConfig =
    | UniformSetConfig(axis: string, start: seq<real>, end: seq<real>, nPoints: int)
    | CloudSetConfig(axis: string, points: seq<seq<real>>)
    | PolyLineSetConfig(axis: string, points: seq<seq<real>>, nPoints: int)
    | CircleSetConfig(axis: string, origin: seq<real>, circleAxis: seq<real>, startPoint: seq<real>, dTheta: real)

  /** What `sampledSet.New` is given besides the mesh and its search engine. */
  datatype SetRequest = SetRequest(name: string, config: SetConfig)

  /**
   * `create_uniform_set`: both end points are converted first, then a
   * non-positive point count is refused; `axis` defaults to `"distance"`.
   */
  function CreateUniformSet(name: string, start: PointArg, end: PointArg, nPoints: int, axis: string := "distance"): (r: Result<SetRequest>)
    ensures ToTuple(start).Failure? ==> r == Failure(ToTuple(start).error)
    ensures ToTuple(start).Success? && ToTuple(end).Failure? ==> r == Failure(ToTuple(end).error)
    ensures r.Success? <==> ToTuple(start).Success? && ToTuple(end).Success? && nPoints > 0
    ensures ToTuple(start).Success? && ToTuple(end).Success? && nPoints <= 0 ==> r.Failure? && r.error.ValueError?
    ensures r.Success? ==> r.value == SetRequest(name, UniformSetConfig(axis, AsList(ToTuple(start).value), AsList(ToTuple(end).value), nPoints))
  {
    var s :- ToTuple(start);
    var e :- ToTuple(end);
    if nPoints <= 0 then Failure(ValueError("n_points must be positive"))
    else Success(SetRequest(name, UniformSetConfig(axis, AsList(s), AsList(e), nPoints)))
  }

  /** `create_cloud_set`: an empty point list is refused, then every point is converted; `axis` defaults to `"xyz"`. */
  function CreateCloudSet(name: string, points: seq<PointArg>, axis: string := "xyz"): (r: Result<SetRequest>)
    ensures |points| == 0 ==> r == Failure(ValueError("points list cannot be empty"))
    ensures |points| > 0 ==> (r.Success? <==> ConvertPoints(points).Success?)
    ensures |points| > 0 && r.Failure? ==> r.error == ConvertPoints(points).error
    ensures r.Success? ==> r.value.name == name && r.value.config.CloudSetConfig? && r.value.config.axis == axis
    ensures r.Success? ==> |r.value.config.points| == |points|
    ensures r.Success? ==> forall i :: 0 <= i < |points| ==> r.value.config.points[i] == AsList(ToTuple(points[i]).value)
  {
    if |points| == 0 then Failure(ValueError("points list cannot be empty"))
    else
      var pts :- ConvertPoints(points);
      Success(SetRequest(name, CloudSetConfig(axis, pts)))
  }

  /**
   * `create_polyline_set`: fewer than two knots is refused before the point
   * count is looked at, and only then are the knots converted.
   */
  function CreatePolylineSet(name: string, points: seq<PointArg>, nPoints: int, axis: string := "distance"): (r: Result<SetRequest>)
    ensures |points| < 2 ==> r == Failure(ValueError("polyLine requires at least 2 points"))
    ensures |points| >= 2 && nPoints <= 0 ==> r == Failure(ValueError("n_points must be positive"))
    ensures |points| >= 2 && nPoints > 0 ==> (r.Success? <==> ConvertPoints(points).Success?)
    ensures |points| >= 2 && nPoints > 0 && r.Failure? ==> r.error == ConvertPoints(points).error
    ensures r.Success? ==> r.value == SetRequest(name, PolyLineSetConfig(axis, ConvertPoints(points).value, nPoints))
  {
    if |points| < 2 then Failure(ValueError("polyLine requires at least 2 points"))
    else if nPoints <= 0 then Failure(ValueError("n_points must be positive"))
    else
      var pts :- ConvertPoints(points);
      Success(SetRequest(name, PolyLineSetConfig(axis, pts, nPoints)))
  }

  /**
   * `create_circle_set`: origin, axis and start point are converted in that
   * order, then a non-positive angular step is refused. The circle's axis
   * becomes `circleAxis` and `axis_type` becomes `axis`; the step defaults
   * to 10 degrees.
   */
  function CreateCircleSet(name: string, origin: PointArg, axis: PointArg, startPoint: PointArg,
                           dTheta: real := 10.0, axisType: string := "distance"): (r: Result<SetRequest>)
    ensures ToTuple(origin).Failure? ==> r == Failure(ToTuple(origin).error)
    ensures ToTuple(origin).Success? && ToTuple(axis).Failure? ==> r == Failure(ToTuple(axis).error)
    ensures ToTuple(origin).Success? && ToTuple(axis).Success? && ToTuple(startPoint).Failure? ==> r == Failure(ToTuple(startPoint).error)
    ensures r.Success? <==> ToTuple(origin).Success? && ToTuple(axis).Success? && ToTuple(startPoint).Success? && dTheta > 0.0
    ensures r.Success? ==> r.value == SetRequest(name, CircleSetConfig(axisType, AsList(ToTuple(origin).value),
      AsList(ToTuple(axis).value), AsList(ToTuple(startPoint).value), dTheta))
  {
    var o :- ToTuple(origin);
    var a :- ToTuple(axis);
    var s :- ToTuple(startPoint);
    if dTheta <= 0.0 then Failure(ValueError("d_theta must be positive"))
    else Success(SetRequest(name, CircleSetConfig(axisType, AsList(o), AsList(a), AsList(s), dTheta)))
  }
}
