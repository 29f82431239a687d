/**
 * `region_system.py`: a tree of region predicates evaluated over a raw array
 * of coordinates, with the `&`, `|`, `~` builders and the dictionary form
 * read back by `from_dict`.
 */
module RegionSystem {
  import opened Wrappers
  import opened Vectors
  import opened Masks

  /** `op: Literal["and", "or"]`. */
  datatype Op = And | Or

  datatype Region =
    | Box(min: Vec3, max: Vec3)
    | Sphere(center: Vec3, radius: real)
    | NotRegion(region: Region)
    | BinaryRegion(op: Op, left: Region, right: Region)

  /** The `type` discriminator of each region class. */
  function Tag(r: Region): string {
    match r
    case Box(_, _) => "box"
    case Sphere(_, _) => "sphere"
    case NotRegion(_) => "not"
    case BinaryRegion(_, _, _) => "binary"
  }

  function OpName(op: Op): string {
    if op == And then "and" else "or"
  }

  /** The base class's `compute`: abstract, it raises whatever the coordinates. */
  function BaseCompute(coords: seq<Vec3>): (r: Result<seq<bool>>)
    ensures r.Failure? && r.error == NotImplementedError
  {
    Failure(NotImplementedError)
  }

  /** Whether one point lies in the region: the pointwise meaning of the tree. */
  predicate Contains(r: Region, p: Vec3) {
    match r
    case Box(lo, hi) => WithinBounds(lo, hi, p)
    case Sphere(c, rad) => WithinRadius(c, rad, p)
    case NotRegion(inner) => !Contains(inner, p)
    case BinaryRegion(op, l, rt) => if op == And then Contains(l, p) && Contains(rt, p) else Contains(l, p) || Contains(rt, p)
  }

  /** `compute(coords)`: one mask entry per coordinate row, true exactly where the point lies in the region. */
  function Compute(r: Region, coords: seq<Vec3>): (m: seq<bool>)
    ensures |m| == |coords|
    ensures forall i :: 0 <= i < |coords| ==> m[i] == Contains(r, coords[i])
  {
    match r
    case Box(lo, hi) => seq(|coords|, i requires 0 <= i < |coords| => WithinBounds(lo, hi, coords[i]))
    case Sphere(c, rad) => seq(|coords|, i requires 0 <= i < |coords| => WithinRadius(c, rad, coords[i]))
    case NotRegion(inner) => Negate(Compute(inner, coords))
    case BinaryRegion(op, l, rt) =>
      var lm := Compute(l, coords);
      var rm := Compute(rt, coords);
      if op == And then AndMasks(lm, rm) else OrMasks(lm, rm)
  }

  /** `a & b`. */
  function Intersect(a: Region, b: Region): (r: Region)
    ensures r == BinaryRegion(And, a, b)
    ensures forall coords :: Compute(r, coords) == AndMasks(Compute(a, coords), Compute(b, coords))
  {
    BinaryRegion(And, a, b)
  }

  /** `a | b`. */
  function Unite(a: Region, b: Region): (r: Region)
    ensures r == BinaryRegion(Or, a, b)
    ensures forall coords :: Compute(r, coords) == OrMasks(Compute(a, coords), Compute(b, coords))
  {
    BinaryRegion(Or, a, b)
  }

  /** `~a`. */
  function Complement(a: Region): (r: Region)
    ensures r == NotRegion(a)
    ensures forall coords :: Compute(r, coords) == Negate(Compute(a, coords))
  {
    NotRegion(a)
  }

  /** Applying `~` twice gives back the original mask. */
  lemma DoubleComplement(a: Region, coords: seq<Vec3>)
    ensures Compute(Complement(Complement(a)), coords) == Compute(a, coords)
  {
    var m := Compute(Complement(Complement(a)), coords);
    assert forall i :: 0 <= i < |coords| ==> m[i] == Contains(a, coords[i]);
  }

  /** The dictionary/YAML form: a small JSON-like tree. */
  datatype Json = JNum(n: real) | JStr(s: string) | JArr(items: seq<Json>) | JObj(fields: map<string, Json>)

  function VecToJson(v: Vec3): Json {
    JArr([JNum(v.x), JNum(v.y), JNum(v.z)])
  }

  /** `model_dump(mode='json')`: every node carries its `type` tag; tuples become lists. */
  function ToDict(r: Region): (j: Json)
    ensures j.JObj? && "type" in j.fields && j.fields["type"] == JStr(Tag(r))
  {
    match r
    case Box(lo, hi) => JObj(map["type" := JStr("box"), "min" := VecToJson(lo), "max" := VecToJson(hi)])
    case Sphere(c, rad) => JObj(map["type" := JStr("sphere"), "center" := VecToJson(c), "radius" := JNum(rad)])
    case NotRegion(inner) => JObj(map["type" := JStr("not"), "region" := ToDict(inner)])
    case BinaryRegion(op, l, rt) =>
      JObj(map["type" := JStr("binary"), "op" := JStr(OpName(op)), "left" := ToDict(l), "right" := ToDict(rt)])
  }

  /** A `Tuple[float, float, float]` field. */
  function VecField(fields: map<string, Json>, key: string): Result<Vec3> {
    if key !in fields then Failure(ValidationError("Field required"))
    else match fields[key]
      case JArr(items) =>
        if |items| == 3 && items[0].JNum? && items[1].JNum? && items[2].JNum?
        then Success(Vec3(items[0].n, items[1].n, items[2].n))
        else Failure(ValidationError("Input should be a valid tuple of three numbers"))
      case _ => Failure(ValidationError("Input should be a valid tuple"))
  }

  function NumField(fields: map<string, Json>, key: string): Result<real> {
    if key !in fields then Failure(ValidationError("Field required"))
    else match fields[key]
      case JNum(n) => Success(n)
      case _ => Failure(ValidationError("Input should be a valid number"))
  }

  function OpField(fields: map<string, Json>): Result<Op> {
    if "op" !in fields then Failure(ValidationError("Field required"))
    else if fields["op"] == JStr("and") then Success(And)
    else if fields["op"] == JStr("or") then Success(Or)
    else Failure(ValidationError("Input should be 'and' or 'or'"))
  }

  /**
   * `from_dict`: validation against the discriminated union of the four
   * region classes, dispatched on the `type` tag; unknown keys are ignored.
   */
  function FromDict(j: Json): (r: Result<Region>)
    ensures r.Success? ==> j.JObj? && "type" in j.fields && j.fields["type"] == JStr(Tag(r.value))
    ensures j.JObj? && "type" in j.fields && j.fields["type"] !in {JStr("box"), JStr("sphere"), JStr("not"), JStr("binary")}
            ==> r.Failure?
  {
    match j
    case JObj(fields) =>
      if "type" !in fields then Failure(ValidationError("Unable to extract tag using discriminator 'type'"))
      else if fields["type"] == JStr("box") then
        var lo :- VecField(fields, "min");
        var hi :- VecField(fields, "max");
        Success(Box(lo, hi))
      else if fields["type"] == JStr("sphere") then
        var c :- VecField(fields, "center");
        var rad :- NumField(fields, "radius");
        Success(Sphere(c, rad))
      else if fields["type"] == JStr("not") then
        if "region" !in fields then Failure(ValidationError("Field required"))
        else
          var inner :- FromDict(fields["region"]);
          Success(NotRegion(inner))
      else if fields["type"] == JStr("binary") then
        var op :- OpField(fields);
        if "left" !in fields || "right" !in fields then Failure(ValidationError("Field required"))
        else
          var l :- FromDict(fields["left"]);
          var rt :- FromDict(fields["right"]);
          Success(BinaryRegion(op, l, rt))
      else Failure(ValidationError("Input tag does not match any of the expected tags"))
    case _ => Failure(ValidationError("Input should be a valid dictionary"))
  }

  lemma VecFieldOfVec(fields: map<string, Json>, key: string, v: Vec3)
    requires key in fields && fields[key] == VecToJson(v)
    ensures VecField(fields, key) == Success(v)
  {
  }

  lemma BoxRoundTrip(lo: Vec3, hi: Vec3)
    ensures FromDict(ToDict(Box(lo, hi))) == Success(Box(lo, hi))
  {
    var f := ToDict(Box(lo, hi)).fields;
    VecFieldOfVec(f, "min", lo);
    VecFieldOfVec(f, "max", hi);
  }

  lemma SphereRoundTrip(c: Vec3, rad: real)
    ensures FromDict(ToDict(Sphere(c, rad))) == Success(Sphere(c, rad))
  {
    var f := ToDict(Sphere(c, rad)).fields;
    VecFieldOfVec(f, "center", c);
  }

  lemma NotRoundTrip(inner: Region)
    requires FromDict(ToDict(inner)) == Success(inner)
    ensures FromDict(ToDict(NotRegion(inner))) == Success(NotRegion(inner))
  {
    var f := ToDict(NotRegion(inner)).fields;
    assert f["type"] == JStr("not") && f["region"] == ToDict(inner);
  }

  lemma BinaryRoundTrip(op: Op, l: Region, rt: Region)
    requires FromDict(ToDict(l)) == Success(l)
    requires FromDict(ToDict(rt)) == Success(rt)
    ensures FromDict(ToDict(BinaryRegion(op, l, rt))) == Success(BinaryRegion(op, l, rt))
  {
    var f := ToDict(BinaryRegion(op, l, rt)).fields;
    assert f["type"] == JStr("binary") && f["left"] == ToDict(l) && f["right"] == ToDict(rt);
    assert OpField(f) == Success(op);
  }

  /** Reading a dumped region gives the same region back. */
  lemma {:induction false} FromDictToDict(r: Region)
    ensures FromDict(ToDict(r)) == Success(r)
  {
    match r
    case Box(lo, hi) => BoxRoundTrip(lo, hi);
    case Sphere(c, rad) => SphereRoundTrip(c, rad);
    case NotRegion(inner) =>
      FromDictToDict(inner);
      NotRoundTrip(inner);
    case BinaryRegion(op, l, rt) =>
      FromDictToDict(l);
      FromDictToDict(rt);
      BinaryRoundTrip(op, l, rt);
  }

  /** Hence a region read back from its dictionary form selects the same points on every input. */
  lemma {:induction false} RoundTripMask(r: Region, coords: seq<Vec3>)
    ensures FromDict(ToDict(r)).Success?
    ensures Compute(FromDict(ToDict(r)).value, coords) == Compute(r, coords)
  {
    FromDictToDict(r);
  }
}
