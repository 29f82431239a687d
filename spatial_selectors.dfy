/**
 * `spatial_selectors.py`: the region algebra again, now as pipeline steps
 * that read the positions of a dataset's geometry and return the boolean
 * mask itself (not a dataset carrying it).
 */
module SpatialSelectors {
  import opened Wrappers
  import opened Vectors
  import opened Masks
  import opened DataSets
  import Node
  import RegionSystem

  datatype Selector =
    | Box(min: Vec3, max: Vec3)
    | Sphere(center: Vec3, radius: real)
    | NotSelector(region: Selector)
    | BinarySelector(op: RegionSystem.Op, left: Selector, right: Selector)

  /** The raw-coordinate region with the same parameters. */
  function ToRegion(s: Selector): RegionSystem.Region {
    match s
    case Box(lo, hi) => RegionSystem.Box(lo, hi)
    case Sphere(c, rad) => RegionSystem.Sphere(c, rad)
    case NotSelector(inner) => RegionSystem.NotRegion(ToRegion(inner))
    case BinarySelector(op, l, rt) => RegionSystem.BinaryRegion(op, ToRegion(l), ToRegion(rt))
  }

  /**
   * The mask a selector yields on a list of positions: point by point the
   * same as the raw-coordinate region with the same parameters.
   */
  function Eval(s: Selector, positions: seq<Vec3>): (m: seq<bool>)
    ensures |m| == |positions|
    ensures forall i :: 0 <= i < |positions| ==> m[i] == RegionSystem.Contains(ToRegion(s), positions[i])
  {
    match s
    case Box(lo, hi) => seq(|positions|, i requires 0 <= i < |positions| => WithinBounds(lo, hi, positions[i]))
    case Sphere(c, rad) => seq(|positions|, i requires 0 <= i < |positions| => WithinRadius(c, rad, positions[i]))
    case NotSelector(inner) => Negate(Eval(inner, positions))
    case BinarySelector(op, l, rt) =>
      var lm := Eval(l, positions);
      var rm := Eval(rt, positions);
      if op == RegionSystem.And then AndMasks(lm, rm) else OrMasks(lm, rm)
  }

  /** Hence a selector and its region compute the same mask. */
  lemma SameMaskAsRegion(s: Selector, positions: seq<Vec3>)
    ensures Eval(s, positions) == RegionSystem.Compute(ToRegion(s), positions)
  {
    var a := Eval(s, positions);
    var b := RegionSystem.Compute(ToRegion(s), positions);
    assert forall i :: 0 <= i < |a| ==> a[i] == b[i];
  }

  /** `dataset.geometry.positions`: only the sample-carrying datasets have a geometry. */
  function Positions(d: Data): Result<seq<Vec3>> {
    if d.DataSet? && d.sets.Samples? then Success(d.sets.ds.geometry.positions)
    else Failure(AttributeError("geometry"))
  }

  /**
   * `compute(dataset)`: each primitive reads the positions (failing when the
   * input has no geometry); Not and Binary combine the results of their
   * operands, left before right. The field, mask and groups are never read.
   */
  function Compute(s: Selector, d: Data): (r: Result<seq<bool>>)
    ensures r.Success? <==> d.DataSet? && d.sets.Samples?
    ensures r.Failure? ==> r.error == AttributeError("geometry")
    ensures r.Success? ==> r.value == Eval(s, d.sets.ds.geometry.positions)
  {
    match s
    case Box(lo, hi) =>
      var positions :- Positions(d);
      Success(seq(|positions|, i requires 0 <= i < |positions| => WithinBounds(lo, hi, positions[i])))
    case Sphere(c, rad) =>
      var positions :- Positions(d);
      Success(seq(|positions|, i requires 0 <= i < |positions| => WithinRadius(c, rad, positions[i])))
    case NotSelector(inner) =>
      var m :- Compute(inner, d);
      Success(Negate(m))
    case BinarySelector(op, l, rt) =>
      match Compute(l, d)
      case Failure(e) => Failure(e)
      case Success(lm) =>
        match Compute(rt, d)
        case Failure(e) => Failure(e)
        case Success(rm) => Success(if op == RegionSystem.And then AndMasks(lm, rm) else OrMasks(lm, rm))
  }

  /** `a & b`. */
  function Intersect(a: Selector, b: Selector): (r: Selector)
    ensures r == BinarySelector(RegionSystem.And, a, b)
    ensures forall p :: Eval(r, p) == AndMasks(Eval(a, p), Eval(b, p))
  {
    BinarySelector(RegionSystem.And, a, b)
  }

  /** `a | b`. */
  function Unite(a: Selector, b: Selector): (r: Selector)
    ensures r == BinarySelector(RegionSystem.Or, a, b)
    ensures forall p :: Eval(r, p) == OrMasks(Eval(a, p), Eval(b, p))
  {
    BinarySelector(RegionSystem.Or, a, b)
  }

  /** `~a`. */
  function Complement(a: Selector): (r: Selector)
    ensures r == NotSelector(a)
    ensures forall p :: Eval(r, p) == Negate(Eval(a, p))
  {
    NotSelector(a)
  }

  const BoxClass: Node.ClassRef := Node.ClassRef("Box", "box", true)
  const SphereClass: Node.ClassRef := Node.ClassRef("Sphere", "sphere", true)
  const NotClass: Node.ClassRef := Node.ClassRef("NotSpatialSelector", "not", true)
  const BinaryClass: Node.ClassRef := Node.ClassRef("BinarySpatialSelector", "binary", true)

  /** The class a selector value is an instance of. */
  function ClassOf(s: Selector): Node.ClassRef {
    match s
    case Box(_, _) => BoxClass
    case Sphere(_, _) => SphereClass
    case NotSelector(_) => NotClass
    case BinarySelector(_, _, _) => BinaryClass
  }

  lemma SelectorClassesDistinct()
    ensures Node.Distinct([BoxClass, SphereClass, NotClass, BinaryClass])
  {
    assert BoxClass.tag[0] == 'b' && SphereClass.tag[0] == 's' && NotClass.tag[0] == 'n' && BinaryClass.tag[0] == 'b';
    assert BoxClass.tag[1] != BinaryClass.tag[1];
  }

  /**
   * Loading the module runs the four `@Node.register()` decorators in
   * declaration order; on a registry that was empty, the union built
   * afterwards lists exactly these four classes.
   */
  method RegisterAll(reg: Node.Registry)
    modifies reg
    ensures reg.registry == old(reg.registry) + [BoxClass, SphereClass, NotClass, BinaryClass]
    ensures old(reg.registry) == [] ==>
      reg.BuildDiscriminatedUnion() == Success(Node.UnionSchema([BoxClass, SphereClass, NotClass, BinaryClass], "type"))
  {
    var _ := reg.Register(BoxClass);
    var _ := reg.Register(SphereClass);
    var _ := reg.Register(NotClass);
    var _ := reg.Register(BinaryClass);
    if old(reg.registry) == [] {
      SelectorClassesDistinct();
      assert reg.registry == [BoxClass, SphereClass, NotClass, BinaryClass];
    }
  }
}
