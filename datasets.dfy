/**
 * The record shapes of `datasets.py`. They are plain values: construction
 * checks nothing about the lengths of `field`, `mask`, `groups` and the
 * geometry's positions, and `mask` and `groups` default to absent.
 */
module DataSets {
  import opened Wrappers
  import opened Vectors

  datatype Tensor = Tensor(xx: real, xy: real, xz: real, yx: real, yy: real, yz: real, zx: real, zy: real, zz: real)

  /** `SimpleType = Union[float, int, vector, tensor]`. */
  datatype Value = Float(f: real) | Int(i: int) | Vector(v: Vec3) | TensorValue(t: Tensor)

  /** `FieldType = Union[scalarField, vectorField, tensorField]`. */
  datatype Field =
    | ScalarField(scalars: seq<real>)
    | VectorField(vectors: seq<Vec3>)
    | TensorField(tensors: seq<Tensor>)

  function Size(f: Field): nat {
    match f
    case ScalarField(s) => |s|
    case VectorField(v) => |v|
    case TensorField(t) => |t|
  }

  function At(f: Field, i: nat): Value
    requires i < Size(f)
  {
    match f
    case ScalarField(s) => Float(s[i])
    case VectorField(v) => Vector(v[i])
    case TensorField(t) => TensorValue(t[i])
  }

  /** Which of the three sample-carrying dataset classes a value is. */
  datatype SampleKind = Internal | Patch | Surface

  /** The geometry capability every dataset's geometry offers: one position per sample. */
  datatype Geometry = Geometry(positions: seq<Vec3>)

  /** `InternalDataSet`, `PatchDataSet` and `SurfaceDataSet`: the same fields, distinguished by `kind`. */
  datatype SampleDataSet = SampleDataSet(
    kind: SampleKind,
    name: string,
    field: Field,
    geometry: Geometry,
    mask: Option<seq<bool>> := None,
    groups: Option<seq<int>> := None)

  datatype AggregatedData = AggregatedData(name: string, value: Value, groupName: Option<string> := None)

  /** `values` is an ordered list, kept as given. */
  datatype AggregatedDataSet = AggregatedDataSet(name: string, values: seq<AggregatedData>)

  /** `DataSets`: the four-way union steps are declared to consume and produce. */
  datatype DataSets = Samples(ds: SampleDataSet) | Aggregated(agg: AggregatedDataSet)

  /**
   * Whatever a step's `compute` actually returns and the next step receives:
   * a dataset, the bare boolean array a spatial selector returns, the raw
   * result `Max` returns, or the `None` of the base `Node.compute`.
   */
  datatype Data = DataSet(sets: DataSets) | MaskArray(bits: seq<bool>) | Raw(value: Value) | NoneValue
}
