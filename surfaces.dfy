/**
 * `surfaces.py`: each factory fills an OpenFOAM `dictionary` through
 * successive, partly conditional `set` calls, then constructs the sampled
 * surface from it (`sampledSurface.New`) and updates it once. The surface
 * itself is foreign: here it is the name and definition it was built from
 * and the number of updates it received.
 */
module Surfaces {
  import opened Wrappers
  import opened Vectors

  /** The entry kinds the factories write. */
  datatype Entry = WordEntry(word: string) | VectorEntry(v: Vec3) | BoolEntry(b: bool) | ScalarEntry(r: real) | WordListEntry(words: seq<string>)

  /** An OpenFOAM dictionary: `set` adds or replaces one keyword's entry. */
  class FoamDictionary {
    var entries: map<string, Entry>

    constructor ()
      ensures entries == map[]
    {
      entries := map[];
    }

    method Set(key: string, e: Entry)
      modifies this
      ensures entries == old(entries)[key := e]
    {
      entries := entries[key := e];
    }
  }

  /** A point argument: a mapping of coordinate names, or a sequence of numbers used as it is. */
  datatype SurfacePoint = DictPoint(coords: map<string, real>) | TuplePoint(items: seq<real>)

  function Get(coords: map<string, real>, key: string): real {
    if key in coords then coords[key] else 0.0
  }

  /** `_to_tuple(point)`: a mapping gives its `x`, `y`, `z` (missing ones read as 0); anything else passes through unvalidated. */
  function ToTuple(p: SurfacePoint): (r: seq<real>)
    ensures p.DictPoint? ==> r == [Get(p.coords, "x"), Get(p.coords, "y"), Get(p.coords, "z")]
    ensures p.TuplePoint? ==> r == p.items
  {
    match p
    case DictPoint(c) => [Get(c, "x"), Get(c, "y"), Get(c, "z")]
    case TuplePoint(items) => items
  }

  /** `vector(*point)`: the constructor takes exactly three components. */
  function MakeVector(items: seq<real>): (r: Result<Vec3>)
    ensures r.Success? <==> |items| == 3
    ensures r.Success? ==> r.value == Vec3(items[0], items[1], items[2])
  {
    if |items| == 3 then Success(Vec3(items[0], items[1], items[2])) else Failure(TypeError("vector takes 3 components"))
  }

  /** A mapping point always yields a vector, whichever keys it has. */
  lemma DictPointIsVector(c: map<string, real>)
    ensures MakeVector(ToTuple(DictPoint(c))) == Success(Vec3(Get(c, "x"), Get(c, "y"), Get(c, "z")))
  {
  }

  /** What `sampledSurface.New` was given and how many times `update` ran. */
  datatype SampledSurface = SampledSurface(name: string, definition: map<string, Entry>, updates: nat)

  /** The plane's dictionary: `triangulate` is present, set to true, only when requested. */
  function PlaneDefinition(point: Vec3, normal: Vec3, triangulate: bool): (d: map<string, Entry>)
    ensures d.Keys == {"type", "point", "normal"} + (if triangulate then {"triangulate"} else {})
    ensures d["type"] == WordEntry("plane") && d["point"] == VectorEntry(point) && d["normal"] == VectorEntry(normal)
    ensures ("triangulate" in d <==> triangulate) && (triangulate ==> d["triangulate"] == BoolEntry(true))
  {
    var base := map["type" := WordEntry("plane"), "point" := VectorEntry(point), "normal" := VectorEntry(normal)];
    if triangulate then base["triangulate" := BoolEntry(true)] else base
  }

  function PatchDefinition(patches: seq<string>, triangulate: bool): (d: map<string, Entry>)
    ensures d.Keys == {"type", "patches"} + (if triangulate then {"triangulate"} else {})
    ensures d["type"] == WordEntry("patch") && d["patches"] == WordListEntry(patches)
    ensures ("triangulate" in d <==> triangulate) && (triangulate ==> d["triangulate"] == BoolEntry(true))
  {
    var base := map["type" := WordEntry("patch"), "patches" := WordListEntry(patches)];
    if triangulate then base["triangulate" := BoolEntry(true)] else base
  }

  /** The cutting plane's dictionary: `interpolate` is written, as false, only when interpolation is switched off. */
  function CuttingPlaneDefinition(point: Vec3, normal: Vec3, interpolate: bool): (d: map<string, Entry>)
    ensures d.Keys == {"type", "point", "normal"} + (if interpolate then {} else {"interpolate"})
    ensures d["type"] == WordEntry("cuttingPlane") && d["point"] == VectorEntry(point) && d["normal"] == VectorEntry(normal)
    ensures ("interpolate" in d <==> !interpolate) && (!interpolate ==> d["interpolate"] == BoolEntry(false))
  {
    var base := map["type" := WordEntry("cuttingPlane"), "point" := VectorEntry(point), "normal" := VectorEntry(normal)];
    if interpolate then base else base["interpolate" := BoolEntry(false)]
  }

  /** The iso-surface's dictionary: the two flags are written, as false, only when switched off. */
  function IsoDefinition(fieldName: string, isoValue: real, interpolate: bool, regularise: bool): (d: map<string, Entry>)
    ensures d.Keys == {"type", "isoField", "isoValue"} + (if interpolate then {} else {"interpolate"}) + (if regularise then {} else {"regularise"})
    ensures d["type"] == WordEntry("isoSurface") && d["isoField"] == WordEntry(fieldName) && d["isoValue"] == ScalarEntry(isoValue)
    ensures ("interpolate" in d <==> !interpolate) && (!interpolate ==> d["interpolate"] == BoolEntry(false))
    ensures ("regularise" in d <==> !regularise) && (!regularise ==> d["regularise"] == BoolEntry(false))
  {
    var base := map["type" := WordEntry("isoSurface"), "isoField" := WordEntry(fieldName), "isoValue" := ScalarEntry(isoValue)];
    var withInterpolate := if interpolate then base else base["interpolate" := BoolEntry(false)];
    if regularise then withInterpolate else withInterpolate["regularise" := BoolEntry(false)]
  }

  /** `sampledSurface.New(name, mesh, dict)` followed by one `update()`. */
  function NewAndUpdate(name: string, definition: map<string, Entry>): (s: SampledSurface)
    ensures s.name == name && s.definition == definition && s.updates == 1
  {
    var created := SampledSurface(name, definition, 0);
    created.(updates := created.updates + 1)
  }

  /**
   * `create_plane_surface`: both points pass through `_to_tuple`; the
   * dictionary is filled, failing at the first argument that is not three
   * components, and the surface is built from it and updated once.
   */
  method CreatePlaneSurface(name: string, point: SurfacePoint, normal: SurfacePoint, triangulate: bool := false)
    returns (r: Result<SampledSurface>)
    ensures r.Success? <==> |ToTuple(point)| == 3 && |ToTuple(normal)| == 3
    ensures r.Failure? ==> r.error.TypeError?
    ensures r.Success? ==> r.value == NewAndUpdate(name, PlaneDefinition(MakeVector(ToTuple(point)).value, MakeVector(ToTuple(normal)).value, triangulate))
  {
    var p := ToTuple(point);
    var n := ToTuple(normal);
    var dict := new FoamDictionary();
    dict.Set("type", WordEntry("plane"));
    var pv :- MakeVector(p);
    dict.Set("point", VectorEntry(pv));
    var nv :- MakeVector(n);
    dict.Set("normal", VectorEntry(nv));
    if triangulate {
      dict.Set("triangulate", BoolEntry(true));
    }
    r := Success(NewAndUpdate(name, dict.entries));
  }

  /** `create_patch_surface`: the patch names go in as a word list. */
  method CreatePatchSurface(name: string, patches: seq<string>, triangulate: bool := false) returns (s: SampledSurface)
    ensures s == NewAndUpdate(name, PatchDefinition(patches, triangulate))
  {
    var dict := new FoamDictionary();
    dict.Set("type", WordEntry("patch"));
    dict.Set("patches", WordListEntry(patches));
    if triangulate {
      dict.Set("triangulate", BoolEntry(true));
    }
    s := NewAndUpdate(name, dict.entries);
  }

  /** `create_cutting_plane`. */
  method CreateCuttingPlane(name: string, point: SurfacePoint, normal: SurfacePoint, interpolate: bool := true)
    returns (r: Result<SampledSurface>)
    ensures r.Success? <==> |ToTuple(point)| == 3 && |ToTuple(normal)| == 3
    ensures r.Failure? ==> r.error.TypeError?
    ensures r.Success? ==> r.value == NewAndUpdate(name, CuttingPlaneDefinition(MakeVector(ToTuple(point)).value, MakeVector(ToTuple(normal)).value, interpolate))
  {
    var p := ToTuple(point);
    var n := ToTuple(normal);
    var dict := new FoamDictionary();
    dict.Set("type", WordEntry("cuttingPlane"));
    var pv :- MakeVector(p);
    dict.Set("point", VectorEntry(pv));
    var nv :- MakeVector(n);
    dict.Set("normal", VectorEntry(nv));
    if !interpolate {
      dict.Set("interpolate", BoolEntry(false));
    }
    r := Success(NewAndUpdate(name, dict.entries));
  }

  /** `create_iso_surface`. */
  method CreateIsoSurface(name: string, fieldName: string, isoValue: real, interpolate: bool := true, regularise: bool := true)
    returns (s: SampledSurface)
    ensures s == NewAndUpdate(name, IsoDefinition(fieldName, isoValue, interpolate, regularise))
  {
    var dict := new FoamDictionary();
    dict.Set("type", WordEntry("isoSurface"));
    dict.Set("isoField", WordEntry(fieldName));
    dict.Set("isoValue", ScalarEntry(isoValue));
    if !interpolate {
      dict.Set("interpolate", BoolEntry(false));
    }
    if !regularise {
      dict.Set("regularise", BoolEntry(false));
    }
    s := NewAndUpdate(name, dict.entries);
  }
}
