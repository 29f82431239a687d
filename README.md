# pyOFTools pipeline core in Dafny

This project models the post-processing pipeline engine of pyOFTools and
proves properties of it. The engine has these parts:

- **Step registry.** Step classes register themselves into a shared list (`Node.register`). The discriminated union of step types is built from that list (`Node.build_discriminated_union`).
- **Region algebra.** Box, Sphere, Not and Binary(and/or) regions are evaluated to a per-sample boolean mask. The raw-coordinate version (`region_system.py`) has the `&`/`|`/`~` operators and reads its dictionary form back (`from_dict`). The dataset version (`spatial_selectors.py`) reads a dataset's geometry positions.
- **Directional binning.** Each position is projected onto a direction and labelled as numpy's `digitize` does; the labels replace the dataset's groups.
- **Workflow.** A list of steps is applied left to right to a copy of an initial dataset; `then` appends a step.
- **Aggregators.** The `Sum`, `Mean` and `Max` steps wrap a foreign reduction. They name the results, keep their order and attach groups.
- **CSV writer.** `create_file` writes the header line and `write_data` appends one row.
- **Sampled sets and surfaces.** These are the argument validation and the configuration or dictionary built before the foreign constructor is called.
- **Closest-time selection.** This is `set_time` in the surface example.

One Dafny module per source file:

- `node.dfy`, `datasets.dfy`, `region_system.dfy`, `spatial_selectors.dfy`, `binning.dfy`, `workflow.dfy`, `aggregators.dfy`, `writer.dfy`, `sets.dfy`, `surfaces.dfy` and `surface_example.dfy`.
- Helpers:
  - `wrappers.dfy`: Option, Result and the Python exceptions raised.
  - `vectors.dfy`: 3-vectors over `real`.
  - `masks.dfy`: elementwise mask operations.
  - `text.dfy`: decimal rendering of naturals, `join` and `split`.

How each kind of code is modelled:

- **In-place state** becomes a class.
  - The registry list is `Node.Registry`.
  - A workflow's step list is `Workflow.WorkFlow`.
  - The file contents are `Writer.FileSystem`.
  - An OpenFOAM dictionary is `Surfaces.FoamDictionary`.
- **Loops** become methods proved against a specification function:
  - `Sum.compute`'s entry loop;
  - `WorkFlow.compute`;
  - `set_time`'s argmin scan.
- **Pure code** becomes datatypes and functions: datasets, regions, digitize, and the set validators.
- **Foreign code** is a parameter or is left out.
  - The reductions `aggregation.sum`, `aggregation.mean` and `pybFoam.max` are fields of `Aggregators.Reductions`.
  - Number rendering in the writer is a `real -> string` parameter.
  - The mesh, the mesh search, `sampledSet.New` and `sampledSurface.New` are left out. What the model keeps is what those calls are given.

Where the code and the tests or documentation disagree, the model follows the code:

- **Selectors return a mask.** A spatial selector returns the bare boolean mask (`src/pyOFTools/spatial_selectors.py:31-33`). `tests/test_spatial_selectors.py:43-44` reads `.mask` off the result. As a consequence, in a workflow a selector followed by `Sum` raises `AttributeError`; `Workflow.SelectThenSumFails` proves it.
- **The projection is not normalised.** `Directional` projects onto the direction as given (`src/pyOFTools/binning.py:22`). The normalised vector is computed but unused, and its division still fails for a zero direction.
- **The writer needs a header and takes numbers.** `CSVWriter` requires a `header`, and `write_data` takes a time and a list of numbers (`src/pyOFTools/writer.py:9-18`). `tests/test_writer.py:21-30` builds it without a header and passes a dataset to `write_data`.

## Model

| member | source | states |
|---|---|---|
| `Node.Registry.constructor` | src/pyOFTools/node.py:11 | the shared registry starts empty |
| `Node.Registry.Register` | src/pyOFTools/node.py:13-18 | the class is appended at the end of the registry, with no de-duplication and no check that it is a `Node`, and is returned unchanged |
| `Node.Registry.BuildDiscriminatedUnion` | src/pyOFTools/node.py:20-25 | fails with `RuntimeError("No Node types registered.")` exactly when the registry is empty. Otherwise: the members are exactly the registered classes, each once; the discriminator is `type`; and with no repeated registration the members are the registry itself. It only reads the registry |
| `Node.Dedup` | src/pyOFTools/node.py:24 | `Union[...]` keeps every registered class and lists each once. It equals the registry when nothing was registered twice |
| `Node.DedupKeepsRegistrationOrder` | src/pyOFTools/node.py:24 | union members appear in the order of their first registration |
| `RegionSystem.BaseCompute` | src/pyOFTools/region_system.py:11-12 | the base class's `compute` always raises `NotImplementedError` |
| `RegionSystem.Compute` | src/pyOFTools/region_system.py:25-59 | one mask entry per coordinate row; entry `i` is true iff row `i` lies in the region (Box inclusive on all axes, Sphere within the radius, Not the complement, Binary and/or) |
| `Vectors.WithinRadiusIsDistance` | src/pyOFTools/region_system.py:39 | the squared-distance test used for spheres agrees with `norm(p - c) <= r` for the true distance |
| `RegionSystem.Intersect` | src/pyOFTools/region_system.py:14-15 | `a & b` is `BinaryRegion(and, a, b)` and its mask is the elementwise AND of the operands' masks |
| `RegionSystem.Unite` | src/pyOFTools/region_system.py:17-18 | `a \| b` is `BinaryRegion(or, a, b)` and its mask is the elementwise OR |
| `RegionSystem.Complement` | src/pyOFTools/region_system.py:20-21 | `~a` is `NotRegion(a)` and its mask is the elementwise negation |
| `RegionSystem.DoubleComplement` | src/pyOFTools/region_system.py:47-48 | Not applied twice gives back the original mask |
| `RegionSystem.ToDict` | src/pyOFTools/region_system.py:63-66 | every dumped node carries its class's `type` tag |
| `RegionSystem.FromDict` | src/pyOFTools/region_system.py:71-75 | a parsed region's tag is the `type` of its dictionary; an unknown tag is refused |
| `RegionSystem.FromDictToDict` | src/pyOFTools/region_system.py:71-75 | reading a dumped region gives the same region back |
| `RegionSystem.RoundTripMask` | tests/test_region_system.py:48-69 | a region read back from its dictionary form computes the same mask on every input |
| `SpatialSelectors.Eval` | src/pyOFTools/spatial_selectors.py:25-64 | a selector's mask has one entry per position, and each entry is the membership of that position in the raw-coordinate region with the same parameters |
| `SpatialSelectors.SameMaskAsRegion` | src/pyOFTools/spatial_selectors.py:25-64 | a selector and the corresponding region compute equal masks |
| `SpatialSelectors.Compute` | src/pyOFTools/spatial_selectors.py:31-64 | succeeds exactly on sample-carrying datasets (otherwise `AttributeError` on `geometry`). The result is the mask of the positions itself; field, mask and groups are not read |
| `SpatialSelectors.Intersect` | src/pyOFTools/spatial_selectors.py:15-16 | `a & b` builds Binary("and") and gives the AND of the operands' masks |
| `SpatialSelectors.Unite` | src/pyOFTools/spatial_selectors.py:18-19 | `a \| b` builds Binary("or") and gives the OR of the operands' masks |
| `SpatialSelectors.Complement` | src/pyOFTools/spatial_selectors.py:21-22 | `~a` builds Not and gives the negated mask |
| `SpatialSelectors.RegisterAll` | src/pyOFTools/spatial_selectors.py:25-54 | importing the module registers Box, Sphere, Not and Binary in that order. On an empty registry, the union is then exactly these four |
| `Binning.CountAtMostSplits` | src/pyOFTools/binning.py:24 | on non-decreasing edges the label `k` splits the edges: `bins[j] <= d` for `j < k` and `d < bins[j]` for `j >= k` (0 below the first edge, `len(bins)` at or past the last) |
| `Binning.CountAboveSplits` | src/pyOFTools/binning.py:24 | on non-increasing edges the label splits them the other way: edges above `d`, then edges at most `d` |
| `Binning.Digitize` | src/pyOFTools/binning.py:24 | fails with `ValueError` iff the edges are neither non-decreasing nor non-increasing. Otherwise there is one label per value, each in `0..len(bins)`, and `j < label iff bins[j] <= d` (increasing edges) or `j < label iff bins[j] > d` (decreasing edges) |
| `Binning.EdgeBelongsToUpperBin` | src/pyOFTools/binning.py:24 | with strictly increasing edges, a distance exactly on edge `k` gets label `k + 1` (bins are half-open) |
| `Binning.DigitizeMonotone` | src/pyOFTools/binning.py:24 | a larger distance never gets a smaller label with increasing edges, nor a larger one with decreasing edges |
| `Binning.Projections` | src/pyOFTools/binning.py:22 | the projected distance of each position is `(p - origin) · direction`, using the direction as given |
| `Binning.Compute` | src/pyOFTools/binning.py:18-30 | `AttributeError` without a geometry, then `ZeroDivisionError` for a zero direction, then `ValueError` for non-monotone edges. Otherwise the dataset comes back with its groups replaced by the digitized projections |
| `Binning.ComputeLabelsEachPosition` | src/pyOFTools/binning.py:22-30 | after binning there is one label per position, each in `0..len(bins)`, each at its projection's place among the edges. Name, kind, field, geometry and mask are unchanged |
| `Binning.DamBreakGroups` | example/damBreak/plotResults.py:17-19 | with the dam-break edges `[0, 0.146, 0.292, 0.438, 0.584]` along x, positions at 0.2 and exactly at 0.146 both land in group 2, `0.146-0.292m` |
| `Aggregators.SetName` | src/pyOFTools/aggregators.py:28 | `self.name or default`: the name when it is given and non-empty, the default otherwise |
| `Aggregators.SumOf` | src/pyOFTools/aggregators.py:17-30 | one entry per reduced value, in order. Entry `i` is named `<dataset>_sum_<i>`, holds value `i`, and has group `i` when groups came back. A non-empty group list shorter than the values raises `IndexError`. The set is named `name or "sum"` |
| `Aggregators.SumCompute` | src/pyOFTools/aggregators.py:16-30 | the appending loop yields exactly the specified result |
| `Aggregators.SumEntryNamesDistinct` | src/pyOFTools/aggregators.py:21 | no two sum entries share a name, and the index reads back from the name |
| `Aggregators.MeanSpec` | src/pyOFTools/aggregators.py:38-44 | one entry named `<dataset>_mean` holding the reduction of the field (mask and groups not passed on), in a set named `name or "mean"` |
| `Aggregators.MaxSpec` | src/pyOFTools/aggregators.py:52-54 | the raw reduction result, not a dataset |
| `Aggregators.PartialSum` | tests/test_aggregators.py:63-81 | a sum of scalars is a scalar, of vectors a vector, of tensors a tensor |
| `Aggregators.ReferenceSum` | tests/test_aggregators.py:47-81 | the reduction contract. Without groups: one entry holding the masked total. With groups: one entry per label `0..max(groups)`, entry `g` summing the masked samples labelled `g` |
| `Aggregators.VectorSumComponentwise` | tests/test_aggregators.py:72-81 | vectors are summed componentwise: the x, y and z components of a (masked, grouped) vector sum are the scalar sums of the samples' x, y and z components |
| `Aggregators.SumOfScalarsUngrouped` | tests/test_aggregators.py:47-70 | an unnamed `Sum` over `[1, 2, 3]` gives set `"sum"` with `6`, and `4` under the mask `[T, F, T]` |
| `Aggregators.SumOfScalarsGrouped` | tests/test_aggregators.py:52-70 | with groups `[1, 2, 2]` the sums come out as `[0, 1, 5]` |
| `Workflow.Apply` | src/pyOFTools/node.py:28-29 | the base `Node.compute` returns nothing. A selector step yields its mask, `Sum`/`Mean` yield an aggregated dataset, and `Max` yields a raw value |
| `Workflow.RunSnoc` | src/pyOFTools/workflow.py:14-24 | running the steps plus one more is feeding the outcome of the others to the last one |
| `Workflow.RunNoSteps` | src/pyOFTools/workflow.py:14-18 | with no steps the result is the initial dataset |
| `Workflow.CreateWorkflow` | src/pyOFTools/workflow.py:7-8 | fails exactly when no step type is registered yet. Otherwise the step union's members are the registered classes |
| `Workflow.Instantiate` | src/pyOFTools/workflow.py:10-12 | steps not belonging to the union's classes are refused with a validation error. Otherwise a new workflow holds the given initial dataset and steps |
| `Workflow.WorkFlow.constructor` | src/pyOFTools/workflow.py:10-12 | `steps` defaults to empty |
| `Workflow.WorkFlow.Then` | src/pyOFTools/workflow.py:22-24 | appends the step in place, keeps the earlier steps, returns the same workflow |
| `Workflow.WorkFlow.Compute` | src/pyOFTools/workflow.py:14-18 | the loop computes the left-to-right application of the steps to the initial dataset and changes nothing |
| `Workflow.SelectThenSumFails` | src/pyOFTools/aggregators.py:15 | a selector followed by `Sum` raises `AttributeError` on `field` |
| `Workflow.BinThenSum` | src/pyOFTools/aggregators.py:15 | after binning, `Sum` reduces the unchanged field and mask under the binning's labels |
| `Writer.Created` | src/pyOFTools/writer.py:12-14 | `create_file` leaves the file holding only the header joined by `,` plus a newline; other files are untouched |
| `Writer.Appended` | src/pyOFTools/writer.py:16-18 | `write_data` appends one newline-terminated row after the existing contents; other files are untouched |
| `Writer.RowFields` | src/pyOFTools/writer.py:18 | a row has `len(values) + 1` fields: the time, then the values in order |
| `Writer.CSVWriter.Path` | src/pyOFTools/writer.py:13 | both operations target `name + ".csv"` |
| `Writer.CSVWriter.CreateFile` | src/pyOFTools/writer.py:12-14 | the file system becomes `Created` of the old one |
| `Writer.CSVWriter.WriteData` | src/pyOFTools/writer.py:16-18 | the file system becomes `Appended` of the old one, with no check of the row length |
| `Writer.CSVWriter.Close` | src/pyOFTools/writer.py:20-21 | closing changes nothing |
| `Writer.LogContents` | src/pyOFTools/writer.py:12-18 | after `create_file` and k writes, the file is the header line followed by the k rows in call order |
| `Writer.RowFieldCount` | src/pyOFTools/writer.py:18 | a written row splits back into exactly its `len(values) + 1` rendered fields |
| `Writer.LogLines` | src/pyOFTools/writer.py:12-18 | after `create_file` and k writes, the file has 1 + k lines: the header, then the rows in order |
| `Sets.ToTuple` | src/pyOFTools/sets.py:15-21 | a list or tuple of exactly 3 numbers becomes that point. Another length raises `ValueError`; another type raises `TypeError` |
| `Sets.ToTupleAsList` | src/pyOFTools/sets.py:17-20 | a point given as its coordinate list or tuple converts back to itself |
| `Sets.ConvertPoints` | src/pyOFTools/sets.py:132 | succeeds iff every point converts, keeping the order. Otherwise it raises the error of the first point that does not convert |
| `Sets.CreateUniformSet` | src/pyOFTools/sets.py:68-80 | `start`, then `end` are converted before `n_points <= 0` is refused. The config carries the axis, both points as lists, and the count |
| `Sets.CreateCloudSet` | src/pyOFTools/sets.py:128-138 | an empty list is refused before any point is converted. The config holds every converted point in order, and `axis` defaults to `"xyz"` |
| `Sets.CreatePolylineSet` | src/pyOFTools/sets.py:189-203 | fewer than 2 points is refused first, then `n_points <= 0`, and only then are the points converted |
| `Sets.CreateCircleSet` | src/pyOFTools/sets.py:255-269 | origin, axis and start point are converted in that order, then `d_theta <= 0` is refused. `axis` goes to `circleAxis` and `axis_type` to `axis` |
| `Surfaces.FoamDictionary.Set` | src/pyOFTools/surfaces.py:66-71 | `set` adds or replaces one keyword's entry and leaves the others |
| `Surfaces.ToTuple` | src/pyOFTools/surfaces.py:14-20 | a mapping gives `(x, y, z)`, a missing key reading as 0. Anything else is returned unchanged |
| `Surfaces.MakeVector` | src/pyOFTools/surfaces.py:68-69 | `vector(*point)` succeeds iff there are exactly three components |
| `Surfaces.DictPointIsVector` | src/pyOFTools/surfaces.py:18-19 | a point given as a mapping always yields a vector |
| `Surfaces.PlaneDefinition` | src/pyOFTools/surfaces.py:66-71 | `type=plane`, `point`, `normal`; `triangulate` is present (true) iff requested |
| `Surfaces.PatchDefinition` | src/pyOFTools/surfaces.py:107-111 | `type=patch`, the patch word list; `triangulate` is present iff requested |
| `Surfaces.CuttingPlaneDefinition` | src/pyOFTools/surfaces.py:157-162 | `type=cuttingPlane`, `point`, `normal`; `interpolate` is present (false) iff interpolation is off |
| `Surfaces.IsoDefinition` | src/pyOFTools/surfaces.py:206-213 | `type=isoSurface`, `isoField`, `isoValue`; `interpolate` and `regularise` are present (false) iff switched off |
| `Surfaces.NewAndUpdate` | src/pyOFTools/surfaces.py:73-74 | the surface is built from the dictionary and updated exactly once |
| `Surfaces.CreatePlaneSurface` | src/pyOFTools/surfaces.py:23-75 | fails with `TypeError` iff the point or the normal is not three components. Otherwise the surface is built once from the plane dictionary |
| `Surfaces.CreatePatchSurface` | src/pyOFTools/surfaces.py:78-115 | the surface is built once from the patch dictionary |
| `Surfaces.CreateCuttingPlane` | src/pyOFTools/surfaces.py:118-166 | as the plane, with the cutting-plane dictionary |
| `Surfaces.CreateIsoSurface` | src/pyOFTools/surfaces.py:169-217 | the surface is built once from the iso-surface dictionary |
| `SurfaceExample.SetTime` | example/surface_example.py:85-108 | an empty time list raises `IndexError`. `"latest"` picks `size - 1`. Otherwise the index is in range, minimises `\|times[i] - target\|`, and no earlier index is as close (first wins on ties) |
| `SurfaceExample.FirstClosestUnique` | example/surface_example.py:104 | the strict `<` leaves exactly one admissible index |
| `SurfaceExample.TieGoesToEarlier` | example/surface_example.py:104 | with times `[1, 2, 3]` and target 1.5 the earlier of the two equally close times is chosen |

## Left out

- The foreign OpenFOAM/pybFoam calls are not modelled: `sampledSet.New`, `meshSearch`, `sampledSurface.New`/`update`, `aggregation.sum`/`mean`, `pybFoam.max`, `mag`, `dictionary`. The reductions are parameters; only the tests' contract for the sum is given (`Aggregators.ReferenceSum`). A surface is what it was built from plus an update count.
- The geometry adapters of `src/pyOFTools/geometry.py` are not part of this model. Positions are a plain sequence of 3-vectors.
- pydantic's machinery is out of scope: field coercion, revalidation, error texts (they are abbreviated), and what `Union` does when two registered classes share a tag. Step validation against the union is class membership (`Workflow.Instantiate`).
- `from_yaml` is not modelled: YAML parsing is foreign. The dictionary form is a small JSON-like tree; extra keys are ignored as pydantic does.
- Actual file I/O is not modelled; files are a map from path to text. Python's `str` of a float is the `render` parameter, assumed to produce no comma or newline.
- Floating-point rounding and NaN are not modelled: values and coordinates are mathematical reals. The sphere test uses the squared distance, so there is no square root.
- The CLI, the package re-exports, plotting, the driver scripts and the rest of the surface example are not modelled; they are wiring and I/O.
- `Binning.Compute`: the source writes the new groups into the dataset object it was given and returns that object. The model returns the updated value, so the aliasing (the caller's object also changes) is not captured.
- `WorkFlow = create_workflow()` at import time is not modelled: what it contains depends on which modules were imported before, which is outside the model.
- `Aggregators.SumOf`: group names are taken to be strings as returned by the reduction. Whether pydantic accepts the reduction's group labels as `group_name` is not modelled.
- `SurfaceExample.SetTime`: converting a non-`"latest"` text with `float()` is not modelled; the target is given as a number. An empty list under `"latest"` indexes position -1 of a foreign list and is modelled as `IndexError` like the other branch.
- `Sets.ToTuple`: `float(x)` on the coordinates cannot fail in the model, because coordinates are already numbers.
- `Surfaces.MakeVector`: pybFoam's `vector` is foreign. Its refusal of anything but three components is modelled as a `TypeError`.
