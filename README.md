# RPC geometry builder from the detector description — Dafny model

This project models the core of `RPCGeometryBuilderFromDDD`, which turns the
filtered detector-description walk into the RPC geometry. Each node that
passes the `ReadOutName == MuonRPCHits` filter becomes one RPC roll. The
builder:

- looks up the `nStrips` attribute in the node's specifics tables;
- classifies the solid as Barrel (exactly 3 parameters, rectangular bounds)
  or Endcap (any other count, trapezoidal bounds built from parameters 4, 8
  and 0 and a fixed 0.4 mm thickness);
- converts every length from mm to cm (`cm` = 10 mm, as in CLHEP);
- packs the roll-spec parameters: `[width, length, strips]` for Barrel,
  `[dpar[4], dpar[8], dpar[0], strips]` for Endcap;
- for Endcap rolls, changes the local axes to `newX = x`, `newZ = y` and
  `newY = z`, with `newY` reversed when the node's global z is strictly
  positive;
- appends the roll to the geometry and moves to the next sibling.

Modules:

- `Wrappers` (`wrappers.dfy`): `Option` and `Result`.
- `RollConstruction` (`roll_construction.dfy`) holds the per-node work:
  - the node, bounds, roll-spec and roll values;
  - the strip lookup loop `FetchStrips`, specified by `LastFetch`;
  - pure functions for classification, bounds, parameters, position and axes;
  - `NodeRoll`, the whole visit of one node, including the faults that abort
    a build.
- `GeometryBuilder` (`geometry_builder.dfy`):
  - the filtered view as a cursor (`FilteredView`);
  - the append-only `RPCGeometry`;
  - the loop `BuildGeometry`, proved against the function `Assemble`, and
    the lemmas about `Assemble`;
  - the entry point `Build`.
- `BuildScenario` (`build_scenario.dfy`): a concrete two-node walk.

The muon numbering (`geoHistoryToBaseNumber`, `baseNumberToUnitNumber`) is
kept uninterpreted. It is a pair of function parameters, `Numbering`.

The code keeps a local `nStrips` that starts at 0 (line 143), but only
`LOCAL_DEBUG` output reads it (lines 150, 218). The roll-spec parameter list
takes `numbOfStrips.doubles()[0]` (lines 179, 197), the value of the last
successful fetch, so a node with no `nStrips` in any table leaves that value
undefined. Likewise an Endcap solid with fewer than 9 parameters reads
`dpar[4]` (fewer than 5 parameters) or `dpar[8]` out of range (lines
187-188). Both reads are undefined behaviour in the source; the model makes
each one abort the build, with `MissingStripCount` and `ParameterOutOfRange`
respectively (see `BuildScenario.MissingStripsAbort` and "Left out").

## Model

| member | source | states |
|---|---|---|
| `RollConstruction.TruncToInt` | src/RPCGeometryBuilderFromDDD.cc:146 | `int(double)` truncates toward zero: the result lies within 1 of the value, on the value's side of 0 |
| `RollConstruction.LastFetch` | src/RPCGeometryBuilderFromDDD.cc:139-148 | a fetched strip value is the `nStrips` value of some specifics table |
| `RollConstruction.LastFetchNone` | src/RPCGeometryBuilderFromDDD.cc:143-148 | nothing is fetched if and only if no specifics table holds `nStrips` |
| `RollConstruction.LastMatchWins` | src/RPCGeometryBuilderFromDDD.cc:144-147 | the last table holding `nStrips` decides the fetched value, whatever the earlier tables hold |
| `RollConstruction.FetchStrips` | src/RPCGeometryBuilderFromDDD.cc:139-148 | the loop over the tables returns the last fetched value, and a local count that is 0 when nothing was fetched and otherwise the truncated last value |
| `RollConstruction.ShapeOf` | src/RPCGeometryBuilderFromDDD.cc:170 | a solid is Barrel if and only if it has exactly 3 parameters, otherwise Endcap |
| `RollConstruction.BoundsOf` | src/RPCGeometryBuilderFromDDD.cc:170-193 | bounds are rectangular exactly for Barrel; multiplying each bound by cm gives back `dpar[0]`, `dpar[1]`, `dpar[2]` (Barrel) or `dpar[4]`, `dpar[8]`, `dpar[0]` and 0.4 (Endcap) |
| `RollConstruction.ParsOf` | src/RPCGeometryBuilderFromDDD.cc:177-197 | pars has 3 entries for Barrel and 4 for Endcap: the in-plane sizes of the bounds, in order, then the strip value |
| `RollConstruction.PositionOf` | src/RPCGeometryBuilderFromDDD.cc:158 | scaling the position back by cm gives the node's translation, component by component |
| `RollConstruction.AxesOf` | src/RPCGeometryBuilderFromDDD.cc:208-214 | Barrel keeps its rotation; Endcap gets `newX = (1,0,0)`, `newZ = (0,1,0)` and `newY = ±(0,0,1)`, reversed if and only if z > 0 strictly |
| `RollConstruction.EndcapAxesFrame` | src/RPCGeometryBuilderFromDDD.cc:208-214 | the Endcap axes are orthonormal; they are right-handed exactly when z > 0 and left-handed when z <= 0 |
| `RollConstruction.NodeRoll` | src/RPCGeometryBuilderFromDDD.cc:113-216 | a node yields a roll if and only if its parameters are readable and a strip value was fetched; the out-of-range read takes precedence over the missing strips; the roll's id comes from the numbering of the node's path; its position, bounds, axes, shape, name and pars are the ones above |
| `RollConstruction.BarrelRoll` | src/RPCGeometryBuilderFromDDD.cc:170-180 | a 3-parameter solid gives a Barrel roll with bounds `(dpar[0], dpar[1], dpar[2])/cm`, pars `[dpar[0]/cm, dpar[1]/cm, strips]` and its rotation kept |
| `RollConstruction.EndcapRoll` | src/RPCGeometryBuilderFromDDD.cc:186-214 | a solid with at least 9 parameters gives an Endcap roll with bounds `(dpar[4], dpar[8], dpar[0], 0.4)/cm`, pars `[dpar[4]/cm, dpar[8]/cm, dpar[0]/cm, strips]` and `newY` reversed if and only if z > 0 |
| `RollConstruction.EndcapThicknessFixed` | src/RPCGeometryBuilderFromDDD.cc:190 | every Endcap roll has the same thickness, 0.04 cm, whatever its solid |
| `GeometryBuilder.FilteredView.constructor` | src/RPCGeometryBuilderFromDDD.cc:53-54 | the view starts at the root (cursor -1) over the filtered nodes |
| `GeometryBuilder.FilteredView.FirstChild` | src/RPCGeometryBuilderFromDDD.cc:101 | from the root, moves to the first node and reports true, or stays and reports false when there is none |
| `GeometryBuilder.FilteredView.NextSibling` | src/RPCGeometryBuilderFromDDD.cc:230 | moves to the next node and reports true, or stays and reports false at the last one |
| `GeometryBuilder.FilteredView.Current` | src/RPCGeometryBuilderFromDDD.cc:154-156 | the current node is the filtered node at the cursor |
| `GeometryBuilder.RPCGeometry.constructor` | src/RPCGeometryBuilderFromDDD.cc:93 | a new geometry holds no rolls |
| `GeometryBuilder.RPCGeometry.Add` | src/RPCGeometryBuilderFromDDD.cc:228 | appends the roll at the end and keeps every earlier roll, without checking its id |
| `GeometryBuilder.Assemble` | src/RPCGeometryBuilderFromDDD.cc:101-231 | a successful walk yields exactly one roll per visited node |
| `GeometryBuilder.AssembleSucceeds` | src/RPCGeometryBuilderFromDDD.cc:106-231 | the walk yields a geometry if and only if every visited node's roll can be built |
| `GeometryBuilder.AssembleAt` | src/RPCGeometryBuilderFromDDD.cc:106-231 | the k-th roll of the geometry is the roll of the k-th visited node, in visit order |
| `GeometryBuilder.AssembleFailsAtFirstFault` | src/RPCGeometryBuilderFromDDD.cc:106-231 | a walk whose first faulty node is k fails with that node's fault, and no geometry is returned |
| `GeometryBuilder.DistinctIdsIffDistinctNumbers` | src/RPCGeometryBuilderFromDDD.cc:117-133 | roll ids are pairwise distinct if and only if the numbering gives the visited paths distinct ids; duplicates are neither detected nor removed |
| `GeometryBuilder.AssembleExtend` | src/RPCGeometryBuilderFromDDD.cc:227-230 | building one more node appends its roll to those already built |
| `GeometryBuilder.AssembleFailsAt` | src/RPCGeometryBuilderFromDDD.cc:106-231 | after a successful prefix, a fault at the next node is the fault of the whole walk |
| `GeometryBuilder.BuildGeometry` | src/RPCGeometryBuilderFromDDD.cc:88-233 | the loop returns a fresh geometry whose rolls are exactly `Assemble` of the filtered nodes (empty when `firstChild` fails), or the same fault as `Assemble`; on success the view is left at the last node, on failure at the node whose roll could not be built |
| `GeometryBuilder.Build` | src/RPCGeometryBuilderFromDDD.cc:35-84 | all or nothing: a geometry exactly when every node's roll can be built, holding one roll per node in walk order; otherwise the fault of the first node whose roll cannot be built |
| `BuildScenario.TwoRollWalk` | src/RPCGeometryBuilderFromDDD.cc:139-214 | a Barrel node (200, 400, 10 mm; 32 strips) and an Endcap node (60, 50, 80 mm at indices 0, 4, 8; z < 0) give bounds 20 x 40 x 1 and (5, 8, 6) cm, pars [20, 40, 32] and [5, 8, 6, strips], and no reversal of `newY` |
| `BuildScenario.MissingStripsAbort` | src/RPCGeometryBuilderFromDDD.cc:139-197 | the same walk with no `nStrips` on the Endcap node aborts with `MissingStripCount` instead of defaulting to 0 |

## Left out

- `NodeRoll`: the out-of-range reads (`dpar[4]`/`dpar[8]` with fewer than 9 parameters, `doubles()[0]` with no fetch) are undefined in the source; the model makes each one abort the build (`ParameterOutOfRange`, `MissingStripCount`).
- Filter setup and the traversal internals of `DDFilteredView` (lines 41-54). The walk is the sequence of nodes that already passed the filter. `FilteredView` is a cursor over it.
- `DDException` and the other exceptions that the description source can raise during the walk. The model has no failing walk; the only faults it models are the out-of-range reads of the node's own data.
- `MuonDDDNumbering` and `RPCNumberingScheme` are not part of this model. Their code is not available, so the uniqueness of ids cannot be shown. `DistinctIdsIffDistinctNumbers` reduces it to the numbering.
- `RPCDetId` construction from the raw id: the roll keeps the raw id.
- `rotation().inverse()`, `rotateAxes` and the `RectangularPlaneBounds`, `TrapezoidalPlaneBounds`, `BoundPlane`, `RPCRoll` and `RPCGeometry::add` internals. The roll records the node's rotation as given, the chosen axes and the bounds values, not the resulting matrix or objects.
- Floating point: lengths are reals. The `float` narrowing of bounds and pars and double rounding are not modelled. `TruncToInt` truncates onto unbounded integers, so the overflow of the `int` conversion is not modelled (only debug output uses it).
- Specifics tables keep only the first numeric value of each attribute. Reading `doubles()[0]` of an attribute with no values is not modelled.
- Error logging to `std::cerr`, `std::unexpected()`, `LOCAL_DEBUG` output (the only use of the local strip count) and raw-pointer ownership.
