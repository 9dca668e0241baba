# RebarRatioVoxel core, in Dafny

RebarRatioVoxel is a browser viewer for IFC building models. It turns the concrete of a
model into voxels, so that each voxel can be coloured by the share of reinforcing bar
inside it. This project models the parts of that viewer that compute something:

- **Voxel-size settings** (`Loader`, src/core/model-loader.ts). `ModelSetting` holds four
  fields, and the voxel size is looked up from a volume step table. The module also
  covers the bounds of a fragment's indexed vertices and the running world-space box of
  all fragments.
- **Lattice voxelizer** (`Handler`, src/core/model-handler.ts). It walks a 3-D lattice
  over a box and decides occupancy by two ray-voting rules. The module also covers the
  generator variant and typed-array concatenation.
- **Element store** (`Elements`, src/core/model-element.ts). This is the concrete and
  rebar lists, the union box of the concrete and its volume, and the per-instance
  geometry copies. It also covers the defaults of a new voxel record.
- **Ratio-range table** (`RatioRanges`, DetectSetting/index.tsx). It splits 0..100 %
  evenly into N coloured ranges. It also builds the `{color, label, ratio: {min, max}}`
  records and reads a saved table back.
- **Apply-settings decision** (`VoxelSettings`, VoxelSetting/index.tsx). A changed voxel
  size rebuilds the voxels. A changed roundness or transparency only re-renders them.
- **Visibility menus** (`MenuToggle`, `ShowHideVoxel` and `ElementShow`). These are
  checkbox lists with an "all" item, the menus shown when a model loads, and the viewer
  call each item makes.

`Geometry` holds the parts of three.js's `Vector3` and `Box3` that the voxelizer uses,
and the fragment mesh as the loader sees it. `Wrappers` holds `Option` (JavaScript's
`undefined`) and `Result` (a thrown error).

Conventions of the model:

- **Ray casts.** Ray casts (`Raycaster.intersectObject`) are a parameter of type
  `Caster`. It gives the distance of the first hit of a ray, or `None` when the ray
  hits nothing.
- **Transforms and boxes.** The mesh world matrix, the per-instance matrices and
  `Box3.setFromObject` are fields of `FragmentMesh`.
- **Lattice steps.** The voxelizers step `x += gridSize` in floating point. The model
  uses the exact lattice point `min + i * gridSize`; `Handler.AxisCountExact` proves
  that the source's loop test `min + i * gridSize <= max` holds for exactly the first
  `AxisCount` indices.
- **Rounding and parsing.** `toFixed(0)` of `100 / n * i` is integer round-half-up of
  `100 * i / n`. For the range counts the menu offers (0 and 2..10), the double
  arithmetic gives the same digits. Boundary points are integers, because the table
  builder reads them back with `parseInt`.
- **Undeclared settings.** `voxelizeModel` reads `modelElement.boundingBox` and
  `settings.gridSize` (src/core/model-handler.ts:41, 58). Neither is declared:
  `ModelElement` has `boundingBoxConcrete` and `ModelSetting` has no `gridSize`.
  As written, `voxelizeModel` therefore always returns at its first test. The model
  takes the box and the grid size as parameters and models the loops that follow.
  `checkCollision` and `handleVoxelModel` read the same missing `gridSize`.
- **Default roundness.** The `VoxelModelData` constructor defaults `boxRoundness` to 0
  (src/core/model-element.ts:23). Its only caller (src/core/model-handler.ts:72) passes
  the value, so `Elements.NewVoxel` takes it as a plain parameter.
- **Transparency of new voxels.** `voxelizeModel` creates each voxel without a
  transparency argument, so the voxel's `transparent` is `None`.
- **Start value of fragment bounds.** `getFragmentBounds` starts its running minimum at
  `Number.MIN_VALUE` (2^-1074, the smallest positive double) and its maximum at minus
  that. The model keeps this value exactly. As a result, the bounds always enclose that
  start box, which lies within Number.MIN_VALUE of the origin
  (`Loader.FragmentBoundsContain`).
- **Colour ids.** The colour menu passes numeric colours (`0x00d4ff`, ...) to
  `showVoxelByColor`, which compares them with `===` against the string colours of the
  voxels. The model records the numeric colour each item passes.

## Model

| member | source | states |
|---|---|---|
| `Loader.ModelSetting.constructor` | src/core/model-loader.ts:19-24 | The defaults are voxel size 0.5, roundness 0.01, transparency 0.4 and size limit 0.5. |
| `Loader.ModelSetting.Setup` | src/core/model-loader.ts:26-30 | The voxel size becomes the table scale for the volume and the size limit becomes size + 1. Roundness and transparency are unchanged. |
| `Loader.ModelSetting.SetupSetting` | src/core/model-loader.ts:32-40 | It copies exactly the three settings, leaves the size limit as it was and reports success. |
| `Loader.ModelSetting.CalculateScale` | src/core/model-loader.ts:43-71 | The early return and the scan with `break` compute the step-table scale `ScaleFor(volume)`. |
| `Loader.TableShape` | src/core/model-loader.ts:44-58 | The table has 14 rows whose volumes and scales both rise strictly, from (0, 0.2) to (30000, 1.5). |
| `Loader.FirstScaleFromIsFirstMatch` | src/core/model-loader.ts:63-71 | The scan returns the scale of the first row whose bound is at least the volume, and takes the fallback branch exactly when no row matches. |
| `Loader.ScaleIsFirstMatch` | src/core/model-loader.ts:60-71 | The scale is 1.5 from volume 30000 on. Below that it is the scale of the first row whose bound is at least the volume, so the fallback branch is never taken. |
| `Loader.ScaleSteps` | src/core/model-loader.ts:44-71 | A volume of at most 0 gives 0.2, (0, 200] gives 0.3 and (200, 600] gives 0.4. |
| `Loader.ScaleRange` | src/core/model-loader.ts:43-71 | The voxel size always lies in [0.2, 1.5]. |
| `Loader.ScaleMonotone` | src/core/model-loader.ts:43-71 | A larger volume never gives a smaller voxel size. |
| `Loader.ModelLoader.constructor` | src/core/model-loader.ts:86-96 | It creates fresh settings with all four defaults (size 0.5, roundness 0.01, transparency 0.4, size limit 0.5), and both running corners start at (0, 0, 0). |
| `Loader.ModelLoader.GetFragmentBounds` | src/core/model-loader.ts:341-377 | An un-indexed geometry fails with "Geometry must be indexed!". Otherwise the loop, which jumps over each (0,0,0) triple, computes the running bounds `FragmentBounds`. |
| `Loader.FragmentBoundsContain` | src/core/model-loader.ts:344-374 | Every vertex the scan reads lies in [min, max]. The minimum never exceeds its start value Number.MIN_VALUE and the maximum never drops below its negation. |
| `Loader.FragmentBoundsTight` | src/core/model-loader.ts:355-374 | On each axis, the minimum and maximum are the start value or the coordinate of a vertex the scan read. |
| `Loader.ModelLoader.GetBoundingBoxFromMesh` | src/core/model-loader.ts:296-338 | An un-indexed mesh changes nothing. Otherwise both transformed corners of every instance (one if not instanced) end inside [absMin, absMax]. The minimum only decreases, the maximum only increases, and every changed coordinate is a corner's coordinate. |
| `Handler.CheckCollision` | src/core/model-handler.ts:109-120 | The result is true iff one of the 14 rays has a first hit at distance at most gridSize / 2. |
| `Handler.Test` | src/core/model-handler.ts:216-235 | The result is true iff at least 3 of the 6 axis directions have at least one hit. |
| `Handler.AxisCountExact` | src/core/model-handler.ts:65-67 | The loop test `min + i * g <= max` holds exactly for the first `AxisCount(min, max, g)` indices. |
| `Handler.SweepSound` | src/core/model-handler.ts:65-78 | Every item of the lattice sweep comes from an occupied lattice point in range. |
| `Handler.SweepComplete` | src/core/model-handler.ts:65-78 | Every occupied lattice point in range contributes to the sweep. |
| `Handler.SweepLength` | src/core/model-handler.ts:65-78 | The sweep has at most Nx·Ny·Nz items, the number of lattice points; the bound of one item per point comes from `Emit`. |
| `Handler.VoxelizeModel` | src/core/model-handler.ts:38-83 | With no concrete or no box the voxel list is untouched. Otherwise it is reset and becomes the sweep over [min, max + gridSize], in x-y-z order, with one voxel at each lattice point plus boxSize / 2 where some concrete collides. |
| `Handler.VoxelPlane` | src/core/model-handler.ts:66-77 | The y loop appends the voxels of one x plane, in order. |
| `Handler.VoxelRow` | src/core/model-handler.ts:67-76 | The z loop appends the voxels of one row, in order. |
| `Handler.VoxelCell` | src/core/model-handler.ts:68-75 | At most one voxel is appended for a lattice point, namely when some concrete collides. The search stops at the first collision. |
| `Handler.VoxelizedMeaning` | src/core/model-handler.ts:63-78 | Every voxel has the configured size and roundness, the default colour and an occupied lattice centre. Every occupied centre has its voxel, and there are at most Nx·Ny·Nz voxels. |
| `Handler.HandleVoxelModel` | src/core/model-handler.ts:141-172 | The yielded centres are the sweep over [min, max] of the loader's box, with no extra step, keeping the centres where `test` holds. |
| `Handler.GeneratePlane` | src/core/model-handler.ts:163-212 | The y loop yields the centres of one x plane, in order. |
| `Handler.GenerateRow` | src/core/model-handler.ts:164-211 | The z loop yields the centres of one row where `test` holds, in order. |
| `Handler.GeneratedMeaning` | src/core/model-handler.ts:162-172 | A centre is yielded exactly when it is an in-range lattice centre where `test` holds. |
| `Handler.MergeTypedArrays` | src/core/model-handler.ts:95-107 | The result's length is the sum of the lengths, and its contents are the inputs concatenated in order. |
| `Handler.ConcatLength` | src/core/model-handler.ts:96-100 | The concatenation is as long as the summed lengths. |
| `Handler.ConcatLayout` | src/core/model-handler.ts:102-105 | The k-th input sits, unchanged, at the offset given by the sum of the lengths before it. |
| `Elements.NewVoxel` | src/core/model-element.ts:23-32 | A new voxel keeps the given centre, size, roundness and transparency. Its colour is '#057400' and its bar list is empty. |
| `Elements.ModelElement.constructor` | src/core/model-element.ts:78-86 | All five lists start empty and the volume starts at 0. There is no box and no mesh yet. |
| `Elements.ModelElement.CleanUp` | src/core/model-element.ts:88-94 | It empties the five lists and keeps the volume, the box and both meshes. |
| `Elements.ModelElement.RenderConvertGeometry` | src/core/model-element.ts:183-195 | It merges exactly one transformed copy per instance index in [0, count), in order. |
| `Elements.ModelElement.Setup` | src/core/model-element.ts:112-181 | The box becomes the union of the concrete boxes, starting from a fresh box, and the volume becomes the product of its extents. Each merged mesh is replaced only when its list is non-empty. The lists are untouched. |
| `Elements.UnionAllEncloses` | src/core/model-element.ts:114-133 | The union box encloses every concrete's box. |
| `Elements.UnionAllLeast` | src/core/model-element.ts:114-133 | Any box that encloses every concrete's box encloses the union. |
| `Elements.VolumeNonNegative` | src/core/model-element.ts:147-149 | The volume is never negative, and it is 0 for an empty box. |
| `RatioRanges.EvenSplit` | src/components/ControlModel/DetectSetting/index.tsx:73-81 | The loop produces the n - 1 rounded points and the n colours of the even split. |
| `RatioRanges.EvenPointRounds` | src/components/ControlModel/DetectSetting/index.tsx:75 | Point i is the integer p with p <= 100·i/n + 1/2 < p + 1, which is `toFixed(0)`'s rounding. |
| `RatioRanges.EvenSplitShape` | src/components/ControlModel/DetectSetting/index.tsx:68-87 | There are n - 1 points strictly inside (0, 100) and strictly increasing. There are n colours: the last is '#dd1b1b' and the others follow the palette. |
| `RatioRanges.DetectSetting.constructor` | src/components/ControlModel/DetectSetting/index.tsx:19-21 | The state starts with no points, no colours and range count 0. |
| `RatioRanges.DetectSetting.HandleNumberRange` | src/components/ControlModel/DetectSetting/index.tsx:68-87 | A count that is not positive changes nothing. Otherwise the state becomes the even split and the count. |
| `RatioRanges.BuildTable` | src/components/ControlModel/DetectSetting/index.tsx:37-66 | The loop builds the table `Table(listPoint, listColor)` over the points followed by 100. |
| `RatioRanges.TableCovers` | src/components/ControlModel/DetectSetting/index.tsx:39-62 | There are |points| + 1 ranges. The first min is 0, the last max is 100, range k ends at point k, and each range starts where the previous one ended. |
| `RatioRanges.TableLabels` | src/components/ControlModel/DetectSetting/index.tsx:44-61 | Every label reads "<min>% - <max>%". |
| `RatioRanges.TableColors` | src/components/ControlModel/DetectSetting/index.tsx:45-55 | The last range takes the last colour of the list unless it is also the first range. Every other range takes the colour at its own index, or `undefined` past the end of the list. |
| `RatioRanges.SavedPoints` | src/components/ControlModel/DetectSetting/index.tsx:27-30 | It collects, in order, the saved maxima other than 100. |
| `RatioRanges.DetectSetting.LoadSaved` | src/components/ControlModel/DetectSetting/index.tsx:23-35 | Without data or outside the settings view nothing changes. Otherwise the points are the maxima other than 100, the count is their number + 1 and the colours are all the saved colours. |
| `RatioRanges.BuildThenLoad` | src/components/ControlModel/DetectSetting/index.tsx:23-62 | Loading a built table returns its points when none is 100, and its colours when there is one colour per range. |
| `RatioRanges.EvenSplitRoundTrip` | src/components/ControlModel/DetectSetting/index.tsx:23-87 | An even split into 1..100 ranges survives building and loading: the same points, range count and colours. |
| `VoxelSettings.HandleChangeSetting` | src/components/Viewer/ToolSideBar/VoxelSetting/index.tsx:51-59 | Only the named field takes the new value. The other two keep theirs. |
| `VoxelSettings.ChangeSettingLastWins` | src/components/Viewer/ToolSideBar/VoxelSetting/index.tsx:51-59 | Of two edits to one field the last wins, and setting a field to its own value changes nothing. |
| `VoxelSettings.DecisionCases` | src/components/Viewer/ToolSideBar/VoxelSetting/index.tsx:65-73 | A changed size rebuilds and never also re-renders. Otherwise a changed roundness or transparency re-renders with the new data. Nothing is called iff nothing changed. A rebuild or re-render comes right after a copy of the data into the settings, and nothing else follows such a copy. |
| `VoxelSettings.HandleApplySetting` | src/components/Viewer/ToolSideBar/VoxelSetting/index.tsx:61-78 | The calls are loading off, modal off, then the decision against the settings before the apply, then loading on. Each settings copy is recorded with the settings it leaves behind, so the rebuild or re-render after it sees the new data. The settings end equal to the data, with the size limit kept. Without a loader only the loading calls happen. |
| `MenuToggle.HandleOnChangeShow` | src/components/Viewer/ToolSideBar/ShowHideVoxel/index.tsx:60-80 | Toggling "all" sets every item. Unchecking another item also unchecks "all", and checking one leaves "all" as it was. Other items, the length, the ids and the names are kept. ElementShow's copy at ElementShow/index.tsx:49-70 is identical. |
| `MenuToggle.ToggleIdempotent` | src/components/Viewer/ToolSideBar/ShowHideVoxel/index.tsx:61-78 | Repeating a toggle changes nothing more. |
| `MenuToggle.UncheckThenCheck` | src/components/Viewer/ToolSideBar/ShowHideVoxel/index.tsx:61-78 | Unchecking and re-checking an item restores it but leaves "all" unchecked, so "all" is never turned on implicitly. |
| `MenuToggle.ToggleAllIsSetAll` | src/components/Viewer/ToolSideBar/ElementShow/index.tsx:58-63 | Toggling "all" is the same as setting every item. |
| `ShowHideVoxel.InitialMenu` | src/components/Viewer/ToolSideBar/ShowHideVoxel/index.tsx:45-52 | Every item is shown once a model is loaded and hidden before, with the ids and names of the constant items. |
| `ShowHideVoxel.DispatchCoversColors` | src/components/Viewer/ToolSideBar/ShowHideVoxel/index.tsx:82-130 | Exactly the five colour items make a show or hide call, and item k names colour constant k. "all" makes no call, and the five colours are distinct. |
| `ShowHideVoxel.UncheckOneColor` | src/components/Viewer/ToolSideBar/ShowHideVoxel/index.tsx:45-78 | From the loaded menu, unchecking one colour hides it and "all", and the other colours stay shown. |
| `ElementShow.InitialMenu` | src/components/Viewer/ToolSideBar/ElementShow/index.tsx:34-41 | Once loaded, exactly "voxel" and "reinforcingBar" are shown. Before loading nothing is shown. |
| `ElementShow.DispatchTargets` | src/components/Viewer/ToolSideBar/ElementShow/index.tsx:72-104 | The items map as follows: concrete to the building-element-proxy type, bars to the reinforcing-bar type, voxel to the voxel calls, and "all" to nothing. Every item that shows can hide, through the same target. |
| `ElementShow.CheckConcreteAfterLoad` | src/components/Viewer/ToolSideBar/ElementShow/index.tsx:34-68 | From the loaded menu, checking the concrete shows every element while "all" stays unchecked. |

## Left out

- Ray casting and BVH queries (`Raycaster`, `MeshBVH`, the `boundsTree`) are foreign library calls. They are the `Caster` parameter.
- three.js matrices, geometry cloning and merging (`applyMatrix4`, `mergeGeometries`) and `Box3.setFromObject` are foreign library calls. They are functions and values held by `FragmentMesh`; a merged geometry is a symbolic `GeometryRef`.
- Scene plumbing is not modelled, because it only adds and removes three.js objects. This covers materials, `renderVoxelModel`, `showModel`/`removeModel`, `showVoxelByColor`/`hideVoxelByColor`, `voxelizeModel2`, `recreateInstancedMesh`, the `testRender*` helpers, the helper box `voxelizeModel` adds, and each voxel's mesh and uuid.
- `detectRebarAndVoxel`, `reSetupVoxel` and `reRenderVoxel` are not defined in the files modelled. The settings panel's calls to them are recorded as `VoxelSettings.Action` values.
- React rendering, effect clean-ups on unmount, `setTimeout` (the 100 ms delay is run to completion), the Ranger slider and the settings panel's initial copy of the loader settings are user-interface plumbing.
- `ModelLoader.getBoundingBox` (src/core/model-loader.ts:289-294) is `Loader.ModelLoader.BoundingBox`, an accessor with no contract of its own. `Handler.HandleVoxelModel` uses it in its body, and its contract states the two running corners directly. The source's `new THREE.Box3(this._absoluteMin, this._absoluteMax)` shares the two running vectors instead of copying them. The value model cannot show that aliasing: a box taken earlier does not follow later updates of the corners.
- Handler.VoxelizeModel: the grid size is a parameter, because the field it is read from is not declared (see above). For the same reason the early return that this causes is not modelled.
- Handler.CheckCollision: the grid size is a parameter for the same reason.
- Handler.HandleVoxelModel: the grid size is a parameter for the same reason.
- Floating-point effects are not modelled: accumulated `x += gridSize` error, NaN, infinities other than a fresh `Box3`, and the `toFixed`/`parseInt`/`parseFloat` text round trips.
- RatioRanges.EvenSplit: `toFixed(0)` is modelled as exact round-half-up, which can differ from the double result for range counts above 10; the menu does not offer those.
- The ratio sampler and the bucket assignment of voxels to ranges are not present in the files modelled.
