# grid-playground: lattice and cube bookkeeping in Dafny

This project models the bookkeeping core of grid-playground, a browser page
that draws a 3D lattice of points and lets the user stack translucent cubes on
it. Two pieces of the TypeScript source are modelled; the three.js rendering
around them is not.

* **The lattice** (`Grid3D.createGrid`): three nested counting loops emit every
  integer point of the box `[-xRange, xRange] x [-yRange, yRange] x [-zRange, zRange]`,
  x outermost and z innermost, as one flat number list `positions` (x, y, z per
  point). `Lattice.Points` is the specification: the points in the order the
  loops emit them, built from one recursive function per loop level. The lemmas
  prove the count, that the box is covered exactly, the lexicographic order,
  that no point repeats, and that a negative range empties the lattice.
  `GridPositions`, `PushYRun` and `PushZRun` are the three loops, each a
  `while` loop with invariants: `PushZRun` appends one z-row, `PushYRun`
  appends one x-plane, and `GridPositions` is proved to produce
  `Flatten(Points(d))`.
* **Cubes and the scene** (`Cube3D`, `Grid3D.addCube`, `Grid3D.removeLastCube`):
  `Cube3D` is a class holding a mesh with mutable position, colour and opacity,
  and an outline with a mutable position and a colour fixed at creation. `Grid3D` is a class holding the scene as the set
  of objects in it, the lattice point cloud, and the cube list, which is used as
  a stack. Its invariant `Valid` says the scene holds exactly the lattice and
  each listed cube's mesh and outline. The defaults `x || fallback` follow
  JavaScript: the fallback is used when the field is absent and also when it is
  0 or the empty string (`JsDefaults`).

Files: `types.dfy` (the records of `types.ts`), `js_defaults.dfy`,
`lattice.dfy`, `cube3d.dfy`, `grid3d.dfy`.

Where the code decides something a design description would leave open, the
model follows the code:
* A negative range yields no points at all. The loop bound `-r <= r` is false
  at once, and a negative y or z range empties every x as well.
* An opacity of 0 becomes 0.6, and an empty edge colour becomes black, because
  `||` tests for falsiness, not for absence.
* There is no selection, no removal of a given cube, no cube-list getter, no
  selection callback and no dimension update in the source. The last one is
  only a comment in `src/index.ts`. None of these is modelled.

## Model

| member | source | states |
|---|---|---|
| `JsDefaults.OrNumber` | src/components/Cube3D.ts:19 | `opacity`, `dotSize` and every other number defaulted with JavaScript's "or": the fallback when the number is absent or 0, the given value otherwise; the result is never 0 when the fallback is not |
| `JsDefaults.OrString` | src/components/Cube3D.ts:33 | `edgeColor`, `gridColor` and `backgroundColor` defaulted with JavaScript's "or": the fallback when the string is absent or empty, the given string otherwise |
| `Lattice.FlattenLength` | src/components/Grid3D.ts:64 | pushing x, y, z per point makes `positions` exactly three times as long as the point list |
| `Lattice.FlattenAt` | src/components/Grid3D.ts:64-70 | point i sits at offsets 3i, 3i+1, 3i+2 of `positions`, the layout the 3-component buffer attribute reads back |
| `Lattice.PointsCount` | src/components/Grid3D.ts:61-67 | for any ranges, the loops emit Span(xRange)·Span(yRange)·Span(zRange) points, where Span(r) is 2r+1, or 0 when r is negative |
| `Lattice.PointsCountNonNegative` | src/components/Grid3D.ts:57-67 | for non-negative ranges, exactly (2·xRange+1)·(2·yRange+1)·(2·zRange+1) points |
| `Lattice.NegativeRangeEmpty` | src/components/Grid3D.ts:61-63 | if any range is negative, no point is emitted |
| `Lattice.PointsMembers` | src/components/Grid3D.ts:61-64 | a point is emitted if and only if -xRange ≤ x ≤ xRange, -yRange ≤ y ≤ yRange and -zRange ≤ z ≤ zRange |
| `Lattice.PointsIncreasing` | src/components/Grid3D.ts:61-64 | the points come out strictly ascending in (x, y, z) order: x outer, y middle, z inner |
| `Lattice.PointsDistinct` | src/components/Grid3D.ts:61-64 | no two emitted points are equal |
| `Lattice.PointsExactlyOnce` | src/components/Grid3D.ts:61-64 | each point of the box occurs exactly once in the output, and any other point occurs zero times |
| `Lattice.PushZRun` | src/components/Grid3D.ts:63-65 | the innermost loop appends x, y, z for z = -zRange..zRange, in order, to what was already there |
| `Lattice.PushYRun` | src/components/Grid3D.ts:62-66 | the middle loop appends, for y = -yRange..yRange, one full z-row each |
| `Lattice.GridPositions` | src/components/Grid3D.ts:57-67 | the three loops leave `positions` equal to the flattened lattice, with 3·Span(xRange)·Span(yRange)·Span(zRange) numbers |
| `Cube.Cube3D.constructor` | src/components/Cube3D.ts:9-38 | the mesh is at `properties.position` with the given colour and opacity defaulting to 0.6 (also for 0), transparent; the outline has edge colour defaulting to black (also for ""), width 2, and is copied onto the mesh's position; both objects are new |
| `Cube.Cube3D.GetMesh` | src/components/Cube3D.ts:40-42 | returns the cube's one mesh; the field is constant, so the same object on every call and after every setter |
| `Cube.Cube3D.GetEdges` | src/components/Cube3D.ts:44-46 | returns the cube's one outline; the same object on every call and after every setter |
| `Cube.Cube3D.SetPosition` | src/components/Cube3D.ts:48-51 | mesh and outline are both at (x, y, z) afterwards; colour, edge colour and opacity are unchanged |
| `Cube.Cube3D.SetColor` | src/components/Cube3D.ts:53-55 | only the mesh colour changes; edge colour, both positions and opacity are unchanged |
| `Cube.Cube3D.SetOpacity` | src/components/Cube3D.ts:57-59 | only the mesh opacity changes; colours and positions are unchanged |
| `Grid.Grid3D.constructor` | src/components/Grid3D.ts:15-47 | starts with no cubes and a background defaulting to white, builds the lattice, and leaves a scene holding just the point cloud; the scene invariant holds |
| `Grid.Grid3D.CreateGrid` | src/components/Grid3D.ts:56-79 | the new point cloud holds the flattened lattice, colour defaulting to black and dot size defaulting to 0.1, and is added to the scene; nothing else changes |
| `Grid.Grid3D.AddCube` | src/components/Grid3D.ts:81-86 | the new cube is pushed at the end, earlier cubes keep their order and their state, and the new cube's mesh and outline both join the scene |
| `Grid.Grid3D.RemoveLastCube` | src/components/Grid3D.ts:88-94 | on a non-empty list it pops exactly the last cube and takes its mesh and outline out of the scene; on an empty list the list and the scene stay as they were; the other cubes are untouched |
| `Grid.AddThenRemoveRestores` | src/components/Grid3D.ts:81-94 | `addCube` followed by `removeLastCube` restores the cube list and the scene exactly |

## Left out

- Rendering: camera, lights, renderer, orbit controls, the `requestAnimationFrame` loop and the resize handler (src/components/Grid3D.ts:18-53, 96-106) are calls into three.js and the browser's event loop. The container element is therefore not a constructor parameter.
- Grid.Grid3D.constructor: the scene starts with the lattice point cloud only; the ambient and directional lights that the source adds first are left out with the rest of the lighting.
- The conversion of `positions` to a 32-bit float buffer, and the box and edge geometries and materials, are three.js internals. A mesh is reduced to position, colour, opacity and its transparent flag; an outline to position, colour and line width.
- Colours are kept as the strings the caller passes. Three.js parses them into colour values, and that parsing is not part of this model.
- Numbers: coordinates and ranges are unbounded integers, since the page produces them with `parseInt`. Fractional values and integer precision beyond 2^53 are not modelled, and neither is `NaN`: a `NaN` range would emit no points, and a `NaN` position would propagate.
- JsDefaults.OrNumber: `NaN` is also falsy in JavaScript and would also fall back to the default; reals have no `NaN`, so that case is not modelled.
- `Cube3D.properties` is stored as a value. The source keeps a reference to the caller's object, which later changes by the caller would be visible through. The source never reads the field again.
- `Grid3D.options` is stored as a value. The source keeps a reference to the caller's object, but reads it only while the constructor builds the lattice.
- The nested loops of `createGrid` are three methods, one loop each, so that each loop is proved on its own. The order of the pushes is the same.
- `src/index.ts` (reading form inputs, button wiring) is page glue and is not part of this model.
