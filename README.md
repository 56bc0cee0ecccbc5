# Wireframe cube: geometry, rotations and projection

This project models the `Cube` type of `src/cube.rs`. That file holds the part of the
rotating-cube text animation that has real logic. A cube has a centre `(x, y, z)`,
eight corner nodes and a fixed table of twelve edges.

- `Cube::create` lays the corners out at the centre plus or minus half the size.
- `rotate_x`, `rotate_y` and `rotate_z` rewrite every node in place. Each uses a
  one-argument arctangent, a planar distance, the angle-sum identities and a
  sign correction.
- `draw` projects the nodes orthographically onto a `drawille` canvas. It makes
  one `line` call per edge and one `text` call per node.

Files:

- `numeric.dfy` (module `RustNum`) models the Rust integer semantics the projector
  relies on: `f64 as i32`, `i32 + i32` and `i32 as u32`.
- `canvas.dfy` (module `CanvasTrace`) models the canvas. A canvas is the trace of
  `line` and `text` calls made on it.
- `cube.dfy` (module `CubeModel`) holds the model proper. The pure helpers
  (`create`'s layout, `get_angle`, `cos`, `sin`, `get_size`) are functions. The
  cube itself is a class holding the node and edge arrays. The three rotations are
  methods whose loops rewrite `nodes` in place, and each is proved against a
  per-node function. `draw` is a method that takes a canvas value and returns the
  extended one, as the source passes the canvas by value.

Modelling choices:

- `f64` is modelled as `real`, so the arithmetic is exact.
- `atan`, `sqrt`, `cos` and `sin` are uninterpreted. They are the fields of a
  `Math` value passed to every rotation.
- `get_angle` divides by `b.0 - a.0`. That difference is zero exactly when the
  node's first in-plane coordinate equals the centre's: `y == c.y` in `rotate_x`,
  `x == c.x` in `rotate_y` and `rotate_z`. Those nodes form a whole plane through
  the centre, not just the rotation axis. The `f64` difference of
  two equal values is `+0.0`, so the quotient is an infinity or NaN whose sign
  comes from the numerator alone. The model writes that case as a separate
  uninterpreted function `atanOfPole` of the numerator.
- `f64 as i32` truncates toward zero and saturates at the `i32` bounds.
- `i32 + i32` is modelled as two's-complement wrap-around.
- `i32 as u32` reads the same 32 bits as unsigned.
- The projected coordinate therefore equals `(trunc(v) + offset) mod 2^32`. It is
  exactly `trunc(v) + offset` whenever that sum is a non-negative `i32`.

The two axis quirks of the source are modelled exactly as written:

- `rotate_x` bases the new `y` at the centre's `x` (src/cube.rs:76).
- `rotate_y` measures its radius from `(self.x, self.y)` to the node's `(x, z)`
  (src/cube.rs:92).

The reference function `Planar` is the per-plane step the three rotations have in common:
angle and radius both measured in the rotation's plane, the result based at the centre's
coordinates in that plane.
The lemmas beside it show: `rotate_z` is exactly that step; `rotate_x` is it shifted
in `y` by `c.x - c.y`; `rotate_y` is it when `c.y == c.z`. A concrete instance shows
that the `rotate_y` radius difference can be seen in the result. For the
cubes the server draws (centre `(20, 20, 20)`) both quirks have no effect.

Consequences of modelling the code as written:

- A true rotation about the centre would base the new `y` at the centre's `y`;
  `rotate_x` bases it at the centre's `x`.
- The literal formulas do not guarantee that the distance from the centre is kept,
  so the model does not claim it.
- A node in the zero-denominator plane makes `get_angle` divide by zero. The model
  keeps this as `atanOfPole` rather than treating it as no displacement.
- In that plane `rotate_z` by 0 is not the identity. Take a node at `x == c.x` and
  `y == c.y + d` with `d > 0`. The quotient is `-d / +0.0`, which is negative
  infinity, so the angle is `-π/2`, and the factor is `+1`. The new node is then
  `(c.x + d·cos(-π/2), c.y - d)`, which mirrors the node across the line `y == c.y`.
  This follows from reading the code; it was not executed.

## Model

| member | source | states |
|---|---|---|
| `RustNum.TruncI32` | src/cube.rs:134-137 | `v as i32`: the result lies between 0 and `v`, is less than one away from `v` inside the `i32` range, and saturates at `i32::MAX` / `i32::MIN` beyond it |
| `RustNum.WrapAddI32` | src/cube.rs:134-137 | `i32` addition: equals the mathematical sum when it fits, and always differs from it by a multiple of 2^32 |
| `RustNum.I32AsU32` | src/cube.rs:139 | `n as u32` is the `u32` with the same 32 bits as `n`: it differs from `n` by a multiple of 2^32 |
| `RustNum.WrapThenU32IsMod` | src/cube.rs:134-139 | adding in `i32` and then casting to `u32` is addition modulo 2^32 |
| `CubeModel.Corners` | src/cube.rs:14-24 | 8 corners, each coordinate at centre ∓ size/2; corners 0-3 on the face `z - size/2`, 4-7 on `z + size/2`; all 8 distinct when `size != 0` |
| `CubeModel.EdgeTable` | src/cube.rs:26-39 | 12 edges, every index below 8, no edge from a corner to itself |
| `CubeModel.EdgesJoinNeighbours` | src/cube.rs:15-39 | for any `size != 0`, each edge of the table joins two corners that differ along exactly one axis |
| `CubeModel.NeighboursAreJoined` | src/cube.rs:15-39 | for any `size != 0`, any two corners that differ along exactly one axis are joined by an edge, in one order or the other: the table is the whole cube wireframe |
| `CubeModel.CreateOuterCube` | src/cube.rs:12-24 | `create(20, 20, 20, 30)` gives (5,5,5),(35,5,5),(35,35,5),(5,35,5),(5,5,35),(5,35,35),(35,35,35),(35,5,35) in that order |
| `CubeModel.GetAngle` | src/cube.rs:50-52 | the arctangent of the slope from `a` to `b`; when the run is zero, the pole value `atanOfPole` of the rise alone; points at the same height give `atan(0)` |
| `CubeModel.Cos` | src/cube.rs:54-56 | no contract of its own; the cosine of `x + y` by the angle-sum identity; `AddingZeroAngle` and `AngleSumOnUnitCircle` state its properties |
| `CubeModel.Sin` | src/cube.rs:58-60 | no contract of its own; the sine of `x + y` by the angle-sum identity; `AddingZeroAngle` and `AngleSumOnUnitCircle` state its properties |
| `CubeModel.GetSize` | src/cube.rs:62-64 | the library square root of the squared run plus the squared rise; coincident points give `sqrt(0)` |
| `CubeModel.AddingZeroAngle` | src/cube.rs:54-60 | adding an angle whose library cosine is 1 and sine is 0, in either position, returns the library's cosine and sine of the other angle |
| `CubeModel.GetAngleSymmetric` | src/cube.rs:50-52 | away from the pole (`a.0 != b.0`) the angle is the same whichever point is passed first |
| `CubeModel.GetSizeSymmetric` | src/cube.rs:62-64 | the planar distance is the same whichever point is passed first |
| `CubeModel.AngleSumOnUnitCircle` | src/cube.rs:54-60 | if the library's cosine and sine of both angles lie on the unit circle, so does the pair `Cube::cos`, `Cube::sin` compute |
| `CubeModel.SignAbove` | src/cube.rs:74 | the `rotate_x`/`rotate_y` sign factor is ±1, and +1 exactly when the node is strictly above the centre (a tie gives −1) |
| `CubeModel.SignNotBelow` | src/cube.rs:114 | the `rotate_z` sign factor is ±1, and −1 exactly when the node is strictly below the centre (a tie gives +1) |
| `CubeModel.SignConventionsDifferOnlyAtTie` | src/cube.rs:74-114 | the two sign conventions agree exactly when the node coordinate differs from the centre's; at a tie `rotate_x`/`rotate_y` give −1 and `rotate_z` +1 |
| `CubeModel.RotateXNode` | src/cube.rs:68-81 | the node `rotate_x` writes keeps the old `x` |
| `CubeModel.RotateYNode` | src/cube.rs:88-101 | the node `rotate_y` writes keeps the old `y` |
| `CubeModel.RotateZNode` | src/cube.rs:109-120 | the node `rotate_z` writes keeps the old `z` |
| `CubeModel.RotateZIsPlanar` | src/cube.rs:109-120 | `rotate_z` on a node is exactly the shared planar step on `(x, y)` with the `rotate_z` sign rule |
| `CubeModel.RotateXIsShiftedPlanar` | src/cube.rs:71-77 | `rotate_x` on a node is the shared planar step on `(y, z)` except that the new `y` is shifted by `c.x - c.y` |
| `CubeModel.RotateYIsPlanarWhenLevel` | src/cube.rs:91-97 | when the centre has `y == z`, `rotate_y` on a node is exactly the shared planar step on `(x, z)` |
| `CubeModel.RotateYRadiusIsObservable` | src/cube.rs:91-97 | for the centre (0, 0, 4), the node (3, 0, 0) and θ = 0, `rotate_y` gives new `x` = 1.8 where the common planar step gives 3. The library used agrees with real trigonometry on every value involved: the angle of slope −4/3 has cosine 3/5 and sine −4/5, the angle 0 has cosine 1 and sine 0, and the roots of 9 and 25 are exact |
| `CubeModel.Pos` | src/cube.rs:134-139 | one canvas coordinate `((v as i32) + offset) as u32`: exactly `trunc(v) + offset` when that sum is a non-negative `i32` |
| `CubeModel.PosIsOffsetTruncation` | src/cube.rs:134-147 | a canvas coordinate is `(trunc(v) + offset) mod 2^32`, and exactly `trunc(v) + offset` when that is a non-negative `i32` |
| `CubeModel.EdgeLine` | src/cube.rs:129-139 | the `line` call for one edge; it runs between the two points where the marks of the edge's end nodes are drawn |
| `CubeModel.NodeMark` | src/cube.rs:143-147 | the `text` call for one node: a one-wide `*` at the node's projected `x` and `y`; `z` plays no part |
| `CubeModel.EdgeLines` | src/cube.rs:128-140 | the calls of the edge loop: exactly one per edge |
| `CubeModel.NodeMarks` | src/cube.rs:142-148 | the calls of the node loop: exactly one per node |
| `CubeModel.DrawTrace` | src/cube.rs:127-151 | everything `draw` appends: exactly `|edges| + |nodes|` calls |
| `CanvasTrace.Canvas.Line` | src/cube.rs:139 | `canvas.line(...)`: the earlier calls are kept, and the line is appended as the last one |
| `CanvasTrace.Canvas.Text` | src/cube.rs:147 | `canvas.text(...)`: the earlier calls are kept, and the text is appended as the last one |
| `CubeModel.EdgeLinesAt` | src/cube.rs:128-140 | the edge loop issues one `line` per edge, the k-th built from the endpoints of edge k |
| `CubeModel.NodeMarksAt` | src/cube.rs:142-148 | the node loop issues one `text(…, 1, "*")` per node, the k-th at node k |
| `CubeModel.DrawTraceShape` | src/cube.rs:127-151 | `draw` appends `|edges| + |nodes|` calls: the `line` of edge k at position k, then the `text` of node k at position `|edges| + k` |
| `CubeModel.DrawIgnoresDepth` | src/cube.rs:131-145 | two node arrays that agree on `x` and `y` draw the same trace: `z` is never used |
| `CubeModel.Cube.Create` | src/cube.rs:12-48 | the new cube stores the given centre unchanged, its nodes are `Corners(x, y, z, size)` and its edges are `EdgeTable()` |
| `CubeModel.Cube.RotateX` | src/cube.rs:66-84 | only the node array changes (centre, edges, array identity unchanged); node i becomes `RotateXNode` of the old node i |
| `CubeModel.Cube.RotateY` | src/cube.rs:86-105 | only the node array changes; node i becomes `RotateYNode` of the old node i |
| `CubeModel.Cube.RotateZ` | src/cube.rs:107-124 | only the node array changes; node i becomes `RotateZNode` of the old node i |
| `CubeModel.Cube.Draw` | src/cube.rs:127-151 | the returned canvas is the given one followed by `DrawTrace` of the nodes and edges, exactly 20 more calls |
| `CubeModel.Cube.DrawEdges` | src/cube.rs:128-140 | the edge loop appends the `line` calls of all edges in edge order |
| `CubeModel.Cube.DrawNodes` | src/cube.rs:142-148 | the node loop appends the `text` calls of all nodes in node order |

## Left out

- `src/main.rs` is not part of this model. It holds the TCP server, the
  thread per connection, ANSI styling, the handlebars banner, the sleeps and the
  clear-screen sequence. That is I/O and concurrency, not logic.
- The numerical behaviour of `atan`, `sqrt`, `cos` and `sin` is left out. They are
  uninterpreted, so the model makes no claim that rotations preserve distance, that
  rotating by 0 or 2π is the identity, or that `rotate_z(-θ)` undoes
  `rotate_z(θ)`. These are floating-point properties. For `rotate_x` the base quirk
  breaks them whenever `c.x != c.y`, and for `rotate_y` the radius quirk breaks them
  whenever `c.y != c.z`. `rotate_z` has neither quirk. Off the plane `x == c.x` its
  properties are left out only because the trig routines are uninterpreted. On that
  plane they are false, as shown above.
- `f64` rounding, infinities and NaN are left out, because `real` arithmetic is
  exact. A node in the zero-denominator plane is covered only through
  `atanOfPole`, and what that returns is not modelled.
- `TruncI32`: does not model `NaN as i32 == 0`, because reals have no NaN.
- `WrapAddI32`: follows release-build wrap-around on `i32` overflow; a debug build
  panics instead. The offsets the server passes (5 and 10) keep the sums far from the
  bounds.
- Ownership is not modelled. `rotate_*` and `draw` consume the cube in the source.
  In the model the caller keeps the same object, and the earlier value is no longer
  observable after a rotation.
- The internals of the `drawille` canvas are left out: line rasterisation, `text`
  rendering and `frame()`. Only the calls made on it are recorded.
- `Cos`, `Sin`: have no postcondition of their own. Their zero-angle identities are
  stated in the lemma `AddingZeroAngle`, which keeps the rotation proofs small.
- `Cube::draw` runs its two loops in one function. The model splits them into
  `DrawEdges` and `DrawNodes`, which `Draw` calls in order. The calls issued are the
  same.
