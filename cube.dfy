/**
  The wireframe cube of `src/cube.rs`: eight corners and twelve edges around a
  fixed centre, three per-axis rotations that rewrite the corners in place, and
  an orthographic projector that issues `line` and `text` calls on a canvas.

  `f64` is modelled by `real`. The floating-point library routines the
  rotations call (`atan`, `sqrt`, `cos`, `sin`) are not interpreted: they are
  the fields of a `Math` value that every rotation takes as a parameter.
 */
module CubeModel {
  import opened RustNum
  import opened CanvasTrace

  /** A corner `(f64, f64, f64)`. */
  datatype Point = Point(x: real, y: real, z: real)

  /** A pair of corner indices `(usize, usize)`. */
  type Edge = (nat, nat)

  /** The library routines the rotations rely on. `atan` is the one-argument
      arctangent; `atanOfPole(num)` is what `(num / 0.0).atan()` yields, which
      for `f64` depends only on the numerator (an infinity or NaN inside). */
  datatype Math = Math(
    atan: real -> real,
    atanOfPole: real -> real,
    sqrt: real -> real,
    cos: real -> real,
    sin: real -> real)

  // ---------------------------------------------------------------------------
  // Construction
  // ---------------------------------------------------------------------------

  /** Every coordinate of `p` is the centre's, moved by `half` one way or the other. */
  predicate AtCorner(p: Point, c: Point, half: real) {
    (p.x == c.x - half || p.x == c.x + half) &&
    (p.y == c.y - half || p.y == c.y + half) &&
    (p.z == c.z - half || p.z == c.z + half)
  }

  /** The corners `Cube::create` lays out around `(x, y, z)`: indices 0-3 form
      the face at `z - size/2`, indices 4-7 the face at `z + size/2`. */
  function Corners(x: real, y: real, z: real, size: real): (r: seq<Point>)
    ensures |r| == 8
    ensures forall i :: 0 <= i < 8 ==> AtCorner(r[i], Point(x, y, z), size / 2.0)
    ensures forall i :: 0 <= i < 4 ==> r[i].z == z - size / 2.0
    ensures forall i :: 4 <= i < 8 ==> r[i].z == z + size / 2.0
    ensures size != 0.0 ==> forall i, j :: 0 <= i < j < 8 ==> r[i] != r[j]
  {
    var h := size / 2.0;
    [ Point(x - h, y - h, z - h),
      Point(x + h, y - h, z - h),
      Point(x + h, y + h, z - h),
      Point(x - h, y + h, z - h),
      Point(x - h, y - h, z + h),
      Point(x - h, y + h, z + h),
      Point(x + h, y + h, z + h),
      Point(x + h, y - h, z + h) ]
  }

  /** Every edge of `es` joins two indices below `n`. */
  predicate EdgesInRange(es: seq<Edge>, n: nat) {
    forall k :: 0 <= k < |es| ==> es[k].0 < n && es[k].1 < n
  }

  /** The fixed wireframe: the loop 0-1-2-3, the loop 4-5-6-7 and the four
      edges joining them. */
  function EdgeTable(): (r: seq<Edge>)
    ensures |r| == 12
    ensures EdgesInRange(r, 8)
    ensures forall k :: 0 <= k < |r| ==> r[k].0 != r[k].1
  {
    [(0, 1), (1, 2), (2, 3), (3, 0),
     (0, 4), (4, 5), (5, 6), (6, 7),
     (4, 7), (7, 1), (2, 6), (5, 3)]
  }

  /** `p` and `q` differ in exactly one coordinate. */
  predicate AxisNeighbours(p: Point, q: Point) {
    (p.x != q.x && p.y == q.y && p.z == q.z) ||
    (p.x == q.x && p.y != q.y && p.z == q.z) ||
    (p.x == q.x && p.y == q.y && p.z != q.z)
  }

  /** Some edge of `es` joins `i` and `j`, in either order. */
  predicate Joined(es: seq<Edge>, i: nat, j: nat) {
    (i, j) in es || (j, i) in es
  }

  /** Every edge of the table joins two corners that differ along one axis only. */
  lemma EdgesJoinNeighbours(x: real, y: real, z: real, size: real, k: nat)
    requires size != 0.0 && k < 12
    ensures AxisNeighbours(Corners(x, y, z, size)[EdgeTable()[k].0], Corners(x, y, z, size)[EdgeTable()[k].1])
  {
    var h := size / 2.0;
    assert x - h != x + h && y - h != y + h && z - h != z + h;
  }

  /** Any two corners that differ along one axis only are joined by an edge
      of the table, so the table is the whole wireframe. */
  lemma NeighboursAreJoined(x: real, y: real, z: real, size: real, i: nat, j: nat)
    requires size != 0.0 && i < 8 && j < 8
    requires AxisNeighbours(Corners(x, y, z, size)[i], Corners(x, y, z, size)[j])
    ensures Joined(EdgeTable(), i, j)
  {
    var es := EdgeTable();
    var h := size / 2.0;
    assert x - h != x + h && y - h != y + h && z - h != z + h;
    assert (i, j) in es <==> exists k :: 0 <= k < 12 && es[k] == (i, j);
    assert (j, i) in es <==> exists k :: 0 <= k < 12 && es[k] == (j, i);
  }

  /** `Cube::create(20., 20., 20., 30.)`, the outer cube the server draws. */
  lemma CreateOuterCube()
    ensures Corners(20.0, 20.0, 20.0, 30.0) ==
      [ Point(5.0, 5.0, 5.0), Point(35.0, 5.0, 5.0), Point(35.0, 35.0, 5.0), Point(5.0, 35.0, 5.0),
        Point(5.0, 5.0, 35.0), Point(5.0, 35.0, 35.0), Point(35.0, 35.0, 35.0), Point(35.0, 5.0, 35.0) ]
  {
  }

  // ---------------------------------------------------------------------------
  // The helpers the rotations share
  // ---------------------------------------------------------------------------

  /** `Cube::get_angle(a, b)`: the one-argument arctangent of the slope from
      `a` to `b`; when the run is zero the slope is an infinity or NaN and the
      library's answer depends on the rise alone. */
  function GetAngle(m: Math, a: (real, real), b: (real, real)): (r: real)
    ensures a.0 == b.0 ==> r == m.atanOfPole(b.1 - a.1)
    ensures a.0 != b.0 && a.1 == b.1 ==> r == m.atan(0.0)
  {
    var num, den := b.1 - a.1, b.0 - a.0;
    if den != 0.0 then m.atan(num / den) else m.atanOfPole(num)
  }

  /** `Cube::cos(x, y)`: the cosine of `x + y` by the angle-sum identity. */
  function Cos(m: Math, x: real, y: real): real {
    m.cos(x) * m.cos(y) - m.sin(x) * m.sin(y)
  }

  /** `Cube::sin(x, y)`: the sine of `x + y` by the angle-sum identity. */
  function Sin(m: Math, x: real, y: real): real {
    m.sin(x) * m.cos(y) + m.cos(x) * m.sin(y)
  }

  /** `Cube::get_size(a, b)`: the planar distance between `a` and `b`, the
      library square root of a sum of squares; for a level or an upright pair
      that is the root of the squared run or rise alone. */
  function GetSize(m: Math, a: (real, real), b: (real, real)): (r: real)
    ensures a == b ==> r == m.sqrt(0.0)
  {
    var d := (b.0 - a.0) * (b.0 - a.0) + (a.1 - b.1) * (a.1 - b.1);
    assert a == b ==> d == 0.0;
    m.sqrt(d)
  }

  /** Away from the pole the angle does not depend on which point comes first;
      the rotations pass the node first and the centre second. */
  lemma GetAngleSymmetric(m: Math, a: (real, real), b: (real, real))
    requires a.0 != b.0
    ensures GetAngle(m, a, b) == GetAngle(m, b, a)
  {
    var num, den := b.1 - a.1, b.0 - a.0;
    assert (a.1 - b.1) / (a.0 - b.0) == (-num) / (-den) == num / den;
  }

  /** The distance does not depend on the order of its points; the rotations
      pass the centre first and the node second. */
  lemma GetSizeSymmetric(m: Math, a: (real, real), b: (real, real))
    ensures GetSize(m, a, b) == GetSize(m, b, a)
  {
    assert (b.0 - a.0) * (b.0 - a.0) == (a.0 - b.0) * (a.0 - b.0);
    assert (a.1 - b.1) * (a.1 - b.1) == (b.1 - a.1) * (b.1 - a.1);
  }

  /** If the library's cosine and sine of both angles lie on the unit circle,
      so does the pair the angle-sum identities compute. */
  lemma {:induction false} AngleSumOnUnitCircle(m: Math, x: real, y: real)
    requires m.cos(x) * m.cos(x) + m.sin(x) * m.sin(x) == 1.0
    requires m.cos(y) * m.cos(y) + m.sin(y) * m.sin(y) == 1.0
    ensures Cos(m, x, y) * Cos(m, x, y) + Sin(m, x, y) * Sin(m, x, y) == 1.0
  {
    var cx, sx, cy, sy := m.cos(x), m.sin(x), m.cos(y), m.sin(y);
    calc {
      Cos(m, x, y) * Cos(m, x, y) + Sin(m, x, y) * Sin(m, x, y);
      (cx * cy - sx * sy) * (cx * cy - sx * sy) + (sx * cy + cx * sy) * (sx * cy + cx * sy);
      { SumOfSquaresProduct(cx, sx, cy, sy); }
      (cx * cx + sx * sx) * (cy * cy + sy * sy);
      1.0 * 1.0;
    }
  }

  /** Adding an angle whose library cosine is 1 and sine is 0, in either
      position, leaves the library's cosine and sine of the other angle. */
  lemma AddingZeroAngle(m: Math, x: real, y: real)
    ensures m.cos(y) == 1.0 && m.sin(y) == 0.0 ==> Cos(m, x, y) == m.cos(x) && Sin(m, x, y) == m.sin(x)
    ensures m.cos(x) == 1.0 && m.sin(x) == 0.0 ==> Cos(m, x, y) == m.cos(y) && Sin(m, x, y) == m.sin(y)
  {
  }

  /** The two-square identity behind `AngleSumOnUnitCircle`. */
  lemma SumOfSquaresProduct(a: real, b: real, c: real, d: real)
    ensures (a * c - b * d) * (a * c - b * d) + (b * c + a * d) * (b * c + a * d)
         == (a * a + b * b) * (c * c + d * d)
  {
  }

  /** The sign correction of `rotate_x` and `rotate_y`: +1 only when the node
      lies strictly above the centre on the compared axis. */
  function SignAbove(v: real, c: real): (f: real)
    ensures f == 1.0 || f == -1.0
    ensures f == 1.0 <==> v > c
  {
    if v > c then 1.0 else -1.0
  }

  /** The sign correction of `rotate_z`: -1 only when the node lies strictly
      below the centre on the compared axis. */
  function SignNotBelow(v: real, c: real): (f: real)
    ensures f == 1.0 || f == -1.0
    ensures f == -1.0 <==> v < c
  {
    if v < c then -1.0 else 1.0
  }

  /** The two sign conventions agree everywhere except at a tie. */
  lemma SignConventionsDifferOnlyAtTie(v: real, c: real)
    ensures SignAbove(v, c) == SignNotBelow(v, c) <==> v != c
    ensures SignAbove(c, c) == -1.0 && SignNotBelow(c, c) == 1.0
  {
  }

  // ---------------------------------------------------------------------------
  // What one rotation does to one node
  // ---------------------------------------------------------------------------

  /** The new node `rotate_x` writes for `p`: `x` is kept; the new `y` is based
      at the centre's `x` coordinate, as in the source. */
  function RotateXNode(m: Math, c: Point, p: Point, theta: real): (r: Point)
    ensures r.x == p.x
  {
    var angle := GetAngle(m, (p.y, p.z), (c.y, c.z));
    var size := GetSize(m, (c.y, c.z), (p.y, p.z));
    var factor := SignAbove(p.y, c.y);
    Point(p.x, c.x + size * Cos(m, angle, theta) * factor, c.z + size * Sin(m, angle, theta) * factor)
  }

  /** The new node `rotate_y` writes for `p`: `y` is kept; the radius is
      measured from `(c.x, c.y)` to `(p.x, p.z)`, as in the source. */
  function RotateYNode(m: Math, c: Point, p: Point, theta: real): (r: Point)
    ensures r.y == p.y
  {
    var angle := GetAngle(m, (p.x, p.z), (c.x, c.z));
    var size := GetSize(m, (c.x, c.y), (p.x, p.z));
    var factor := SignAbove(p.x, c.x);
    Point(c.x + size * Cos(m, angle, theta) * factor, p.y, c.z + size * Sin(m, angle, theta) * factor)
  }

  /** The new node `rotate_z` writes for `p`: `z` is kept. */
  function RotateZNode(m: Math, c: Point, p: Point, theta: real): (r: Point)
    ensures r.z == p.z
  {
    var angle := GetAngle(m, (p.x, p.y), (c.x, c.y));
    var size := GetSize(m, (c.x, c.y), (p.x, p.y));
    var factor := SignNotBelow(p.x, c.x);
    Point(c.x + size * Cos(m, angle, theta) * factor, c.y + size * Sin(m, angle, theta) * factor, p.z)
  }

  /** Reference: the step all three rotations are meant to share. The node's
      pair `a` is turned by `theta` about the centre's pair `ca`, with angle
      and radius both measured in that plane and the result based at `ca`. */
  function Planar(m: Math, a: (real, real), ca: (real, real), theta: real, factor: real): (real, real) {
    var angle := GetAngle(m, a, ca);
    var size := GetSize(m, ca, a);
    (ca.0 + size * Cos(m, angle, theta) * factor, ca.1 + size * Sin(m, angle, theta) * factor)
  }

  /** The two coordinates `Planar` computes, one at a time. */
  lemma PlanarParts(m: Math, a: (real, real), ca: (real, real), theta: real, factor: real)
    ensures var angle, size := GetAngle(m, a, ca), GetSize(m, ca, a);
            Planar(m, a, ca, theta, factor).0 == ca.0 + size * Cos(m, angle, theta) * factor &&
            Planar(m, a, ca, theta, factor).1 == ca.1 + size * Sin(m, angle, theta) * factor
  {
  }

  /** `rotate_z` is the shared step on `(x, y)` with its own tie rule. */
  lemma RotateZIsPlanar(m: Math, c: Point, p: Point, theta: real)
    ensures var q := Planar(m, (p.x, p.y), (c.x, c.y), theta, SignNotBelow(p.x, c.x));
            RotateZNode(m, c, p, theta) == Point(q.0, q.1, p.z)
  {
    var angle := GetAngle(m, (p.x, p.y), (c.x, c.y));
    var size, f := GetSize(m, (c.x, c.y), (p.x, p.y)), SignNotBelow(p.x, c.x);
    var t, u := size * Cos(m, angle, theta) * f, size * Sin(m, angle, theta) * f;
    var r := RotateZNode(m, c, p, theta);
    assert r.x == c.x + t && r.y == c.y + u;
    PlanarParts(m, (p.x, p.y), (c.x, c.y), theta, f);
  }

  /** `rotate_x` is the shared step on `(y, z)`, except that the new `y` is
      shifted by `c.x - c.y`: it is based at the centre's `x`. */
  lemma RotateXIsShiftedPlanar(m: Math, c: Point, p: Point, theta: real)
    ensures var q := Planar(m, (p.y, p.z), (c.y, c.z), theta, SignAbove(p.y, c.y));
            RotateXNode(m, c, p, theta) == Point(p.x, q.0 + (c.x - c.y), q.1)
  {
    var q := Planar(m, (p.y, p.z), (c.y, c.z), theta, SignAbove(p.y, c.y));
    var r := RotateXNode(m, c, p, theta);
    var angle := GetAngle(m, (p.y, p.z), (c.y, c.z));
    var t := GetSize(m, (c.y, c.z), (p.y, p.z)) * Cos(m, angle, theta) * SignAbove(p.y, c.y);
    assert r.y == c.x + t;
    assert q.0 == c.y + t;
    assert r.y == q.0 + (c.x - c.y);
    var u := GetSize(m, (c.y, c.z), (p.y, p.z)) * Sin(m, angle, theta) * SignAbove(p.y, c.y);
    assert r.z == c.z + u;
    assert q.1 == c.z + u;
  }

  /** `rotate_y` is the shared step on `(x, z)` whenever `c.y == c.z`, the one
      case where its radius is measured in the right plane. */
  lemma RotateYIsPlanarWhenLevel(m: Math, c: Point, p: Point, theta: real)
    requires c.y == c.z
    ensures var q := Planar(m, (p.x, p.z), (c.x, c.z), theta, SignAbove(p.x, c.x));
            RotateYNode(m, c, p, theta) == Point(q.0, p.y, q.1)
  {
    assert (c.x, c.y) == (c.x, c.z);
    var angle := GetAngle(m, (p.x, p.z), (c.x, c.z));
    var size, f := GetSize(m, (c.x, c.z), (p.x, p.z)), SignAbove(p.x, c.x);
    var t, u := size * Cos(m, angle, theta) * f, size * Sin(m, angle, theta) * f;
    var r := RotateYNode(m, c, p, theta);
    assert r.x == c.x + t && r.z == c.z + u;
    PlanarParts(m, (p.x, p.z), (c.x, c.z), theta, f);
  }

  /** The radius `rotate_y` uses is observable: with `c.y != c.z` the result
      can differ from the shared step's. The library below agrees with real
      trigonometry on every value used: the angle of slope -4/3 (written 1.0
      here) has cosine 3/5 and sine -4/5, the angle 0 has cosine 1 and sine 0,
      and the roots of 9 and 25 are exact. */
  lemma RotateYRadiusIsObservable()
    ensures var root := (v: real) => if v == 9.0 then 3.0 else if v == 25.0 then 5.0 else 0.0;
            var m := Math(t => if t == -4.0 / 3.0 then 1.0 else 0.0, t => 0.0, root,
                          t => if t == 1.0 then 0.6 else 1.0, t => if t == 1.0 then -0.8 else 0.0);
            var c, p := Point(0.0, 0.0, 4.0), Point(3.0, 0.0, 0.0);
            var q := Planar(m, (p.x, p.z), (c.x, c.z), 0.0, SignAbove(p.x, c.x));
            RotateYNode(m, c, p, 0.0).x == 1.8 && q.0 == 3.0
  {
    var root := (v: real) => if v == 9.0 then 3.0 else if v == 25.0 then 5.0 else 0.0;
    var m := Math(t => if t == -4.0 / 3.0 then 1.0 else 0.0, t => 0.0, root,
                  t => if t == 1.0 then 0.6 else 1.0, t => if t == 1.0 then -0.8 else 0.0);
    var c, p := Point(0.0, 0.0, 4.0), Point(3.0, 0.0, 0.0);
    assert (c.z - p.z) / (c.x - p.x) == -4.0 / 3.0;
    assert GetAngle(m, (p.x, p.z), (c.x, c.z)) == 1.0;
    assert (p.x - c.x) * (p.x - c.x) + (c.y - p.z) * (c.y - p.z) == 9.0;
    assert (p.x - c.x) * (p.x - c.x) + (c.z - p.z) * (c.z - p.z) == 25.0;
    assert GetSize(m, (c.x, c.y), (p.x, p.z)) == 3.0;
    assert GetSize(m, (c.x, c.z), (p.x, p.z)) == 5.0;
    assert Cos(m, 1.0, 0.0) == 0.6;
  }

  // ---------------------------------------------------------------------------
  // The projector's coordinates and call trace
  // ---------------------------------------------------------------------------

  /** `((v as i32) + offset) as u32`: one coordinate handed to the canvas. */
  function Pos(v: real, offset: i32): (r: u32)
    ensures 0 <= TruncI32(v) + offset <= I32_MAX ==> r == TruncI32(v) + offset
  {
    I32AsU32(WrapAddI32(TruncI32(v), offset))
  }

  /** A canvas coordinate is the truncated value plus the offset, modulo 2^32;
      it is exactly that sum whenever the sum is a non-negative `i32`. */
  lemma PosIsOffsetTruncation(v: real, offset: i32)
    ensures Pos(v, offset) == (TruncI32(v) + offset) % TWO_32
    ensures 0 <= TruncI32(v) + offset <= I32_MAX ==> Pos(v, offset) == TruncI32(v) + offset
  {
    WrapThenU32IsMod(TruncI32(v), offset);
  }

  /** The `line` call `draw` makes for edge `e`: it runs between the points
      where the marks of the edge's two end nodes are drawn. */
  function EdgeLine(ns: seq<Point>, e: Edge, x: i32, y: i32): (r: Call)
    requires e.0 < |ns| && e.1 < |ns|
    ensures r.LineCall?
    ensures r.x0 == NodeMark(ns[e.0], x, y).x && r.y0 == NodeMark(ns[e.0], x, y).y
    ensures r.x1 == NodeMark(ns[e.1], x, y).x && r.y1 == NodeMark(ns[e.1], x, y).y
  {
    LineCall(Pos(ns[e.0].x, x), Pos(ns[e.0].y, y), Pos(ns[e.1].x, x), Pos(ns[e.1].y, y))
  }

  /** The `text` call `draw` makes for node `p`: a one-wide `*` at the
      projected `x` and `y`; `z` plays no part. */
  function NodeMark(p: Point, x: i32, y: i32): (r: Call)
    ensures r.TextCall? && r.width == 1 && r.text == "*"
    ensures r.x == Pos(p.x, x) && r.y == Pos(p.y, y)
  {
    TextCall(Pos(p.x, x), Pos(p.y, y), 1, "*")
  }

  /** The `line` calls for the edges `es`, in order. */
  function EdgeLines(ns: seq<Point>, es: seq<Edge>, x: i32, y: i32): (r: seq<Call>)
    requires EdgesInRange(es, |ns|)
    ensures |r| == |es|
    decreases |es|
  {
    if es == [] then []
    else EdgeLines(ns, es[..|es| - 1], x, y) + [EdgeLine(ns, es[|es| - 1], x, y)]
  }

  /** The `text` calls for the nodes `ns`, in order. */
  function NodeMarks(ns: seq<Point>, x: i32, y: i32): (r: seq<Call>)
    ensures |r| == |ns|
    decreases |ns|
  {
    if ns == [] then []
    else NodeMarks(ns[..|ns| - 1], x, y) + [NodeMark(ns[|ns| - 1], x, y)]
  }

  lemma EdgeLinesSnoc(ns: seq<Point>, es: seq<Edge>, i: nat, x: i32, y: i32)
    requires EdgesInRange(es, |ns|) && i < |es|
    ensures EdgesInRange(es[..i], |ns|) && EdgesInRange(es[..i + 1], |ns|)
    ensures EdgeLines(ns, es[..i + 1], x, y) == EdgeLines(ns, es[..i], x, y) + [EdgeLine(ns, es[i], x, y)]
  {
    assert es[..i + 1][..i] == es[..i];
  }

  lemma NodeMarksSnoc(ns: seq<Point>, j: nat, x: i32, y: i32)
    requires j < |ns|
    ensures NodeMarks(ns[..j + 1], x, y) == NodeMarks(ns[..j], x, y) + [NodeMark(ns[j], x, y)]
  {
    assert ns[..j + 1][..j] == ns[..j];
  }

  /** Everything `draw` appends to the canvas for nodes `ns` and edges `es`. */
  function DrawTrace(ns: seq<Point>, es: seq<Edge>, x: i32, y: i32): (r: seq<Call>)
    requires EdgesInRange(es, |ns|)
    ensures |r| == |es| + |ns|
  {
    EdgeLines(ns, es, x, y) + NodeMarks(ns, x, y)
  }

  lemma {:induction false} EdgeLinesAt(ns: seq<Point>, es: seq<Edge>, x: i32, y: i32)
    requires EdgesInRange(es, |ns|)
    ensures |EdgeLines(ns, es, x, y)| == |es|
    ensures forall k :: 0 <= k < |es| ==> EdgeLines(ns, es, x, y)[k] == EdgeLine(ns, es[k], x, y)
    decreases |es|
  {
    if es != [] {
      var init := es[..|es| - 1];
      EdgeLinesAt(ns, init, x, y);
      forall k | 0 <= k < |es|
        ensures EdgeLines(ns, es, x, y)[k] == EdgeLine(ns, es[k], x, y)
      {
        if k < |init| {
          assert init[k] == es[k];
        }
      }
    }
  }

  lemma {:induction false} NodeMarksAt(ns: seq<Point>, x: i32, y: i32)
    ensures |NodeMarks(ns, x, y)| == |ns|
    ensures forall k :: 0 <= k < |ns| ==> NodeMarks(ns, x, y)[k] == NodeMark(ns[k], x, y)
    decreases |ns|
  {
    if ns != [] {
      var init := ns[..|ns| - 1];
      NodeMarksAt(init, x, y);
      forall k | 0 <= k < |ns|
        ensures NodeMarks(ns, x, y)[k] == NodeMark(ns[k], x, y)
      {
        if k < |init| {
          assert init[k] == ns[k];
        }
      }
    }
  }

  /** The trace of `draw`: one `line` per edge in edge order, then one `text`
      per node in node order. */
  lemma DrawTraceShape(ns: seq<Point>, es: seq<Edge>, x: i32, y: i32)
    requires EdgesInRange(es, |ns|)
    ensures |DrawTrace(ns, es, x, y)| == |es| + |ns|
    ensures forall k :: 0 <= k < |es| ==> DrawTrace(ns, es, x, y)[k] == EdgeLine(ns, es[k], x, y)
    ensures forall k :: 0 <= k < |ns| ==> DrawTrace(ns, es, x, y)[|es| + k] == NodeMark(ns[k], x, y)
  {
    var lines, marks := EdgeLines(ns, es, x, y), NodeMarks(ns, x, y);
    EdgeLinesAt(ns, es, x, y);
    NodeMarksAt(ns, x, y);
    var t := DrawTrace(ns, es, x, y);
    assert t == lines + marks;
    forall k | 0 <= k < |ns| ensures t[|es| + k] == marks[k] {
    }
  }

  /** Depth is dropped: nodes that agree on `x` and `y` draw the same trace. */
  lemma DrawIgnoresDepth(ns: seq<Point>, ns': seq<Point>, es: seq<Edge>, x: i32, y: i32)
    requires |ns| == |ns'| && EdgesInRange(es, |ns|)
    requires forall i :: 0 <= i < |ns| ==> ns[i].x == ns'[i].x && ns[i].y == ns'[i].y
    ensures DrawTrace(ns, es, x, y) == DrawTrace(ns', es, x, y)
  {
    DrawTraceShape(ns, es, x, y);
    DrawTraceShape(ns', es, x, y);
    var t, t' := DrawTrace(ns, es, x, y), DrawTrace(ns', es, x, y);
    forall k | 0 <= k < |t| ensures t[k] == t'[k] {
      if k < |es| {
        assert ns[es[k].0].x == ns'[es[k].0].x && ns[es[k].0].y == ns'[es[k].0].y;
        assert ns[es[k].1].x == ns'[es[k].1].x && ns[es[k].1].y == ns'[es[k].1].y;
      } else {
        var n := k - |es|;
        assert ns[n].x == ns'[n].x && ns[n].y == ns'[n].y;
        assert t[|es| + n] == t'[|es| + n];
      }
    }
  }

  // ---------------------------------------------------------------------------
  // The cube
  // ---------------------------------------------------------------------------

  /** `Cube`: the centre `(x, y, z)`, the corner array and the edge array. */
  class Cube {
    var x: real
    var y: real
    var z: real
    var nodes: array<Point>
    var edges: array<Edge>

    /** The fixed sizes of the arrays and the edge indices being in range. */
    ghost predicate Valid()
      reads this, edges
    {
      nodes.Length == 8 && edges.Length == 12 && EdgesInRange(edges[..], nodes.Length)
    }

    function Centre(): Point
      reads this
    {
      Point(x, y, z)
    }

    /** `Cube::create(x, y, z, size)`. */
    constructor Create(x: real, y: real, z: real, size: real)
      ensures Valid() && fresh(nodes) && fresh(edges)
      ensures this.x == x && this.y == y && this.z == z
      ensures nodes[..] == Corners(x, y, z, size)
      ensures edges[..] == EdgeTable()
    {
      var cs, es := Corners(x, y, z, size), EdgeTable();
      this.x, this.y, this.z := x, y, z;
      nodes := new Point[8](i requires 0 <= i < 8 => cs[i]);
      edges := new Edge[12](k requires 0 <= k < 12 => es[k]);
    }

    /** `rotate_x(theta)`: every node is rewritten in place, by itself. */
    method RotateX(m: Math, theta: real)
      requires Valid()
      modifies nodes
      ensures Valid() && unchanged(this, edges)
      ensures forall i :: 0 <= i < nodes.Length ==> nodes[i] == RotateXNode(m, Centre(), old(nodes[i]), theta)
    {
      ghost var c := Centre();
      var i := 0;
      while i < nodes.Length
        invariant 0 <= i <= nodes.Length
        invariant forall k :: 0 <= k < i ==> nodes[k] == RotateXNode(m, c, old(nodes[k]), theta)
        invariant forall k :: i <= k < nodes.Length ==> nodes[k] == old(nodes[k])
      {
        var node := nodes[i];
        var angle := GetAngle(m, (node.y, node.z), (y, z));
        var size := GetSize(m, (y, z), (node.y, node.z));
        var factor := SignAbove(node.y, y);
        var yFinal := x + size * Cos(m, angle, theta) * factor;
        var zFinal := z + size * Sin(m, angle, theta) * factor;
        assert node.(y := yFinal, z := zFinal) == RotateXNode(m, c, node, theta);
        nodes[i] := node.(y := yFinal, z := zFinal);
        i := i + 1;
      }
    }

    /** `rotate_y(theta)`: every node is rewritten in place, by itself. */
    method RotateY(m: Math, theta: real)
      requires Valid()
      modifies nodes
      ensures Valid() && unchanged(this, edges)
      ensures forall i :: 0 <= i < nodes.Length ==> nodes[i] == RotateYNode(m, Centre(), old(nodes[i]), theta)
    {
      ghost var c := Centre();
      var i := 0;
      while i < nodes.Length
        invariant 0 <= i <= nodes.Length
        invariant forall k :: 0 <= k < i ==> nodes[k] == RotateYNode(m, c, old(nodes[k]), theta)
        invariant forall k :: i <= k < nodes.Length ==> nodes[k] == old(nodes[k])
      {
        var node := nodes[i];
        var angle := GetAngle(m, (node.x, node.z), (x, z));
        var size := GetSize(m, (x, y), (node.x, node.z));
        var factor := SignAbove(node.x, x);
        var xFinal := x + size * Cos(m, angle, theta) * factor;
        var zFinal := z + size * Sin(m, angle, theta) * factor;
        assert node.(x := xFinal, z := zFinal) == RotateYNode(m, c, node, theta);
        nodes[i] := node.(x := xFinal, z := zFinal);
        i := i + 1;
      }
    }

    /** `rotate_z(theta)`: every node is rewritten in place, by itself. */
    method RotateZ(m: Math, theta: real)
      requires Valid()
      modifies nodes
      ensures Valid() && unchanged(this, edges)
      ensures forall i :: 0 <= i < nodes.Length ==> nodes[i] == RotateZNode(m, Centre(), old(nodes[i]), theta)
    {
      ghost var c := Centre();
      var i := 0;
      while i < nodes.Length
        invariant 0 <= i <= nodes.Length
        invariant forall k :: 0 <= k < i ==> nodes[k] == RotateZNode(m, c, old(nodes[k]), theta)
        invariant forall k :: i <= k < nodes.Length ==> nodes[k] == old(nodes[k])
      {
        var node := nodes[i];
        var angle := GetAngle(m, (node.x, node.y), (x, y));
        var size := GetSize(m, (x, y), (node.x, node.y));
        var factor := SignNotBelow(node.x, x);
        var xFinal := x + size * Cos(m, angle, theta) * factor;
        var yFinal := y + size * Sin(m, angle, theta) * factor;
        assert node.(x := xFinal, y := yFinal) == RotateZNode(m, c, node, theta);
        nodes[i] := node.(x := xFinal, y := yFinal);
        i := i + 1;
      }
    }

    /** `draw(x, y, canvas)`: a `line` per edge, then a `text` per node, at the
        truncated planar coordinates plus the offset `(x, y)`. */
    method Draw(x: i32, y: i32, canvas: Canvas) returns (out: Canvas)
      requires Valid()
      ensures out.trace == canvas.trace + DrawTrace(nodes[..], edges[..], x, y)
      ensures |out.trace| == |canvas.trace| + 20
    {
      out := DrawEdges(x, y, canvas);
      out := DrawNodes(x, y, out);
      DrawTraceShape(nodes[..], edges[..], x, y);
    }

    /** The first loop of `draw`: one `line` per edge, in edge order. */
    method DrawEdges(x: i32, y: i32, canvas: Canvas) returns (out: Canvas)
      requires Valid()
      ensures out.trace == canvas.trace + EdgeLines(nodes[..], edges[..], x, y)
    {
      ghost var ns, es := nodes[..], edges[..];
      out := canvas;
      var i := 0;
      while i < edges.Length
        invariant 0 <= i <= edges.Length
        invariant out.trace == canvas.trace + EdgeLines(ns, es[..i], x, y)
      {
        var (n0, n1) := edges[i];
        var p0, p1 := nodes[n0], nodes[n1];
        ghost var call := EdgeLine(ns, es[i], x, y);
        assert call == LineCall(Pos(p0.x, x), Pos(p0.y, y), Pos(p1.x, x), Pos(p1.y, y));
        out := out.Line(Pos(p0.x, x), Pos(p0.y, y), Pos(p1.x, x), Pos(p1.y, y));
        EdgeLinesSnoc(ns, es, i, x, y);
        assert out.trace == canvas.trace + EdgeLines(ns, es[..i], x, y) + [call];
        i := i + 1;
      }
      assert es[..i] == es;
    }

    /** The second loop of `draw`: one `text` of width 1 and label "*" per
        node, in node order. */
    method DrawNodes(x: i32, y: i32, canvas: Canvas) returns (out: Canvas)
      ensures out.trace == canvas.trace + NodeMarks(nodes[..], x, y)
    {
      ghost var ns := nodes[..];
      out := canvas;
      var j := 0;
      while j < nodes.Length
        invariant 0 <= j <= nodes.Length
        invariant out.trace == canvas.trace + NodeMarks(ns[..j], x, y)
      {
        var node := nodes[j];
        out := out.Text(Pos(node.x, x), Pos(node.y, y), 1, "*");
        NodeMarksSnoc(ns, j, x, y);
        j := j + 1;
      }
      assert ns[..j] == ns;
    }
  }
}
