/** `PolygonManager::draw()`: the extent scan, the scaling to a character grid, Bresenham's line
    over every closed edge into the fixed `bool pixels[100][80]`, and one glyph per cell, row by
    row from the top. The rows are returned instead of printed. A step whose behaviour the C++
    language leaves undefined (a `NaN` cast to `int`, an index outside `pixels`) ends the drawing
    with an error instead. */
module Raster {
  import opened Vectors
  import opened Shapes

  /** The dimensions of `pixels`: first index 0..99, second index 0..79. */
  const GridWidth: int := 100
  const GridHeight: int := 80
  /** `pixelAspectRatio`. */
  const PixelAspectRatio: real := 0.5
  /** `maxX *= 1.2`: 20% free space around the image. */
  const Margin: real := 1.2

  datatype DrawError =
    | DegenerateExtent   // a vertex exists but every coordinate is 0: the scales divide by zero
    | PixelOutsideGrid   // Bresenham reaches a cell outside `pixels`
    | ReadOutsideGrid    // the glyph loop reads a column outside `pixels`

  datatype Result<T> = Ok(value: T) | Err(error: DrawError)

  /** The C++ cast `(int)r`: truncation toward zero. */
  function Trunc(r: real): (t: int)
    ensures r >= 0.0 ==> t as real <= r < t as real + 1.0
    ensures r < 0.0 ==> t as real - 1.0 < r <= t as real
  {
    if r >= 0.0 then r.Floor else -((-r).Floor)
  }

  /** `maxHeight = (unsigned)(pixelAspectRatio * drawWidth)`: half the width, rounded down. */
  function MaxHeight(width: nat): (h: nat)
    ensures h == width / 2
  {
    var half := PixelAspectRatio * width as real;
    assert (width / 2) as real <= half < (width / 2) as real + 1.0;
    Trunc(half)
  }

  // ---- the extent

  /** One step of the scan: `maxX` raised to |x|, then to |y|, whichever is larger. */
  function VertexMax(acc: real, v: Vector): real {
    var a := if Abs(Get(v, 1)) > acc then Abs(Get(v, 1)) else acc;
    if Abs(Get(v, 2)) > a then Abs(Get(v, 2)) else a
  }

  /** The scan over the vertices of one shape, first to last, starting from `acc`. */
  function ShapeMax(acc: real, s: seq<Vector>): real {
    if |s| == 0 then acc else VertexMax(ShapeMax(acc, s[..|s| - 1]), s[|s| - 1])
  }

  /** The scan over all shapes, first to last, starting from 0. */
  function SceneMax(shapes: seq<seq<Vector>>): real {
    if |shapes| == 0 then 0.0 else ShapeMax(SceneMax(shapes[..|shapes| - 1]), shapes[|shapes| - 1])
  }

  /** `maxX` after the scan and the margin. */
  function Extent(shapes: seq<seq<Vector>>): real {
    Margin * SceneMax(shapes)
  }

  /** Some shape has a vertex, so some edge will be drawn. */
  predicate HasVertex(shapes: seq<seq<Vector>>) {
    exists j | 0 <= j < |shapes| :: |shapes[j]| > 0
  }

  /** The scan of one shape bounds every coordinate of it and never goes below its start. */
  lemma {:induction false} ShapeMaxBounds(acc: real, s: seq<Vector>)
    ensures ShapeMax(acc, s) >= acc
    ensures forall i | 0 <= i < |s| :: Abs(s[i].x) <= ShapeMax(acc, s) && Abs(s[i].y) <= ShapeMax(acc, s)
    ensures ShapeMax(acc, s) == acc || exists i | 0 <= i < |s| :: ShapeMax(acc, s) == Abs(s[i].x) || ShapeMax(acc, s) == Abs(s[i].y)
  {
    if |s| > 0 {
      var init := s[..|s| - 1];
      ShapeMaxBounds(acc, init);
      assert forall i | 0 <= i < |init| :: s[i] == init[i];
    }
  }

  /** The scene scan is at least |x| and |y| of every vertex, and is one of them or 0. */
  lemma {:induction false} SceneMaxBounds(shapes: seq<seq<Vector>>)
    ensures SceneMax(shapes) >= 0.0
    ensures forall j, i | 0 <= j < |shapes| && 0 <= i < |shapes[j]| ::
      Abs(shapes[j][i].x) <= SceneMax(shapes) && Abs(shapes[j][i].y) <= SceneMax(shapes)
    ensures SceneMax(shapes) == 0.0 || exists j, i | 0 <= j < |shapes| && 0 <= i < |shapes[j]| ::
      SceneMax(shapes) == Abs(shapes[j][i].x) || SceneMax(shapes) == Abs(shapes[j][i].y)
  {
    if |shapes| > 0 {
      var init := shapes[..|shapes| - 1];
      var last := shapes[|shapes| - 1];
      SceneMaxBounds(init);
      ShapeMaxBounds(SceneMax(init), last);
      assert forall j | 0 <= j < |init| :: shapes[j] == init[j];
    }
  }

  /** The extent is 0 exactly when every vertex is the origin. */
  lemma ExtentZeroIff(shapes: seq<seq<Vector>>)
    ensures Extent(shapes) >= 0.0
    ensures Extent(shapes) == 0.0 <==> forall j, i | 0 <= j < |shapes| && 0 <= i < |shapes[j]| :: shapes[j][i] == Zero()
  {
    SceneMaxBounds(shapes);
    if Extent(shapes) == 0.0 {
      forall j, i | 0 <= j < |shapes| && 0 <= i < |shapes[j]| ensures shapes[j][i] == Zero() {
        assert Abs(shapes[j][i].x) <= 0.0 && Abs(shapes[j][i].y) <= 0.0;
      }
    }
  }

  /** The nested scan loops of `draw`: `maxX` over every vertex of every shape. */
  method ScanExtent(shapes: seq<seq<Vector>>) returns (maxX: real)
    ensures maxX == SceneMax(shapes)
  {
    maxX := 0.0;
    for j := 0 to |shapes|
      invariant maxX == SceneMax(shapes[..j])
    {
      var s := shapes[j];
      assert shapes[..j + 1][..j] == shapes[..j];
      ghost var start := maxX;
      for i := 0 to |s|
        invariant maxX == ShapeMax(start, s[..i])
      {
        assert s[..i + 1][..i] == s[..i];
        var newX, newY := Get(s[i], 1), Get(s[i], 2);
        if Abs(newX) > maxX {
          maxX := Abs(newX);
        }
        if Abs(newY) > maxX {
          maxX := Abs(newY);
        }
      }
      assert s[..|s|] == s;
    }
    assert shapes[..|shapes|] == shapes;
  }

  // ---- one edge

  /** An edge after the two swaps: `steep` says whether x and y were exchanged. */
  datatype Line = Line(steep: bool, x1: real, y1: real, x2: real, y2: real)

  /** The swaps of `draw`: exchange the axes when the edge is steep, then the endpoints when
      they run right to left. */
  function Orient(x1: real, y1: real, x2: real, y2: real): (l: Line)
    ensures l.steep == (Abs(y2 - y1) > Abs(x2 - x1))
    ensures l.x1 <= l.x2 && Abs(l.y2 - l.y1) <= l.x2 - l.x1
    ensures l.steep ==> (l.x1, l.y1, l.x2, l.y2) in {(y1, x1, y2, x2), (y2, x2, y1, x1)}
    ensures !l.steep ==> (l.x1, l.y1, l.x2, l.y2) in {(x1, y1, x2, y2), (x2, y2, x1, y1)}
  {
    var steep := Abs(y2 - y1) > Abs(x2 - x1);
    var a1, b1, a2, b2 := if steep then y1 else x1, if steep then x1 else y1, if steep then y2 else x2, if steep then x2 else y2;
    if a1 > a2 then Line(steep, a2, b2, a1, b1) else Line(steep, a1, b1, a2, b2)
  }

  /** The state of the inner loop: the current `y` and `error`. */
  datatype Pen = Pen(y: int, error: real)

  /** One iteration: `error -= dy; if (error < 0) { y += ystep; error += dx; }`. */
  function Advance(p: Pen, dx: real, dy: real, ystep: int): Pen {
    var e := p.error - dy;
    if e < 0.0 then Pen(p.y + ystep, e + dx) else Pen(p.y, e)
  }

  /** The pen after k iterations. */
  function PenAfter(p: Pen, k: nat, dx: real, dy: real, ystep: int): Pen
    decreases k
  {
    if k == 0 then p else PenAfter(Advance(p, dx, dy, ystep), k - 1, dx, dy, ystep)
  }

  /** The cells the loop `for (x = x; x < xEnd; x++)` visits, in line coordinates. */
  function Walk(x: int, xEnd: int, p: Pen, dx: real, dy: real, ystep: int): seq<(int, int)>
    decreases xEnd - x
  {
    if x >= xEnd then [] else [(x, p.y)] + Walk(x + 1, xEnd, Advance(p, dx, dy, ystep), dx, dy, ystep)
  }

  /** The walk of an oriented edge: from `(int)x1` up to `(int)x2`, starting at row `(int)y1`
      with error dx/2, stepping y towards y2. */
  function LineCells(l: Line): seq<(int, int)> {
    var dx := l.x2 - l.x1;
    var dy := Abs(l.y2 - l.y1);
    var ystep := if l.y1 < l.y2 then 1 else -1;
    Walk(Trunc(l.x1), Trunc(l.x2), Pen(Trunc(l.y1), dx / 2.0), dx, dy, ystep)
  }

  /** The `pixels` index a cell sets: `[y + midX][x + midY]` for a steep edge, else `[x + midX][y + midY]`. */
  function PixelAt(steep: bool, c: (int, int), midX: int, midY: int): (int, int) {
    if steep then (c.1 + midX, c.0 + midY) else (c.0 + midX, c.1 + midY)
  }

  function ToPixels(steep: bool, cells: seq<(int, int)>, midX: int, midY: int): (ps: seq<(int, int)>)
    ensures |ps| == |cells|
    ensures forall k | 0 <= k < |cells| :: ps[k] == PixelAt(steep, cells[k], midX, midY)
  {
    seq(|cells|, k requires 0 <= k < |cells| => PixelAt(steep, cells[k], midX, midY))
  }

  /** The `pixels` indices one oriented edge sets, in order. */
  function LinePixels(l: Line, midX: int, midY: int): seq<(int, int)> {
    ToPixels(l.steep, LineCells(l), midX, midY)
  }

  predicate InGrid(c: (int, int)) {
    0 <= c.0 < GridWidth && 0 <= c.1 < GridHeight
  }

  /** One iteration keeps 0 <= error <= dx and moves y by 0 or by ystep. */
  lemma AdvanceKeepsError(p: Pen, dx: real, dy: real, ystep: int)
    requires 0.0 <= dy <= dx && 0.0 <= p.error <= dx
    ensures 0.0 <= Advance(p, dx, dy, ystep).error <= dx
    ensures Advance(p, dx, dy, ystep).y in {p.y, p.y + ystep}
  {
  }

  /** The error term stays in [0, dx] for the whole walk. */
  lemma {:induction false} PenAfterKeepsError(p: Pen, k: nat, dx: real, dy: real, ystep: int)
    requires 0.0 <= dy <= dx && 0.0 <= p.error <= dx
    ensures 0.0 <= PenAfter(p, k, dx, dy, ystep).error <= dx
    decreases k
  {
    if k > 0 {
      AdvanceKeepsError(p, dx, dy, ystep);
      PenAfterKeepsError(Advance(p, dx, dy, ystep), k - 1, dx, dy, ystep);
    }
  }

  /** How many of the first k iterations moved y. */
  function Rises(p: Pen, k: nat, dx: real, dy: real, ystep: int): (r: nat)
    ensures r <= k
    decreases k
  {
    if k == 0 then 0
    else (if p.error - dy < 0.0 then 1 else 0) + Rises(Advance(p, dx, dy, ystep), k - 1, dx, dy, ystep)
  }

  /** After k iterations with r rises, y has moved r times by ystep. */
  lemma {:induction false} PenAfterRow(p: Pen, k: nat, dx: real, dy: real, ystep: int)
    ensures PenAfter(p, k, dx, dy, ystep).y == p.y + Rises(p, k, dx, dy, ystep) * ystep
    decreases k
  {
    if k > 0 {
      var q := Advance(p, dx, dy, ystep);
      PenAfterRow(q, k - 1, dx, dy, ystep);
      var r1 := Rises(q, k - 1, dx, dy, ystep);
      if p.error - dy < 0.0 {
        assert (r1 + 1) * ystep == r1 * ystep + ystep;
      }
    }
  }

  /** n d as n-fold addition, the way the loop accumulates it. */
  function Times(n: nat, d: real): real {
    if n == 0 then 0.0 else Times(n - 1, d) + d
  }

  /** n-fold addition is multiplication. */
  lemma {:induction false} TimesIsProduct(n: nat, d: real)
    ensures Times(n, d) == (n as real) * d
  {
    if n > 0 {
      TimesIsProduct(n - 1, d);
      assert (n as real) * d == ((n - 1) as real) * d + d;
    }
  }

  /** After k iterations with r rises, the error is e0 - k dy + r dx. */
  lemma {:induction false} PenAfterError(p: Pen, k: nat, dx: real, dy: real, ystep: int)
    ensures PenAfter(p, k, dx, dy, ystep).error == p.error - Times(k, dy) + Times(Rises(p, k, dx, dy, ystep), dx)
    decreases k
  {
    if k > 0 {
      var q := Advance(p, dx, dy, ystep);
      PenAfterError(q, k - 1, dx, dy, ystep);
      assert PenAfter(p, k, dx, dy, ystep) == PenAfter(q, k - 1, dx, dy, ystep);
    }
  }

  /** Bresenham's promise: starting from error dx/2, after k columns y has risen r times where
      r dx is within dx/2 of k dy, so the cell stays within half a row of the ideal line. */
  lemma BresenhamCloseness(y0: int, k: nat, dx: real, dy: real, ystep: int)
    requires 0.0 <= dy <= dx
    ensures var r := Rises(Pen(y0, dx / 2.0), k, dx, dy, ystep);
      PenAfter(Pen(y0, dx / 2.0), k, dx, dy, ystep).y == y0 + r * ystep
      && -(dx / 2.0) <= (r as real) * dx - (k as real) * dy <= dx / 2.0
  {
    var p := Pen(y0, dx / 2.0);
    PenAfterRow(p, k, dx, dy, ystep);
    PenAfterError(p, k, dx, dy, ystep);
    TimesIsProduct(k, dy);
    TimesIsProduct(Rises(p, k, dx, dy, ystep), dx);
    PenAfterKeepsError(p, k, dx, dy, ystep);
  }

  /** The walk visits exactly the columns x, x+1, ..., xEnd-1 (none when xEnd <= x), the k-th
      at the row of the pen after k iterations. */
  lemma {:induction false} WalkCells(x: int, xEnd: int, p: Pen, dx: real, dy: real, ystep: int)
    ensures |Walk(x, xEnd, p, dx, dy, ystep)| == if x < xEnd then xEnd - x else 0
    ensures forall k | 0 <= k < |Walk(x, xEnd, p, dx, dy, ystep)| ::
      Walk(x, xEnd, p, dx, dy, ystep)[k] == (x + k, PenAfter(p, k, dx, dy, ystep).y)
    decreases xEnd - x
  {
    if x < xEnd {
      var q := Advance(p, dx, dy, ystep);
      WalkCells(x + 1, xEnd, q, dx, dy, ystep);
      var w := Walk(x, xEnd, p, dx, dy, ystep);
      forall k | 0 <= k < |w| ensures w[k] == (x + k, PenAfter(p, k, dx, dy, ystep).y) {
        if k > 0 {
          assert w[k] == Walk(x + 1, xEnd, q, dx, dy, ystep)[k - 1];
        }
      }
    }
  }

  /** Consecutive cells of a walk started with 0 <= error <= dx differ in y by 0 or ystep. */
  lemma WalkRowSteps(x: int, xEnd: int, p: Pen, dx: real, dy: real, ystep: int, k: nat)
    requires 0.0 <= dy <= dx && 0.0 <= p.error <= dx
    requires k + 1 < |Walk(x, xEnd, p, dx, dy, ystep)|
    ensures Walk(x, xEnd, p, dx, dy, ystep)[k + 1].1 in {Walk(x, xEnd, p, dx, dy, ystep)[k].1, Walk(x, xEnd, p, dx, dy, ystep)[k].1 + ystep}
  {
    WalkCells(x, xEnd, p, dx, dy, ystep);
    PenAfterKeepsError(p, k, dx, dy, ystep);
    PenAfterStep(p, k, dx, dy, ystep);
    AdvanceKeepsError(PenAfter(p, k, dx, dy, ystep), dx, dy, ystep);
  }

  /** k + 1 iterations are one more iteration after k. */
  lemma {:induction false} PenAfterStep(p: Pen, k: nat, dx: real, dy: real, ystep: int)
    ensures PenAfter(p, k + 1, dx, dy, ystep) == Advance(PenAfter(p, k, dx, dy, ystep), dx, dy, ystep)
    decreases k
  {
    if k > 0 {
      PenAfterStep(Advance(p, dx, dy, ystep), k - 1, dx, dy, ystep);
    }
  }

  /** The Bresenham loop of one edge. It stops, reporting failure, at the first cell outside
      `pixels`; otherwise it sets exactly the cells of `LinePixels` and clears none. */
  method DrawLine(pixels: array2<bool>, l: Line, midX: int, midY: int) returns (ok: bool)
    requires pixels.Length0 == GridWidth && pixels.Length1 == GridHeight
    modifies pixels
    ensures ok <==> forall c | c in LinePixels(l, midX, midY) :: InGrid(c)
    ensures ok ==> forall a, b | 0 <= a < GridWidth && 0 <= b < GridHeight ::
      pixels[a, b] == (old(pixels[a, b]) || (a, b) in LinePixels(l, midX, midY))
  {
    var dx := l.x2 - l.x1;
    var dy := Abs(l.y2 - l.y1);
    var error := dx / 2.0;
    var ystep := if l.y1 < l.y2 then 1 else -1;
    var y := Trunc(l.y1);
    ok := Plot(pixels, l.steep, Trunc(l.x1), Trunc(l.x2), y, error, dx, dy, ystep, midX, midY);
  }

  /** The loop of `DrawLine` from column x to xEnd with the pen at row y and the given error. */
  method Plot(pixels: array2<bool>, steep: bool, x0: int, xEnd: int, y0: int, error0: real,
              dx: real, dy: real, ystep: int, midX: int, midY: int) returns (ok: bool)
    requires pixels.Length0 == GridWidth && pixels.Length1 == GridHeight
    modifies pixels
    ensures var ps := ToPixels(steep, Walk(x0, xEnd, Pen(y0, error0), dx, dy, ystep), midX, midY);
      (ok <==> forall c | c in ps :: InGrid(c))
      && (ok ==> forall a, b | 0 <= a < GridWidth && 0 <= b < GridHeight :: pixels[a, b] == (old(pixels[a, b]) || (a, b) in ps))
  {
    var x, y, error := x0, y0, error0;
    ghost var all := Walk(x0, xEnd, Pen(y0, error0), dx, dy, ystep);
    ghost var rest := all;
    ghost var done: seq<(int, int)> := [];
    ghost var painted: seq<(int, int)> := [];
    while x < xEnd
      invariant rest == Walk(x, xEnd, Pen(y, error), dx, dy, ystep)
      invariant done + rest == all
      invariant |painted| == |done| && forall k | 0 <= k < |done| :: painted[k] == PixelAt(steep, done[k], midX, midY)
      invariant forall c | c in painted :: InGrid(c)
      invariant forall a, b | 0 <= a < GridWidth && 0 <= b < GridHeight :: pixels[a, b] == (old(pixels[a, b]) || (a, b) in painted)
      decreases xEnd - x
    {
      var c := PixelAt(steep, (x, y), midX, midY);
      assert all[|done|] == (x, y);
      if !InGrid(c) {
        assert ToPixels(steep, all, midX, midY)[|done|] == c;
        return false;
      }
      pixels[c.0, c.1] := true;
      var p := Advance(Pen(y, error), dx, dy, ystep);
      assert rest == [(x, y)] + Walk(x + 1, xEnd, p, dx, dy, ystep);
      assert (done + [(x, y)]) + rest[1..] == done + rest;
      done, painted, rest := done + [(x, y)], painted + [c], rest[1..];
      y, error := p.y, p.error;
      x := x + 1;
    }
    assert done == all;
    assert painted == ToPixels(steep, all, midX, midY);
    return true;
  }

  // ---- the whole scene

  /** Edge i of a shape, scaled and oriented: from vertex i to the next one, the last to the first. */
  function EdgeLine(s: seq<Vector>, i: nat, sx: real, sy: real): Line
    requires i < |s|
  {
    var u, v := s[i], s[Next(|s|, i)];
    Orient(sx * Get(u, 1), sy * Get(u, 2), sx * Get(v, 1), sy * Get(v, 2))
  }

  /** The cells edges 0..k-1 of a shape set, in order. */
  function EdgesPixels(s: seq<Vector>, k: nat, sx: real, sy: real, midX: int, midY: int): seq<(int, int)>
    requires k <= |s|
  {
    if k == 0 then [] else EdgesPixels(s, k - 1, sx, sy, midX, midY) + LinePixels(EdgeLine(s, k - 1, sx, sy), midX, midY)
  }

  /** The cells all edges of all shapes set, shape by shape. */
  function ScenePixels(shapes: seq<seq<Vector>>, sx: real, sy: real, midX: int, midY: int): seq<(int, int)> {
    if |shapes| == 0 then []
    else
      var last := shapes[|shapes| - 1];
      ScenePixels(shapes[..|shapes| - 1], sx, sy, midX, midY) + EdgesPixels(last, |last|, sx, sy, midX, midY)
  }

  lemma {:induction false} EdgesPixelsGrow(s: seq<Vector>, k: nat, sx: real, sy: real, midX: int, midY: int)
    requires k <= |s|
    ensures forall c | c in EdgesPixels(s, k, sx, sy, midX, midY) :: c in EdgesPixels(s, |s|, sx, sy, midX, midY)
    decreases |s| - k
  {
    if k < |s| {
      EdgesPixelsGrow(s, k + 1, sx, sy, midX, midY);
    }
  }

  lemma {:induction false} ScenePixelsGrow(shapes: seq<seq<Vector>>, j: nat, sx: real, sy: real, midX: int, midY: int)
    requires j <= |shapes|
    ensures forall c | c in ScenePixels(shapes[..j], sx, sy, midX, midY) :: c in ScenePixels(shapes, sx, sy, midX, midY)
    decreases |shapes| - j
  {
    if j < |shapes| {
      ScenePixelsGrow(shapes, j + 1, sx, sy, midX, midY);
      assert shapes[..j + 1][..j] == shapes[..j];
    } else {
      assert shapes[..j] == shapes;
    }
  }

  /** The edge loops of `draw`: every edge of every shape through `DrawLine`, stopping at the
      first cell outside the grid. */
  method Rasterise(shapes: seq<seq<Vector>>, sx: real, sy: real, midX: int, midY: int)
    returns (pixels: array2<bool>, ok: bool)
    ensures fresh(pixels) && pixels.Length0 == GridWidth && pixels.Length1 == GridHeight
    ensures ok <==> forall c | c in ScenePixels(shapes, sx, sy, midX, midY) :: InGrid(c)
    ensures ok ==> forall a, b | 0 <= a < GridWidth && 0 <= b < GridHeight ::
      pixels[a, b] == ((a, b) in ScenePixels(shapes, sx, sy, midX, midY))
  {
    pixels := new bool[GridWidth, GridHeight]((_, _) => false);
    for j := 0 to |shapes|
      invariant forall c | c in ScenePixels(shapes[..j], sx, sy, midX, midY) :: InGrid(c)
      invariant forall a, b | 0 <= a < GridWidth && 0 <= b < GridHeight ::
        pixels[a, b] == ((a, b) in ScenePixels(shapes[..j], sx, sy, midX, midY))
    {
      assert shapes[..j + 1][..j] == shapes[..j];
      var drawn := DrawShape(pixels, shapes[j], sx, sy, midX, midY);
      if !drawn {
        ghost var bad :| bad in EdgesPixels(shapes[j], |shapes[j]|, sx, sy, midX, midY) && !InGrid(bad);
        assert bad in ScenePixels(shapes[..j + 1], sx, sy, midX, midY);
        ScenePixelsGrow(shapes, j + 1, sx, sy, midX, midY);
        ok := false;
        return;
      }
    }
    assert shapes[..|shapes|] == shapes;
    ok := true;
  }

  /** The edge loop over one shape: edge i from vertex i to vertex i + 1, the last to the first. */
  method DrawShape(pixels: array2<bool>, s: seq<Vector>, sx: real, sy: real, midX: int, midY: int) returns (ok: bool)
    requires pixels.Length0 == GridWidth && pixels.Length1 == GridHeight
    modifies pixels
    ensures ok <==> forall c | c in EdgesPixels(s, |s|, sx, sy, midX, midY) :: InGrid(c)
    ensures ok ==> forall a, b | 0 <= a < GridWidth && 0 <= b < GridHeight ::
      pixels[a, b] == (old(pixels[a, b]) || (a, b) in EdgesPixels(s, |s|, sx, sy, midX, midY))
  {
    for i := 0 to |s|
      invariant forall c | c in EdgesPixels(s, i, sx, sy, midX, midY) :: InGrid(c)
      invariant forall a, b | 0 <= a < GridWidth && 0 <= b < GridHeight ::
        pixels[a, b] == (old(pixels[a, b]) || (a, b) in EdgesPixels(s, i, sx, sy, midX, midY))
    {
      var line := EdgeLine(s, i, sx, sy);
      var drawn := DrawLine(pixels, line, midX, midY);
      if !drawn {
        ghost var bad :| bad in LinePixels(line, midX, midY) && !InGrid(bad);
        assert bad in EdgesPixels(s, i + 1, sx, sy, midX, midY);
        EdgesPixelsGrow(s, i + 1, sx, sy, midX, midY);
        return false;
      }
    }
    return true;
  }

  // ---- the glyphs

  /** The glyph of one cell, tested in the source's order. */
  function Glyph(on: bool, x: int, y: int, midX: int, midY: int): (g: char)
    ensures on ==> g == 'x'
    ensures !on && x == midX && y == midY ==> g == 'O'
    ensures !on && x == midX && y != midY ==> g == '|'
    ensures !on && x != midX && y == midY ==> g == '-'
    ensures !on && x != midX && y != midY ==> g == ' '
  {
    if !on && x != midX && y != midY then ' '
    else if !on && x != midX && y == midY then '-'
    else if !on && x == midX && y != midY then '|'
    else if !on && x == midX && y == midY then 'O'
    else assert on; 'x'
  }

  /** Row y of the picture: one glyph for each column 0..width-1. */
  function Row(painted: set<(int, int)>, y: int, width: nat, midX: int, midY: int): (row: string)
    ensures |row| == width
    ensures forall x | 0 <= x < width :: row[x] == Glyph((x, y) in painted, x, y, midX, midY)
  {
    seq(width, x requires 0 <= x < width => Glyph((x, y) in painted, x, y, midX, midY))
  }

  /** The rows from y = height down to y = 0. */
  function Frame(painted: set<(int, int)>, width: nat, height: nat): (rows: seq<string>)
    ensures |rows| == height + 1
    ensures forall k | 0 <= k <= height :: rows[k] == Row(painted, height - k, width, width / 2, height / 2)
  {
    seq(height + 1, k requires 0 <= k <= height => Row(painted, height - k, width, width / 2, height / 2))
  }

  /** The glyph loops of `draw`: `line += glyph` for x = 0..width-1, for y = height down to 0. */
  method Render(pixels: array2<bool>, ghost painted: set<(int, int)>, width: nat, height: nat) returns (rows: seq<string>)
    requires pixels.Length0 == GridWidth && pixels.Length1 == GridHeight
    requires width <= GridWidth && height < GridHeight
    requires forall a, b | 0 <= a < GridWidth && 0 <= b < GridHeight :: pixels[a, b] == ((a, b) in painted)
    ensures rows == Frame(painted, width, height)
  {
    var midX, midY := width / 2, height / 2;
    rows := [];
    var y := height as int;
    while y >= 0
      invariant -1 <= y <= height
      invariant |rows| == height - y
      invariant forall k | 0 <= k < |rows| :: rows[k] == Row(painted, height - k, width, midX, midY)
    {
      var line := "";
      for x := 0 to width
        invariant |line| == x
        invariant forall i | 0 <= i < x :: line[i] == Glyph((i, y) in painted, i, y, midX, midY)
      {
        line := line + [Glyph(pixels[x, y], x, y, midX, midY)];
      }
      rows := rows + [line];
      y := y - 1;
    }
  }

  // ---- draw

  /** What `draw()` produces for the given shapes and `drawWidth`: the scale factors are undefined
      exactly when there is a vertex and every vertex is the origin; only a width above 100 makes
      the glyph loop read outside the grid; a scene without vertices draws within any width up to 100. */
  function DrawSpec(shapes: seq<seq<Vector>>, width: nat): (r: Result<seq<string>>)
    ensures r == Err(DegenerateExtent) <==> Extent(shapes) == 0.0 && HasVertex(shapes)
    ensures r == Err(ReadOutsideGrid) ==> width > GridWidth
    ensures !HasVertex(shapes) && width <= GridWidth ==> r.Ok?
  {
    ExtentZeroIff(shapes);
    var height := MaxHeight(width);
    var maxX := Extent(shapes);
    if maxX == 0.0 && HasVertex(shapes) then Err(DegenerateExtent)
    else
      var cells := if maxX == 0.0 then [] else ScenePixels(shapes, width as real / (2.0 * maxX), height as real / (2.0 * maxX), width / 2, height / 2);
      if exists c | c in cells :: !InGrid(c) then Err(PixelOutsideGrid)
      else if width > GridWidth then Err(ReadOutsideGrid)
      else Ok(Frame((set c | c in cells :: c), width, height))
  }

  /** Every shape without vertices draws no cell. */
  lemma {:induction false} NoVertexNoPixels(shapes: seq<seq<Vector>>, sx: real, sy: real, midX: int, midY: int)
    requires !HasVertex(shapes)
    ensures ScenePixels(shapes, sx, sy, midX, midY) == []
  {
    if |shapes| > 0 {
      assert !HasVertex(shapes[..|shapes| - 1]) by {
        var init := shapes[..|shapes| - 1];
        forall j | 0 <= j < |init| ensures |init[j]| == 0 {
          assert init[j] == shapes[j];
        }
      }
      NoVertexNoPixels(shapes[..|shapes| - 1], sx, sy, midX, midY);
      assert |shapes[|shapes| - 1]| == 0;
    }
  }

  /** `draw()`. */
  method Draw(shapes: seq<seq<Vector>>, width: nat) returns (r: Result<seq<string>>)
    ensures r == DrawSpec(shapes, width)
  {
    var height := Trunc(PixelAspectRatio * width as real);
    assert height == MaxHeight(width);
    var maxX := ScanExtent(shapes);
    maxX := maxX * Margin;
    var midX, midY := width / 2, height / 2;
    var pixels: array2<bool>;
    var ok: bool;
    if maxX == 0.0 {
      // the scales are infinite; the first edge casts NaN to int
      var k := 0;
      while k < |shapes|
        invariant 0 <= k <= |shapes|
        invariant forall j | 0 <= j < k :: |shapes[j]| == 0
      {
        if |shapes[k]| > 0 {
          return Err(DegenerateExtent);
        }
        k := k + 1;
      }
      NoVertexNoPixels(shapes, 0.0, 0.0, midX, midY);
      pixels, ok := Rasterise([], 0.0, 0.0, midX, midY);
    } else {
      var scaleX := width as real / (2.0 * maxX);
      var scaleY := height as real / (2.0 * maxX);
      pixels, ok := Rasterise(shapes, scaleX, scaleY, midX, midY);
    }
    ghost var cells := if maxX == 0.0 then [] else ScenePixels(shapes, width as real / (2.0 * maxX), height as real / (2.0 * maxX), midX, midY);
    if !ok {
      return Err(PixelOutsideGrid);
    }
    if width > GridWidth {
      return Err(ReadOutsideGrid);
    }
    var rows := Render(pixels, (set c | c in cells :: c), width, height);
    return Ok(rows);
  }

  // ---- properties of the picture

  /** `draw()` succeeds only when the glyph loop stays inside `pixels`, i.e. drawWidth <= 100;
      then the picture has maxHeight + 1 rows of drawWidth glyphs each. */
  lemma DrawnFrameShape(shapes: seq<seq<Vector>>, width: nat)
    ensures DrawSpec(shapes, width).Ok? ==> width <= GridWidth
    ensures DrawSpec(shapes, width).Ok? ==>
      var rows := DrawSpec(shapes, width).value;
      |rows| == width / 2 + 1 && forall k | 0 <= k < |rows| :: |rows[k]| == width
  {
  }

  /** With no shapes the picture is only the axes: 'O' at (midX, midY), '|' along x = midX,
      '-' along y = midY and blanks elsewhere. */
  lemma EmptySceneDrawsAxes(width: nat)
    requires width <= GridWidth
    ensures DrawSpec([], width).Ok?
    ensures var rows, height := DrawSpec([], width).value, width / 2;
      forall k, x | 0 <= k <= height && 0 <= x < width ::
        rows[k][x] == (if x == width / 2 && height - k == height / 2 then 'O'
                       else if x == width / 2 then '|'
                       else if height - k == height / 2 then '-'
                       else ' ')
  {
  }

  /** All vertices at the origin, with at least one vertex, is an error: the scales divide by zero. */
  lemma DegenerateSceneFails(shapes: seq<seq<Vector>>, width: nat)
    requires HasVertex(shapes)
    requires forall j, i | 0 <= j < |shapes| && 0 <= i < |shapes[j]| :: shapes[j][i] == Zero()
    ensures DrawSpec(shapes, width) == Err(DegenerateExtent)
  {
    ExtentZeroIff(shapes);
  }

  /** A cell shows 'x' exactly when some edge set it. */
  lemma ShapeCellsShowX(shapes: seq<seq<Vector>>, width: nat, k: nat, x: nat)
    requires DrawSpec(shapes, width).Ok?
    requires k <= width / 2 && x < width
    ensures var maxX, height := Extent(shapes), width / 2;
      var cells := if maxX == 0.0 then [] else ScenePixels(shapes, width as real / (2.0 * maxX), height as real / (2.0 * maxX), width / 2, height / 2);
      DrawSpec(shapes, width).value[k][x] == 'x' <==> (x, height - k) in cells
  {
  }
}
