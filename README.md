# Polygons: a verified model of the geometric core

This project models the geometric core of a console polygon editor written in C++. The
model has six parts:

- **2D vectors** (`Vectors`): two real components, the accessor `operator()(i)`, and the
  operators `+`, `-`, unary `-`, `dot`, scalar `*` and matrix `*`.
- **2x2 matrices** (`Matrices`): row-major storage, the entry accessor, the product, the
  determinant, scalar `*`, and the rotation matrix of `rotateorigin`.
- **The `Polygon` hierarchy** (`Polygons.Polygon`): a class with a fixed vertex count, an owned
  vertex array that every operation overwrites in place, and the orientation field of a
  `SymmetricPoly`.
  - The two concrete policies, `SymmetricPoly` and `GeneralPoly`, are a `Kind` tag on the class.
    The virtual `name`, `rotateorigin` and `rescale` dispatch on that tag.
  - The geometry the operations compute is stated as functions on vertex sequences
    (`Shapes`): the centroid, the shoelace area, translation, linear maps, rotation about the
    centroid, and the orientation-aware rescale.
- **The registry** (`Manager.PolygonManager`): a class holding a sequence of polygons,
  addressed from 1, and the drawing width. It covers appending, erasing, the per-polygon
  transforms, the whole-list transforms and `centreall`. `count()` is `Count`, which returns the
  length of the sequence.
- **The rasteriser** (`Raster`), which models `PolygonManager::draw()`:
  - the extent scan and the scale factors;
  - Bresenham's line over every closed edge into a `bool` array of 100 x 80;
  - one glyph per cell, row by row from the top.

  `draw()` prints its rows; the model returns them instead. A step whose behaviour C++ leaves
  undefined ends the drawing with an error value instead.
- **`lowercase`** of the command reader, and the decimal rendering used by `GeneralPoly::name()`
  (`Text`).

Choices made throughout the model:

- Every `double` is a mathematical `real`, so the identities are exact.
- `cos` and `sin` are a pair of functions passed by the caller (`Trig`). The lemmas that need
  them assume only `cos^2 + sin^2 = 1` and parity (`Circular`).
- The C++ `(int)` cast is truncation toward zero (`Raster.Trunc`).
- A fatal `exit(1)` on a bad index becomes a precondition.

## Model

| member | source | states |
|---|---|---|
| Matrices.Entry | Polygons/Matrix.cpp:44-60 | `(i, j)` with 1 <= i, j <= 2 selects the row-major cell `data[2(i-1)+(j-1)]`: (1,1)=a, (1,2)=b, (2,1)=c, (2,2)=d |
| Matrices.ZeroMatrix | Polygons/Matrix.cpp:7-14 | the default matrix has every entry 0 |
| Matrices.Diag | Polygons/Polygon.cpp:153 | `S(x, 0, 0, y)` has x and y on its diagonal and 0 elsewhere |
| Matrices.Mul | Polygons/Matrix.cpp:62-71 | entry (i,j) of the product is row i of the left factor times column j of the right one |
| Matrices.MulIdentity | Polygons/Matrix.cpp:62-71 | the identity is neutral on both sides of the product |
| Matrices.MulAssociative | Polygons/Matrix.cpp:62-71 | the product is associative |
| Matrices.Det | Polygons/Matrix.cpp:73-76 | the determinant is a d - b c |
| Matrices.DetMul | Polygons/Matrix.cpp:62-76 | det(P Q) = det(P) det(Q) |
| Matrices.ScaleMatrix | Polygons/Matrix.cpp:78-87 | scalar `*` multiplies every entry by the scalar |
| Matrices.DetScale | Polygons/Matrix.cpp:78-87 | scaling a matrix by s scales its determinant by s s |
| Matrices.Rotation | Polygons/Polygon.cpp:108 | `R(cos a, -sin a, sin a, cos a)` has cos a on its diagonal, -sin a above it and sin a below it |
| Matrices.RotationDet | Polygons/Polygon.cpp:108 | the rotation matrix (cos, -sin; sin, cos) has determinant 1 |
| Matrices.RotationInverse | Polygons/Polygon.cpp:108 | the rotations by -a and by a multiply to the identity, in either order |
| Vectors.Zero | Polygons/Vector.h:13-16 | the default vector is (0, 0) |
| Vectors.Get | Polygons/Vector.cpp:53-61 | index 1 reads x and index 2 reads y; every other index is excluded |
| Vectors.Set | Polygons/Vector.cpp:63-71 | writing through the accessor changes component i alone |
| Vectors.SetGet | Polygons/Vector.cpp:63-71 | writing back a component just read changes nothing; reading a component just written gives the written value |
| Vectors.Add | Polygons/Vector.cpp:35-39 | component i of `v + w` is component i of v plus component i of w |
| Vectors.Sub | Polygons/Vector.cpp:41-45 | component i of `v - w` is component i of v minus component i of w |
| Vectors.Neg | Polygons/Vector.cpp:47-51 | component i of `-v` is minus component i of v |
| Vectors.Dot | Polygons/Vector.cpp:30-33 | `dot` is v(1) w(1) + v(2) w(2) |
| Vectors.Scale | Polygons/Vector.cpp:76-82 | component i of `s * v` is s times component i of v |
| Vectors.Apply | Polygons/Vector.cpp:84-91 | component i of `M * v` is M(i,1) v(1) + M(i,2) v(2), as the loop over i fills it |
| Vectors.AddSubCancel | Polygons/Vector.cpp:16-28 | `v += r` then `v -= r` restores v, and the other way round |
| Vectors.NegIsInverse | Polygons/Vector.cpp:41-51 | v + (-v) is the origin, v - w = v + (-w), and -(-v) = v |
| Vectors.AddLaws | Polygons/Vector.cpp:35-39 | addition is commutative and associative, with the origin neutral |
| Vectors.DotLaws | Polygons/Vector.cpp:30-33 | `dot` is symmetric and linear in its first argument |
| Vectors.ScaleLaws | Polygons/Vector.cpp:76-82 | scalar `*` distributes over `+`, composes by multiplication, and 1 and the origin are fixed |
| Vectors.ApplyLinear | Polygons/Vector.cpp:84-91 | `M * v` maps sums to sums, scalings to scalings, negation to negation and the origin to itself |
| Vectors.ApplyMul | Polygons/Vector.cpp:84-91 | applying P Q is applying Q and then P; the identity changes nothing |
| Shapes.AreaOf | Polygons/Polygon.cpp:90 | the area is never negative |
| Shapes.SumTranslated | Polygons/Polygon.cpp:96-102 | translating by r adds n copies of r to the vertex sum |
| Shapes.MeanTranslated | Polygons/Polygon.cpp:96-102 | `translate(r)` moves the centroid by r |
| Shapes.TranslatedRoundTrip | Polygons/Polygon.cpp:96-102 | `translate(-r)` after `translate(r)` restores the vertices, and two translations compose |
| Shapes.AreaTranslated | Polygons/Polygon.cpp:96-102 | translating keeps the area |
| Shapes.SumMapped | Polygons/Polygon.cpp:109-111 | the sum of the mapped vertices is the mapped sum |
| Shapes.MeanMapped | Polygons/Polygon.cpp:109-111 | the centroid of the mapped vertices is the mapped centroid |
| Shapes.MappedCompose | Polygons/Polygon.cpp:153-159 | mapping by Q and then by P is mapping by P Q |
| Shapes.ShoelaceTermMapped | Polygons/Polygon.cpp:79-88 | each determinant term of the mapped vertices is det(M) times the original term |
| Shapes.ShoelaceMapped | Polygons/Polygon.cpp:76-91 | every partial shoelace sum of the mapped vertices is det(M) times the original one |
| Shapes.AreaMapped | Polygons/Polygon.cpp:76-91 | a linear map scales the area by abs(det M); for `GeneralPoly::rescale(x, y)` that is abs(x y) |
| Shapes.AreaMappedByDet | Polygons/Polygon.cpp:76-91 | a linear map of determinant k scales the area by abs(k) |
| Shapes.AreaRotated | Polygons/Polygon.cpp:105-113 | `rotateorigin` keeps the area |
| Shapes.MappedUnitScale | Polygons/Polygon.cpp:177-183 | `GeneralPoly::rescale(1, 1)` changes no vertex |
| Shapes.AboutPointMean | Polygons/Polygon.cpp:118-125 | any matrix applied about a point keeps a centroid that sits at that point |
| Shapes.AboutCentreKeepsCentre | Polygons/Polygon.cpp:118-125 | any matrix applied about the centroid keeps the count and the centroid |
| Shapes.AboutCentreIdentity | Polygons/Polygon.cpp:118-125 | the identity applied about the centroid changes nothing |
| Shapes.AboutPointArea | Polygons/Polygon.cpp:118-125 | a matrix of determinant k applied about any point scales the area by abs(k) |
| Shapes.AboutCentreArea | Polygons/Polygon.cpp:118-125 | a matrix of determinant k applied about the centroid scales the area by abs(k) |
| Shapes.AboutCentreRotationArea | Polygons/Polygon.cpp:118-125 | `rotatecentre` keeps the area |
| Shapes.SymmetricRescaledAboutCentre | Polygons/Polygon.cpp:149-162 | the symmetric rescale is the single matrix R(ori) diag(w, h) R(-ori) applied about the centroid |
| Shapes.SymmetricRescaleKeepsCentre | Polygons/Polygon.cpp:149-162 | `SymmetricPoly::rescale` keeps the count and the centroid |
| Shapes.SymmetricRescaleAlongOwnAxes | Polygons/Polygon.cpp:149-162 | seen from the centroid with the orientation undone, the new vertices are the old ones scaled by diag(w, h) |
| Shapes.SymmetricRescaleUnit | Polygons/Polygon.cpp:149-162 | `SymmetricPoly::rescale(1, 1)` changes nothing |
| Shapes.ConjugatedDiagDet | Polygons/Polygon.cpp:149-162 | R(ori) diag(w, h) R(-ori) has determinant w h |
| Shapes.SymmetricRescaleAreaByDet | Polygons/Polygon.cpp:149-162 | the symmetric rescale scales the area by abs(det) of that conjugated matrix |
| Shapes.SymmetricRescaleArea | Polygons/Polygon.cpp:149-183 | whatever the orientation, the symmetric rescale changes the area exactly as `GeneralPoly::rescale` with the same factors does |
| Polygons.Polygon.constructor | Polygons/Polygon.cpp:8-21 | fewer than three vertices is excluded; the new polygon owns fresh storage of n default vertices, and its orientation is 0 |
| Polygons.Polygon.Copy | Polygons/Polygon.cpp:23-31 | the copy has fresh storage with the same count, kind, orientation and vertices in the same order |
| Polygons.Polygon.Assign | Polygons/Polygon.cpp:33-44 | the vertices become the first n vertices of the right-hand side; assigning a polygon to itself changes nothing |
| Polygons.Polygon.SetVertex | Polygons/Polygon.cpp:56-63 | writing vertex i (i below the count) changes that vertex alone |
| Polygons.Polygon.Size | Polygons/Polygon.h:32 | `size()` is the number of stored vertices, at least three |
| Polygons.Polygon.Vertex | Polygons/Polygon.cpp:46-53 | the read-only `vertex(i)` is the stored vertex i, for i below the count |
| Polygons.Polygon.Name | Polygons/Polygon.h:84 | a plain general polygon is named by `to_string(n)` followed by "-gon", digits without a leading zero that read back as n; `Pentagon`, `Hexagon` and the symmetric shapes by their class title |
| Polygons.Polygon.Centre | Polygons/Polygon.cpp:66-73 | the result is the arithmetic mean of the vertices |
| Polygons.Polygon.Area | Polygons/Polygon.cpp:76-91 | the result is half the absolute shoelace sum, with the last vertex paired with the first |
| Polygons.Polygon.Translate | Polygons/Polygon.cpp:96-102 | every vertex moves by r; count and order are kept |
| Polygons.Polygon.Transform | Polygons/Polygon.cpp:109-111 | every vertex is replaced by M times itself |
| Polygons.Polygon.RotateOrigin | Polygons/Polygon.cpp:141-146 | every vertex is rotated about the origin; only a symmetric polygon adds the angle to its orientation |
| Polygons.Polygon.RotateCentre | Polygons/Polygon.cpp:118-125 | the vertices are rotated about the centroid, the centroid is kept, and the orientation follows the virtual `rotateorigin` |
| Polygons.Polygon.Rescale | Polygons/Polygon.cpp:149-183 | a general polygon is mapped by diag(x, y); a symmetric one is rescaled along its own axes and keeps its centroid; neither changes its orientation |
| Polygons.Polygon.RescaleSymmetric | Polygons/Polygon.cpp:149-162 | centre, un-rotate, scale, re-rotate and move back: the orientation and the centroid are kept |
| Text.ToLower | Polygons/InputHandler.cpp:472 | A to Z move down to a to z; every other character is kept; nothing upper-case comes out |
| Text.Lowered | Polygons/InputHandler.cpp:469-475 | the result has the input's length, and character k is `tolower` of input character k |
| Text.Lowercase | Polygons/InputHandler.cpp:469-475 | the loop builds exactly the lower-cased string |
| Text.LoweredCases | Polygons/InputHandler.cpp:472 | the result holds no upper-case letter, and every other character passes through |
| Text.LoweredIdempotent | Polygons/InputHandler.cpp:469-475 | lower-casing twice is lower-casing once |
| Text.Decimal | Polygons/Polygon.h:84 | `to_string` yields at least one decimal digit, with a leading 0 only for the number 0 |
| Text.DecimalRoundTrip | Polygons/Polygon.h:84 | reading the rendered digits back gives the number |
| Text.DecimalInjective | Polygons/Polygon.h:84 | distinct counts give distinct names |
| Raster.Trunc | Polygons/Draw.cpp:84-88 | `(int)r` truncates toward zero |
| Raster.MaxHeight | Polygons/Draw.cpp:25 | `maxHeight` is half the width, rounded down |
| Raster.ShapeMaxBounds | Polygons/Draw.cpp:31-35 | the scan of one shape never goes below its start, bounds every abs(x) and abs(y), and is the start or one of them |
| Raster.SceneMaxBounds | Polygons/Draw.cpp:28-36 | the scan is at least 0, bounds every coordinate, and is 0 or attained by one |
| Raster.ExtentZeroIff | Polygons/Draw.cpp:28-41 | the extent is 0 exactly when every vertex is at the origin, so only then do the scale factors divide by zero |
| Raster.ScanExtent | Polygons/Draw.cpp:28-36 | the nested loops compute the largest absolute coordinate |
| Raster.Orient | Polygons/Draw.cpp:66-80 | steep iff abs(dy) > abs(dx) before the swaps; after them x1 <= x2, abs(dy) <= dx, and the endpoints are the original ones, swapped |
| Raster.AdvanceKeepsError | Polygons/Draw.cpp:101-106 | one step keeps 0 <= error <= dx and moves y by 0 or by ystep |
| Raster.PenAfterKeepsError | Polygons/Draw.cpp:82-106 | the error term stays within [0, dx] for any number of steps |
| Raster.PenAfterRow | Polygons/Draw.cpp:84-106 | after k steps y has moved by ystep once per rise |
| Raster.PenAfterError | Polygons/Draw.cpp:82-106 | after k steps the error is its start minus k dy plus dx per rise |
| Raster.BresenhamCloseness | Polygons/Draw.cpp:79-106 | after k steps from error dx/2, the rises r satisfy abs(r dx - k dy) <= dx/2: the plotted row stays within half a cell of the true line |
| Raster.WalkCells | Polygons/Draw.cpp:86-88 | the walk visits exactly the columns (int)x1 up to but excluding (int)x2, cell k at column x1 + k |
| Raster.WalkRowSteps | Polygons/Draw.cpp:101-106 | consecutive cells differ in row by 0 or by ystep |
| Raster.ToPixels | Polygons/Draw.cpp:90-99 | a steep cell sets `[y + midX][x + midY]`, any other `[x + midX][y + midY]` |
| Raster.Plot | Polygons/Draw.cpp:88-107 | the loop succeeds iff every cell lands inside the grid, and then it sets exactly those cells and clears none |
| Raster.DrawLine | Polygons/Draw.cpp:66-107 | one edge sets exactly its Bresenham cells on top of what was set, or fails iff one falls outside the grid |
| Raster.DrawShape | Polygons/Draw.cpp:49-108 | every closed edge of one polygon is drawn, the last vertex joined to the first |
| Raster.Rasterise | Polygons/Draw.cpp:21-109 | from an all-false grid, a cell ends up set exactly when some edge's line passes through it |
| Raster.Glyph | Polygons/Draw.cpp:117-136 | the priority is: a set cell gives 'x', then the origin 'O', then the y-axis '\|', then the x-axis '-', then ' ' |
| Raster.Row | Polygons/Draw.cpp:114-137 | a row has exactly `maxWidth` glyphs, one per column |
| Raster.Frame | Polygons/Draw.cpp:112-139 | the rows run from y = maxHeight down to 0, with midX and midY as their middles |
| Raster.Render | Polygons/Draw.cpp:112-139 | the glyph loop over the grid yields exactly that frame |
| Raster.NoVertexNoPixels | Polygons/Draw.cpp:46-63 | a scene without vertices draws no cell |
| Raster.Draw | Polygons/Draw.cpp:18-139 | the whole drawing: an error when the step is undefined in C++, otherwise the frame of the set cells |
| Raster.DrawnFrameShape | Polygons/Draw.cpp:112-139 | a successful drawing needs a width of at most 100 and has maxHeight + 1 rows of `maxWidth` characters |
| Raster.EmptySceneDrawsAxes | Polygons/Draw.cpp:112-139 | with no polygons only the axes and the origin are drawn |
| Raster.DegenerateSceneFails | Polygons/Draw.cpp:37-41 | if every vertex is at the origin the scale factors are not defined and the drawing fails |
| Raster.ShapeCellsShowX | Polygons/Draw.cpp:117-136 | a character of a successful drawing is 'x' exactly when an edge passed through its cell |
| Manager.CentresTranslatedAll | Polygons/PolygonManager.cpp:118-124 | translating every shape translates every centre |
| Manager.CentresMappedAll | Polygons/PolygonManager.cpp:126-132 | `rotateall` maps every centre too: it turns about the global origin |
| Manager.AllAreasKept | Polygons/PolygonManager.cpp:118-132 | whole-list translations and rotations keep every area |
| Manager.CentredAll | Polygons/PolygonManager.cpp:143-152 | moving every shape by minus the mean of the centres leaves centres whose mean is the origin |
| Manager.RemovedAt | Polygons/PolygonManager.cpp:86-90 | the iterator stops at entry i - 1, and at the first entry for i = 0 |
| Manager.PolygonManager.constructor | Polygons/PolygonManager.h:18 | a new manager is empty with drawing width 79 |
| Manager.PolygonManager.Count | Polygons/PolygonManager.h:21 | `count()` is the number of stored polygons |
| Manager.PolygonManager.At | Polygons/PolygonManager.cpp:9-16 | `polygon(i)` is entry i - 1 of the list, for 1 <= i <= count |
| Manager.PolygonManager.GetName | Polygons/PolygonManager.h:26 | the name of polygon i: the title of its derived class, or `to_string(n)` followed by "-gon" for a plain n-gon |
| Manager.PolygonManager.GetArea | Polygons/PolygonManager.h:27 | the shoelace area of polygon i, never negative |
| Manager.PolygonManager.Add | Polygons/PolygonManager.cpp:53-81 | the new polygon is appended at the end, earlier entries are unchanged and the count grows by one |
| Manager.PolygonManager.Remove | Polygons/PolygonManager.cpp:84-93 | exactly one entry is erased, the others keep their order, and the count shrinks by one |
| Manager.PolygonManager.Translate | Polygons/PolygonManager.cpp:98-102 | polygon i moves by r and no other changes |
| Manager.PolygonManager.Rotate | Polygons/PolygonManager.cpp:104-108 | polygon i turns about its own centroid, which stays put, and adds the angle to its orientation if it is symmetric; no other polygon changes |
| Manager.PolygonManager.Rescale | Polygons/PolygonManager.cpp:110-114 | polygon i is rescaled as its kind does it; no other polygon and no orientation changes |
| Manager.PolygonManager.TranslateAll | Polygons/PolygonManager.cpp:118-124 | every polygon moves by r |
| Manager.PolygonManager.RotateEntryAboutOrigin | Polygons/PolygonManager.cpp:129 | one entry turns about the origin and only its orientation may change |
| Manager.PolygonManager.RotateAll | Polygons/PolygonManager.cpp:126-132 | every polygon turns about the global origin, and every symmetric one adds the angle to its orientation |
| Manager.PolygonManager.RescaleAll | Polygons/PolygonManager.cpp:134-141 | every polygon is rescaled as its own kind does it, and no orientation changes |
| Manager.PolygonManager.SumCentres | Polygons/PolygonManager.cpp:145-148 | the loop sums the centre of every polygon |
| Manager.PolygonManager.CentreAll | Polygons/PolygonManager.cpp:143-152 | every polygon moves by minus the mean of the centres, after which the centres average to the origin |
| Manager.PolygonManager.SetDrawWidth | Polygons/PolygonManager.cpp:154-158 | the drawing width becomes w, with no bounds check, and the list is unchanged |
| Raster.DrawSpec | Polygons/Draw.cpp:18-139 | the drawing fails as undefined exactly when there is a vertex and all are at the origin; a read outside the grid needs a width above 100; a scene without vertices always draws within the grid |
| Manager.PolygonManager.Draw | Polygons/Draw.cpp:18-139 | `draw()` draws the current vertex lists at the current width |

## Left out

- Console I/O is not modelled:
  - the interactive command loop and input parsing;
  - `operator<<` for vectors and matrices;
  - `printinfo`, `listshapes` and `listinfo`;
  - the `cout` of `draw()`, whose rows are returned instead, and its final line with the image width (Polygons/Draw.cpp:143).
- The derived shapes and the `fact::` factories are not part of this model. Neither is the
  `GeneralPoly` constructor's placement of vertices on a circle, which uses `cos`, `sin` and π.
  - The `add*` operations are one `Add` that receives the polygon the factory built.
  - The name a derived class gives is a title carried by its `Kind`: `Symmetric(title)` for
    `Isosceles` and `Rectangle`, `General(Some(title))` for `Pentagon` and `Hexagon` (Polygons/Derived shapes.h:26-42),
    and `General(None)` for the plain n-gon of `addngon`.
- Memory management is not modelled: `new`, `delete`, `unique_ptr`, the `nullptr` check and
  the destructors. The model only ensures that polygons and vertex arrays are distinct.
- Floating point is not modelled. Every `double` is a `real`, so rounding and `inf`/`NaN` do not
  arise.
- `cos` and `sin` are not computed. Rotations hold for whatever pair of functions the caller
  supplies, and the facts about rotations assume only Pythagoras and parity.
- Unsigned wrap-around is not modelled: counts, indices and the drawing width are `nat`.
- `Vector`'s `+=`, `-=` and the writing accessor update in place in the source. On a value
  type, the model gives the value they store.
- Polygons.Polygon.Assign: a right-hand side with fewer vertices makes the source read past
  its last vertex, which is fatal. That case is excluded by a precondition.
- Manager.PolygonManager.Remove: an empty list, or an index above `count()`, erases past the
  end in the source. Both are excluded by preconditions.
- Manager.PolygonManager.CentreAll: `centreall` computes `1.0 / count()` without guarding
  against zero (Polygons/PolygonManager.cpp:143-152). With no polygons the translation then
  visits nothing, so the model changes nothing and has no precondition.
- Raster.Draw: `draw` divides by the extent `maxX` without guarding against zero
  (Polygons/Draw.cpp:28-41). The extent is 0 when there is no vertex or every vertex is the
  origin, so the model handles each case as follows:
  - with no vertex at all the infinite scale is never used, and the model draws the axes alone;
  - with vertices all at the origin the `NaN` coordinates would be cast to `int`, so the model
    fails with `DegenerateExtent` before drawing any edge;
  - a cell outside the 100 x 80 grid, or a width above 100, indexes past the array, and the
    model ends with an error rather than with whatever C++ would do.
- Polygons.Polygon.Translate states the new vertices only. The centroid shift is
  `Shapes.MeanTranslated`.
- Text.Lowered: a `std::string` holds bytes, and `tolower` of a negative `char` is undefined,
  whereas a Dafny `string` holds Unicode characters. The model agrees with the source on
  ASCII text only.
