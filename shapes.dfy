/** The geometry of an ordered vertex list, as values: the centroid, the shoelace area and the
    three transformations that `Polygon` applies to its vertex array. The class in polygon.dfy
    is specified by these functions; the lemmas here are what its operations promise. */
module Shapes {
  import opened Matrices
  import opened Vectors

  function Abs(r: real): (a: real)
    ensures a >= 0.0
  {
    if r < 0.0 then -r else r
  }

  /** The sum of the vertices, accumulated first to last as `centre()`'s loop does. */
  function Sum(s: seq<Vector>): Vector {
    if |s| == 0 then Zero() else Add(Sum(s[..|s| - 1]), s[|s| - 1])
  }

  /** The arithmetic mean of the vertices: `(1.0 / size()) * sum`. */
  function Mean(s: seq<Vector>): Vector
    requires |s| > 0
  {
    Scale(1.0 / |s| as real, Sum(s))
  }

  /** Every vertex moved by `r`, count and order kept. */
  function Translated(s: seq<Vector>, r: Vector): (t: seq<Vector>)
    ensures |t| == |s|
    ensures forall i | 0 <= i < |s| :: t[i] == Add(s[i], r)
  {
    seq(|s|, i requires 0 <= i < |s| => Add(s[i], r))
  }

  /** Every vertex replaced by `m * vertex`, count and order kept. */
  function Mapped(m: Matrix, s: seq<Vector>): (t: seq<Vector>)
    ensures |t| == |s|
    ensures forall i | 0 <= i < |s| :: t[i] == Apply(m, s[i])
  {
    seq(|s|, i requires 0 <= i < |s| => Apply(m, s[i]))
  }

  /** `m` applied about the centroid: move the centroid to the origin, apply `m`, move back. */
  function AboutCentre(s: seq<Vector>, m: Matrix): seq<Vector>
    requires |s| > 0
  {
    AboutPoint(s, Mean(s), m)
  }

  /** `m` applied about the point c. */
  function AboutPoint(s: seq<Vector>, c: Vector, m: Matrix): seq<Vector> {
    Translated(Mapped(m, Translated(s, Neg(c))), c)
  }

  /** The vertices after `SymmetricPoly::rescale(w, h)` on a shape of orientation `ori`:
      centre at the origin, rotate by -ori, scale by diag(w, h), rotate by ori, move back. */
  function SymmetricRescaled(s: seq<Vector>, ori: real, w: real, h: real, t: Trig): seq<Vector>
    requires |s| > 0
  {
    var c := Mean(s);
    Translated(Mapped(Rotation(t, ori), Mapped(Diag(w, h), Mapped(Rotation(t, -ori), Translated(s, Neg(c))))), c)
  }

  /** The vertex that edge i runs to: the next one, or the first one from the last. */
  function Next(n: nat, i: nat): nat
    requires i < n
  {
    if i == n - 1 then 0 else i + 1
  }

  /** Term i of the shoelace sum: det of the matrix with rows vertex i and the vertex after it. */
  function ShoelaceTerm(s: seq<Vector>, i: nat): real
    requires i < |s|
  {
    var u, v := s[i], s[Next(|s|, i)];
    Det(Matrix(Get(u, 1), Get(u, 2), Get(v, 1), Get(v, 2)))
  }

  /** The first k terms of the shoelace sum, accumulated as `area()`'s loop does. */
  function Shoelace(s: seq<Vector>, k: nat): real
    requires k <= |s|
  {
    if k == 0 then 0.0 else Shoelace(s, k - 1) + ShoelaceTerm(s, k - 1)
  }

  /** `area()`: half the absolute shoelace sum over all edges. */
  function AreaOf(s: seq<Vector>): (a: real)
    ensures a >= 0.0
  {
    Abs(0.5 * Shoelace(s, |s|))
  }

  // ---- the centroid under translation and linear maps

  /** Translating every vertex by r adds |s| copies of r to the sum. */
  lemma {:induction false} SumTranslated(s: seq<Vector>, r: Vector)
    ensures Sum(Translated(s, r)) == Add(Sum(s), Scale(|s| as real, r))
  {
    if |s| > 0 {
      var n := |s|;
      var init := s[..n - 1];
      assert Translated(s, r)[..n - 1] == Translated(init, r);
      SumTranslated(init, r);
      ScaleSucc((n - 1) as real, r);
      assert (n - 1) as real + 1.0 == n as real;
      AddLaws(Sum(init), Scale((n - 1) as real, r), Add(s[n - 1], r));
    }
  }

  /** Translating by r moves the centroid by r. */
  lemma MeanTranslated(s: seq<Vector>, r: Vector)
    requires |s| > 0
    ensures Mean(Translated(s, r)) == Add(Mean(s), r)
  {
    var n := |s| as real;
    var k := 1.0 / n;
    SumTranslated(s, r);
    ScaleLaws(k, n, Sum(s), Scale(n, r));
    ScaleLaws(k, n, r, r);
    assert k * n == 1.0;
    ScaleLaws(1.0, 1.0, r, r);
  }

  /** The sum of the mapped vertices is the mapped sum. */
  lemma {:induction false} SumMapped(m: Matrix, s: seq<Vector>)
    ensures Sum(Mapped(m, s)) == Apply(m, Sum(s))
  {
    if |s| > 0 {
      var n := |s|;
      assert Mapped(m, s)[..n - 1] == Mapped(m, s[..n - 1]);
      SumMapped(m, s[..n - 1]);
      ApplyLinear(m, Sum(s[..n - 1]), s[n - 1], 0.0);
    }
  }

  /** The centroid of the mapped vertices is the mapped centroid. */
  lemma MeanMapped(m: Matrix, s: seq<Vector>)
    requires |s| > 0
    ensures Mean(Mapped(m, s)) == Apply(m, Mean(s))
  {
    SumMapped(m, s);
    ApplyLinear(m, Sum(s), Sum(s), 1.0 / |s| as real);
  }

  /** `translate(-r)` after `translate(r)` restores the vertices; two translations compose. */
  lemma TranslatedRoundTrip(s: seq<Vector>, r: Vector, q: Vector)
    ensures Translated(Translated(s, r), Neg(r)) == s
    ensures Translated(Translated(s, r), q) == Translated(s, Add(r, q))
  {
  }

  /** Mapping by q then by p is mapping by the product p*q. */
  lemma MappedCompose(p: Matrix, q: Matrix, s: seq<Vector>)
    ensures Mapped(p, Mapped(q, s)) == Mapped(Mul(p, q), s)
  {
    forall i | 0 <= i < |s| ensures Mapped(p, Mapped(q, s))[i] == Mapped(Mul(p, q), s)[i] {
      ApplyMul(p, q, s[i]);
    }
  }

  /** `GeneralPoly::rescale(1, 1)` leaves every vertex where it was. */
  lemma MappedUnitScale(s: seq<Vector>)
    ensures Mapped(Diag(1.0, 1.0), s) == s
  {
  }

  /** Any matrix applied about a point keeps a centroid at that point. */
  lemma AboutPointMean(s: seq<Vector>, c: Vector, m: Matrix)
    requires |s| > 0 && Mean(s) == c
    ensures Mean(AboutPoint(s, c, m)) == c
  {
    var centred := Translated(s, Neg(c));
    MeanTranslated(s, Neg(c));
    NegIsInverse(c, c);
    MeanMapped(m, centred);
    ApplyLinear(m, c, c, 0.0);
    MeanTranslated(Mapped(m, centred), c);
    AddLaws(Zero(), c, c);
  }

  /** Any matrix applied about the centroid keeps the centroid: this is why `rotatecentre`
      and `SymmetricPoly::rescale` do not move a shape, whatever the angle. */
  lemma AboutCentreKeepsCentre(s: seq<Vector>, m: Matrix)
    requires |s| > 0
    ensures |AboutCentre(s, m)| == |s|
    ensures Mean(AboutCentre(s, m)) == Mean(s)
  {
    AboutPointMean(s, Mean(s), m);
  }

  /** The identity applied about the centroid changes nothing. */
  lemma AboutCentreIdentity(s: seq<Vector>)
    requires |s| > 0
    ensures AboutCentre(s, Identity()) == s
  {
    var c := Mean(s);
    forall i | 0 <= i < |s| ensures AboutCentre(s, Identity())[i] == s[i] {
      ApplyMul(Identity(), Identity(), Add(s[i], Neg(c)));
    }
  }

  /** The symmetric rescale is one matrix, R(ori) diag(w, h) R(-ori), applied about the centroid. */
  lemma SymmetricRescaledAboutCentre(s: seq<Vector>, ori: real, w: real, h: real, t: Trig)
    requires |s| > 0
    ensures SymmetricRescaled(s, ori, w, h, t)
         == AboutCentre(s, Mul(Rotation(t, ori), Mul(Diag(w, h), Rotation(t, -ori))))
  {
    var centred := Translated(s, Neg(Mean(s)));
    MappedCompose(Diag(w, h), Rotation(t, -ori), centred);
    MappedCompose(Rotation(t, ori), Mul(Diag(w, h), Rotation(t, -ori)), centred);
  }

  /** `SymmetricPoly::rescale` keeps the centroid. */
  lemma SymmetricRescaleKeepsCentre(s: seq<Vector>, ori: real, w: real, h: real, t: Trig)
    requires |s| > 0
    ensures |SymmetricRescaled(s, ori, w, h, t)| == |s|
    ensures Mean(SymmetricRescaled(s, ori, w, h, t)) == Mean(s)
  {
    SymmetricRescaledAboutCentre(s, ori, w, h, t);
    AboutCentreKeepsCentre(s, Mul(Rotation(t, ori), Mul(Diag(w, h), Rotation(t, -ori))));
  }

  /** `SymmetricPoly::rescale` scales along the shape's own axes: seen from the centroid with the
      orientation undone, the new vertices are exactly the old ones scaled by diag(w, h). */
  lemma SymmetricRescaleAlongOwnAxes(s: seq<Vector>, ori: real, w: real, h: real, t: Trig)
    requires |s| > 0 && Circular(t)
    ensures var c := Mean(s);
      Mapped(Rotation(t, -ori), Translated(SymmetricRescaled(s, ori, w, h, t), Neg(c)))
      == Mapped(Diag(w, h), Mapped(Rotation(t, -ori), Translated(s, Neg(c))))
  {
    var c := Mean(s);
    var inner := Mapped(Diag(w, h), Mapped(Rotation(t, -ori), Translated(s, Neg(c))));
    TranslatedRoundTrip(Mapped(Rotation(t, ori), inner), c, c);
    MappedCompose(Rotation(t, -ori), Rotation(t, ori), inner);
    RotationInverse(t, ori);
    forall i | 0 <= i < |inner| ensures Mapped(Identity(), inner)[i] == inner[i] {
      ApplyMul(Identity(), Identity(), inner[i]);
    }
  }

  /** With unit factors `SymmetricPoly::rescale` changes nothing. */
  lemma SymmetricRescaleUnit(s: seq<Vector>, ori: real, t: Trig)
    requires |s| > 0 && Circular(t)
    ensures SymmetricRescaled(s, ori, 1.0, 1.0, t) == s
  {
    SymmetricRescaledAboutCentre(s, ori, 1.0, 1.0, t);
    MulIdentity(Rotation(t, -ori));
    RotationInverse(t, ori);
    AboutCentreIdentity(s);
  }

  // ---- the shoelace area under linear maps and translation

  /** Real algebra: det of the images of two vectors is det(m) times their det. */
  lemma DetOfImages(m: Matrix, u: Vector, v: Vector)
    ensures var mu, mv := Apply(m, u), Apply(m, v);
      Det(Matrix(mu.x, mu.y, mv.x, mv.y)) == Det(m) * Det(Matrix(u.x, u.y, v.x, v.y))
  {
    DetMul(m, Matrix(u.x, v.x, u.y, v.y));
  }

  /** Every shoelace prefix of the mapped vertices is det(m) times the original one. */
  lemma {:induction false} ShoelaceMapped(m: Matrix, s: seq<Vector>, k: nat)
    requires k <= |s|
    ensures Shoelace(Mapped(m, s), k) == Det(m) * Shoelace(s, k)
  {
    if k > 0 {
      ShoelaceMapped(m, s, k - 1);
      ShoelaceTermMapped(m, s, k - 1);
      Distribute(Det(m), Shoelace(s, k - 1), ShoelaceTerm(s, k - 1));
    }
  }

  /** Each shoelace term of the mapped vertices is det(m) times the original one. */
  lemma ShoelaceTermMapped(m: Matrix, s: seq<Vector>, i: nat)
    requires i < |s|
    ensures ShoelaceTerm(Mapped(m, s), i) == Det(m) * ShoelaceTerm(s, i)
  {
    DetOfImages(m, s[i], s[Next(|s|, i)]);
  }

  /** Real algebra: d a + d b == d (a + b). */
  lemma Distribute(d: real, a: real, b: real)
    ensures d * a + d * b == d * (a + b)
  {
  }

  /** Real algebra: if y == d*x then |y/2| == |d| |x/2|. */
  lemma AbsOfScaledHalf(d: real, x: real, y: real)
    requires y == d * x
    ensures Abs(0.5 * y) == Abs(d) * Abs(0.5 * x)
  {
    assert 0.5 * y == d * (0.5 * x);
    AbsMul(d, 0.5 * x);
  }

  lemma AbsMul(a: real, b: real)
    ensures Abs(a * b) == Abs(a) * Abs(b)
  {
    if a < 0.0 {
      assert a * b == -((-a) * b);
    }
    if b < 0.0 {
      assert a * b == -(a * (-b));
    }
  }

  /** A linear map scales the area by |det m|. */
  lemma AreaMapped(m: Matrix, s: seq<Vector>)
    ensures AreaOf(Mapped(m, s)) == Abs(Det(m)) * AreaOf(s)
  {
    ShoelaceMapped(m, s, |s|);
    AbsOfScaledHalf(Det(m), Shoelace(s, |s|), Shoelace(Mapped(m, s), |s|));
  }

  /** Rotating about the origin keeps the area. */
  lemma AreaRotated(t: Trig, angle: real, s: seq<Vector>)
    requires Circular(t)
    ensures AreaOf(Mapped(Rotation(t, angle), s)) == AreaOf(s)
  {
    AreaMapped(Rotation(t, angle), s);
    RotationDet(t, angle);
  }

  /** The cross term that translation adds to shoelace terms telescopes away around the polygon. */
  function Cross(v: Vector, r: Vector): real {
    r.y * v.x - r.x * v.y
  }

  /** Real algebra: translating both rows by r adds Cross(u) - Cross(v) to the det. */
  lemma DetOfTranslated(u: Vector, v: Vector, r: Vector)
    ensures var tu, tv := Add(u, r), Add(v, r);
      Det(Matrix(tu.x, tu.y, tv.x, tv.y)) == Det(Matrix(u.x, u.y, v.x, v.y)) + Cross(u, r) - Cross(v, r)
  {
  }

  /** Up to the last edge the translated shoelace prefix differs by a telescoped cross term. */
  lemma {:induction false} ShoelacePrefixTranslated(s: seq<Vector>, r: Vector, k: nat)
    requires 0 < |s| && k < |s|
    ensures Shoelace(Translated(s, r), k) == Shoelace(s, k) + Cross(s[0], r) - Cross(s[k], r)
  {
    if k > 0 {
      ShoelacePrefixTranslated(s, r, k - 1);
      DetOfTranslated(s[k - 1], s[k], r);
    }
  }

  /** Translating keeps the area. */
  lemma AreaTranslated(s: seq<Vector>, r: Vector)
    ensures AreaOf(Translated(s, r)) == AreaOf(s)
  {
    var n := |s|;
    if n > 0 {
      ShoelacePrefixTranslated(s, r, n - 1);
      DetOfTranslated(s[n - 1], s[0], r);
    }
  }

  /** A linear map of determinant k scales the area by |k|. */
  lemma AreaMappedByDet(m: Matrix, s: seq<Vector>, k: real)
    requires Det(m) == k
    ensures AreaOf(Mapped(m, s)) == Abs(k) * AreaOf(s)
  {
    AreaMapped(m, s);
  }

  /** A matrix of determinant k applied about any point scales the area by |k|. */
  lemma AboutPointArea(s: seq<Vector>, c: Vector, m: Matrix, k: real)
    requires Det(m) == k
    ensures AreaOf(AboutPoint(s, c, m)) == Abs(k) * AreaOf(s)
  {
    var centred := Translated(s, Neg(c));
    var mapped := Mapped(m, centred);
    AreaTranslated(s, Neg(c));
    AreaMappedByDet(m, centred, k);
    AreaTranslated(mapped, c);
  }

  /** A matrix of determinant k applied about the centroid scales the area by |k|. */
  lemma AboutCentreArea(s: seq<Vector>, m: Matrix, k: real)
    requires |s| > 0 && Det(m) == k
    ensures AreaOf(AboutCentre(s, m)) == Abs(k) * AreaOf(s)
  {
    AboutPointArea(s, Mean(s), m, k);
  }

  /** `rotatecentre` keeps the area. */
  lemma AboutCentreRotationArea(s: seq<Vector>, t: Trig, angle: real)
    requires |s| > 0 && Circular(t)
    ensures AreaOf(AboutCentre(s, Rotation(t, angle))) == AreaOf(s)
  {
    RotationDet(t, angle);
    AboutCentreArea(s, Rotation(t, angle), 1.0);
  }

  /** R(ori) diag(w, h) R(-ori), the matrix `SymmetricPoly::rescale` applies about the centroid,
      has determinant w h; with `AboutCentreArea` it scales the area by |w h|. */
  lemma ConjugatedDiagDet(t: Trig, ori: real, w: real, h: real)
    requires Circular(t)
    ensures Det(Mul(Rotation(t, ori), Mul(Diag(w, h), Rotation(t, -ori)))) == w * h
  {
    DetMul(Rotation(t, ori), Mul(Diag(w, h), Rotation(t, -ori)));
    DetMul(Diag(w, h), Rotation(t, -ori));
    RotationDet(t, ori);
    RotationDet(t, -ori);
  }

  /** `SymmetricPoly::rescale(w, h)` scales the area by the determinant of the matrix it
      applies about the centroid. */
  lemma SymmetricRescaleAreaByDet(s: seq<Vector>, ori: real, w: real, h: real, t: Trig, k: real)
    requires |s| > 0 && Det(Mul(Rotation(t, ori), Mul(Diag(w, h), Rotation(t, -ori)))) == k
    ensures AreaOf(SymmetricRescaled(s, ori, w, h, t)) == Abs(k) * AreaOf(s)
  {
    SymmetricRescaledAboutCentre(s, ori, w, h, t);
    AboutCentreArea(s, Mul(Rotation(t, ori), Mul(Diag(w, h), Rotation(t, -ori))), k);
  }

  /** Whatever the orientation, `SymmetricPoly::rescale(w, h)` changes the area exactly as
      `GeneralPoly::rescale(w, h)` does: by |det diag(w, h)|. */
  lemma SymmetricRescaleArea(s: seq<Vector>, ori: real, w: real, h: real, t: Trig)
    requires |s| > 0 && Circular(t)
    ensures AreaOf(SymmetricRescaled(s, ori, w, h, t)) == AreaOf(Mapped(Diag(w, h), s))
  {
    var k := Det(Diag(w, h));
    ConjugatedDiagDet(t, ori, w, h);
    SymmetricRescaleAreaByDet(s, ori, w, h, t, k);
    AreaMappedByDet(Diag(w, h), s, k);
  }
}
