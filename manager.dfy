/** `PolygonManager`: the list of polygons the commands work on, addressed from 1, the
    transformations of one or of all of them, and the drawing width. */
module Manager {
  import opened Matrices
  import opened Vectors
  import opened Shapes
  import opened Polygons
  import Raster
  import Text

  /** The vertex lists of the polygons, in list order. */
  function ShapesOf(ps: seq<Polygon>): (r: seq<seq<Vector>>)
    reads set p | p in ps :: p.verts
    ensures |r| == |ps|
    ensures forall j | 0 <= j < |ps| :: r[j] == ps[j].verts[..]
  {
    seq(|ps|, j requires 0 <= j < |ps| reads set p | p in ps :: p.verts => ps[j].verts[..])
  }

  /** The orientations of the polygons, in list order. */
  function Orients(ps: seq<Polygon>): (r: seq<real>)
    reads ps
    ensures |r| == |ps|
    ensures forall j | 0 <= j < |ps| :: r[j] == ps[j].orient
  {
    seq(|ps|, j requires 0 <= j < |ps| reads ps => ps[j].orient)
  }

  /** The kinds of the polygons, in list order. */
  function Kinds(ps: seq<Polygon>): (r: seq<Kind>)
    ensures |r| == |ps|
    ensures forall j | 0 <= j < |ps| :: r[j] == ps[j].kind
  {
    seq(|ps|, j requires 0 <= j < |ps| => ps[j].kind)
  }

  /** The shapes before position k mapped by m, the rest as they are. */
  function MappedUpTo(m: Matrix, shapes: seq<seq<Vector>>, k: nat): (r: seq<seq<Vector>>)
    ensures |r| == |shapes|
    ensures forall j | 0 <= j < |shapes| :: r[j] == if j < k then Mapped(m, shapes[j]) else shapes[j]
  {
    seq(|shapes|, j requires 0 <= j < |shapes| => if j < k then Mapped(m, shapes[j]) else shapes[j])
  }

  /** The orientation of a polygon of the given kind after `rotateorigin(angle)`: only a
      symmetric shape keeps one. */
  function Turn(kind: Kind, ori: real, angle: real): real {
    if kind.Symmetric? then ori + angle else ori
  }

  /** The orientations before position k turned by angle. */
  function TurnedUpTo(kinds: seq<Kind>, oris: seq<real>, angle: real, k: nat): (r: seq<real>)
    requires |kinds| == |oris|
    ensures |r| == |oris|
    ensures forall j | 0 <= j < |oris| :: r[j] == if j < k then Turn(kinds[j], oris[j], angle) else oris[j]
  {
    seq(|oris|, j requires 0 <= j < |oris| => if j < k then Turn(kinds[j], oris[j], angle) else oris[j])
  }

  lemma MappedUpToStep(m: Matrix, shapes: seq<seq<Vector>>, k: nat)
    requires k < |shapes|
    ensures MappedUpTo(m, shapes, k)[k := Mapped(m, shapes[k])] == MappedUpTo(m, shapes, k + 1)
  {
  }

  lemma TurnedUpToStep(kinds: seq<Kind>, oris: seq<real>, angle: real, k: nat)
    requires |kinds| == |oris| && k < |oris|
    ensures TurnedUpTo(kinds, oris, angle, k)[k := Turn(kinds[k], oris[k], angle)] == TurnedUpTo(kinds, oris, angle, k + 1)
  {
  }

  /** The shapes before position k translated by r, the rest as they are. */
  function TranslatedUpTo(shapes: seq<seq<Vector>>, r: Vector, k: nat): (u: seq<seq<Vector>>)
    ensures |u| == |shapes|
    ensures forall j | 0 <= j < |shapes| :: u[j] == if j < k then Translated(shapes[j], r) else shapes[j]
  {
    seq(|shapes|, j requires 0 <= j < |shapes| => if j < k then Translated(shapes[j], r) else shapes[j])
  }

  lemma TranslatedUpToStep(shapes: seq<seq<Vector>>, r: Vector, k: nat)
    requires k < |shapes|
    ensures TranslatedUpTo(shapes, r, k)[k := Translated(shapes[k], r)] == TranslatedUpTo(shapes, r, k + 1)
  {
  }

  /** The shapes before position k rescaled as their kinds do it, the rest as they are. */
  function RescaledUpTo(kinds: seq<Kind>, shapes: seq<seq<Vector>>, oris: seq<real>, x: real, y: real, t: Trig, k: nat): (u: seq<seq<Vector>>)
    requires |kinds| == |shapes| == |oris| && NonEmpty(shapes)
    ensures |u| == |shapes|
    ensures forall j | 0 <= j < |shapes| ::
      u[j] == if j < k then Rescaled(kinds[j], shapes[j], oris[j], x, y, t) else shapes[j]
  {
    seq(|shapes|, j requires 0 <= j < |shapes| =>
      if j < k then Rescaled(kinds[j], shapes[j], oris[j], x, y, t) else shapes[j])
  }

  lemma RescaledUpToStep(kinds: seq<Kind>, shapes: seq<seq<Vector>>, oris: seq<real>, x: real, y: real, t: Trig, k: nat)
    requires |kinds| == |shapes| == |oris| && NonEmpty(shapes) && k < |shapes|
    ensures RescaledUpTo(kinds, shapes, oris, x, y, t, k)[k := Rescaled(kinds[k], shapes[k], oris[k], x, y, t)]
      == RescaledUpTo(kinds, shapes, oris, x, y, t, k + 1)
  {
  }

  /** Every shape translated by r. */
  function TranslatedAll(shapes: seq<seq<Vector>>, r: Vector): (t: seq<seq<Vector>>)
    ensures |t| == |shapes|
    ensures forall j | 0 <= j < |shapes| :: t[j] == Translated(shapes[j], r)
  {
    seq(|shapes|, j requires 0 <= j < |shapes| => Translated(shapes[j], r))
  }

  /** Every shape mapped by m about the origin. */
  function MappedAll(m: Matrix, shapes: seq<seq<Vector>>): (t: seq<seq<Vector>>)
    ensures |t| == |shapes|
    ensures forall j | 0 <= j < |shapes| :: t[j] == Mapped(m, shapes[j])
  {
    seq(|shapes|, j requires 0 <= j < |shapes| => Mapped(m, shapes[j]))
  }

  predicate NonEmpty(shapes: seq<seq<Vector>>) {
    forall j | 0 <= j < |shapes| :: |shapes[j]| > 0
  }

  /** The centre of every shape. */
  function Centres(shapes: seq<seq<Vector>>): (c: seq<Vector>)
    requires NonEmpty(shapes)
    ensures |c| == |shapes|
    ensures forall j | 0 <= j < |shapes| :: c[j] == Mean(shapes[j])
  {
    seq(|shapes|, j requires 0 <= j < |shapes| => Mean(shapes[j]))
  }

  /** Translating every shape translates every centre. */
  lemma CentresTranslatedAll(shapes: seq<seq<Vector>>, r: Vector)
    requires NonEmpty(shapes)
    ensures NonEmpty(TranslatedAll(shapes, r))
    ensures Centres(TranslatedAll(shapes, r)) == Translated(Centres(shapes), r)
  {
    var moved := TranslatedAll(shapes, r);
    forall j | 0 <= j < |shapes| ensures Centres(moved)[j] == Translated(Centres(shapes), r)[j] {
      MeanTranslated(shapes[j], r);
    }
  }

  /** `centreall`: moving every shape by minus the mean of the centres leaves the centres
      with mean zero. */
  lemma CentredAll(shapes: seq<seq<Vector>>)
    requires NonEmpty(shapes) && |shapes| > 0
    ensures NonEmpty(TranslatedAll(shapes, Neg(Mean(Centres(shapes)))))
    ensures Mean(Centres(TranslatedAll(shapes, Neg(Mean(Centres(shapes)))))) == Zero()
  {
    var c := Mean(Centres(shapes));
    CentresTranslatedAll(shapes, Neg(c));
    MeanTranslated(Centres(shapes), Neg(c));
    NegIsInverse(c, c);
  }

  /** `rotateall` works about the global origin: every centre is mapped too, so the centres
      move unless they sit at the origin. */
  lemma CentresMappedAll(m: Matrix, shapes: seq<seq<Vector>>)
    requires NonEmpty(shapes)
    ensures NonEmpty(MappedAll(m, shapes))
    ensures Centres(MappedAll(m, shapes)) == Mapped(m, Centres(shapes))
  {
    var moved := MappedAll(m, shapes);
    forall j | 0 <= j < |shapes| ensures Centres(moved)[j] == Mapped(m, Centres(shapes))[j] {
      MeanMapped(m, shapes[j]);
    }
  }

  /** Whole-list translations and rotations keep every area. */
  lemma AllAreasKept(shapes: seq<seq<Vector>>, r: Vector, t: Trig, angle: real)
    requires Circular(t)
    ensures forall j | 0 <= j < |shapes| :: AreaOf(TranslatedAll(shapes, r)[j]) == AreaOf(shapes[j])
    ensures forall j | 0 <= j < |shapes| :: AreaOf(MappedAll(Rotation(t, angle), shapes)[j]) == AreaOf(shapes[j])
  {
    forall j | 0 <= j < |shapes| ensures AreaOf(TranslatedAll(shapes, r)[j]) == AreaOf(shapes[j]) {
      AreaTranslated(shapes[j], r);
    }
    forall j | 0 <= j < |shapes| ensures AreaOf(MappedAll(Rotation(t, angle), shapes)[j]) == AreaOf(shapes[j]) {
      AreaRotated(t, angle, shapes[j]);
    }
  }

  /** The position `remove(i)` erases: its iterator starts at the first entry and advances
      while j < i, so 0 and 1 both name the first entry. */
  function RemovedAt(i: nat): (k: nat)
    ensures i >= 1 ==> k == i - 1
    ensures i == 0 ==> k == 0
  {
    if i <= 1 then 0 else i - 1
  }

  class PolygonManager {
    /** The owned polygons, in the order they were added (`vector<Polygon*>`). */
    var polygons: seq<Polygon>
    /** The width `draw()` uses; 79 to begin with. */
    var drawWidth: nat

    /** Every polygon is valid and owned once, with its own vertex storage. */
    ghost predicate Valid()
      reads this, polygons
    {
      (forall j | 0 <= j < |polygons| :: polygons[j].Valid())
      && (forall j, k | 0 <= j < k < |polygons| :: polygons[j] != polygons[k] && polygons[j].verts != polygons[k].verts)
    }

    /** The vertex lists of the stored polygons, in list order. */
    function Shapes(): (s: seq<seq<Vector>>)
      reads this, set p | p in polygons :: p.verts
      ensures |s| == |polygons|
    {
      ShapesOf(polygons)
    }

    /** The stored vertex lists are never empty: every polygon has at least three vertices. */
    lemma ShapesNonEmpty()
      requires Valid()
      ensures NonEmpty(Shapes())
      ensures forall j | 0 <= j < |polygons| :: |Shapes()[j]| == polygons[j].n >= 3
    {
    }

    constructor ()
      ensures Valid() && polygons == [] && drawWidth == 79
    {
      polygons := [];
      drawWidth := 79;
    }

    /** `count()`: the number of stored polygons, one per stored vertex list. */
    function Count(): (c: nat)
      reads this
      ensures c == |polygons|
    {
      |polygons|
    }

    /** The range-checked `polygon(i)`: counting from 1, entry i - 1. Above `count()` it is
        fatal; 0 passes the check but then fails in `at`. */
    function At(i: nat): (p: Polygon)
      requires 1 <= i <= |polygons|
      reads this
      ensures p in polygons && p == polygons[i - 1]
    {
      polygons[i - 1]
    }

    /** `getname(i)`: the name of polygon i, the title of its derived class or "<n>-gon". */
    function GetName(i: nat): (r: string)
      requires 1 <= i <= |polygons|
      reads this, polygons
      ensures polygons[i - 1].kind.Symmetric? ==> r == polygons[i - 1].kind.title
      ensures polygons[i - 1].kind.General? && polygons[i - 1].kind.derived.Some? ==> r == polygons[i - 1].kind.derived.value
      ensures polygons[i - 1].kind == General(None) ==> r == Text.Decimal(polygons[i - 1].n) + "-gon"
      ensures polygons[i - 1].kind == General(None) ==> var digits := r[..|r| - 4];
        (forall k | 0 <= k < |digits| :: Text.IsDigit(digits[k])) && Text.DecimalValue(digits) == polygons[i - 1].n
    {
      At(i).Name()
    }

    /** `getarea(i)`: the shoelace area of polygon i. */
    method GetArea(i: nat) returns (a: real)
      requires Valid() && 1 <= i <= |polygons|
      ensures a == AreaOf(Shapes()[i - 1])
      ensures a >= 0.0
    {
      a := At(i).Area();
    }

    /** The `add*` operations: the factory's polygon appended at the end. */
    method Add(p: Polygon)
      requires Valid() && p.Valid()
      requires p !in polygons && forall q | q in polygons :: q.verts != p.verts
      modifies this
      ensures Valid()
      ensures polygons == old(polygons) + [p] && Count() == old(Count()) + 1
      ensures Shapes() == old(Shapes()) + [p.Vertices()]
      ensures drawWidth == old(drawWidth)
    {
      polygons := polygons + [p];
    }

    /** `remove(i)`: the entry the iterator reaches after i - 1 steps is erased and the others
        keep their order. An empty list or i above `count()` erases past the end, which is fatal. */
    method Remove(i: nat)
      requires Valid() && 1 <= |polygons| && i <= |polygons|
      modifies this
      ensures Valid()
      ensures var k := RemovedAt(i); polygons == old(polygons[..k] + polygons[k + 1..])
      ensures Count() == old(Count()) - 1
      ensures drawWidth == old(drawWidth)
    {
      var j := 1;
      var it := 0;
      while j < i
        invariant 1 <= j && it == j - 1
        invariant i >= 1 ==> j <= i
        invariant i == 0 ==> j == 1
      {
        it := it + 1;
        j := j + 1;
      }
      assert it == RemovedAt(i);
      polygons := polygons[..it] + polygons[it + 1..];
    }

    /** `translate(i, r)`: polygon i moves by r, no other polygon changes. */
    method Translate(i: nat, r: Vector)
      requires Valid() && 1 <= i <= |polygons|
      modifies polygons[i - 1].verts
      ensures Valid()
      ensures Shapes() == old(Shapes())[i - 1 := Translated(old(Shapes())[i - 1], r)]
    {
      ghost var before, oris := Shapes(), Orients(polygons);
      At(i).Translate(r);
      OthersUnchanged(before, oris, i - 1);
    }

    /** `rotate(i, angle)`: polygon i turns about its own centre, which stays where it was;
        no other polygon changes. */
    method Rotate(i: nat, angle: real, t: Trig)
      requires Valid() && 1 <= i <= |polygons|
      modifies polygons[i - 1], polygons[i - 1].verts
      ensures Valid()
      ensures NonEmpty(Shapes())
      ensures Shapes() == old(Shapes())[i - 1 := AboutCentre(old(Shapes())[i - 1], Rotation(t, angle))]
      ensures Mean(Shapes()[i - 1]) == old(Mean(Shapes()[i - 1]))
      ensures Orients(polygons) == old(Orients(polygons))[i - 1 := Turn(polygons[i - 1].kind, old(polygons[i - 1].orient), angle)]
    {
      ghost var before, oris := Shapes(), Orients(polygons);
      ghost var turned := Turn(polygons[i - 1].kind, polygons[i - 1].orient, angle);
      At(i).RotateCentre(angle, t);
      assert polygons[i - 1].orient == turned;
      OthersUnchanged(before, oris, i - 1);
    }

    /** `rescale(i, x, y)`: polygon i is rescaled the way its kind does it; no other polygon changes. */
    method Rescale(i: nat, x: real, y: real, t: Trig)
      requires Valid() && 1 <= i <= |polygons|
      modifies polygons[i - 1], polygons[i - 1].verts
      ensures Valid()
      ensures Shapes() == old(Shapes())[i - 1 := Rescaled(polygons[i - 1].kind, old(Shapes())[i - 1], old(polygons[i - 1].orient), x, y, t)]
      ensures Orients(polygons) == old(Orients(polygons))
    {
      ghost var before, oris := Shapes(), Orients(polygons);
      At(i).Rescale(x, y, t);
      OthersUnchanged(before, oris, i - 1);
    }

    /** After a change to polygon k alone, every other vertex list is as in `before`. */
    lemma OthersUnchanged(before: seq<seq<Vector>>, oris: seq<real>, k: nat)
      requires Valid() && k < |polygons| && |before| == |polygons| == |oris|
      requires forall j | 0 <= j < |polygons| && j != k :: polygons[j].verts[..] == before[j] && polygons[j].orient == oris[j]
      ensures Shapes() == before[k := polygons[k].verts[..]]
      ensures Orients(polygons) == oris[k := polygons[k].orient]
    {
    }

    /** `translateall(r)`: every polygon moves by r. */
    method TranslateAll(r: Vector)
      requires Valid()
      modifies set p | p in polygons :: p.verts
      ensures Valid()
      ensures Shapes() == TranslatedAll(old(Shapes()), r)
    {
      ghost var before := Shapes();
      for k := 0 to |polygons|
        invariant Valid()
        invariant Shapes() == TranslatedUpTo(before, r, k)
      {
        Translate(k + 1, r);
        TranslatedUpToStep(before, r, k);
      }
    }

    /** `(*it)->rotateorigin(angle)` for entry k of the list; the other entries are untouched. */
    method RotateEntryAboutOrigin(k: nat, angle: real, t: Trig)
      requires Valid() && k < |polygons|
      modifies polygons[k], polygons[k].verts
      ensures Valid()
      ensures Shapes() == old(Shapes())[k := Mapped(Rotation(t, angle), old(Shapes())[k])]
      ensures Orients(polygons) == old(Orients(polygons))[k := Turn(polygons[k].kind, old(polygons[k].orient), angle)]
    {
      ghost var before, oris := Shapes(), Orients(polygons);
      ghost var turned := Turn(polygons[k].kind, polygons[k].orient, angle);
      polygons[k].RotateOrigin(angle, t);
      assert polygons[k].orient == turned;
      OthersUnchanged(before, oris, k);
    }

    /** `rotateall(angle)`: every polygon turns about the global origin (`rotateorigin`), and
        every symmetric one adds the angle to its orientation. */
    method RotateAll(angle: real, t: Trig)
      requires Valid()
      modifies polygons, set p | p in polygons :: p.verts
      ensures Valid()
      ensures Shapes() == MappedAll(Rotation(t, angle), old(Shapes()))
      ensures forall j | 0 <= j < |polygons| :: polygons[j].orient == Turn(polygons[j].kind, old(polygons[j].orient), angle)
    {
      ghost var before := Shapes();
      ghost var oris := Orients(polygons);
      ghost var kinds := Kinds(polygons);
      for k := 0 to |polygons|
        invariant Valid()
        invariant Shapes() == MappedUpTo(Rotation(t, angle), before, k)
        invariant Orients(polygons) == TurnedUpTo(kinds, oris, angle, k)
      {
        RotateEntryAboutOrigin(k, angle, t);
        MappedUpToStep(Rotation(t, angle), before, k);
        TurnedUpToStep(kinds, oris, angle, k);
      }
    }

    /** `rescaleall(x, y)`: every polygon rescaled the way its own kind does it, so a symmetric
        shape keeps its centre while a general one scales about the origin. */
    method RescaleAll(x: real, y: real, t: Trig)
      requires Valid()
      modifies polygons, set p | p in polygons :: p.verts
      ensures Valid()
      ensures NonEmpty(old(Shapes()))
      ensures |Shapes()| == |old(Shapes())|
      ensures forall j | 0 <= j < |polygons| ::
        Shapes()[j] == Rescaled(polygons[j].kind, old(Shapes())[j], old(polygons[j].orient), x, y, t)
      ensures forall j | 0 <= j < |polygons| :: polygons[j].orient == old(polygons[j].orient)
    {
      ghost var before := Shapes();
      ghost var oris := Orients(polygons);
      ShapesNonEmpty();
      ghost var kinds := Kinds(polygons);
      for k := 0 to |polygons|
        invariant Valid()
        invariant Orients(polygons) == oris
        invariant Shapes() == RescaledUpTo(kinds, before, oris, x, y, t, k)
      {
        Rescale(k + 1, x, y, t);
        RescaledUpToStep(kinds, before, oris, x, y, t, k);
      }
    }

    /** The first loop of `centreall()`: `sumcentres += centre()` over the list. */
    method SumCentres() returns (sum: Vector)
      requires Valid()
      ensures NonEmpty(Shapes())
      ensures sum == Sum(Centres(Shapes()))
    {
      ShapesNonEmpty();
      ghost var centres := Centres(Shapes());
      sum := Zero();
      for k := 0 to |polygons|
        invariant sum == Sum(centres[..k])
      {
        assert centres[..k + 1][..k] == centres[..k];
        var c := polygons[k].Centre();
        sum := Vectors.Add(sum, c);
      }
      assert centres[..|polygons|] == centres;
    }

    /** `centreall()`: the centres are summed, their mean taken and every polygon moved by
        minus that mean, after which the centres average to the origin. With no polygons 1/count
        is infinite, but the translation then visits nothing and nothing changes. */
    method CentreAll()
      requires Valid()
      modifies set p | p in polygons :: p.verts
      ensures Valid()
      ensures NonEmpty(old(Shapes()))
      ensures |polygons| == 0 ==> Shapes() == old(Shapes())
      ensures |polygons| > 0 ==> Shapes() == TranslatedAll(old(Shapes()), Neg(Mean(Centres(old(Shapes())))))
      ensures |polygons| > 0 ==> Mean(Centres(Shapes())) == Zero()
    {
      var sum := SumCentres();
      if |polygons| == 0 {
        return;
      }
      var c := Scale(1.0 / Count() as real, sum);
      CentredAll(Shapes());
      TranslateAll(Neg(c));
    }

    /** `setdrawWidth(w)`: no bounds check. */
    method SetDrawWidth(w: nat)
      modifies this
      ensures drawWidth == w && polygons == old(polygons)
    {
      drawWidth := w;
    }

    /** `draw()`. */
    method Draw() returns (r: Raster.Result<seq<string>>)
      ensures r == Raster.DrawSpec(Shapes(), drawWidth)
    {
      r := Raster.Draw(Shapes(), drawWidth);
    }
  }
}
