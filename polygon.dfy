/** `Polygon` with its two concrete policies, `SymmetricPoly` and `GeneralPoly`: a fixed vertex
    count, an owned vertex array overwritten in place, and (for symmetric shapes) an orientation
    angle. The virtual calls of the source are dispatched on `kind`. */
module Polygons {
  import opened Matrices
  import opened Vectors
  import opened Shapes
  import Text

  datatype Option<T> = None | Some(value: T)

  /** The concrete policy behind the virtual `name()`, `rotateorigin` and `rescale`.
      A `SymmetricPoly` carries the name its derived class gives it; a `GeneralPoly` carries the
      name of a derived class that overrides `name()` (`Pentagon`, `Hexagon`), or `None` when it is
      a plain n-gon. */
  datatype Kind = Symmetric(title: string) | General(derived: Option<string>)

  /** The vertices after the virtual `rescale(x, y)` of a polygon of the given kind and orientation. */
  function Rescaled(kind: Kind, s: seq<Vector>, ori: real, x: real, y: real, t: Trig): seq<Vector>
    requires |s| > 0
  {
    match kind
    case General(_) => Mapped(Diag(x, y), s)
    case Symmetric(_) => SymmetricRescaled(s, ori, x, y, t)
  }

  class Polygon {
    /** The vertex count, fixed at construction (`const unsigned int n`). */
    const n: nat
    /** The owned vertex storage (`unique_ptr<Vector[]>`). */
    const verts: array<Vector>
    const kind: Kind
    /** `SymmetricPoly::orient`, the accumulated rotation in radians; a `GeneralPoly` has none and keeps 0. */
    var orient: real

    /** What every live polygon satisfies: at least three vertices, all stored. */
    ghost predicate Valid()
      reads this
    {
      3 <= n && verts.Length == n && (kind.General? ==> orient == 0.0)
    }

    /** The vertices in order. */
    function Vertices(): (s: seq<Vector>)
      reads verts
      ensures |s| == verts.Length
    {
      verts[..]
    }

    /** `Polygon(n)`: n default vertices at the origin; fewer than three is fatal. Both derived
        constructors start `orient` at 0. */
    constructor (n: nat, kind: Kind)
      requires 3 <= n
      ensures Valid() && fresh(verts)
      ensures this.n == n && this.kind == kind && orient == 0.0
      ensures Vertices() == seq(n, _ => Zero())
    {
      this.n := n;
      this.kind := kind;
      verts := new Vector[n](_ => Zero());
      orient := 0.0;
    }

    /** The copy constructor: a deep copy with its own storage, the same count and the same
        vertices in the same order. */
    constructor Copy(p: Polygon)
      requires p.Valid()
      ensures Valid() && fresh(verts)
      ensures n == p.n && kind == p.kind && orient == p.orient
      ensures Vertices() == p.Vertices()
    {
      n := p.n;
      kind := p.kind;
      orient := p.orient;
      var a := new Vector[p.n](_ => Zero());
      for i := 0 to p.n
        invariant a[..i] == p.verts[..i]
      {
        a[i] := p.verts[i];
      }
      verts := a;
    }

    /** `operator=`: copies vertex i of `p` for every i below this polygon's count. A different
        count only prints a warning; a smaller `p` makes the copy read past its last vertex,
        which is fatal and so excluded here. Assigning a polygon to itself does nothing. */
    method Assign(p: Polygon)
      requires Valid() && p.Valid() && n <= p.n
      requires p == this || p.verts != verts
      modifies verts
      ensures Vertices() == old(p.Vertices()[..n])
    {
      if p == this {
        return;
      }
      for i := 0 to n
        invariant verts[..i] == p.verts[..i]
      {
        verts[i] := p.verts[i];
      }
      assert verts[..] == verts[..n];
    }

    /** `size()`: the number of stored vertices, at least three. */
    function Size(): (s: nat)
      reads this
      ensures Valid() ==> s == verts.Length && s >= 3
    {
      n
    }

    /** The read-only `vertex(i)`; an index from `size()` on is fatal. */
    function Vertex(i: nat): (v: Vector)
      requires Valid() && i < n
      reads this, verts
      ensures v == Vertices()[i]
    {
      verts[i]
    }

    /** The protected writable `vertex(i)`, as the derived constructors use it: vertex i becomes v. */
    method SetVertex(i: nat, v: Vector)
      requires Valid() && i < n
      modifies verts
      ensures Vertices() == old(Vertices())[i := v]
    {
      verts[i] := v;
    }

    /** The virtual `name()`: a plain `GeneralPoly` is named by its count in decimal followed by
        "-gon", without leading zeros; every derived class by its own title. */
    function Name(): (r: string)
      reads this
      ensures kind.Symmetric? ==> r == kind.title
      ensures kind.General? && kind.derived.Some? ==> r == kind.derived.value
      ensures kind == General(None) ==> r == Text.Decimal(n) + "-gon"
      ensures kind == General(None) ==> |r| >= 5 && r[|r| - 4..] == "-gon" && (r[0] == '0' <==> n == 0)
      ensures kind == General(None) ==> var digits := r[..|r| - 4];
        (forall k | 0 <= k < |digits| :: Text.IsDigit(digits[k])) && Text.DecimalValue(digits) == n
    {
      match kind
      case Symmetric(title) => title
      case General(Some(title)) => title
      case General(None) =>
        var digits := Text.Decimal(n);
        Text.DecimalRoundTrip(n);
        assert (digits + "-gon")[..|digits|] == digits;
        digits + "-gon"
    }

    /** `centre()`: the vertices summed first to last, times 1/size. */
    method Centre() returns (c: Vector)
      requires Valid()
      ensures c == Mean(Vertices())
    {
      var sum := Zero();
      var invSize := 1.0 / n as real;
      for i := 0 to n
        invariant sum == Sum(verts[..i])
      {
        assert verts[..i + 1][..i] == verts[..i];
        sum := Add(sum, verts[i]);
      }
      assert verts[..n] == verts[..];
      c := Scale(invSize, sum);
    }

    /** `area()`: the determinants of consecutive vertex rows summed, the last row paired with
        the first, and half the absolute value taken. */
    method Area() returns (a: real)
      requires Valid()
      ensures a == AreaOf(Vertices())
    {
      var sum := 0.0;
      for i := 0 to n
        invariant sum == Shoelace(verts[..], i)
      {
        var m: Matrix;
        if i == n - 1 {
          m := Matrix(Get(verts[i], 1), Get(verts[i], 2), Get(verts[0], 1), Get(verts[0], 2));
        } else {
          m := Matrix(Get(verts[i], 1), Get(verts[i], 2), Get(verts[i + 1], 1), Get(verts[i + 1], 2));
        }
        sum := sum + Det(m);
      }
      a := Abs(0.5 * sum);
    }

    /** `translate(r)`: `vertex(i) += r` for every vertex. */
    method Translate(r: Vector)
      requires Valid()
      modifies verts
      ensures Vertices() == Translated(old(Vertices()), r)
    {
      ghost var before := verts[..];
      for i := 0 to n
        invariant verts[..i] == Translated(before[..i], r)
        invariant verts[i..] == before[i..]
      {
        verts[i] := Add(verts[i], r);
        assert verts[..i + 1] == verts[..i] + [Add(before[i], r)];
      }
    }

    /** The loop shared by `rotateorigin` and both `rescale`s: `vertex(i) = m * vertex(i)`. */
    method Transform(m: Matrix)
      requires Valid()
      modifies verts
      ensures Vertices() == Mapped(m, old(Vertices()))
    {
      ghost var before := verts[..];
      for i := 0 to n
        invariant verts[..i] == Mapped(m, before[..i])
        invariant verts[i..] == before[i..]
      {
        verts[i] := Apply(m, verts[i]);
        assert verts[..i + 1] == verts[..i] + [Apply(m, before[i])];
      }
    }

    /** The virtual `rotateorigin(angle)`: every vertex multiplied by the rotation matrix; a
        `SymmetricPoly` also adds the angle to its orientation. */
    method RotateOrigin(angle: real, t: Trig)
      requires Valid()
      modifies this, verts
      ensures Valid()
      ensures Vertices() == Mapped(Rotation(t, angle), old(Vertices()))
      ensures orient == if kind.Symmetric? then old(orient) + angle else old(orient)
    {
      Transform(Rotation(t, angle));
      if kind.Symmetric? {
        orient := orient + angle;
      }
    }

    /** `rotatecentre(angle)`: translate by -centre, the virtual `rotateorigin`, translate back.
        The centroid does not move, whatever the matrix. */
    method RotateCentre(angle: real, t: Trig)
      requires Valid()
      modifies this, verts
      ensures Valid()
      ensures Vertices() == AboutCentre(old(Vertices()), Rotation(t, angle))
      ensures Mean(Vertices()) == old(Mean(Vertices()))
      ensures orient == if kind.Symmetric? then old(orient) + angle else old(orient)
    {
      ghost var before := Vertices();
      var c := Centre();
      Translate(Neg(c));
      RotateOrigin(angle, t);
      Translate(c);
      AboutCentreKeepsCentre(before, Rotation(t, angle));
    }

    /** The virtual `rescale(x, y)`. A `GeneralPoly` multiplies every vertex by diag(x, y);
        a `SymmetricPoly` rescales along its own axes about its centre. */
    method Rescale(x: real, y: real, t: Trig)
      requires Valid()
      modifies this, verts
      ensures Valid()
      ensures orient == old(orient)
      ensures Vertices() == Rescaled(kind, old(Vertices()), old(orient), x, y, t)
      ensures kind.Symmetric? ==> Mean(Vertices()) == old(Mean(Vertices()))
    {
      if kind.General? {
        Transform(Diag(x, y));
      } else {
        RescaleSymmetric(x, y, t);
      }
    }

    /** `SymmetricPoly::rescale(x, y)`: move the centroid to the origin, undo the orientation,
        scale by diag(x, y), restore the orientation and move back, so that the centroid and the
        orientation are kept. */
    method RescaleSymmetric(x: real, y: real, t: Trig)
      requires Valid() && kind.Symmetric?
      modifies this, verts
      ensures Valid()
      ensures orient == old(orient)
      ensures Vertices() == SymmetricRescaled(old(Vertices()), old(orient), x, y, t)
      ensures Mean(Vertices()) == old(Mean(Vertices()))
    {
      var c := Centre();
      var ori := orient;
      ghost var before := Vertices();
      assert before == old(Vertices()) && c == Mean(before);
      Translate(Neg(c));
      ghost var centred := Vertices();
      RotateOrigin(-ori, t);
      ghost var unturned := Vertices();
      Transform(Diag(x, y));
      ghost var scaled := Vertices();
      RotateOrigin(ori, t);
      ghost var turned := Vertices();
      Translate(c);
      assert Vertices() == Translated(Mapped(Rotation(t, ori), Mapped(Diag(x, y), Mapped(Rotation(t, -ori), Translated(before, Neg(c))))), c) by {
        assert centred == Translated(before, Neg(c));
        assert unturned == Mapped(Rotation(t, -ori), centred);
        assert scaled == Mapped(Diag(x, y), unturned);
        assert turned == Mapped(Rotation(t, ori), scaled);
        assert Vertices() == Translated(turned, c);
      }
      assert Vertices() == SymmetricRescaled(before, ori, x, y, t);
      SymmetricRescaleKeepsCentre(before, ori, x, y, t);
    }
  }
}
