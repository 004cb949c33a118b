/** 2x2 real matrices. Every `double` of the source is a mathematical `real` here. */
module Matrices {

  /** `Matrix(a, b, c, d)`: the matrix with rows (a b) and (c d), row-major as the source's `data[4]`. */
  datatype Matrix = Matrix(a: real, b: real, c: real, d: real)

  /** The source's storage `data[0..3]`. */
  function Cells(m: Matrix): (s: seq<real>)
    ensures |s| == 4
  {
    [m.a, m.b, m.c, m.d]
  }

  /** Row and column indices accepted by `operator()(i, j)`; any other pair is fatal. */
  predicate InRange(i: int, j: int) {
    1 <= i <= 2 && 1 <= j <= 2
  }

  /** `operator()(i, j)`: reads `data[2*(i-1) + (j-1)]`, so (1,1)=a, (1,2)=b, (2,1)=c, (2,2)=d. */
  function Entry(m: Matrix, i: int, j: int): (e: real)
    requires InRange(i, j)
    ensures i == 1 && j == 1 ==> e == m.a
    ensures i == 1 && j == 2 ==> e == m.b
    ensures i == 2 && j == 1 ==> e == m.c
    ensures i == 2 && j == 2 ==> e == m.d
  {
    Cells(m)[2 * (i - 1) + (j - 1)]
  }

  /** The default constructor: every entry is zero. */
  function ZeroMatrix(): (m: Matrix)
    ensures forall i, j | InRange(i, j) :: Entry(m, i, j) == 0.0
  {
    Matrix(0.0, 0.0, 0.0, 0.0)
  }

  /** The identity; not a constructor of the source, used to state neutrality of the product. */
  function Identity(): Matrix {
    Matrix(1.0, 0.0, 0.0, 1.0)
  }

  /** Scaling matrix `diag(x, y)`, as built by both `rescale`s: x and y on the diagonal, 0 elsewhere. */
  function Diag(x: real, y: real): (r: Matrix)
    ensures forall i, j | InRange(i, j) :: Entry(r, i, j) == if i != j then 0.0 else if i == 1 then x else y
  {
    Matrix(x, 0.0, 0.0, y)
  }

  /** `operator*`: entry (i,j) of the product is what the source's i,j loop stores, row i of `p`
      against column j of `q`. */
  function Mul(p: Matrix, q: Matrix): (r: Matrix)
    ensures forall i, j {:trigger Entry(r, i, j)} | InRange(i, j) ::
      Entry(r, i, j) == Entry(p, i, 1) * Entry(q, 1, j) + Entry(p, i, 2) * Entry(q, 2, j)
  {
    Matrix(p.a * q.a + p.b * q.c, p.a * q.b + p.b * q.d, p.c * q.a + p.d * q.c, p.c * q.b + p.d * q.d)
  }

  /** `det()`. */
  function Det(m: Matrix): (r: real)
    ensures r == m.a * m.d - m.b * m.c
  {
    Entry(m, 1, 1) * Entry(m, 2, 2) - Entry(m, 1, 2) * Entry(m, 2, 1)
  }

  /** scalar `*` Matrix: every entry multiplied by `s`. */
  function ScaleMatrix(s: real, m: Matrix): (r: Matrix)
    ensures forall i, j | InRange(i, j) :: Entry(r, i, j) == s * Entry(m, i, j)
  {
    Matrix(s * Entry(m, 1, 1), s * Entry(m, 1, 2), s * Entry(m, 2, 1), s * Entry(m, 2, 2))
  }

  /** Real algebra behind the product rule of determinants. */
  lemma DetProduct(a11: real, a12: real, a21: real, a22: real, b11: real, b12: real, b21: real, b22: real)
    ensures (a11 * b11 + a12 * b21) * (a21 * b12 + a22 * b22) - (a11 * b12 + a12 * b22) * (a21 * b11 + a22 * b21)
         == (a11 * a22 - a12 * a21) * (b11 * b22 - b12 * b21)
  {
  }

  /** The identity is neutral on both sides of the product. */
  lemma MulIdentity(m: Matrix)
    ensures Mul(Identity(), m) == m && Mul(m, Identity()) == m
  {
  }

  /** A row (x1 x2) against a column (y1 y2). */
  function RowCol(x1: real, x2: real, y1: real, y2: real): real {
    x1 * y1 + x2 * y2
  }

  /** Real algebra behind associativity: ((x1 x2) q) (c1 c2) == (x1 x2) (q (c1 c2)). */
  lemma RowAssociative(x1: real, x2: real, q: Matrix, c1: real, c2: real)
    ensures RowCol(RowCol(x1, x2, q.a, q.c), RowCol(x1, x2, q.b, q.d), c1, c2)
         == RowCol(x1, x2, RowCol(q.a, q.b, c1, c2), RowCol(q.c, q.d, c1, c2))
  {
  }

  /** The product is associative. */
  lemma MulAssociative(p: Matrix, q: Matrix, r: Matrix)
    ensures Mul(Mul(p, q), r) == Mul(p, Mul(q, r))
  {
    RowAssociative(p.a, p.b, q, r.a, r.c);
    RowAssociative(p.a, p.b, q, r.b, r.d);
    RowAssociative(p.c, p.d, q, r.a, r.c);
    RowAssociative(p.c, p.d, q, r.b, r.d);
  }

  /** The determinant is multiplicative: det(P*Q) == det(P) * det(Q). */
  lemma DetMul(p: Matrix, q: Matrix)
    ensures Det(Mul(p, q)) == Det(p) * Det(q)
  {
    DetProduct(p.a, p.b, p.c, p.d, q.a, q.b, q.c, q.d);
  }

  /** Scaling a matrix by s scales its determinant by s*s. */
  lemma DetScale(s: real, m: Matrix)
    ensures Det(ScaleMatrix(s, m)) == s * s * Det(m)
  {
  }

  /** cos and sin, which the model does not compute: two total functions chosen by the caller. */
  datatype Trig = Trig(cos: real -> real, sin: real -> real)

  /** The facts of cos and sin at one angle that the identities below need: Pythagoras and parity. */
  ghost predicate TrigAt(t: Trig, x: real) {
    t.cos(x) * t.cos(x) + t.sin(x) * t.sin(x) == 1.0 && t.cos(-x) == t.cos(x) && t.sin(-x) == -t.sin(x)
  }

  /** `t` behaves as cos and sin do at every angle. */
  ghost predicate Circular(t: Trig) {
    forall x: real :: TrigAt(t, x)
  }

  /** The rotation matrix `R(cos a, -sin a, sin a, cos a)` of `rotateorigin`: cos a on the
      diagonal, -sin a above it and sin a below it. */
  function Rotation(t: Trig, angle: real): (r: Matrix)
    ensures forall i, j | InRange(i, j) ::
      Entry(r, i, j) == if i == j then t.cos(angle) else if i == 1 then -t.sin(angle) else t.sin(angle)
  {
    Matrix(t.cos(angle), -t.sin(angle), t.sin(angle), t.cos(angle))
  }

  /** A rotation has determinant 1. */
  lemma RotationDet(t: Trig, angle: real)
    requires Circular(t)
    ensures Det(Rotation(t, angle)) == 1.0
  {
    assert TrigAt(t, angle);
  }

  /** Rotating by -a undoes rotating by a, in either order. */
  lemma RotationInverse(t: Trig, angle: real)
    requires Circular(t)
    ensures Mul(Rotation(t, -angle), Rotation(t, angle)) == Identity()
    ensures Mul(Rotation(t, angle), Rotation(t, -angle)) == Identity()
  {
    var co, si := t.cos(angle), t.sin(angle);
    assert TrigAt(t, angle);
    assert t.cos(-angle) == co && t.sin(-angle) == -si;
    assert Rotation(t, -angle) == Matrix(co, si, -si, co);
  }
}
