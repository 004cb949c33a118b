/** 2D vectors: vertex positions and translations. Every `double` is a `real`. */
module Vectors {
  import opened Matrices

  /** Exactly two components, as the source's two fields `x` and `y`. */
  datatype Vector = Vector(x: real, y: real)

  /** The default constructor yields the origin. */
  function Zero(): (v: Vector)
    ensures v.x == 0.0 && v.y == 0.0
  {
    Vector(0.0, 0.0)
  }

  /** Indices accepted by the accessor `operator()(i)`; any other index is fatal. */
  predicate IsComponent(i: int) {
    i == 1 || i == 2
  }

  /** `operator()(i)`, read side: component 1 is x, component 2 is y. */
  function Get(v: Vector, i: int): (c: real)
    requires IsComponent(i)
    ensures i == 1 ==> c == v.x
    ensures i == 2 ==> c == v.y
  {
    if i == 1 then v.x else v.y
  }

  /** `operator()(i)`, write side (the returned reference assigned to): component i becomes `c`, the other is kept. */
  function Set(v: Vector, i: int, c: real): (w: Vector)
    requires IsComponent(i)
    ensures Get(w, i) == c
    ensures Get(w, 3 - i) == Get(v, 3 - i)
  {
    if i == 1 then Vector(c, v.y) else Vector(v.x, c)
  }

  /** Binary `+` (and the new value that `+=` stores). */
  function Add(v: Vector, w: Vector): (r: Vector)
    ensures forall i | IsComponent(i) :: Get(r, i) == Get(v, i) + Get(w, i)
  {
    Vector(v.x + w.x, v.y + w.y)
  }

  /** Binary `-` (and the new value that `-=` stores). */
  function Sub(v: Vector, w: Vector): (r: Vector)
    ensures forall i | IsComponent(i) :: Get(r, i) == Get(v, i) - Get(w, i)
  {
    Vector(v.x - w.x, v.y - w.y)
  }

  /** Unary `-`: (-x, -y). */
  function Neg(v: Vector): (r: Vector)
    ensures forall i | IsComponent(i) :: Get(r, i) == -Get(v, i)
  {
    Vector(-v.x, -v.y)
  }

  /** `dot`: the scalar product, x x' + y y' in terms of the accessor. */
  function Dot(v: Vector, w: Vector): (d: real)
    ensures d == Get(v, 1) * Get(w, 1) + Get(v, 2) * Get(w, 2)
  {
    v.x * w.x + v.y * w.y
  }

  /** scalar `*` Vector, which the source writes through the accessor. */
  function Scale(s: real, v: Vector): (r: Vector)
    ensures forall i | IsComponent(i) :: Get(r, i) == s * Get(v, i)
  {
    Set(Set(Zero(), 1, s * Get(v, 1)), 2, s * Get(v, 2))
  }

  /** Matrix `*` Vector: component i is M(i,1) v(1) + M(i,2) v(2), filled by the source's loop over i. */
  function Apply(m: Matrix, v: Vector): (r: Vector)
    ensures forall i {:trigger Get(r, i)} | IsComponent(i) ::
      Get(r, i) == Entry(m, i, 1) * Get(v, 1) + Entry(m, i, 2) * Get(v, 2)
  {
    Vector(RowCol(m.a, m.b, v.x, v.y), RowCol(m.c, m.d, v.x, v.y))
  }

  /** Writing back a component just read leaves the vector as it was; reading a component just written gives the value written. */
  lemma SetGet(v: Vector, i: int, c: real)
    requires IsComponent(i)
    ensures Set(v, i, Get(v, i)) == v
    ensures Get(Set(v, i, c), i) == c
  {
  }

  /** `v += r` followed by `v -= r` restores `v`, and the other way round. */
  lemma AddSubCancel(v: Vector, r: Vector)
    ensures Sub(Add(v, r), r) == v
    ensures Add(Sub(v, r), r) == v
  {
  }

  /** Subtracting is adding the negation; `v + (-v)` is the origin. */
  lemma NegIsInverse(v: Vector, w: Vector)
    ensures Add(v, Neg(v)) == Zero()
    ensures Sub(v, w) == Add(v, Neg(w))
    ensures Neg(Neg(v)) == v
  {
  }

  /** Addition is commutative and associative, with the origin as its neutral element. */
  lemma AddLaws(u: Vector, v: Vector, w: Vector)
    ensures Add(u, v) == Add(v, u)
    ensures Add(Add(u, v), w) == Add(u, Add(v, w))
    ensures Add(u, Zero()) == u
  {
  }

  /** The scalar product is symmetric and linear in its first argument. */
  lemma DotLaws(u: Vector, v: Vector, w: Vector, k: real)
    ensures Dot(v, w) == Dot(w, v)
    ensures Dot(Add(u, v), w) == Dot(u, w) + Dot(v, w)
    ensures Dot(Scale(k, v), w) == k * Dot(v, w)
  {
  }

  /** Scaling distributes over addition and composes by multiplication. */
  lemma ScaleLaws(s: real, k: real, v: Vector, w: Vector)
    ensures Scale(s, Add(v, w)) == Add(Scale(s, v), Scale(s, w))
    ensures Scale(s, Scale(k, v)) == Scale(s * k, v)
    ensures Scale(1.0, v) == v
    ensures Scale(s, Zero()) == Zero()
  {
  }

  /** Scaling by k + 1 adds one more copy of the vector. */
  lemma ScaleSucc(k: real, v: Vector)
    ensures Scale(k + 1.0, v) == Add(Scale(k, v), v)
  {
    assert (k + 1.0) * v.x == k * v.x + v.x;
    assert (k + 1.0) * v.y == k * v.y + v.y;
  }

  /** Matrix application is linear: it maps sums to sums, scalings to scalings and the origin to itself. */
  lemma ApplyLinear(m: Matrix, v: Vector, w: Vector, k: real)
    ensures Apply(m, Add(v, w)) == Add(Apply(m, v), Apply(m, w))
    ensures Apply(m, Scale(k, v)) == Scale(k, Apply(m, v))
    ensures Apply(m, Neg(v)) == Neg(Apply(m, v))
    ensures Apply(m, Zero()) == Zero()
  {
  }

  /** Applying a product is applying its factors in turn; the identity does nothing. */
  lemma ApplyMul(p: Matrix, q: Matrix, v: Vector)
    ensures Apply(Mul(p, q), v) == Apply(p, Apply(q, v))
    ensures Apply(Identity(), v) == v
  {
    RowAssociative(p.a, p.b, q, v.x, v.y);
    RowAssociative(p.c, p.d, q, v.x, v.y);
  }
}
