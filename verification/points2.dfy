/** Two-dimensional points `Point2<int>`: the `const` operators as functions on
    values, and the assignment operators as methods of a mutable object. */
module Points2 {
  import opened Vectors
  import opened Numeric

  /** An absolute position in the plane; the component constructor `Point2(xx, yy)`. */
  datatype Point2 = Point2(x: int, y: int)

  /** The default constructor `Point2()`. */
  function Origin(): (o: Point2) {
    Point2(0, 0)
  }

  /** `p.hasNaN()`: whether some component is NaN, which an integer point never has. */
  function HasNaN(p: Point2): (r: bool)
    ensures !r
  {
    IsNaN(p.x) || IsNaN(p.y)
  }

  /** `p == q`: the components are compared one by one. */
  function Eq(p: Point2, q: Point2): (r: bool)
    ensures r <==> p == q
  {
    p.x == q.x && p.y == q.y
  }

  /** `p != q`: some component differs. */
  function Ne(p: Point2, q: Point2): (r: bool)
    ensures r <==> !Eq(p, q)
  {
    p.x != q.x || p.y != q.y
  }

  /** `p - q` between two points: the displacement that leads from `q` to `p`. */
  function Diff(p: Point2, q: Point2): (r: Vector2) {
    Vector2(p.x - q.x, p.y - q.y)
  }

  /** `p * n` for an integer scalar `n`: each component scaled by `n`. */
  function Mul(p: Point2, n: int): (r: Point2)
    ensures n == 0 ==> r == Origin()
    ensures n == 1 ==> r == p
  {
    Point2(n * p.x, n * p.y)
  }

  /** Unary `-p`: the point mirrored through the origin. */
  function Neg(p: Point2): (r: Point2)
    ensures r == Mul(p, -1)
  {
    Point2(-p.x, -p.y)
  }

  /** `p + v`: the point that lies exactly `v` away from `p`. */
  function Add(p: Point2, v: Vector2): (r: Point2)
    ensures Diff(r, p) == v
  {
    Point2(p.x + v.x, p.y + v.y)
  }

  /** `p - v`: the point that `v` carries onto `p`. */
  function Sub(p: Point2, v: Vector2): (r: Point2)
    ensures Add(r, v) == p
    ensures Diff(p, r) == v
  {
    Point2(p.x - v.x, p.y - v.y)
  }

  /** The `const` `p[i]`; the source asserts that `i` is 0 or 1. */
  function At(p: Point2, i: int): (r: int)
    requires i == 0 || i == 1
    ensures i == 0 ==> r == p.x
    ensures i == 1 ==> r == p.y
  {
    if i == 0 then p.x else p.y
  }

  /** Translating by `v` and then subtracting `v` gives back the point. */
  lemma SubUndoesAdd(p: Point2, v: Vector2)
    ensures Sub(Add(p, v), v) == p
  {
  }

  /** The displacement round trip `p + (q - p) == q`. */
  lemma AddDiffRoundTrip(p: Point2, q: Point2)
    ensures Add(p, Diff(q, p)) == q
  {
  }

  /** Between two points there is exactly one displacement: some vector carries
      `p` onto `q`, and every such vector is `q - p`. */
  lemma DisplacementUnique(p: Point2, q: Point2)
    ensures exists v :: Add(p, v) == q
    ensures forall v :: Add(p, v) == q ==> v == Diff(q, p)
  {
    AddDiffRoundTrip(p, q);
  }

  /** Negation is an involution. */
  lemma NegInvolution(p: Point2)
    ensures Neg(Neg(p)) == p
  {
  }

  /** Scaling twice is scaling once by the product, as `p *= m; p *= n` does. */
  lemma MulCompose(p: Point2, m: int, n: int)
    ensures Mul(Mul(p, m), n) == Mul(p, m * n)
  {
  }

  /** The default point is the origin: the displacement from it to `p` has
      `p`'s coordinates. */
  lemma DiffFromOrigin(p: Point2)
    ensures Diff(p, Origin()) == Vector2(p.x, p.y)
  {
  }

  /** The default vector is the zero displacement: adding it changes nothing. */
  lemma AddZeroVector(p: Point2)
    ensures Add(p, ZeroVector2()) == p
  {
  }

  /** A point is determined by what indexing reads from it: two points are equal
      exactly when they agree at every admitted index. */
  lemma AtDetermines(p: Point2, q: Point2)
    ensures p == q <==> forall i | i == 0 || i == 1 :: At(p, i) == At(q, i)
  {
    if forall i | i == 0 || i == 1 :: At(p, i) == At(q, i) {
      assert At(p, 0) == At(q, 0);
      assert At(p, 1) == At(q, 1);
    }
  }

  /** A `Point2<int>` object whose fields the assignment operators update in place. */
  class MutablePoint2 {
    var x: int
    var y: int

    /** The value the object currently holds. */
    function Value(): (p: Point2)
      reads this
    {
      Point2(x, y)
    }

    /** `Point2()`: a new object at the origin. */
    constructor ()
      ensures Value() == Origin()
    {
      x, y := 0, 0;
    }

    /** `Point2(xx, yy)`. */
    constructor FromCoords(xx: int, yy: int)
      ensures Value() == Point2(xx, yy)
    {
      x, y := xx, yy;
    }

    /** `*this = p`; returns the object itself, as `*this`. */
    method Assign(p: Point2) returns (self: MutablePoint2)
      modifies this
      ensures Value() == p
      ensures self == this
    {
      x := p.x;
      y := p.y;
      self := this;
    }

    /** `*this += v`: the object moves to `old value + v`. */
    method AddAssign(v: Vector2) returns (self: MutablePoint2)
      modifies this
      ensures Value() == Add(old(Value()), v)
      ensures self == this
    {
      x := x + v.x;
      y := y + v.y;
      self := this;
    }

    /** `*this -= v`: the object moves to `old value - v`. */
    method SubAssign(v: Vector2) returns (self: MutablePoint2)
      modifies this
      ensures Value() == Sub(old(Value()), v)
      ensures self == this
    {
      x := x - v.x;
      y := y - v.y;
      self := this;
    }

    /** `*this *= n`: the object moves to `old value * n`. */
    method MulAssign(n: int) returns (self: MutablePoint2)
      modifies this
      ensures Value() == Mul(old(Value()), n)
      ensures self == this
    {
      x := x * n;
      y := y * n;
      self := this;
    }

    /** `p[i] = t` through the reference the non-`const` `operator[]` returns:
        the selected component becomes `t` and the other keeps its value. */
    method SetAt(i: int, t: int)
      requires i == 0 || i == 1
      modifies this
      ensures At(Value(), i) == t
      ensures x == (if i == 0 then t else old(x))
      ensures y == (if i == 1 then t else old(y))
    {
      if i == 0 {
        x := t;
      } else {
        y := t;
      }
    }
  }
}
