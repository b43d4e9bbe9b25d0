/** Three-dimensional points `Point3<int>`: the `const` operators as functions on
    values, and the assignment operators as methods of a mutable object. */
module Points3 {
  import opened Vectors
  import opened Numeric

  /** An absolute position in space; the component constructor `Point3(xx, yy, zz)`. */
  datatype Point3 = Point3(x: int, y: int, z: int)

  /** The default constructor `Point3()`. */
  function Origin(): (o: Point3) {
    Point3(0, 0, 0)
  }

  /** `p.hasNaN()`: whether some component is NaN, which an integer point never has. */
  function HasNaN(p: Point3): (r: bool)
    ensures !r
  {
    IsNaN(p.x) || IsNaN(p.y) || IsNaN(p.z)
  }

  /** `p == q`: the components are compared one by one. */
  function Eq(p: Point3, q: Point3): (r: bool)
    ensures r <==> p == q
  {
    p.x == q.x && p.y == q.y && p.z == q.z
  }

  /** `p != q`: some component differs. */
  function Ne(p: Point3, q: Point3): (r: bool)
    ensures r <==> !Eq(p, q)
  {
    p.x != q.x || p.y != q.y || p.z != q.z
  }

  /** `p - q` between two points: the displacement that leads from `q` to `p`. */
  function Diff(p: Point3, q: Point3): (r: Vector3) {
    Vector3(p.x - q.x, p.y - q.y, p.z - q.z)
  }

  /** `p * n` for an integer scalar `n`: each component scaled by `n`. */
  function Mul(p: Point3, n: int): (r: Point3)
    ensures n == 0 ==> r == Origin()
    ensures n == 1 ==> r == p
  {
    Point3(n * p.x, n * p.y, n * p.z)
  }

  /** Unary `-p`: the point mirrored through the origin. */
  function Neg(p: Point3): (r: Point3)
    ensures r == Mul(p, -1)
  {
    Point3(-p.x, -p.y, -p.z)
  }

  /** `p + v`: the point that lies exactly `v` away from `p`. */
  function Add(p: Point3, v: Vector3): (r: Point3)
    ensures Diff(r, p) == v
  {
    Point3(p.x + v.x, p.y + v.y, p.z + v.z)
  }

  /** `p - v`: the point that `v` carries onto `p`. */
  function Sub(p: Point3, v: Vector3): (r: Point3)
    ensures Add(r, v) == p
    ensures Diff(p, r) == v
  {
    Point3(p.x - v.x, p.y - v.y, p.z - v.z)
  }

  /** The `const` `p[i]` as written: the source asserts `0 <= i <= 3`, so the
      index 3 is admitted and, like 2, reads `z`. */
  function At(p: Point3, i: int): (r: int)
    requires 0 <= i <= 3
    ensures i == 0 ==> r == p.x
    ensures i == 1 ==> r == p.y
    ensures i == 2 || i == 3 ==> r == p.z
  {
    if i == 0 then p.x
    else if i == 1 then p.y
    else p.z
  }

  /** The index 3 passes the bound and reads the same component as 2, so the
      four admitted indices do not name four distinct components. */
  lemma AtThreeAliasesTwo(p: Point3)
    ensures At(p, 3) == At(p, 2) == p.z
  {
  }

  /** Indexing with the bound a three-component point calls for, `0 <= i < 3`;
      it agrees with `At` on every index it admits. */
  function Coord(p: Point3, i: int): (r: int)
    requires 0 <= i < 3
    ensures r == At(p, i)
  {
    if i == 0 then p.x
    else if i == 1 then p.y
    else p.z
  }

  /** Under the bound `0 <= i < 3`, distinct indices name distinct components:
      some point reads differently at them. */
  lemma CoordIndicesDistinct(i: int, j: int)
    requires 0 <= i < 3 && 0 <= j < 3 && i != j
    ensures exists p :: Coord(p, i) != Coord(p, j)
  {
    var p := Point3(0, 1, 2);
    assert Coord(p, i) == i && Coord(p, j) == j;
  }

  /** A point is determined by what `Coord` reads from it: two points are equal
      exactly when they agree at every index. */
  lemma CoordDetermines(p: Point3, q: Point3)
    ensures p == q <==> forall i | 0 <= i < 3 :: Coord(p, i) == Coord(q, i)
  {
    if forall i | 0 <= i < 3 :: Coord(p, i) == Coord(q, i) {
      assert Coord(p, 0) == Coord(q, 0);
      assert Coord(p, 1) == Coord(q, 1);
      assert Coord(p, 2) == Coord(q, 2);
    }
  }

  /** Translating by `v` and then subtracting `v` gives back the point. */
  lemma SubUndoesAdd(p: Point3, v: Vector3)
    ensures Sub(Add(p, v), v) == p
  {
  }

  /** The displacement round trip `p + (q - p) == q`. */
  lemma AddDiffRoundTrip(p: Point3, q: Point3)
    ensures Add(p, Diff(q, p)) == q
  {
  }

  /** Between two points there is exactly one displacement: some vector carries
      `p` onto `q`, and every such vector is `q - p`. */
  lemma DisplacementUnique(p: Point3, q: Point3)
    ensures exists v :: Add(p, v) == q
    ensures forall v :: Add(p, v) == q ==> v == Diff(q, p)
  {
    AddDiffRoundTrip(p, q);
  }

  /** Negation is an involution. */
  lemma NegInvolution(p: Point3)
    ensures Neg(Neg(p)) == p
  {
  }

  /** Scaling twice is scaling once by the product, as `p *= m; p *= n` does. */
  lemma MulCompose(p: Point3, m: int, n: int)
    ensures Mul(Mul(p, m), n) == Mul(p, m * n)
  {
  }

  /** The default point is the origin: the displacement from it to `p` has
      `p`'s coordinates. */
  lemma DiffFromOrigin(p: Point3)
    ensures Diff(p, Origin()) == Vector3(p.x, p.y, p.z)
  {
  }

  /** The default vector is the zero displacement: adding it changes nothing. */
  lemma AddZeroVector(p: Point3)
    ensures Add(p, ZeroVector3()) == p
  {
  }

  /** A `Point3<int>` object whose fields the assignment operators update in place. */
  class MutablePoint3 {
    var x: int
    var y: int
    var z: int

    /** The value the object currently holds. */
    function Value(): (p: Point3)
      reads this
    {
      Point3(x, y, z)
    }

    /** `Point3()`: a new object at the origin. */
    constructor ()
      ensures Value() == Origin()
    {
      x, y, z := 0, 0, 0;
    }

    /** `Point3(xx, yy, zz)`. */
    constructor FromCoords(xx: int, yy: int, zz: int)
      ensures Value() == Point3(xx, yy, zz)
    {
      x, y, z := xx, yy, zz;
    }

    /** `*this = p`; returns the object itself, as `*this`. */
    method Assign(p: Point3) returns (self: MutablePoint3)
      modifies this
      ensures Value() == p
      ensures self == this
    {
      x := p.x;
      y := p.y;
      z := p.z;
      self := this;
    }

    /** `*this += v`: the object moves to `old value + v`. */
    method AddAssign(v: Vector3) returns (self: MutablePoint3)
      modifies this
      ensures Value() == Add(old(Value()), v)
      ensures self == this
    {
      x := x + v.x;
      y := y + v.y;
      z := z + v.z;
      self := this;
    }

    /** `*this -= v`: the object moves to `old value - v`. */
    method SubAssign(v: Vector3) returns (self: MutablePoint3)
      modifies this
      ensures Value() == Sub(old(Value()), v)
      ensures self == this
    {
      x := x - v.x;
      y := y - v.y;
      z := z - v.z;
      self := this;
    }

    /** `*this *= n`: the object moves to `old value * n`. */
    method MulAssign(n: int) returns (self: MutablePoint3)
      modifies this
      ensures Value() == Mul(old(Value()), n)
      ensures self == this
    {
      x := x * n;
      y := y * n;
      z := z * n;
      self := this;
    }

    /** `p[i] = t` through the reference the non-`const` `operator[]` returns,
        with the same bound as the `const` one (index 3 writes `z`): the
        selected component becomes `t` and the others keep their values. */
    method SetAt(i: int, t: int)
      requires 0 <= i <= 3
      modifies this
      ensures At(Value(), i) == t
      ensures x == (if i == 0 then t else old(x))
      ensures y == (if i == 1 then t else old(y))
      ensures z == (if i == 2 || i == 3 then t else old(z))
    {
      if i == 0 {
        x := t;
      } else if i == 1 {
        y := t;
      } else {
        z := t;
      }
    }

    /** Writing through `p[i]` with the bound a three-component point calls for,
        `0 <= i < 3`: the component at `i` becomes `t` and every other index
        reads what it read before. */
    method SetCoord(i: int, t: int)
      requires 0 <= i < 3
      modifies this
      ensures Coord(Value(), i) == t
      ensures forall j | 0 <= j < 3 && j != i :: Coord(Value(), j) == Coord(old(Value()), j)
    {
      if i == 0 {
        x := t;
      } else if i == 1 {
        y := t;
      } else {
        z := t;
      }
    }
  }
}
