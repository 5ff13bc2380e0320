/**
 * The 3D vector of Acun3D/Vector.cpp. In the source a `Vector` is a
 * `Matrix<float, 4, 1>`: components x, y, z and a fourth component w, stored
 * as the column (0, 0) .. (3, 0). The model keeps that column as a 4-element
 * array; entry (i, 0) of the matrix is `data[i]`.
 */
module Vectors {
  import opened Matrices

  datatype Vec4 = Vec4(x: real, y: real, z: real, w: real)

  const Origin := Vec4(0.0, 0.0, 0.0, 0.0)

  /** Row i of the column, as `operator()(i, 0)` reads it. */
  function Component(v: Vec4, i: nat): real
    requires i < 4
  {
    if i == 0 then v.x else if i == 1 then v.y else if i == 2 then v.z else v.w
  }

  /** The vector as the 4 x 1 matrix it is in the source. */
  function Column(v: Vec4): (c: Mat)
    ensures IsMat(c, 4, 1)
    ensures forall i :: 0 <= i < 4 ==> c[i][0] == Component(v, i)
  {
    [[v.x], [v.y], [v.z], [v.w]]
  }

  /** `Vector(x, y, z)`: the fourth component is 0. */
  function Direction(x: real, y: real, z: real): Vec4
  {
    Vec4(x, y, z, 0.0)
  }

  /** Binary `+`: a fresh vector whose x, y, z are the sums; its w stays 0. */
  function Plus(a: Vec4, b: Vec4): Vec4
  {
    Direction(a.x + b.x, a.y + b.y, a.z + b.z)
  }

  function Minus(a: Vec4, b: Vec4): Vec4
  {
    Direction(a.x - b.x, a.y - b.y, a.z - b.z)
  }

  function Negation(a: Vec4): Vec4
  {
    Direction(-a.x, -a.y, -a.z)
  }

  /** `*` by a float: x, y, z scaled, w 0. */
  function Scaled(a: Vec4, f: real): Vec4
  {
    Direction(a.x * f, a.y * f, a.z * f)
  }

  /** `/` by a float: x, y, z divided, w 0. */
  function DividedBy(a: Vec4, f: real): Vec4
    requires f != 0.0
  {
    Direction(a.x / f, a.y / f, a.z / f)
  }

  /** `/=`: all four components divided, w included. */
  function AllDividedBy(a: Vec4, f: real): Vec4
    requires f != 0.0
  {
    Vec4(a.x / f, a.y / f, a.z / f, a.w / f)
  }

  /** `dot`: x, y and z only. */
  function Dot3(a: Vec4, b: Vec4): real
  {
    a.x * b.x + a.y * b.y + a.z * b.z
  }

  function Cross(a: Vec4, b: Vec4): Vec4
  {
    Direction(a.y * b.z - a.z * b.y, a.z * b.x - a.x * b.z, a.x * b.y - a.y * b.x)
  }

  /** Matrix x vector: row y of the result is row y of `m` times the column `v`, for all four rows. */
  function MatVec(m: Mat4, v: Vec4): Vec4
  {
    var c := Column(v);
    Vec4(Dot(m[0], c, 1, 0, 4), Dot(m[1], c, 1, 0, 4), Dot(m[2], c, 1, 0, 4), Dot(m[3], c, 1, 0, 4))
  }

  /** The four entries of a 4 x 1 column's storage. */
  function AsVec4(a: array<real>): (v: Vec4)
    reads a
    requires a.Length == 4
    ensures forall i :: 0 <= i < 4 ==> Component(v, i) == a[i]
  {
    Vec4(a[0], a[1], a[2], a[3])
  }

  // ---------------------------------------------------------------------------
  // Properties

  /** `-` undoes `+` on x, y and z, and both leave w at 0; `+` commutes. */
  lemma PlusMinus(a: Vec4, b: Vec4)
    ensures Minus(Plus(a, b), b) == Direction(a.x, a.y, a.z)
    ensures Plus(Minus(a, b), b) == Direction(a.x, a.y, a.z)
    ensures Plus(a, b) == Plus(b, a)
    ensures Plus(a, b).w == 0.0 && Minus(a, b).w == 0.0
  {
  }

  /** Unary `-` is subtraction from the zero vector; applied twice it keeps x, y, z and clears w. */
  lemma NegationTwice(a: Vec4)
    ensures Negation(a) == Minus(Origin, a)
    ensures Negation(Negation(a)) == Direction(a.x, a.y, a.z)
  {
  }

  /**
   * `/` undoes `*` on x, y, z (w becomes 0), while `/=` divides w as well:
   * the two divisions agree exactly on vectors built by `Vector(x, y, z)`.
   */
  lemma ScaledDivided(a: Vec4, f: real)
    requires f != 0.0
    ensures DividedBy(Scaled(a, f), f) == Direction(a.x, a.y, a.z)
    ensures AllDividedBy(a, f).w == a.w / f
    ensures AllDividedBy(a, f) == DividedBy(a, f) <==> a.w == 0.0
  {
    if AllDividedBy(a, f) == DividedBy(a, f) {
      assert a.w / f == 0.0;
      assert a.w == (a.w / f) * f;
    }
  }

  /** `dot` ignores w, is symmetric, and is non-negative on a vector with itself. */
  lemma Dot3Properties(a: Vec4, b: Vec4, w: real)
    ensures Dot3(a, b) == Dot3(Vec4(a.x, a.y, a.z, w), b)
    ensures Dot3(a, b) == Dot3(b, a)
    ensures Dot3(a, a) >= 0.0
  {
    assert a.x * a.x >= 0.0 && a.y * a.y >= 0.0 && a.z * a.z >= 0.0;
  }

  /** In exact arithmetic the cross product is orthogonal to both operands, and it anticommutes. */
  lemma CrossOrthogonal(a: Vec4, b: Vec4)
    ensures Dot3(Cross(a, b), a) == 0.0
    ensures Dot3(Cross(a, b), b) == 0.0
    ensures Cross(a, b) == Negation(Cross(b, a))
  {
    var c := Cross(a, b);
    calc {
      Dot3(c, a);
      (a.y * b.z - a.z * b.y) * a.x + (a.z * b.x - a.x * b.z) * a.y + (a.x * b.y - a.y * b.x) * a.z;
      (a.x * a.y * b.z - a.x * a.z * b.y) + (a.y * a.z * b.x - a.x * a.y * b.z) + (a.x * a.z * b.y - a.y * a.z * b.x);
      0.0;
    }
    calc {
      Dot3(c, b);
      (a.y * b.z - a.z * b.y) * b.x + (a.z * b.x - a.x * b.z) * b.y + (a.x * b.y - a.y * b.x) * b.z;
      (a.y * b.x * b.z - a.z * b.x * b.y) + (a.z * b.x * b.y - a.x * b.y * b.z) + (a.x * b.y * b.z - a.y * b.x * b.z);
      0.0;
    }
  }

  /** Matrix x vector is the full four-row product, the w row included. */
  lemma MatVecEntries(m: Mat4, v: Vec4)
    ensures MatVec(m, v).x == m[0][0] * v.x + m[0][1] * v.y + m[0][2] * v.z + m[0][3] * v.w
    ensures MatVec(m, v).y == m[1][0] * v.x + m[1][1] * v.y + m[1][2] * v.z + m[1][3] * v.w
    ensures MatVec(m, v).z == m[2][0] * v.x + m[2][1] * v.y + m[2][2] * v.z + m[2][3] * v.w
    ensures MatVec(m, v).w == m[3][0] * v.x + m[3][1] * v.y + m[3][2] * v.z + m[3][3] * v.w
  {
  }

  /** Matrix x vector agrees with the generic matrix product on the vector's 4 x 1 column. */
  lemma MatVecIsProduct(m: Mat4, v: Vec4)
    ensures Column(MatVec(m, v)) == Product(m, Column(v), 4, 4, 1)
  {
    var p := Product(m, Column(v), 4, 4, 1);
    MatEq(Column(MatVec(m, v)), p, 4, 1);
  }

  /** The identity leaves a vector unchanged. */
  lemma MatVecIdentity(v: Vec4)
    ensures MatVec(Identity(4, 4), v) == v
  {
    IdentityNeutral(Column(v), 4, 1);
    MatVecIsProduct(Identity(4, 4), v);
    assert Column(MatVec(Identity(4, 4), v)) == Column(v);
  }

  /**
   * A translation moves a point with w = 1 by (x, y, z) and leaves a direction
   * built by `Vector(x, y, z)` (w = 0) where it is.
   */
  lemma MatVecTranslation(tx: real, ty: real, tz: real, v: Vec4)
    ensures v.w == 1.0 ==> MatVec(Translation(tx, ty, tz), v) == Vec4(v.x + tx, v.y + ty, v.z + tz, 1.0)
    ensures v.w == 0.0 ==> MatVec(Translation(tx, ty, tz), v) == v
  {
    MatVecEntries(Translation(tx, ty, tz), v);
  }

  // ---------------------------------------------------------------------------
  // The class

  class Vector {
    var data: array<real>

    ghost predicate Valid()
      reads this
    {
      data.Length == 4
    }

    function Value(): Vec4
      reads this, data
      requires Valid()
    {
      AsVec4(data)
    }

    /** `Vector()`: the zero column. */
    constructor ()
      ensures Valid() && fresh(data) && Value() == Origin
    {
      data := new real[4](_ => 0.0);
    }

    /** `Vector(x, y, z)`. */
    constructor XYZ(x: real, y: real, z: real)
      ensures Valid() && fresh(data) && Value() == Direction(x, y, z)
    {
      data := new real[4](_ => 0.0);
      new;
      data[0] := x;
      data[1] := y;
      data[2] := z;
      data[3] := 0.0;
    }

    /** `operator=`: copies all four components (the base matrix's `operator=`). */
    method Assign(rhs: Vector)
      requires Valid() && rhs.Valid()
      modifies data
      ensures Value() == old(rhs.Value())
    {
      ghost var v := rhs.Value();
      for i := 0 to 4
        invariant forall k :: 0 <= k < i ==> data[k] == Component(v, k)
        invariant forall k :: i <= k < 4 ==> rhs.data[k] == Component(v, k)
      {
        data[i] := rhs.data[i];
      }
    }

    method GetX() returns (x: real)
      requires Valid()
      ensures x == Value().x
    {
      x := data[0];
    }

    method SetX(x: real)
      requires Valid()
      modifies data
      ensures Value() == old(Value()).(x := x)
    {
      data[0] := x;
    }

    method GetY() returns (y: real)
      requires Valid()
      ensures y == Value().y
    {
      y := data[1];
    }

    method SetY(y: real)
      requires Valid()
      modifies data
      ensures Value() == old(Value()).(y := y)
    {
      data[1] := y;
    }

    method GetZ() returns (z: real)
      requires Valid()
      ensures z == Value().z
    {
      z := data[2];
    }

    method SetZ(z: real)
      requires Valid()
      modifies data
      ensures Value() == old(Value()).(z := z)
    {
      data[2] := z;
    }

    method Add(rhs: Vector) returns (v: Vector)
      requires Valid() && rhs.Valid()
      ensures fresh(v) && fresh(v.data) && v.Valid()
      ensures v.Value() == Plus(Value(), rhs.Value())
    {
      v := new Vector();
      v.SetX(data[0] + rhs.data[0]);
      v.SetY(data[1] + rhs.data[1]);
      v.SetZ(data[2] + rhs.data[2]);
    }

    method Negate() returns (v: Vector)
      requires Valid()
      ensures fresh(v) && fresh(v.data) && v.Valid()
      ensures v.Value() == Negation(Value())
    {
      v := new Vector();
      v.SetX(-data[0]);
      v.SetY(-data[1]);
      v.SetZ(-data[2]);
    }

    /** Binary `-`; the source's right operand is any 4 x 1 matrix, read at rows 0 .. 2. */
    method Subtract(rhs: Vector) returns (v: Vector)
      requires Valid() && rhs.Valid()
      ensures fresh(v) && fresh(v.data) && v.Valid()
      ensures v.Value() == Minus(Value(), rhs.Value())
    {
      v := new Vector();
      v.SetX(data[0] - rhs.data[0]);
      v.SetY(data[1] - rhs.data[1]);
      v.SetZ(data[2] - rhs.data[2]);
    }

    method MultiplyScalar(f: real) returns (v: Vector)
      requires Valid()
      ensures fresh(v) && fresh(v.data) && v.Valid()
      ensures v.Value() == Scaled(Value(), f)
    {
      v := new Vector();
      v.SetX(data[0] * f);
      v.SetY(data[1] * f);
      v.SetZ(data[2] * f);
    }

    method DivideScalar(f: real) returns (v: Vector)
      requires Valid() && f != 0.0
      ensures fresh(v) && fresh(v.data) && v.Valid()
      ensures v.Value() == DividedBy(Value(), f)
    {
      v := new Vector();
      v.SetX(data[0] / f);
      v.SetY(data[1] / f);
      v.SetZ(data[2] / f);
    }

    /** `/=`: a loop over all four rows, w included. */
    method DivAssign(f: real)
      requires Valid() && f != 0.0
      modifies data
      ensures Value() == AllDividedBy(old(Value()), f)
    {
      ghost var a := Value();
      for i := 0 to 4
        invariant forall k :: 0 <= k < i ==> data[k] == Component(a, k) / f
        invariant forall k :: i <= k < 4 ==> data[k] == Component(a, k)
      {
        data[i] := data[i] / f;
      }
    }

    method DotWith(rhs: Vector) returns (d: real)
      requires Valid() && rhs.Valid()
      ensures d == Dot3(Value(), rhs.Value())
    {
      d := data[0] * rhs.data[0] + data[1] * rhs.data[1] + data[2] * rhs.data[2];
    }

    method CrossWith(other: Vector) returns (v: Vector)
      requires Valid() && other.Valid()
      ensures fresh(v) && fresh(v.data) && v.Valid()
      ensures v.Value() == Cross(Value(), other.Value())
    {
      v := new Vector();
      v.SetX(data[1] * other.data[2] - data[2] * other.data[1]);
      v.SetY(data[2] * other.data[0] - data[0] * other.data[2]);
      v.SetZ(data[0] * other.data[1] - data[1] * other.data[0]);
    }
  }

  /**
   * Row y of matrix x vector, for y = 0 .. 3: `dst[y]` is set to 0, then the sum over i
   * of lhs(y, i) * src(i, 0) is accumulated into it from i = 0 up.
   */
  method TransformRow(lhs: Matrix, src: array<real>, dst: array<real>, y: nat)
    requires lhs.Valid() && lhs.M == 4 && lhs.N == 4 && src.Length == 4 && dst.Length == 4 && y < 4
    requires dst != src
    modifies dst
    ensures dst[y] == Dot(lhs.Value()[y], Column(AsVec4(src)), 1, 0, 4)
    ensures forall k :: 0 <= k < 4 && k != y ==> dst[k] == old(dst[k])
  {
    ghost var row, c := lhs.Value()[y], Column(AsVec4(src));
    dst[y] := 0.0;
    for i := 0 to 4
      invariant dst[y] == Dot(row, c, 1, 0, i)
      invariant forall k :: 0 <= k < 4 && k != y ==> dst[k] == old(dst[k])
    {
      var left, right := lhs.data[y, i], src[i];
      assert left == row[i] && right == c[i][0];
      dst[y] := dst[y] + left * right;
    }
  }

  /** `operator*(Matrix4f, Vector)`: a fresh vector holding the four-row product. */
  method Transform(lhs: Matrix, rhs: Vector) returns (m: Vector)
    requires lhs.Valid() && lhs.M == 4 && lhs.N == 4 && rhs.Valid()
    ensures fresh(m) && fresh(m.data) && m.Valid()
    ensures m.Value() == MatVec(lhs.Value(), rhs.Value())
  {
    ghost var a, c := lhs.Value(), Column(rhs.Value());
    m := new Vector();
    for y := 0 to 4
      invariant m.Valid() && fresh(m.data)
      invariant forall k :: 0 <= k < y ==> m.data[k] == Dot(a[k], c, 1, 0, 4)
    {
      TransformRow(lhs, rhs.data, m.data, y);
    }
  }
}
