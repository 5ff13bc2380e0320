/**
 * The vertex of Acun3D/Vertex.cpp: a `Vector` (four coordinates, the 4 x 1
 * column) with a private `_normal` vector. The operators differ in which of
 * w and the normal they keep: `+`/`-` start from a copy of the left operand,
 * unary `-`, `*` and `/` start from a default vertex (zero normal).
 */
module Vertices {
  import opened Matrices
  import opened Vectors

  datatype VertexValue = VertexValue(pos: Vec4, normal: Vec4)

  /** Binary `+`: x, y, z summed; the left operand's w and normal kept. */
  function VPlus(a: VertexValue, b: VertexValue): VertexValue
  {
    VertexValue(a.pos.(x := a.pos.x + b.pos.x, y := a.pos.y + b.pos.y, z := a.pos.z + b.pos.z), a.normal)
  }

  function VMinus(a: VertexValue, b: VertexValue): VertexValue
  {
    VertexValue(a.pos.(x := a.pos.x - b.pos.x, y := a.pos.y - b.pos.y, z := a.pos.z - b.pos.z), a.normal)
  }

  /** Unary `-`: x, y, z negated into a default vertex, so w is 0 and the normal zero. */
  function VNegation(a: VertexValue): VertexValue
  {
    VertexValue(Negation(a.pos), Origin)
  }

  /** `*` by a float: all four coordinates scaled into a default vertex (zero normal). */
  function VScaled(a: VertexValue, f: real): VertexValue
  {
    VertexValue(Vec4(a.pos.x * f, a.pos.y * f, a.pos.z * f, a.pos.w * f), Origin)
  }

  /** `/` by a float: x, y, z divided into a default vertex, so w is 0 and the normal zero. */
  function VDividedBy(a: VertexValue, f: real): VertexValue
    requires f != 0.0
  {
    VertexValue(DividedBy(a.pos, f), Origin)
  }

  /** `/=`: all four coordinates divided; the normal is kept. */
  function VAllDividedBy(a: VertexValue, f: real): VertexValue
    requires f != 0.0
  {
    VertexValue(AllDividedBy(a.pos, f), a.normal)
  }

  /** Matrix x vertex: the four coordinates become the product; the normal is the right operand's. */
  function VTransform(m: Mat4, a: VertexValue): VertexValue
  {
    VertexValue(MatVec(m, a.pos), a.normal)
  }

  // ---------------------------------------------------------------------------
  // Properties

  /** Because `+` and `-` keep the left operand's w and normal, they undo each other exactly. */
  lemma VPlusMinus(a: VertexValue, b: VertexValue)
    ensures VMinus(VPlus(a, b), b) == a
    ensures VPlus(VMinus(a, b), b) == a
  {
  }

  /** Vertex `+` agrees with vector `+` on x, y, z, but keeps w where the vector sum clears it. */
  lemma VPlusAgreesWithVector(a: VertexValue, b: VertexValue)
    ensures VPlus(a, b).pos == Plus(a.pos, b.pos).(w := a.pos.w)
  {
  }

  /** `/=` undoes `*` on all four coordinates, w included; the normal stays zero. */
  lemma VScaledDivided(a: VertexValue, f: real)
    requires f != 0.0
    ensures VAllDividedBy(VScaled(a, f), f) == VertexValue(a.pos, Origin)
    ensures VDividedBy(VScaled(a, f), f) == VertexValue(a.pos.(w := 0.0), Origin)
  {
  }

  /** Negating twice gives back x, y, z, with w 0 and the normal zero. */
  lemma VNegationTwice(a: VertexValue)
    ensures VNegation(VNegation(a)) == VertexValue(a.pos.(w := 0.0), Origin)
  {
  }

  /** The identity leaves a vertex, normal included, unchanged. */
  lemma VTransformIdentity(a: VertexValue)
    ensures VTransform(Identity(4, 4), a) == a
  {
    MatVecIdentity(a.pos);
  }

  // ---------------------------------------------------------------------------
  // The class

  class Vertex {
    var data: array<real>
    var normal: Vec4

    ghost predicate Valid()
      reads this
    {
      data.Length == 4
    }

    function Pos(): Vec4
      reads this, data
      requires Valid()
    {
      AsVec4(data)
    }

    function Value(): VertexValue
      reads this, data
      requires Valid()
    {
      VertexValue(Pos(), normal)
    }

    /** `Vertex()`: zero coordinates, zero normal. */
    constructor ()
      ensures Valid() && fresh(data) && Value() == VertexValue(Origin, Origin)
    {
      data := new real[4](_ => 0.0);
      normal := Origin;
    }

    /** `Vertex(x, y, z)`: w 0, zero normal. */
    constructor XYZ(x: real, y: real, z: real)
      ensures Valid() && fresh(data) && Value() == VertexValue(Direction(x, y, z), Origin)
    {
      data := new real[4](_ => 0.0);
      normal := Origin;
      new;
      data[0] := x;
      data[1] := y;
      data[2] := z;
    }

    /** The implicit copy constructor: coordinates and normal. */
    constructor Copy(other: Vertex)
      requires other.Valid()
      ensures Valid() && fresh(data) && Value() == other.Value()
    {
      data := new real[4](_ => 0.0);
      normal := other.normal;
      new;
      data[0], data[1], data[2], data[3] := other.data[0], other.data[1], other.data[2], other.data[3];
    }

    /** `getNormal`: a copy of the normal. */
    method GetNormal() returns (n: Vector)
      requires Valid()
      ensures fresh(n) && fresh(n.data) && n.Valid() && n.Value() == normal
    {
      n := new Vector();
      n.data[0], n.data[1], n.data[2], n.data[3] := normal.x, normal.y, normal.z, normal.w;
    }

    /** `setNormal`: the normal becomes a copy of `n`; the coordinates are untouched. */
    method SetNormal(n: Vector)
      requires Valid() && n.Valid()
      modifies this
      ensures Valid() && data == old(data) && Value() == VertexValue(old(Pos()), n.Value())
    {
      normal := n.Value();
    }

    /** `operator=`: all four coordinates and the normal. */
    method Assign(rhs: Vertex)
      requires Valid() && rhs.Valid()
      modifies this, data
      ensures Valid() && data == old(data) && Value() == old(rhs.Value())
    {
      ghost var v := rhs.Pos();
      for i := 0 to 4
        invariant Valid() && data == old(data) && rhs.data == old(rhs.data)
        invariant rhs.normal == old(rhs.normal)
        invariant forall k :: 0 <= k < i ==> data[k] == Component(v, k)
        invariant forall k :: i <= k < 4 ==> rhs.data[k] == Component(v, k)
      {
        data[i] := rhs.data[i];
      }
      normal := rhs.normal;
    }

    method Add(rhs: Vertex) returns (v: Vertex)
      requires Valid() && rhs.Valid()
      ensures fresh(v) && fresh(v.data) && v.Valid()
      ensures v.Value() == VPlus(Value(), rhs.Value())
    {
      v := new Vertex.Copy(this);
      v.data[0] := v.data[0] + rhs.data[0];
      v.data[1] := v.data[1] + rhs.data[1];
      v.data[2] := v.data[2] + rhs.data[2];
    }

    method Subtract(rhs: Vertex) returns (v: Vertex)
      requires Valid() && rhs.Valid()
      ensures fresh(v) && fresh(v.data) && v.Valid()
      ensures v.Value() == VMinus(Value(), rhs.Value())
    {
      v := new Vertex.Copy(this);
      v.data[0] := v.data[0] - rhs.data[0];
      v.data[1] := v.data[1] - rhs.data[1];
      v.data[2] := v.data[2] - rhs.data[2];
    }

    method Negate() returns (v: Vertex)
      requires Valid()
      ensures fresh(v) && fresh(v.data) && v.Valid()
      ensures v.Value() == VNegation(Value())
    {
      v := new Vertex();
      v.data[0] := -data[0];
      v.data[1] := -data[1];
      v.data[2] := -data[2];
    }

    method MultiplyScalar(f: real) returns (v: Vertex)
      requires Valid()
      ensures fresh(v) && fresh(v.data) && v.Valid()
      ensures v.Value() == VScaled(Value(), f)
    {
      v := new Vertex();
      v.data[0] := data[0] * f;
      v.data[1] := data[1] * f;
      v.data[2] := data[2] * f;
      v.data[3] := data[3] * f;
    }

    method DivideScalar(f: real) returns (v: Vertex)
      requires Valid() && f != 0.0
      ensures fresh(v) && fresh(v.data) && v.Valid()
      ensures v.Value() == VDividedBy(Value(), f)
    {
      v := new Vertex();
      v.data[0] := data[0] / f;
      v.data[1] := data[1] / f;
      v.data[2] := data[2] / f;
    }

    /** `/=`: a loop over all four coordinates; the normal is untouched. */
    method DivAssign(f: real)
      requires Valid() && f != 0.0
      modifies data
      ensures Value() == VAllDividedBy(old(Value()), f)
    {
      ghost var a := Pos();
      for i := 0 to 4
        invariant forall k :: 0 <= k < i ==> data[k] == Component(a, k) / f
        invariant forall k :: i <= k < 4 ==> data[k] == Component(a, k)
      {
        data[i] := data[i] / f;
      }
    }
  }

  /**
   * `operator*(Matrix4f, Vertex)`: starts from a copy of `rhs` (so its normal is
   * kept) and overwrites row y, for y = 0 .. 3, with the sum over i of
   * lhs(y, i) * rhs(i, 0), reading the unmodified `rhs`.
   */
  method TransformVertex(lhs: Matrix, rhs: Vertex) returns (m: Vertex)
    requires lhs.Valid() && lhs.M == 4 && lhs.N == 4 && rhs.Valid()
    ensures fresh(m) && fresh(m.data) && m.Valid()
    ensures m.Value() == VTransform(lhs.Value(), rhs.Value())
  {
    ghost var a, c := lhs.Value(), Column(rhs.Pos());
    m := new Vertex.Copy(rhs);
    for y := 0 to 4
      invariant m.Valid() && fresh(m.data) && m.normal == rhs.normal
      invariant forall k :: 0 <= k < y ==> m.data[k] == Dot(a[k], c, 1, 0, 4)
    {
      TransformRow(lhs, rhs.data, m.data, y);
    }
  }
}
