/**
 * The generic fixed-size matrix of Acun3D/Matrix.h: `Matrix<T, M, N>` holds M rows of
 * N entries (row-major, entry (m, n) at `_data[m * N + n]`). Every instantiation the
 * engine uses has T = float, modelled here as `real`.
 *
 * The storage is modelled as a two-dimensional array indexed (m, n); the one place
 * where the row-major order is visible (the varargs constructor, which fills entries
 * in storage order) states it explicitly. The value-level functions (Zero, Identity,
 * Sum, Product, ...) specify what the class's loops compute.
 */
module Matrices {
  import opened Wrappers

  /** A matrix value as its list of rows. */
  type Mat = seq<seq<real>>

  predicate IsMat(a: Mat, M: nat, N: nat)
  {
    |a| == M && forall i :: 0 <= i < M ==> |a[i]| == N
  }

  /** A 4 x 4 matrix value (Matrix4f). */
  type Mat4 = a: Mat | IsMat(a, 4, 4) witness Zero(4, 4)

  /** The exception thrown by `operator()` for an index outside the matrix. */
  datatype MatrixIndexException = MatrixIndexException

  // ---------------------------------------------------------------------------
  // Row-major storage order

  lemma MulMono(a: nat, b: nat, c: nat)
    requires a <= b
    ensures a * c <= b * c
  {
    var d := b - a;
    assert b * c == a * c + d * c;
  }

  /** Entry (i, j) of an M x N matrix lies at storage position i * N + j < M * N. */
  lemma IndexInRange(i: nat, j: nat, M: nat, N: nat)
    requires i < M && j < N
    ensures i * N + j < M * N
  {
    MulMono(i + 1, M, N);
    assert (i + 1) * N == i * N + N;
  }

  /** `k / N` and `k % N` recover the row and column of a row-major position. */
  lemma RowCol(i: nat, j: nat, N: nat)
    requires j < N
    ensures (i * N + j) / N == i && (i * N + j) % N == j
  {
    var k := i * N + j;
    var q, r := k / N, k % N;
    assert q * N + r == i * N + j;
    if q < i {
      MulMono(q + 1, i, N);
    } else if q > i {
      MulMono(i + 1, q, N);
    }
  }

  lemma RowOfIndex(k: nat, M: nat, N: nat)
    requires k < M * N
    ensures N > 0 && k / N < M && k % N < N && k == (k / N) * N + k % N
  {
    if N != 0 && k / N >= M {
      MulMono(M, k / N, N);
    }
  }

  // ---------------------------------------------------------------------------
  // Specification values

  /** The M x N matrix value whose entry (i, j) is `f(i, j)`. */
  function Build(M: nat, N: nat, f: (nat, nat) -> real): (a: Mat)
    ensures IsMat(a, M, N)
    ensures forall i, j :: 0 <= i < M && 0 <= j < N ==> a[i][j] == f(i, j)
  {
    seq(M, i requires 0 <= i => seq(N, j requires 0 <= j => f(i, j)))
  }

  function Zero(M: nat, N: nat): (z: Mat)
    ensures IsMat(z, M, N)
  {
    Build(M, N, (_, _) => 0.0)
  }

  /** 1 on the diagonal, 0 elsewhere. */
  function Identity(M: nat, N: nat): (e: Mat)
    ensures IsMat(e, M, N)
  {
    Build(M, N, (i: nat, j: nat) => if i == j then 1.0 else 0.0)
  }

  /** (x, y, z, w) as one of its four components. */
  function Pick(i: nat, x: real, y: real, z: real, w: real): real
  {
    if i == 0 then x else if i == 1 then y else if i == 2 then z else w
  }

  /**
   * The 4 x 4 translation: the identity with column 3 holding (x, y, z, 1).
   *   | 1 0 0 x |
   *   | 0 1 0 y |
   *   | 0 0 1 z |
   *   | 0 0 0 1 |
   */
  function Translation(x: real, y: real, z: real): Mat4
  {
    Build(4, 4, (i: nat, j: nat) => if j == 3 then Pick(i, x, y, z, 1.0) else if i == j then 1.0 else 0.0)
  }

  /** The 4 x 4 scale diag(x, y, z, 1). */
  function Scale(x: real, y: real, z: real): Mat4
  {
    Build(4, 4, (i: nat, j: nat) => if i == j then Pick(i, x, y, z, 1.0) else 0.0)
  }

  /**
   * `createPerspective(d)`:
   *   | d 0 0 0 |
   *   | 0 d 0 0 |
   *   | 0 0 d 0 |
   *   | 0 0 1 0 |
   */
  function Perspective(d: real): Mat4
  {
    Build(4, 4, (i: nat, j: nat) => if i == j && i < 3 then d else if i == 3 && j == 2 then 1.0 else 0.0)
  }

  /** Matrix values are equal when their entries are. */
  lemma MatEq(a: Mat, b: Mat, M: nat, N: nat)
    requires IsMat(a, M, N) && IsMat(b, M, N)
    requires forall i, j :: 0 <= i < M && 0 <= j < N ==> a[i][j] == b[i][j]
    ensures a == b
  {
    forall i | 0 <= i < M
      ensures a[i] == b[i]
    {
      assert forall j :: 0 <= j < N ==> a[i][j] == b[i][j];
    }
  }

  function Sum(a: Mat, b: Mat, M: nat, N: nat): (s: Mat)
    requires IsMat(a, M, N) && IsMat(b, M, N)
    ensures IsMat(s, M, N)
  {
    seq(M, i requires 0 <= i < M => seq(N, j requires 0 <= j < N => a[i][j] + b[i][j]))
  }

  function Difference(a: Mat, b: Mat, M: nat, N: nat): (d: Mat)
    requires IsMat(a, M, N) && IsMat(b, M, N)
    ensures IsMat(d, M, N)
  {
    seq(M, i requires 0 <= i < M => seq(N, j requires 0 <= j < N => a[i][j] - b[i][j]))
  }

  /** Element-wise negation: what unary minus evidently means. */
  function Negated(a: Mat, M: nat, N: nat): (n: Mat)
    requires IsMat(a, M, N)
    ensures IsMat(n, M, N)
  {
    seq(M, i requires 0 <= i < M => seq(N, j requires 0 <= j < N => -a[i][j]))
  }

  /** Sum over i < k of row[i] * b(i, x): the first k terms of a row-by-column product. */
  function Dot(row: seq<real>, b: Mat, RN: nat, x: nat, k: nat): real
    requires IsMat(b, |row|, RN) && x < RN && k <= |row|
    decreases k
  {
    if k == 0 then 0.0
    else Dot(row, b, RN, x, k - 1) + row[k - 1] * b[k - 1][x]
  }

  /** The matrix product: entry (y, x) is the sum over i of a(y, i) * b(i, x). */
  function Product(a: Mat, b: Mat, M: nat, N: nat, RN: nat): (p: Mat)
    requires IsMat(a, M, N) && IsMat(b, N, RN)
    ensures IsMat(p, M, RN)
  {
    seq(M, y requires 0 <= y < M => seq(RN, x requires 0 <= x < RN => Dot(a[y], b, RN, x, N)))
  }

  /** The product of two 4 x 4 matrices. */
  function Times4(a: Mat4, b: Mat4): Mat4
  {
    Product(a, b, 4, 4, 4)
  }

  // ---------------------------------------------------------------------------
  // `*=` as written: each row is overwritten left to right while it is still
  // being read, so entry (y, x) for x > 0 uses the already-updated entries of row y.

  /** A row of `*=` after columns 0 .. x - 1 have been overwritten. */
  function RowAfter(row: seq<real>, b: Mat, x: nat): (r: seq<real>)
    requires IsMat(b, |row|, |row|) && x <= |row|
    ensures |r| == |row|
    decreases x
  {
    if x == 0 then row
    else
      var r := RowAfter(row, b, x - 1);
      r[x - 1 := Dot(r, b, |row|, x - 1, |row|)]
  }

  /** The whole matrix after `*=` as written. */
  function MulAssignAsWritten(a: Mat, b: Mat, N: nat): (r: Mat)
    requires IsMat(a, |a|, N) && IsMat(b, N, N)
    ensures IsMat(r, |a|, N)
  {
    seq(|a|, y requires 0 <= y < |a| => RowAfter(a[y], b, N))
  }

  /**
   * `m *= m` as written, on a square matrix: the first k entries in storage order
   * have been overwritten, each with its row times its column as they stood when
   * that entry was written.
   */
  function SelfAssigned(a: Mat, N: nat, k: nat): (r: Mat)
    requires IsMat(a, N, N) && k <= N * N
    ensures IsMat(r, N, N)
    decreases k
  {
    if k == 0 then a
    else
      var s := SelfAssigned(a, N, k - 1);
      RowOfIndex(k - 1, N, N);
      var y, x := (k - 1) / N, (k - 1) % N;
      s[y := s[y][x := Dot(s[y], s, N, x, N)]]
  }

  // ---------------------------------------------------------------------------
  // Symbolic 4 x 4 matrices: the rotation builders use cos and sin, which the
  // model keeps abstract; a caller-supplied `rot` gives their values.

  datatype Axis = XAxis | YAxis | ZAxis

  datatype MatrixTerm =
    | Literal(m: Mat4)
    | Rotation(axis: Axis, angle: real)
    | Times(left: MatrixTerm, right: MatrixTerm)

  function Eval(t: MatrixTerm, rot: (Axis, real) -> Mat4): Mat4
  {
    match t
    case Literal(m) => m
    case Rotation(axis, angle) => rot(axis, angle)
    case Times(l, r) => Times4(Eval(l, rot), Eval(r, rot))
  }

  // ---------------------------------------------------------------------------
  // The class

  class Matrix {
    const M: nat
    const N: nat
    var data: array2<real>

    ghost predicate Valid()
      reads this
    {
      data.Length0 == M && data.Length1 == N
    }

    /** The entries, as a matrix value. */
    function Value(): (v: Mat)
      reads this, data
      requires Valid()
      ensures IsMat(v, M, N)
      ensures forall i, j {:trigger v[i][j]} :: 0 <= i < M && 0 <= j < N ==> v[i][j] == data[i, j]
    {
      seq(data.Length0, i requires 0 <= i < data.Length0 reads this, data =>
        seq(data.Length1, j requires 0 <= i < data.Length0 && 0 <= j < data.Length1 reads this, data =>
          data[i, j]))
    }

    /** The array holds the matrix value `a`. */
    ghost predicate Holds(a: Mat)
      reads this, data
      requires Valid()
    {
      IsMat(a, M, N) && forall i, j :: 0 <= i < M && 0 <= j < N ==> data[i, j] == a[i][j]
    }

    lemma HoldsValue(a: Mat)
      requires Valid() && Holds(a)
      ensures Value() == a
    {
      MatEq(Value(), a, M, N);
    }

    /** `Matrix()`: every entry zero. */
    constructor (m: nat, n: nat)
      ensures Valid() && M == m && N == n && fresh(data)
      ensures Value() == Zero(m, n)
      ensures forall i, j :: 0 <= i < m && 0 <= j < n ==> data[i, j] == 0.0
    {
      M, N := m, n;
      data := new real[m, n]((_, _) => 0.0);
      new;
      HoldsValue(Zero(m, n));
    }

    /**
     * `Matrix(argc, ...)`: zero-filled, then storage positions 0 .. min(argc, M * N) - 1,
     * in row-major order, are taken from the int arguments.
     */
    constructor FromArgs(m: nat, n: nat, args: seq<int>)
      ensures Valid() && M == m && N == n && fresh(data)
      ensures forall i, j :: 0 <= i < m && 0 <= j < n ==>
                data[i, j] == if i * n + j < |args| then args[i * n + j] as real else 0.0
    {
      M, N := m, n;
      var d := new real[m, n]((_, _) => 0.0);
      var k := 0;
      while k < |args| && k < m * n
        invariant 0 <= k <= m * n && k <= |args|
        invariant forall i, j :: 0 <= i < m && 0 <= j < n ==>
                    d[i, j] == if i * n + j < k then args[i * n + j] as real else 0.0
      {
        RowOfIndex(k, m, n);
        d[k / n, k % n] := args[k] as real;
        forall i, j | 0 <= i < m && 0 <= j < n
          ensures d[i, j] == if i * n + j < k + 1 then args[i * n + j] as real else 0.0
        {
          if i * n + j == k {
            RowCol(i, j, n);
          }
        }
        k := k + 1;
      }
      forall i, j | 0 <= i < m && 0 <= j < n
        ensures d[i, j] == if i * n + j < |args| then args[i * n + j] as real else 0.0
      {
        IndexInRange(i, j, m, n);
      }
      data := d;
    }

    /** The copy constructor. */
    constructor Copy(other: Matrix)
      requires other.Valid()
      ensures Valid() && M == other.M && N == other.N && fresh(data)
      ensures Value() == other.Value()
    {
      M, N := other.M, other.N;
      data := new real[other.data.Length0, other.data.Length1](
        (i, j) requires 0 <= i < other.data.Length0 && 0 <= j < other.data.Length1
               reads other, other.data => other.data[i, j]);
      new;
      HoldsValue(other.Value());
    }

    static method CreateZero(m: nat, n: nat) returns (r: Matrix)
      ensures fresh(r) && fresh(r.data) && r.Valid() && r.M == m && r.N == n
      ensures r.Value() == Zero(m, n)
    {
      r := new Matrix(m, n);
    }

    /** `createIdentity`: 1 at (i, i) for i < min(M, N). */
    static method CreateIdentity(m: nat, n: nat) returns (r: Matrix)
      ensures fresh(r) && fresh(r.data) && r.Valid() && r.M == m && r.N == n
      ensures r.Value() == Identity(m, n)
      ensures forall i, j :: 0 <= i < m && 0 <= j < n ==> r.data[i, j] == if i == j then 1.0 else 0.0
    {
      r := new Matrix(m, n);
      var max := if m < n then m else n;
      for i := 0 to max
        invariant r.Valid() && r.M == m && r.N == n && fresh(r.data)
        invariant forall y, x :: 0 <= y < m && 0 <= x < n ==>
                    r.data[y, x] == if y == x && y < i then 1.0 else 0.0
      {
        r.data[i, i] := 1.0;
      }
      r.HoldsValue(Identity(m, n));
    }

    /** `createTranslation(x, y, z)`: the identity with (0,3), (1,3), (2,3) set. */
    static method CreateTranslation(x: real, y: real, z: real) returns (r: Matrix)
      ensures fresh(r) && fresh(r.data) && r.Valid() && r.M == 4 && r.N == 4
      ensures r.Value() == Translation(x, y, z)
    {
      r := CreateIdentity(4, 4);
      r.data[0, 3] := x;
      r.data[1, 3] := y;
      r.data[2, 3] := z;
      r.HoldsValue(Translation(x, y, z));
    }

    /** `createScale(x, y, z)`. */
    static method CreateScale(x: real, y: real, z: real) returns (r: Matrix)
      ensures fresh(r) && fresh(r.data) && r.Valid() && r.M == 4 && r.N == 4
      ensures r.Value() == Scale(x, y, z)
    {
      r := new Matrix(4, 4);
      r.data[0, 0] := x;
      r.data[1, 1] := y;
      r.data[2, 2] := z;
      r.data[3, 3] := 1.0;
      forall i, j | 0 <= i < 4 && 0 <= j < 4
        ensures r.data[i, j] == Scale(x, y, z)[i][j]
      {
        assert Scale(x, y, z)[i][j] == if i == j then Pick(i, x, y, z, 1.0) else 0.0;
        assert r.data[i, j] == if i == j then Pick(i, x, y, z, 1.0) else 0.0;
      }
      r.HoldsValue(Scale(x, y, z));
    }

    /** `createPerspective(d)`. */
    static method CreatePerspective(d: real) returns (r: Matrix)
      ensures fresh(r) && fresh(r.data) && r.Valid() && r.M == 4 && r.N == 4
      ensures r.Value() == Perspective(d)
    {
      r := new Matrix(4, 4);
      r.data[0, 0] := d;
      r.data[1, 1] := d;
      r.data[2, 2] := d;
      r.data[3, 2] := 1.0;
      r.HoldsValue(Perspective(d));
    }

    /** `operator() const`: entry (i, j), or MatrixIndexException outside the matrix. */
    method Get(i: int, j: int) returns (r: Result<real, MatrixIndexException>)
      requires Valid()
      ensures 0 <= i < M && 0 <= j < N ==> r == Ok(Value()[i][j])
      ensures !(0 <= i < M && 0 <= j < N) ==> r == Err(MatrixIndexException)
    {
      if i >= 0 && i < M && j >= 0 && j < N {
        r := Ok(data[i, j]);
      } else {
        r := Err(MatrixIndexException);
      }
    }

    /** `operator()` used as an lvalue: `m(i, j) = v`; outside the matrix it throws. */
    method Set(i: int, j: int, v: real) returns (r: Result<(), MatrixIndexException>)
      requires Valid()
      modifies data
      ensures r.Ok? <==> 0 <= i < M && 0 <= j < N
      ensures r.Ok? ==> Value() == old(Value())[i := old(Value())[i][j := v]]
      ensures r.Err? ==> Value() == old(Value())
    {
      if i >= 0 && i < M && j >= 0 && j < N {
        data[i, j] := v;
        HoldsValue(old(Value())[i := old(Value())[i][j := v]]);
        r := Ok(());
      } else {
        r := Err(MatrixIndexException);
      }
    }

    /** `operator=`: copies every entry of `rhs`. */
    method Assign(rhs: Matrix)
      requires Valid() && rhs.Valid() && rhs.M == M && rhs.N == N
      modifies data
      ensures Value() == old(rhs.Value())
    {
      for y := 0 to M
        invariant forall i, j :: 0 <= i < y && 0 <= j < N ==> data[i, j] == old(rhs.data[i, j])
        invariant forall i, j :: y <= i < M && 0 <= j < N ==> rhs.data[i, j] == old(rhs.data[i, j])
      {
        for x := 0 to N
          invariant forall i, j :: 0 <= i < y && 0 <= j < N ==> data[i, j] == old(rhs.data[i, j])
          invariant forall j :: 0 <= j < x ==> data[y, j] == old(rhs.data[y, j])
          invariant forall i, j :: y < i < M && 0 <= j < N ==> rhs.data[i, j] == old(rhs.data[i, j])
          invariant forall j :: x <= j < N ==> rhs.data[y, j] == old(rhs.data[y, j])
        {
          data[y, x] := rhs.data[y, x];
        }
      }
      HoldsValue(old(rhs.Value()));
    }

    /** `+=`: element-wise, in place; `m += m` doubles every entry. */
    method AddAssign(rhs: Matrix)
      requires Valid() && rhs.Valid() && rhs.M == M && rhs.N == N
      modifies data
      ensures Value() == Sum(old(Value()), old(rhs.Value()), M, N)
    {
      for y := 0 to M
        invariant forall i, j :: 0 <= i < y && 0 <= j < N ==>
                    data[i, j] == old(data[i, j]) + old(rhs.data[i, j])
        invariant forall i, j :: y <= i < M && 0 <= j < N ==>
                    data[i, j] == old(data[i, j]) && rhs.data[i, j] == old(rhs.data[i, j])
      {
        for x := 0 to N
          invariant forall i, j :: 0 <= i < y && 0 <= j < N ==>
                      data[i, j] == old(data[i, j]) + old(rhs.data[i, j])
          invariant forall j :: 0 <= j < x ==> data[y, j] == old(data[y, j]) + old(rhs.data[y, j])
          invariant forall i, j :: y < i < M && 0 <= j < N ==>
                      data[i, j] == old(data[i, j]) && rhs.data[i, j] == old(rhs.data[i, j])
          invariant forall j :: x <= j < N ==>
                      data[y, j] == old(data[y, j]) && rhs.data[y, j] == old(rhs.data[y, j])
        {
          data[y, x] := data[y, x] + rhs.data[y, x];
        }
      }
      HoldsValue(Sum(old(Value()), old(rhs.Value()), M, N));
    }

    /** `-=`: element-wise, in place. */
    method SubAssign(rhs: Matrix)
      requires Valid() && rhs.Valid() && rhs.M == M && rhs.N == N
      modifies data
      ensures Value() == Difference(old(Value()), old(rhs.Value()), M, N)
    {
      for y := 0 to M
        invariant forall i, j :: 0 <= i < y && 0 <= j < N ==>
                    data[i, j] == old(data[i, j]) - old(rhs.data[i, j])
        invariant forall i, j :: y <= i < M && 0 <= j < N ==>
                    data[i, j] == old(data[i, j]) && rhs.data[i, j] == old(rhs.data[i, j])
      {
        for x := 0 to N
          invariant forall i, j :: 0 <= i < y && 0 <= j < N ==>
                      data[i, j] == old(data[i, j]) - old(rhs.data[i, j])
          invariant forall j :: 0 <= j < x ==> data[y, j] == old(data[y, j]) - old(rhs.data[y, j])
          invariant forall i, j :: y < i < M && 0 <= j < N ==>
                      data[i, j] == old(data[i, j]) && rhs.data[i, j] == old(rhs.data[i, j])
          invariant forall j :: x <= j < N ==>
                      data[y, j] == old(data[y, j]) && rhs.data[y, j] == old(rhs.data[y, j])
        {
          data[y, x] := data[y, x] - rhs.data[y, x];
        }
      }
      HoldsValue(Difference(old(Value()), old(rhs.Value()), M, N));
    }

    /** Binary `+`: a copy of `this` with `rhs` added; `this` is left as it was. */
    method Add(rhs: Matrix) returns (r: Matrix)
      requires Valid() && rhs.Valid() && rhs.M == M && rhs.N == N
      ensures fresh(r) && fresh(r.data) && r.Valid() && r.M == M && r.N == N
      ensures r.Value() == Sum(Value(), rhs.Value(), M, N)
    {
      r := new Matrix.Copy(this);
      r.AddAssign(rhs);
    }

    /** Binary `-`: a copy of `this` with `rhs` subtracted; `this` is left as it was. */
    method Subtract(rhs: Matrix) returns (r: Matrix)
      requires Valid() && rhs.Valid() && rhs.M == M && rhs.N == N
      ensures fresh(r) && fresh(r.data) && r.Valid() && r.M == M && r.N == N
      ensures r.Value() == Difference(Value(), rhs.Value(), M, N)
    {
      r := new Matrix.Copy(this);
      r.SubAssign(rhs);
    }

    /**
     * Unary `-` as written: it negates the entries of a fresh zero matrix rather
     * than those of `this`, so it returns the zero matrix whatever `this` holds.
     */
    method Negate() returns (r: Matrix)
      requires Valid()
      ensures fresh(r) && fresh(r.data) && r.Valid() && r.M == M && r.N == N
      ensures r.Value() == Zero(M, N)
    {
      r := new Matrix(M, N);
      for y := 0 to M
        invariant r.Valid() && r.M == M && r.N == N && fresh(r.data)
        invariant r.Holds(Zero(M, N))
      {
        for x := 0 to N
          invariant r.Valid() && r.M == M && r.N == N && fresh(r.data)
          invariant r.Holds(Zero(M, N))
        {
          r.data[y, x] := -r.data[y, x];
        }
      }
      r.HoldsValue(Zero(M, N));
    }

    /**
     * The innermost loop of `operator*` and of `*=`: the sum over i of
     * this(y, i) * rhs(i, x), accumulated from i = 0 up.
     */
    method RowTimesColumn(rhs: Matrix, y: nat, x: nat) returns (count: real)
      requires Valid() && rhs.Valid() && rhs.M == N && y < M && x < rhs.N
      ensures count == Dot(Value()[y], rhs.Value(), rhs.N, x, N)
    {
      ghost var row, b := Value()[y], rhs.Value();
      count := 0.0;
      for i := 0 to N
        invariant count == Dot(row, b, rhs.N, x, i)
      {
        var left, right := data[y, i], rhs.data[i, x];
        assert left == row[i] && right == b[i][x];
        var mul := left * right;
        count := count + mul;
      }
    }

    /** Row y of `operator*`: entry (y, x) of `r`, for every x, becomes row y of `this` times column x of `rhs`. */
    method ProductRow(rhs: Matrix, r: Matrix, y: nat)
      requires Valid() && rhs.Valid() && r.Valid() && rhs.M == N && r.M == M && r.N == rhs.N && y < M
      requires r.data != data && r.data != rhs.data
      modifies r.data
      ensures forall j :: 0 <= j < r.N ==> r.data[y, j] == Dot(Value()[y], rhs.Value(), rhs.N, j, N)
      ensures forall i, j :: 0 <= i < M && 0 <= j < r.N && i != y ==> r.data[i, j] == old(r.data[i, j])
    {
      for x := 0 to rhs.N
        invariant forall j :: 0 <= j < x ==> r.data[y, j] == Dot(Value()[y], rhs.Value(), rhs.N, j, N)
        invariant forall i, j :: 0 <= i < M && 0 <= j < r.N && i != y ==> r.data[i, j] == old(r.data[i, j])
      {
        var sum := RowTimesColumn(rhs, y, x);
        r.data[y, x] := sum;
      }
    }

    /** `operator*`: the matrix product `this * rhs`; neither operand changes. */
    method Mul(rhs: Matrix) returns (r: Matrix)
      requires Valid() && rhs.Valid() && rhs.M == N
      ensures fresh(r) && fresh(r.data) && r.Valid() && r.M == M && r.N == rhs.N
      ensures r.Value() == Product(Value(), rhs.Value(), M, N, rhs.N)
    {
      var RN := rhs.N;
      ghost var a, b := Value(), rhs.Value();
      r := new Matrix(M, RN);
      for y := 0 to M
        invariant r.Valid() && r.M == M && r.N == RN && fresh(r.data)
        invariant forall i, j :: 0 <= i < y && 0 <= j < RN ==> r.data[i, j] == Dot(a[i], b, RN, j, N)
      {
        ProductRow(rhs, r, y);
      }
      r.HoldsValue(Product(a, b, M, N, RN));
    }

    /** Row y of `*=` as written: entry (y, x), for x from 0 up, is overwritten while row y is still being read. */
    method MulAssignRow(rhs: Matrix, y: nat)
      requires Valid() && rhs.Valid() && rhs.M == N && rhs.N == N && y < M
      requires rhs.data != data
      modifies data
      ensures forall j :: 0 <= j < N ==> data[y, j] == RowAfter(old(Value())[y], rhs.Value(), N)[j]
      ensures forall i, j :: 0 <= i < M && 0 <= j < N && i != y ==> data[i, j] == old(data[i, j])
    {
      ghost var row, b := Value()[y], rhs.Value();
      for x := 0 to N
        invariant forall j :: 0 <= j < N ==> data[y, j] == RowAfter(row, b, x)[j]
        invariant forall i, j :: 0 <= i < M && 0 <= j < N && i != y ==> data[i, j] == old(data[i, j])
      {
        assert Value()[y] == RowAfter(row, b, x);
        var count := RowTimesColumn(rhs, y, x);
        data[y, x] := count;
      }
    }

    /**
     * `*=` as written: row by row, entry (y, x), for x from 0 up, is overwritten with
     * the sum over i of this(y, i) * rhs(i, x), reading row y as it is at that moment.
     */
    method MulAssign(rhs: Matrix)
      requires Valid() && rhs.Valid() && rhs.M == N && rhs.N == N
      requires rhs.data != data
      modifies data
      ensures Value() == MulAssignAsWritten(old(Value()), rhs.Value(), N)
    {
      ghost var a, b := Value(), rhs.Value();
      for y := 0 to M
        invariant forall i, j :: 0 <= i < y && 0 <= j < N ==> data[i, j] == RowAfter(a[i], b, N)[j]
        invariant forall i, j :: y <= i < M && 0 <= j < N ==> data[i, j] == a[i][j]
      {
        assert Value()[y] == a[y];
        MulAssignRow(rhs, y);
      }
      HoldsValue(MulAssignAsWritten(a, b, N));
    }
    /** Entry (y, x) of `m *= m`: row y times column x of the matrix as it stands, stored at (y, x). */
    method SelfAssignEntry(ghost a: Mat, y: nat, x: nat)
      requires Valid() && M == N && IsMat(a, N, N) && y < N && x < N
      requires y * N + x < N * N && Value() == SelfAssigned(a, N, y * N + x)
      modifies data
      ensures Value() == SelfAssigned(a, N, y * N + x + 1)
    {
      ghost var s := Value();
      var count := RowTimesColumn(this, y, x);
      data[y, x] := count;
      SelfAssignedStep(a, N, y, x);
      ghost var t := s[y := s[y][x := count]];
      assert forall i, j :: 0 <= i < M && 0 <= j < N ==> data[i, j] == t[i][j];
      HoldsValue(t);
    }

    /**
     * `*=` with the matrix itself as the right operand: every entry is overwritten
     * in storage order, and both the row and the column it reads may already hold
     * overwritten entries.
     */
    method MulAssignSelf()
      requires Valid() && M == N
      modifies data
      ensures Value() == SelfAssigned(old(Value()), N, N * N)
    {
      ghost var a := Value();
      ghost var k := 0;
      for y := 0 to N
        invariant k == y * N && k <= N * N && Valid()
        invariant Value() == SelfAssigned(a, N, k)
      {
        for x := 0 to N
          invariant k == y * N + x && k <= N * N && Valid()
          invariant Value() == SelfAssigned(a, N, k)
        {
          IndexInRange(y, x, N, N);
          SelfAssignEntry(a, y, x);
          k := k + 1;
        }
        assert k == (y + 1) * N;
        MulMono(y + 1, N, N);
      }
    }
  }

  /** Writing entry k = y * N + x is the step from k to k + 1 of `SelfAssigned`. */
  lemma SelfAssignedStep(a: Mat, N: nat, y: nat, x: nat)
    requires IsMat(a, N, N) && y < N && x < N && y * N + x < N * N
    ensures var s := SelfAssigned(a, N, y * N + x);
            SelfAssigned(a, N, y * N + x + 1) == s[y := s[y][x := Dot(s[y], s, N, x, N)]]
  {
    RowCol(y, x, N);
  }

  // ---------------------------------------------------------------------------
  // Properties

  /** `createIdentity` sets (i, i) to 1 for every i < min(M, N) and leaves the rest 0. */
  lemma IdentityEntries(M: nat, N: nat)
    ensures forall i :: 0 <= i < M && i < N ==> Identity(M, N)[i][i] == 1.0
    ensures forall i, j :: 0 <= i < M && 0 <= j < N && i != j ==> Identity(M, N)[i][j] == 0.0
  {
  }

  /** The identity is neutral for the product on both sides. */
  lemma IdentityNeutral(a: Mat, M: nat, N: nat)
    requires IsMat(a, M, N)
    ensures Product(Identity(M, M), a, M, M, N) == a
    ensures Product(a, Identity(N, N), M, N, N) == a
  {
    forall y, x | 0 <= y < M && 0 <= x < N
      ensures Dot(Identity(M, M)[y], a, N, x, M) == a[y][x]
      ensures Dot(a[y], Identity(N, N), N, x, N) == a[y][x]
    {
      DotUnitLeft(Identity(M, M)[y], a, N, x, y, M);
      DotUnitRight(a[y], Identity(N, N), N, x, N);
    }
    MatEq(Product(Identity(M, M), a, M, M, N), a, M, N);
    MatEq(Product(a, Identity(N, N), M, N, N), a, M, N);
  }

  lemma {:induction false} DotUnitLeft(row: seq<real>, b: Mat, RN: nat, x: nat, y: nat, k: nat)
    requires IsMat(b, |row|, RN) && x < RN && y < |row| && k <= |row|
    requires forall i :: 0 <= i < |row| ==> row[i] == if i == y then 1.0 else 0.0
    ensures Dot(row, b, RN, x, k) == if y < k then b[y][x] else 0.0
    decreases k
  {
    if k > 0 {
      DotUnitLeft(row, b, RN, x, y, k - 1);
    }
  }

  lemma {:induction false} DotUnitRight(row: seq<real>, e: Mat, N: nat, x: nat, k: nat)
    requires |row| == N && e == Identity(N, N) && x < N && k <= N
    ensures Dot(row, e, N, x, k) == if x < k then row[x] else 0.0
    decreases k
  {
    if k > 0 {
      DotUnitRight(row, e, N, x, k - 1);
    }
  }

  /** Column 0 of each row is computed before the row is touched, so it is a true product entry. */
  lemma {:induction false} RowAfterFirst(row: seq<real>, b: Mat, x: nat)
    requires IsMat(b, |row|, |row|) && 1 <= x <= |row|
    ensures RowAfter(row, b, x)[0] == Dot(row, b, |row|, 0, |row|)
    decreases x
  {
    if x > 1 {
      RowAfterFirst(row, b, x - 1);
    }
  }

  /** After `*=` as written, column 0 of every row is the true product entry. */
  lemma MulAssignFirstColumn(a: Mat, b: Mat, M: nat, N: nat, y: nat)
    requires IsMat(a, M, N) && IsMat(b, N, N) && y < M && 0 < N
    ensures MulAssignAsWritten(a, b, N)[y][0] == Product(a, b, M, N, N)[y][0]
  {
    assert |a[y]| == N;
    RowAfterFirst(a[y], b, N);
    assert MulAssignAsWritten(a, b, N)[y] == RowAfter(a[y], b, N);
    assert Product(a, b, M, N, N)[y][0] == Dot(a[y], b, N, 0, N);
  }

  /**
   * Beyond column 0, `*=` as written is not the product: for the row (1, 1) and the
   * all-ones 2 x 2 matrix it yields (2, 3), where the product is (2, 2).
   */
  lemma MulAssignIsNotProduct()
    ensures MulAssignAsWritten([[1.0, 1.0]], [[1.0, 1.0], [1.0, 1.0]], 2) == [[2.0, 3.0]]
    ensures Product([[1.0, 1.0]], [[1.0, 1.0], [1.0, 1.0]], 1, 2, 2) == [[2.0, 2.0]]
  {
    var a, b := [1.0, 1.0], [[1.0, 1.0], [1.0, 1.0]];
    assert Dot(a, b, 2, 0, 2) == 2.0;
    assert RowAfter(a, b, 1) == [2.0, 1.0];
    assert Dot([2.0, 1.0], b, 2, 1, 2) == 3.0;
    assert RowAfter(a, b, 2) == [2.0, 3.0];
    assert Dot(a, b, 2, 1, 2) == 2.0;
    var w := MulAssignAsWritten([a], b, 2);
    assert w[0] == RowAfter(a, b, 2);
    assert w == [[2.0, 3.0]];
    var p := Product([a], b, 1, 2, 2);
    assert p[0][0] == Dot(a, b, 2, 0, 2) && p[0][1] == Dot(a, b, 2, 1, 2);
    assert p[0] == [2.0, 2.0];
  }

  /** The entries at storage positions k and beyond are still those of the original matrix. */
  lemma {:induction false} SelfAssignedKeepsRest(a: Mat, N: nat, k: nat, i: nat, j: nat)
    requires IsMat(a, N, N) && k <= N * N && i < N && j < N && k <= i * N + j
    ensures SelfAssigned(a, N, k)[i][j] == a[i][j]
    decreases k
  {
    if k > 0 {
      RowOfIndex(k - 1, N, N);
      SelfAssignedKeepsRest(a, N, k - 1, i, j);
    }
  }

  /**
   * `m *= m` is neither the product nor `*=` with a distinct copy of m: for the
   * all-ones 2 x 2 matrix it yields ((2, 3), (3, 10)), where `*=` with a copy
   * yields ((2, 3), (2, 3)) and the product is ((2, 2), (2, 2)).
   */
  lemma MulAssignSelfIsNotCopy()
    ensures SelfAssigned([[1.0, 1.0], [1.0, 1.0]], 2, 4) == [[2.0, 3.0], [3.0, 10.0]]
    ensures MulAssignAsWritten([[1.0, 1.0], [1.0, 1.0]], [[1.0, 1.0], [1.0, 1.0]], 2) == [[2.0, 3.0], [2.0, 3.0]]
  {
    var a := [[1.0, 1.0], [1.0, 1.0]];
    SelfAssignedStep(a, 2, 0, 0);
    var s1 := [[2.0, 1.0], [1.0, 1.0]];
    assert SelfAssigned(a, 2, 0) == a;
    assert Dot(a[0], a, 2, 0, 2) == 2.0;
    assert a[0][0 := 2.0] == s1[0];
    assert SelfAssigned(a, 2, 1) == a[0 := s1[0]] == s1;
    SelfAssignedStep(a, 2, 0, 1);
    var s2 := [[2.0, 3.0], [1.0, 1.0]];
    assert Dot(s1[0], s1, 2, 1, 2) == 3.0;
    assert s1[0][1 := 3.0] == s2[0];
    assert SelfAssigned(a, 2, 2) == s1[0 := s2[0]] == s2;
    SelfAssignedStep(a, 2, 1, 0);
    var s3 := [[2.0, 3.0], [3.0, 1.0]];
    assert Dot(s2[1], s2, 2, 0, 2) == 3.0;
    assert s2[1][0 := 3.0] == s3[1];
    assert SelfAssigned(a, 2, 3) == s2[1 := s3[1]] == s3;
    SelfAssignedStep(a, 2, 1, 1);
    assert Dot(s3[1], s3, 2, 1, 2) == 10.0;
    assert s3[1][1 := 10.0] == [3.0, 10.0];
    var row := [1.0, 1.0];
    assert Dot(row, a, 2, 0, 2) == 2.0;
    assert RowAfter(row, a, 1) == [2.0, 1.0];
    assert Dot([2.0, 1.0], a, 2, 1, 2) == 3.0;
    assert RowAfter(row, a, 2) == [2.0, 3.0];
    var w := MulAssignAsWritten(a, a, 2);
    assert w[0] == RowAfter(row, a, 2) && w[1] == RowAfter(row, a, 2);
  }

  /** Unary minus as written (the zero matrix) differs from negation on every non-zero matrix. */
  lemma NegateAsWrittenDiffers(a: Mat, M: nat, N: nat, i: nat, j: nat)
    requires IsMat(a, M, N) && i < M && j < N && a[i][j] != 0.0
    ensures Negated(a, M, N) != Zero(M, N)
  {
    assert Negated(a, M, N)[i][j] != 0.0;
  }

  /** The corrected unary minus is an additive inverse. */
  lemma NegatedIsInverse(a: Mat, M: nat, N: nat)
    requires IsMat(a, M, N)
    ensures Sum(a, Negated(a, M, N), M, N) == Zero(M, N)
  {
    MatEq(Sum(a, Negated(a, M, N), M, N), Zero(M, N), M, N);
  }

  /** Addition of matrix values commutes, and subtraction undoes it. */
  lemma SumDifference(a: Mat, b: Mat, M: nat, N: nat)
    requires IsMat(a, M, N) && IsMat(b, M, N)
    ensures Sum(a, b, M, N) == Sum(b, a, M, N)
    ensures Difference(Sum(a, b, M, N), b, M, N) == a
  {
    MatEq(Sum(a, b, M, N), Sum(b, a, M, N), M, N);
    MatEq(Difference(Sum(a, b, M, N), b, M, N), a, M, N);
  }
}
