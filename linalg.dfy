/**
 * Fixed-shape real vectors and matrices, stored as sequences of rows, with
 * the three products the projection uses written out entry by entry.
 */
module LinAlg {

  predicate IsMatrix(m: seq<seq<real>>, rows: nat, cols: nat)
  {
    |m| == rows && forall i :: 0 <= i < rows ==> |m[i]| == cols
  }

  type Vec3 = v: seq<real> | |v| == 3 witness [0.0, 0.0, 0.0]
  type Vec4 = v: seq<real> | |v| == 4 witness [0.0, 0.0, 0.0, 0.0]

  type Mat33 = m: seq<seq<real>> | IsMatrix(m, 3, 3)
    witness [[0.0, 0.0, 0.0], [0.0, 0.0, 0.0], [0.0, 0.0, 0.0]]
  type Mat34 = m: seq<seq<real>> | IsMatrix(m, 3, 4)
    witness [[0.0, 0.0, 0.0, 0.0], [0.0, 0.0, 0.0, 0.0], [0.0, 0.0, 0.0, 0.0]]
  type Mat4 = m: seq<seq<real>> | IsMatrix(m, 4, 4)
    witness [[0.0, 0.0, 0.0, 0.0], [0.0, 0.0, 0.0, 0.0], [0.0, 0.0, 0.0, 0.0], [0.0, 0.0, 0.0, 0.0]]

  /** numpy's `np.eye(4)`: ones on the diagonal, zeros elsewhere. */
  function Eye4(): (m: Mat4)
    ensures forall i :: 0 <= i < 4 ==> m[i][i] == 1.0
    ensures forall i, j :: 0 <= i < 4 && 0 <= j < 4 && i != j ==> m[i][j] == 0.0
  {
    seq(4, i => seq(4, j => if i == j then 1.0 else 0.0))
  }

  /** `np.array(vals).reshape(3, 3)`: row-major. */
  function Reshape33(vals: seq<real>): (m: Mat33)
    requires |vals| == 9
    ensures forall i, j :: 0 <= i < 3 && 0 <= j < 3 ==> m[i][j] == vals[3 * i + j]
    ensures m[0] + m[1] + m[2] == vals
  {
    seq(3, i requires 0 <= i < 3 => vals[3 * i .. 3 * i + 3])
  }

  /** `np.array(vals).reshape(3, 4)`: row-major. */
  function Reshape34(vals: seq<real>): (m: Mat34)
    requires |vals| == 12
    ensures forall i, j :: 0 <= i < 3 && 0 <= j < 4 ==> m[i][j] == vals[4 * i + j]
    ensures m[0] + m[1] + m[2] == vals
  {
    seq(3, i requires 0 <= i < 3 => vals[4 * i .. 4 * i + 4])
  }

  /** The slice assignment `m[:rows, :cols] = b`, on a fresh copy of `m`. */
  function Overwrite(m: Mat4, b: seq<seq<real>>, rows: nat, cols: nat): (r: Mat4)
    requires IsMatrix(b, rows, cols) && rows <= 4 && cols <= 4
    ensures forall i, j :: 0 <= i < rows && 0 <= j < cols ==> r[i][j] == b[i][j]
    ensures forall i, j :: 0 <= i < 4 && 0 <= j < 4 && (rows <= i || cols <= j) ==> r[i][j] == m[i][j]
  {
    seq(4, i requires 0 <= i < 4 =>
      seq(4, j requires 0 <= j < 4 => if i < rows && j < cols then b[i][j] else m[i][j]))
  }

  function Dot4(a: Vec4, b: Vec4): real
  {
    a[0] * b[0] + a[1] * b[1] + a[2] * b[2] + a[3] * b[3]
  }

  function Column(m: Mat4, j: nat): Vec4
    requires j < 4
  {
    [m[0][j], m[1][j], m[2][j], m[3][j]]
  }

  /**
   * The matrix product `a @ b` of two 4x4 matrices. Two transforms with
   * bottom row `[0, 0, 0, 1]` compose to one.
   */
  function Mul44(a: Mat4, b: Mat4): (r: Mat4)
    ensures a[3] == [0.0, 0.0, 0.0, 1.0] && b[3] == [0.0, 0.0, 0.0, 1.0] ==> r[3] == [0.0, 0.0, 0.0, 1.0]
  {
    seq(4, i requires 0 <= i < 4 => seq(4, j requires 0 <= j < 4 => Dot4(a[i], Column(b, j))))
  }

  /**
   * `m @ v` for a 4x4 matrix and a column 4-vector. The identity leaves the
   * vector alone, and a bottom row `[0, 0, 0, 1]` keeps its last coordinate.
   */
  function Apply4(m: Mat4, v: Vec4): (r: Vec4)
    ensures m == Eye4() ==> r == v
    ensures m[3] == [0.0, 0.0, 0.0, 1.0] ==> r[3] == v[3]
  {
    seq(4, i requires 0 <= i < 4 => Dot4(m[i], v))
  }

  /**
   * `m @ v` for a 3x4 matrix and a column 4-vector. A third row
   * `[0, 0, 1, 0]` copies the vector's third coordinate.
   */
  function Apply34(m: Mat34, v: Vec4): (r: Vec3)
    ensures m[2] == [0.0, 0.0, 1.0, 0.0] ==> r[2] == v[2]
  {
    seq(3, i requires 0 <= i < 3 => Dot4(m[i], v))
  }

  /** One row of the associativity law `(a @ b) @ v == a @ (b @ v)`. */
  lemma DotMulRow(a: Mat4, b: Mat4, v: Vec4, i: nat)
    requires i < 4
    ensures Dot4(Mul44(a, b)[i], v) == Dot4(a[i], Apply4(b, v))
  {
    var r := a[i];
    var w := Apply4(b, v);
    assert Mul44(a, b)[i] == [Dot4(r, Column(b, 0)), Dot4(r, Column(b, 1)), Dot4(r, Column(b, 2)), Dot4(r, Column(b, 3))];
    assert w == [Dot4(b[0], v), Dot4(b[1], v), Dot4(b[2], v), Dot4(b[3], v)];
  }

  /**
   * Applying the composed matrix `a @ b` to a vector is applying `b`, then
   * `a`: composing the frames first changes nothing.
   */
  lemma ApplyComposed(a: Mat4, b: Mat4, v: Vec4)
    ensures Apply4(Mul44(a, b), v) == Apply4(a, Apply4(b, v))
  {
    forall i | 0 <= i < 4
      ensures Apply4(Mul44(a, b), v)[i] == Apply4(a, Apply4(b, v))[i]
    {
      DotMulRow(a, b, v, i);
    }
  }
}
