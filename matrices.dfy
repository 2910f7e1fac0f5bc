/** The part of numpy the trainer relies on, over exact reals: matrices are
    row lists, products are finite sums, and the routines whose numerics are
    not modelled (exp, tanh, inverse, rank) are supplied as function values. */
module Matrices {
  import opened Outcomes

  type Vector = seq<real>
  type Matrix = seq<seq<real>>

  /** `M` has shape (r, c). */
  predicate IsMatrix(M: Matrix, r: nat, c: nat)
  {
    |M| == r && forall i :: 0 <= i < r ==> |M[i]| == c
  }

  /** numpy's foreign numerics: `np.exp`, `np.tanh`, `npl.inv` (None when it
      raises LinAlgError) and `npl.matrix_rank`. */
  datatype Numerics = Numerics(
    exp: real -> real,
    tanh: real -> real,
    inv: Matrix -> Option<Matrix>,
    rank: Matrix -> nat)
  {
    /** What the model assumes of these routines: exp is positive, and an
        inverse, when one is returned, has the shape of the matrix inverted. */
    ghost predicate Sound()
    {
      ExpPositive() && InverseShaped()
    }

    ghost predicate ExpPositive()
    {
      forall x :: exp(x) > 0.0
    }

    ghost predicate InverseShaped()
    {
      forall S {:trigger inv(S)} :: IsMatrix(S, |S|, |S|) && inv(S).Some? ==> IsMatrix(inv(S).value, |S|, |S|)
    }

    /** A 1 x 1 inverse, when `npl.inv` returns one, is the reciprocal of a
        nonzero entry. */
    ghost predicate InverseIsReciprocal()
    {
      forall S {:trigger inv(S)} :: IsMatrix(S, 1, 1) && inv(S).Some? ==> S[0][0] != 0.0 && inv(S).value == [[1.0 / S[0][0]]]
    }

    /** matrix_rank is exact on scalar multiples of the identity. */
    ghost predicate RankExactOnScaledIdentity()
    {
      forall s: real, n: nat :: rank(ScaledIdentity(s, n)) == if s == 0.0 then 0 else n
    }
  }

  /** `M` is n x n and equal to its transpose. */
  predicate Symmetric(M: Matrix, n: nat)
  {
    IsMatrix(M, n, n) && forall i, j :: 0 <= i < n && 0 <= j < n ==> M[i][j] == M[j][i]
  }

  /** `a[:n] . b[:n]`. */
  function Dot(a: Vector, b: Vector, n: nat): real
    requires n <= |a| && n <= |b|
  {
    if n == 0 then 0.0 else Dot(a, b, n - 1) + a[n - 1] * b[n - 1]
  }

  /** Changing one entry of either factor moves the dot product by that change
      times the matching entry of the other factor (zero beyond `n`). */
  lemma {:induction false} DotPerturb(a: Vector, b: Vector, n: nat, m: nat, e: real)
    requires n <= |a| && n <= |b| && m < |a|
    ensures Dot(a[m := a[m] + e], b, n) == Dot(a, b, n) + (if m < n then e * b[m] else 0.0)
  {
    if n > 0 {
      DotPerturb(a, b, n - 1, m, e);
    }
  }

  lemma {:induction false} DotSymmetric(a: Vector, b: Vector, n: nat)
    requires n <= |a| && n <= |b|
    ensures Dot(a, b, n) == Dot(b, a, n)
  {
    if n > 0 {
      DotSymmetric(a, b, n - 1);
    }
  }

  function Zeros(n: nat): (z: Vector)
    ensures |z| == n && forall i :: 0 <= i < n ==> z[i] == 0.0
  {
    seq(n, i => 0.0)
  }

  /** `s * np.eye(n)`. */
  function ScaledIdentity(s: real, n: nat): (M: Matrix)
    ensures IsMatrix(M, n, n)
    ensures forall i, j :: 0 <= i < n && 0 <= j < n ==> M[i][j] == if i == j then s else 0.0
  {
    seq(n, i => seq(n, j => if i == j then s else 0.0))
  }

  function VecAdd(a: Vector, b: Vector): (c: Vector)
    requires |a| == |b|
    ensures |c| == |a| && forall i :: 0 <= i < |a| ==> c[i] == a[i] + b[i]
  {
    seq(|a|, i requires 0 <= i < |a| => a[i] + b[i])
  }

  function VecSub(a: Vector, b: Vector): (c: Vector)
    requires |a| == |b|
    ensures |c| == |a| && forall i :: 0 <= i < |a| ==> c[i] == a[i] - b[i]
  {
    seq(|a|, i requires 0 <= i < |a| => a[i] - b[i])
  }

  function VecScale(s: real, a: Vector): (c: Vector)
    ensures |c| == |a| && forall i :: 0 <= i < |a| ==> c[i] == s * a[i]
  {
    seq(|a|, i requires 0 <= i < |a| => s * a[i])
  }

  /** Both operands have the same shape. */
  predicate SameShape(A: Matrix, B: Matrix)
  {
    |A| == |B| && forall i :: 0 <= i < |A| ==> |A[i]| == |B[i]|
  }

  function Add(A: Matrix, B: Matrix): (C: Matrix)
    requires SameShape(A, B)
    ensures SameShape(C, A)
    ensures forall i, j :: 0 <= i < |A| && 0 <= j < |A[i]| ==> C[i][j] == A[i][j] + B[i][j]
  {
    seq(|A|, i requires 0 <= i < |A| => VecAdd(A[i], B[i]))
  }

  function Sub(A: Matrix, B: Matrix): (C: Matrix)
    requires SameShape(A, B)
    ensures SameShape(C, A)
    ensures forall i, j :: 0 <= i < |A| && 0 <= j < |A[i]| ==> C[i][j] == A[i][j] - B[i][j]
  {
    seq(|A|, i requires 0 <= i < |A| => VecSub(A[i], B[i]))
  }

  /** Column `j` of `B`. */
  function Column(B: Matrix, j: nat): (col: Vector)
    requires forall t :: 0 <= t < |B| ==> j < |B[t]|
    ensures |col| == |B| && forall t :: 0 <= t < |B| ==> col[t] == B[t][j]
  {
    seq(|B|, t requires 0 <= t < |B| => B[t][j])
  }

  /** `A.dot(B)` for A of shape (|A|, n) and B of shape (n, c). */
  function MatMul(A: Matrix, B: Matrix, n: nat, c: nat): (C: Matrix)
    requires IsMatrix(A, |A|, n) && IsMatrix(B, n, c)
    ensures IsMatrix(C, |A|, c)
    ensures forall i, j :: 0 <= i < |A| && 0 <= j < c ==> C[i][j] == Dot(A[i], Column(B, j), n)
  {
    seq(|A|, i requires 0 <= i < |A| => seq(c, j requires 0 <= j < c => Dot(A[i], Column(B, j), n)))
  }

  /** `M.dot(v)`: each row dotted with `v`. */
  function MatVec(M: Matrix, v: Vector): (w: Vector)
    requires IsMatrix(M, |M|, |v|)
    ensures |w| == |M| && forall i :: 0 <= i < |M| ==> w[i] == Dot(M[i], v, |v|)
  {
    seq(|M|, i requires 0 <= i < |M| => Dot(M[i], v, |v|))
  }

  /** `M.T` for M of shape (r, c). */
  function Transpose(M: Matrix, r: nat, c: nat): (T: Matrix)
    requires IsMatrix(M, r, c)
    ensures IsMatrix(T, c, r)
    ensures forall i, j :: 0 <= i < r && 0 <= j < c ==> T[j][i] == M[i][j]
  {
    seq(c, j requires 0 <= j < c => seq(r, i requires 0 <= i < r => M[i][j]))
  }

  /** `np.hstack((A, B))`. */
  function HStack(A: Matrix, B: Matrix): (C: Matrix)
    requires |A| == |B|
    ensures |C| == |A|
    ensures forall k :: 0 <= k < |A| ==> |C[k]| == |A[k]| + |B[k]|
    ensures forall k, c :: 0 <= k < |A| && 0 <= c < |A[k]| ==> C[k][c] == A[k][c]
    ensures forall k, c :: 0 <= k < |A| && 0 <= c < |B[k]| ==> C[k][|A[k]| + c] == B[k][c]
  {
    seq(|A|, k requires 0 <= k < |A| => A[k] + B[k])
  }

  /** `M.flatten()`: the rows of `M` one after another (row-major order). */
  function RowMajor(M: Matrix): Vector
  {
    if |M| == 0 then [] else M[0] + RowMajor(M[1..])
  }

  /** `v.reshape(r, c)`: row `i` is the slice `v[i*c .. (i+1)*c]`. */
  function Reshape(v: Vector, r: nat, c: nat): (M: Matrix)
    requires |v| == r * c
    ensures IsMatrix(M, r, c)
  {
    seq(r, i requires 0 <= i < r => (FlatBound(i, c, r, c); Slice(v, i * c, c)))
  }

  /** `v[start : start + c]`. */
  function Slice(v: Vector, start: nat, c: nat): (s: Vector)
    requires start + c <= |v|
    ensures |s| == c && forall k :: 0 <= k < c ==> s[k] == v[start + k]
  {
    v[start .. start + c]
  }

  /** Row-major offsets stay in range: `i*c + j < r*c`. */
  lemma FlatBound(i: nat, j: nat, r: nat, c: nat)
    requires i < r && j <= c
    ensures i * c + j <= r * c
    ensures j < c ==> i * c + j < r * c
  {
    assert (i + 1) * c <= r * c by { MulLeft(i + 1, r, c); }
  }

  lemma MulLeft(a: nat, b: nat, c: nat)
    requires a <= b
    ensures a * c <= b * c
  {
    assert b * c == a * c + (b - a) * c;
  }

  lemma MulAssoc(a: nat, b: nat, c: nat)
    ensures (a * b) * c == a * (b * c)
  {
  }

  /** Row `k*n + j` of a matrix with rows of width `w` starts where row `j`
      of block row `k` (blocks of `n*w`) starts. */
  lemma IndexShift(k: nat, j: nat, i: nat, n: nat, w: nat)
    ensures k * (n * w) + (j * w + i) == (k * n + j) * w + i
  {
    MulAssoc(k, n, w);
    assert (k * n + j) * w == (k * n) * w + j * w;
  }

  lemma MulSucc(a: nat, c: nat)
    ensures (a + 1) * c == a * c + c
  {
  }

  lemma {:induction false} RowMajorAt(M: Matrix, r: nat, c: nat, i: nat, j: nat)
    requires IsMatrix(M, r, c) && i < r && j < c
    ensures |RowMajor(M)| == r * c
    ensures i * c + j < r * c && RowMajor(M)[i * c + j] == M[i][j]
  {
    RowMajorLength(M, r, c);
    FlatBound(i, j, r, c);
    assert RowMajor(M) == M[0] + RowMajor(M[1..]) && |M[0]| == c;
    if i > 0 {
      var k := (i - 1) * c + j;
      RowMajorAt(M[1..], r - 1, c, i - 1, j);
      MulSucc(i - 1, c);
      assert i * c + j == c + k;
      assert RowMajor(M)[c + k] == RowMajor(M[1..])[k];
      assert M[1..][i - 1] == M[i];
    }
  }

  lemma {:induction false} RowMajorLength(M: Matrix, r: nat, c: nat)
    requires IsMatrix(M, r, c)
    ensures |RowMajor(M)| == r * c
  {
    if r > 0 {
      RowMajorLength(M[1..], r - 1, c);
      MulSucc(r - 1, c);
    }
  }

  lemma ReshapeAt(v: Vector, r: nat, c: nat, i: nat, j: nat)
    requires |v| == r * c && i < r && j < c
    ensures i * c + j < r * c && Reshape(v, r, c)[i][j] == v[i * c + j]
  {
    FlatBound(i, j, r, c);
  }

  /** Reshaping a flattened matrix gives the matrix back. */
  lemma ReshapeRowMajor(M: Matrix, r: nat, c: nat)
    requires IsMatrix(M, r, c)
    ensures |RowMajor(M)| == r * c && Reshape(RowMajor(M), r, c) == M
  {
    RowMajorLength(M, r, c);
    var N := Reshape(RowMajor(M), r, c);
    forall i | 0 <= i < r
      ensures N[i] == M[i]
    {
      forall j | 0 <= j < c
        ensures N[i][j] == M[i][j]
      {
        RowMajorAt(M, r, c, i, j);
        ReshapeAt(RowMajor(M), r, c, i, j);
      }
    }
  }

  /** Flattening a reshaped vector gives the vector back. */
  lemma {:induction false} RowMajorReshape(v: Vector, r: nat, c: nat)
    requires |v| == r * c
    ensures RowMajor(Reshape(v, r, c)) == v
  {
    if r > 0 {
      MulSucc(r - 1, c);
      var M := Reshape(v, r, c);
      var tail := Reshape(v[c..], r - 1, c);
      ReshapeTail(v, r, c);
      RowMajorReshape(v[c..], r - 1, c);
      assert M[0] == v[..c];
      assert RowMajor(M) == M[0] + RowMajor(tail);
      assert v == v[..c] + v[c..];
    }
  }

  /** The rows after the first of a reshaped vector are the reshaped rest. */
  lemma ReshapeTail(v: Vector, r: nat, c: nat)
    requires |v| == r * c && r > 0
    ensures c <= |v| && (r - 1) * c == |v[c..]|
    ensures Reshape(v, r, c)[1..] == Reshape(v[c..], r - 1, c)
  {
    MulSucc(r - 1, c);
    var M := Reshape(v, r, c);
    var tail := Reshape(v[c..], r - 1, c);
    forall i | 0 <= i < r - 1
      ensures M[1..][i] == tail[i]
    {
      ReshapeRowTail(v, r, c, i);
    }
  }

  lemma ReshapeRowTail(v: Vector, r: nat, c: nat, i: nat)
    requires |v| == r * c && i + 1 < r
    ensures c <= |v| && (r - 1) * c == |v[c..]|
    ensures Reshape(v, r, c)[i + 1] == Reshape(v[c..], r - 1, c)[i]
  {
    MulSucc(r - 1, c);
    MulSucc(i, c);
    FlatBound(i, c, r - 1, c);
    var a := Reshape(v, r, c)[i + 1];
    var b := Reshape(v[c..], r - 1, c)[i];
    assert a == Slice(v, (i + 1) * c, c);
    assert b == Slice(v[c..], i * c, c);
    forall k | 0 <= k < c
      ensures a[k] == b[k]
    {
      assert v[c..][i * c + k] == v[(i + 1) * c + k];
    }
  }

  /** Adding a reshaped vector to a matrix is adding the vector to its
      row-major flattening. */
  lemma AddReshape(A: Matrix, v: Vector, r: nat, c: nat)
    requires IsMatrix(A, r, c) && |v| == r * c
    ensures |RowMajor(A)| == |v|
    ensures RowMajor(Add(A, Reshape(v, r, c))) == VecAdd(RowMajor(A), v)
  {
    RowMajorLength(A, r, c);
    var S := VecAdd(RowMajor(A), v);
    forall i | 0 <= i < r
      ensures Add(A, Reshape(v, r, c))[i] == Reshape(S, r, c)[i]
    {
      forall j | 0 <= j < c
        ensures Add(A, Reshape(v, r, c))[i][j] == Reshape(S, r, c)[i][j]
      {
        AddReshapeAt(A, v, r, c, i, j);
      }
    }
    assert Add(A, Reshape(v, r, c)) == Reshape(S, r, c);
    RowMajorReshape(S, r, c);
  }

  lemma AddReshapeAt(A: Matrix, v: Vector, r: nat, c: nat, i: nat, j: nat)
    requires IsMatrix(A, r, c) && |v| == r * c && i < r && j < c
    ensures |RowMajor(A)| == |v|
    ensures Add(A, Reshape(v, r, c))[i][j] == Reshape(VecAdd(RowMajor(A), v), r, c)[i][j]
  {
    RowMajorAt(A, r, c, i, j);
    var S := VecAdd(RowMajor(A), v);
    ReshapeAt(v, r, c, i, j);
    ReshapeAt(S, r, c, i, j);
    assert S[i * c + j] == RowMajor(A)[i * c + j] + v[i * c + j];
  }

  /** `M` with entry (i, j) increased by `e`. */
  function Perturb(M: Matrix, i: nat, j: nat, e: real): (N: Matrix)
    requires i < |M| && j < |M[i]|
    ensures SameShape(N, M)
  {
    M[i := M[i][j := M[i][j] + e]]
  }

  /** `scipy.linalg.block_diag` of one-row blocks of width `w`: row `k` holds
      block `k` at columns `k*w .. (k+1)*w` and zeros elsewhere. */
  function BlockDiagRows(blocks: seq<Vector>, w: nat): (B: Matrix)
    requires forall k :: 0 <= k < |blocks| ==> |blocks[k]| == w
    ensures IsMatrix(B, |blocks|, |blocks| * w)
  {
    var n := |blocks|;
    seq(n, k requires 0 <= k < n => BlockRow(blocks[k], k, n, w))
  }

  /** Row `k` of an `n`-block diagonal matrix whose blocks are `w` wide:
      `k * w` zeros, the block, then zeros to width `n * w`. */
  function BlockRow(b: Vector, k: nat, n: nat, w: nat): (row: Vector)
    requires |b| == w && k < n
    ensures |row| == n * w
  {
    MulLeft(k + 1, n, w);
    Zeros(k * w) + b + Zeros(n * w - (k + 1) * w)
  }

  lemma BlockDiagAt(blocks: seq<Vector>, w: nat, k: nat, k': nat, m: nat)
    requires forall t :: 0 <= t < |blocks| ==> |blocks[t]| == w
    requires k < |blocks| && k' < |blocks| && m < w
    ensures k' * w + m < |blocks| * w
    ensures BlockDiagRows(blocks, w)[k][k' * w + m] == if k == k' then blocks[k][m] else 0.0
  {
    var n := |blocks|;
    FlatBound(k', m, n, w);
    var row := BlockDiagRows(blocks, w)[k];
    assert row == BlockRow(blocks[k], k, n, w);
    if k' < k {
      FlatBound(k', m, k, w);
    } else if k' > k {
      assert (k + 1) * w <= k' * w by { MulLeft(k + 1, k', w); }
    }
  }
}
