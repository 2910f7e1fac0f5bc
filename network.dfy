/** The two-layer network of `EKF`: its weight matrices with trailing bias
    columns, the forward pass, the Jacobian of the outputs with respect to every
    weight, and the row-major flattening that ties Jacobian columns to weights. */
module Network {
  import opened Matrices
  import opened Activations

  /** n_input, n_hidden and n_output, and the sizes derived from them. */
  datatype Dims = Dims(nInput: nat, nHidden: nat, nOutput: nat)
  {
    /** `W[0].size`: the hidden layer is n_hidden x (n_input + 1). */
    function HiddenSize(): nat { nHidden * (nInput + 1) }

    /** `W[1].size`: the output layer is n_output x (n_hidden + 1). */
    function OutputSize(): nat { nOutput * (nHidden + 1) }

    /** `num_weights`. */
    function NumWeights(): nat { HiddenSize() + OutputSize() }

    predicate Shaped(W0: Matrix, W1: Matrix)
    {
      IsMatrix(W0, nHidden, nInput + 1) && IsMatrix(W1, nOutput, nHidden + 1)
    }

    /** Position of hidden weight `W[0][j][i]` in the flattened weight vector. */
    function HiddenColumn(j: nat, i: nat): nat { j * (nInput + 1) + i }

    /** Position of output weight `W[1][k][m]` in the flattened weight vector. */
    function OutputColumn(k: nat, m: nat): nat { HiddenSize() + k * (nHidden + 1) + m }
  }

  /** `[v, 1]`: a vector followed by the constant bias input. */
  function WithBias(v: Vector): (b: Vector)
    ensures |b| == |v| + 1 && b[|v|] == 1.0
    ensures forall i :: 0 <= i < |v| ==> b[i] == v[i]
  {
    v + [1.0]
  }

  /** `affine_transform(W, V)`: `V . W[:, :-1].T + W[:, -1]`. */
  function Affine(W: Matrix, v: Vector): (a: Vector)
    requires IsMatrix(W, |W|, |v| + 1)
    ensures |a| == |W|
  {
    seq(|W|, k requires 0 <= k < |W| => Dot(v, W[k], |v|) + W[k][|v|])
  }

  /** An affine layer is linear in each weight: raising `W[j][i]` by `e` moves
      output `j`, and only it, by `e` times `[v, 1][i]`. */
  lemma AffineInWeight(W: Matrix, v: Vector, j: nat, i: nat, e: real, k: nat)
    requires IsMatrix(W, |W|, |v| + 1) && j < |W| && i <= |v| && k < |W|
    ensures Affine(Perturb(W, j, i, e), v)[k]
      == Affine(W, v)[k] + (if k == j then e * WithBias(v)[i] else 0.0)
  {
    if k == j {
      var row := W[j][i := W[j][i] + e];
      DotSymmetric(v, row, |v|);
      DotSymmetric(v, W[j], |v|);
      DotPerturb(W[j], v, |v|, i, e);
    }
  }

  /** An affine layer is linear in each input: raising `v[j]` by `e` moves
      output `k` by `e * W[k][j]`. */
  lemma AffineInInput(W: Matrix, v: Vector, j: nat, e: real, k: nat)
    requires IsMatrix(W, |W|, |v| + 1) && j < |v| && k < |W|
    ensures Affine(W, v[j := v[j] + e])[k] == Affine(W, v)[k] + e * W[k][j]
  {
    DotPerturb(v, W[k], |v|, j, e);
  }

  /** The hidden activations `l = sig(affine_transform(W[0], u))`. */
  function Hidden(np: Numerics, act: Activation, W0: Matrix, u: Vector): (l: Vector)
    requires np.ExpPositive() && IsMatrix(W0, |W0|, |u| + 1)
    ensures |l| == |W0|
  {
    var pre := Affine(W0, u);
    seq(|W0|, j requires 0 <= j < |W0| => Sig(np, act, pre[j]))
  }

  /** `update(u, return_l=True)` for one input vector: the output `h` and the
      hidden activations `l`. */
  function Forward(np: Numerics, act: Activation, W0: Matrix, W1: Matrix, u: Vector): (hl: (Vector, Vector))
    requires np.ExpPositive() && IsMatrix(W0, |W0|, |u| + 1) && IsMatrix(W1, |W1|, |W0| + 1)
    ensures |hl.0| == |W1| && |hl.1| == |W0|
  {
    var l := Hidden(np, act, W0, u);
    (Affine(W1, l), l)
  }

  /** `np.outer(x, y)`. */
  function Outer(x: Vector, y: Vector): (M: Matrix)
    ensures IsMatrix(M, |x|, |y|)
  {
    seq(|x|, i requires 0 <= i < |x| => seq(|y|, j requires 0 <= j < |y| => x[i] * y[j]))
  }

  /** `outer_plus_bias(x, y, bias)`: the outer product with one more column
      `x * bias` on the right. */
  function OuterPlusBias(x: Vector, y: Vector, bias: real): (M: Matrix)
    ensures IsMatrix(M, |x|, |y| + 1)
  {
    HStack(Outer(x, y), seq(|x|, i requires 0 <= i < |x| => [x[i] * bias]))
  }

  /** `W[1][k][j] * dsig(l[j])`: how fast output `k` moves with the
      pre-activation of hidden unit `j`. */
  function PreActivationSensitivity(act: Activation, W1: Matrix, l: Vector, k: nat, j: nat): real
    requires k < |W1| && j < |l| && j < |W1[k]|
  {
    W1[k][j] * DSig(act, l[j])
  }

  /** `W[1][:, :-1] * dsig(l)`: output weights scaled column-wise by the
      slopes of the hidden units. */
  function ScaledOutputWeights(act: Activation, W1: Matrix, l: Vector): (D: Matrix)
    requires IsMatrix(W1, |W1|, |l| + 1)
    ensures IsMatrix(D, |W1|, |l|)
    ensures forall k, j :: 0 <= k < |W1| && 0 <= j < |l| ==> D[k][j] == PreActivationSensitivity(act, W1, l, k, j)
  {
    seq(|W1|, k requires 0 <= k < |W1| =>
      seq(|l|, j requires 0 <= j < |l| => PreActivationSensitivity(act, W1, l, k, j)))
  }

  /** The hidden block of `jacobian(u, l)`: `outer_plus_bias(D, u)` with
      `D = (W[1][:, :-1] * dsig(l)).flatten()`, reshaped to n_output rows. */
  function HiddenBlock(act: Activation, W1: Matrix, u: Vector, l: Vector): (A: Matrix)
    requires IsMatrix(W1, |W1|, |l| + 1)
    ensures IsMatrix(A, |W1|, |l| * (|u| + 1))
  {
    var Dm := ScaledOutputWeights(act, W1, l);
    RowMajorLength(Dm, |W1|, |l|);
    var O := OuterPlusBias(RowMajor(Dm), u, 1.0);
    RowMajorLength(O, |W1| * |l|, |u| + 1);
    MulAssoc(|W1|, |l|, |u| + 1);
    Reshape(RowMajor(O), |W1|, |l| * (|u| + 1))
  }

  /** The output block of `jacobian(u, l)`: `block_diag` of n_output copies of
      the row `[l, 1]`. */
  function OutputBlock(l: Vector, nOutput: nat): (B: Matrix)
    ensures IsMatrix(B, nOutput, nOutput * (|l| + 1))
  {
    BlockDiagRows(Copies(WithBias(l), nOutput), |l| + 1)
  }

  /** `np.tile(v, n).reshape(n, len(v))`: `n` copies of `v` as rows. */
  function Copies(v: Vector, n: nat): (M: Matrix)
    ensures IsMatrix(M, n, |v|) && forall k :: 0 <= k < n ==> M[k] == v
  {
    seq(n, k requires 0 <= k < n => v)
  }

  /** `jacobian(u, l)`: the hidden block beside the output block, n_output
      rows and num_weights columns. */
  function Jacobian(act: Activation, W1: Matrix, u: Vector, l: Vector): (H: Matrix)
    requires IsMatrix(W1, |W1|, |l| + 1)
    ensures IsMatrix(H, |W1|, Dims(|u|, |l|, |W1|).NumWeights())
  {
    HStack(HiddenBlock(act, W1, u, l), OutputBlock(l, |W1|))
  }

  /** Hidden block: the entry for output `k` and weight `W[0][j][i]` is
      `W[1][k][j] * dsig(l[j]) * [u, 1][i]` (see `PreActivationSensitivity`). */
  lemma JacobianHiddenEntry(act: Activation, W1: Matrix, u: Vector, l: Vector, k: nat, j: nat, i: nat)
    requires IsMatrix(W1, |W1|, |l| + 1) && k < |W1| && j < |l| && i <= |u|
    ensures Dims(|u|, |l|, |W1|).HiddenColumn(j, i) < Dims(|u|, |l|, |W1|).HiddenSize()
    ensures Jacobian(act, W1, u, l)[k][Dims(|u|, |l|, |W1|).HiddenColumn(j, i)]
      == PreActivationSensitivity(act, W1, l, k, j) * WithBias(u)[i]
  {
    var nOut, nHid, nIn := |W1|, |l|, |u|;
    var c := j * (nIn + 1) + i;
    FlatBound(j, i, nHid, nIn + 1);
    assert Jacobian(act, W1, u, l)[k][c] == HiddenBlock(act, W1, u, l)[k][c];
    HiddenBlockEntry(act, W1, u, l, k, j, i);
  }

  lemma HiddenBlockEntry(act: Activation, W1: Matrix, u: Vector, l: Vector, k: nat, j: nat, i: nat)
    requires IsMatrix(W1, |W1|, |l| + 1) && k < |W1| && j < |l| && i <= |u|
    ensures j * (|u| + 1) + i < |l| * (|u| + 1)
    ensures HiddenBlock(act, W1, u, l)[k][j * (|u| + 1) + i] == PreActivationSensitivity(act, W1, l, k, j) * WithBias(u)[i]
  {
    HiddenBlockLayout(act, W1, u, l, k, j, i);
    ScaledOuterEntry(act, W1, u, l, k, j, i);
  }

  /** Row `k*n_hidden + j` of `outer_plus_bias(D, u)` is
      `W[1][k][j] * dsig(l[j]) * [u, 1]`. */
  lemma ScaledOuterEntry(act: Activation, W1: Matrix, u: Vector, l: Vector, k: nat, j: nat, i: nat)
    requires IsMatrix(W1, |W1|, |l| + 1) && k < |W1| && j < |l| && i <= |u|
    ensures k * |l| + j < |RowMajor(ScaledOutputWeights(act, W1, l))|
    ensures OuterPlusBias(RowMajor(ScaledOutputWeights(act, W1, l)), u, 1.0)[k * |l| + j][i]
      == PreActivationSensitivity(act, W1, l, k, j) * WithBias(u)[i]
  {
    ScaledEntry(act, W1, l, k, j);
    OuterPlusUnitBiasEntry(RowMajor(ScaledOutputWeights(act, W1, l)), u, k * |l| + j, i, PreActivationSensitivity(act, W1, l, k, j));
  }

  /** The reshape in `HiddenBlock` puts row `k*n_hidden + j` of the outer
      product at columns `j*(n_input+1) ..` of row `k`. */
  lemma HiddenBlockLayout(act: Activation, W1: Matrix, u: Vector, l: Vector, k: nat, j: nat, i: nat)
    requires IsMatrix(W1, |W1|, |l| + 1) && k < |W1| && j < |l| && i <= |u|
    ensures j * (|u| + 1) + i < |l| * (|u| + 1)
    ensures k * |l| + j < |W1| * |l| == |RowMajor(ScaledOutputWeights(act, W1, l))|
    ensures HiddenBlock(act, W1, u, l)[k][j * (|u| + 1) + i]
      == OuterPlusBias(RowMajor(ScaledOutputWeights(act, W1, l)), u, 1.0)[k * |l| + j][i]
  {
    RowMajorLength(ScaledOutputWeights(act, W1, l), |W1|, |l|);
    FlatIndexShift(OuterPlusBias(RowMajor(ScaledOutputWeights(act, W1, l)), u, 1.0), |W1|, |l|, |u| + 1, k, j, i);
  }

  lemma FlatIndexShift(O: Matrix, nOut: nat, nHid: nat, w: nat, k: nat, j: nat, i: nat)
    requires IsMatrix(O, nOut * nHid, w) && k < nOut && j < nHid && i < w
    ensures |RowMajor(O)| == nOut * (nHid * w)
    ensures j * w + i < nHid * w
    ensures k * nHid + j < |O|
    ensures Reshape(RowMajor(O), nOut, nHid * w)[k][j * w + i] == O[k * nHid + j][i]
  {
    var col, row := j * w + i, k * nHid + j;
    RowMajorLength(O, nOut * nHid, w);
    MulAssoc(nOut, nHid, w);
    FlatBound(j, i, nHid, w);
    FlatBound(k, j, nOut, nHid);
    IndexShift(k, j, i, nHid, w);
    assert k * (nHid * w) + col == row * w + i;
    ReshapeAt(RowMajor(O), nOut, nHid * w, k, col);
    RowMajorAt(O, nOut * nHid, w, row, i);
  }

  /** Entry `r` of `D` is `W[1][k][j] * dsig(l[j])` for `r = k*n_hidden + j`. */
  lemma ScaledEntry(act: Activation, W1: Matrix, l: Vector, k: nat, j: nat)
    requires IsMatrix(W1, |W1|, |l| + 1) && k < |W1| && j < |l|
    ensures k * |l| + j < |W1| * |l|
    ensures |RowMajor(ScaledOutputWeights(act, W1, l))| == |W1| * |l|
    ensures RowMajor(ScaledOutputWeights(act, W1, l))[k * |l| + j] == PreActivationSensitivity(act, W1, l, k, j)
  {
    RowMajorAt(ScaledOutputWeights(act, W1, l), |W1|, |l|, k, j);
  }

  /** Row `r` of `outer_plus_bias(x, y, bias)` is `a * [y, bias]` for
      `a = x[r]`: `a * y[i]`, then `a * bias` in the last column; with bias 1
      that is `a * [y, 1][i]`. The name `a` for `x[r]` only lets callers'
      products match the ensures syntactically. */
  lemma OuterPlusBiasEntry(x: Vector, y: Vector, bias: real, r: nat, i: nat, a: real)
    requires r < |x| && i <= |y| && x[r] == a
    ensures OuterPlusBias(x, y, bias)[r][i] == a * (y + [bias])[i]
  {
    if i < |y| {
      assert OuterPlusBias(x, y, bias)[r][i] == Outer(x, y)[r][i] == x[r] * y[i];
    } else {
      assert OuterPlusBias(x, y, bias)[r][i] == x[r] * bias;
    }
  }

  /** The bias-1 case used by `jacobian`: row `r` is `x[r] * [y, 1]`. */
  lemma OuterPlusUnitBiasEntry(x: Vector, y: Vector, r: nat, i: nat, a: real)
    requires r < |x| && i <= |y| && x[r] == a
    ensures OuterPlusBias(x, y, 1.0)[r][i] == a * WithBias(y)[i]
  {
    OuterPlusBiasEntry(x, y, 1.0, r, i, a);
  }

  /** Output block: the entry for output `k` and weight `W[1][k'][m]` is
      `[l, 1][m]` when `k' == k` and 0 otherwise, so the block is block-diagonal. */
  lemma JacobianOutputEntry(act: Activation, W1: Matrix, u: Vector, l: Vector, k: nat, k': nat, m: nat)
    requires IsMatrix(W1, |W1|, |l| + 1) && k < |W1| && k' < |W1| && m <= |l|
    ensures Dims(|u|, |l|, |W1|).OutputColumn(k', m) < Dims(|u|, |l|, |W1|).NumWeights()
    ensures Jacobian(act, W1, u, l)[k][Dims(|u|, |l|, |W1|).OutputColumn(k', m)]
      == if k == k' then WithBias(l)[m] else 0.0
  {
    OutputBlockEntry(l, |W1|, k, k', m);
    JacobianRight(act, W1, u, l, k, k' * (|l| + 1) + m);
  }

  /** Row `k` of the output block holds `[l, 1]` at columns `k*(n_hidden+1) ..`
      and zeros elsewhere. */
  lemma OutputBlockEntry(l: Vector, nOutput: nat, k: nat, k': nat, m: nat)
    requires k < nOutput && k' < nOutput && m <= |l|
    ensures k' * (|l| + 1) + m < nOutput * (|l| + 1)
    ensures OutputBlock(l, nOutput)[k][k' * (|l| + 1) + m] == if k == k' then WithBias(l)[m] else 0.0
  {
    BlockDiagAt(Copies(WithBias(l), nOutput), |l| + 1, k, k', m);
  }

  /** Past the hidden block, the Jacobian's columns are the output block's. */
  lemma JacobianRight(act: Activation, W1: Matrix, u: Vector, l: Vector, k: nat, c: nat)
    requires IsMatrix(W1, |W1|, |l| + 1) && k < |W1| && c < |W1| * (|l| + 1)
    ensures |l| * (|u| + 1) + c < |Jacobian(act, W1, u, l)[k]|
    ensures Jacobian(act, W1, u, l)[k][|l| * (|u| + 1) + c] == OutputBlock(l, |W1|)[k][c]
  {
  }

  /** The flattened weight vector: `W[0]` row-major, then `W[1]` row-major. */
  function Flatten(W0: Matrix, W1: Matrix): Vector
  {
    RowMajor(W0) + RowMajor(W1)
  }

  /** Cutting a weight vector back into the two matrices, as
      `update_weights_and_cov` slices `dW`. */
  function Unflatten(d: Dims, v: Vector): (W: (Matrix, Matrix))
    requires |v| == d.NumWeights()
    ensures d.Shaped(W.0, W.1)
  {
    (Reshape(v[..d.HiddenSize()], d.nHidden, d.nInput + 1),
     Reshape(v[d.HiddenSize()..], d.nOutput, d.nHidden + 1))
  }

  /** `W[0] + dW[:W[0].size].reshape(W[0].shape)` and
      `W[1] + dW[W[0].size:].reshape(W[1].shape)`. */
  function ApplyUpdate(d: Dims, W0: Matrix, W1: Matrix, dW: Vector): (W: (Matrix, Matrix))
    requires d.Shaped(W0, W1) && |dW| == d.NumWeights()
    ensures d.Shaped(W.0, W.1)
  {
    (Add(W0, Unflatten(d, dW).0), Add(W1, Unflatten(d, dW).1))
  }

  /** num_weights is the length of the flattened weights. */
  lemma FlattenLength(d: Dims, W0: Matrix, W1: Matrix)
    requires d.Shaped(W0, W1)
    ensures |Flatten(W0, W1)| == d.NumWeights()
  {
    RowMajorLength(W0, d.nHidden, d.nInput + 1);
    RowMajorLength(W1, d.nOutput, d.nHidden + 1);
  }

  /** Slicing the flattened weights gives the weights back, and flattening
      the slices gives the vector back: the two views are interchangeable. */
  lemma FlattenRoundTrip(d: Dims, W0: Matrix, W1: Matrix, v: Vector)
    requires d.Shaped(W0, W1) && |v| == d.NumWeights()
    ensures |Flatten(W0, W1)| == d.NumWeights() && Unflatten(d, Flatten(W0, W1)) == (W0, W1)
    ensures Flatten(Unflatten(d, v).0, Unflatten(d, v).1) == v
  {
    FlattenLength(d, W0, W1);
    RowMajorLength(W0, d.nHidden, d.nInput + 1);
    var f := Flatten(W0, W1);
    assert f[..d.HiddenSize()] == RowMajor(W0) && f[d.HiddenSize()..] == RowMajor(W1);
    ReshapeRowMajor(W0, d.nHidden, d.nInput + 1);
    ReshapeRowMajor(W1, d.nOutput, d.nHidden + 1);
    RowMajorReshape(v[..d.HiddenSize()], d.nHidden, d.nInput + 1);
    RowMajorReshape(v[d.HiddenSize()..], d.nOutput, d.nHidden + 1);
    assert v == v[..d.HiddenSize()] + v[d.HiddenSize()..];
  }

  /** The weight update adds `dW` to the flattened weights entry by entry. */
  lemma ApplyUpdateIsFlatAdd(d: Dims, W0: Matrix, W1: Matrix, dW: Vector)
    requires d.Shaped(W0, W1) && |dW| == d.NumWeights()
    ensures |Flatten(W0, W1)| == d.NumWeights()
    ensures Flatten(ApplyUpdate(d, W0, W1, dW).0, ApplyUpdate(d, W0, W1, dW).1)
      == VecAdd(Flatten(W0, W1), dW)
  {
    FlattenLength(d, W0, W1);
    var hs := d.HiddenSize();
    AddReshape(W0, dW[..hs], d.nHidden, d.nInput + 1);
    AddReshape(W1, dW[hs..], d.nOutput, d.nHidden + 1);
    var lhs := Flatten(ApplyUpdate(d, W0, W1, dW).0, ApplyUpdate(d, W0, W1, dW).1);
    var rhs := VecAdd(Flatten(W0, W1), dW);
    assert |lhs| == |rhs|;
    forall c | 0 <= c < |rhs|
      ensures lhs[c] == rhs[c]
    {
      if c >= hs {
        assert lhs[c] == VecAdd(RowMajor(W1), dW[hs..])[c - hs];
      }
    }
  }

  /** A zero correction leaves both weight matrices as they were. */
  lemma ApplyZeroUpdate(d: Dims, W0: Matrix, W1: Matrix, dW: Vector)
    requires d.Shaped(W0, W1) && |dW| == d.NumWeights()
    requires forall c :: 0 <= c < |dW| ==> dW[c] == 0.0
    ensures ApplyUpdate(d, W0, W1, dW) == (W0, W1)
  {
    ApplyUpdateIsFlatAdd(d, W0, W1, dW);
    var W := ApplyUpdate(d, W0, W1, dW);
    assert VecAdd(Flatten(W0, W1), dW) == Flatten(W0, W1);
    FlattenRoundTrip(d, W0, W1, Flatten(W0, W1));
    FlattenRoundTrip(d, W.0, W.1, Flatten(W0, W1));
  }

  /** The flattened position of each weight: `HiddenColumn(j, i)` holds
      `W[0][j][i]` and `OutputColumn(k, m)` holds `W[1][k][m]`, and the update
      adds exactly that entry of `dW` to that weight. */
  lemma WeightPositions(d: Dims, W0: Matrix, W1: Matrix, dW: Vector)
    requires d.Shaped(W0, W1) && |dW| == d.NumWeights()
    ensures |Flatten(W0, W1)| == d.NumWeights()
    ensures forall j, i :: 0 <= j < d.nHidden && 0 <= i <= d.nInput ==>
      && d.HiddenColumn(j, i) < d.HiddenSize()
      && Flatten(W0, W1)[d.HiddenColumn(j, i)] == W0[j][i]
      && ApplyUpdate(d, W0, W1, dW).0[j][i] == W0[j][i] + dW[d.HiddenColumn(j, i)]
    ensures forall k, m :: 0 <= k < d.nOutput && 0 <= m <= d.nHidden ==>
      && d.OutputColumn(k, m) < d.NumWeights()
      && Flatten(W0, W1)[d.OutputColumn(k, m)] == W1[k][m]
      && ApplyUpdate(d, W0, W1, dW).1[k][m] == W1[k][m] + dW[d.OutputColumn(k, m)]
  {
    FlattenLength(d, W0, W1);
    forall j, i | 0 <= j < d.nHidden && 0 <= i <= d.nInput
      ensures d.HiddenColumn(j, i) < d.HiddenSize()
      ensures Flatten(W0, W1)[d.HiddenColumn(j, i)] == W0[j][i]
      ensures ApplyUpdate(d, W0, W1, dW).0[j][i] == W0[j][i] + dW[d.HiddenColumn(j, i)]
    {
      HiddenWeightAt(d, W0, W1, dW, j, i);
    }
    forall k, m | 0 <= k < d.nOutput && 0 <= m <= d.nHidden
      ensures d.OutputColumn(k, m) < d.NumWeights()
      ensures Flatten(W0, W1)[d.OutputColumn(k, m)] == W1[k][m]
      ensures ApplyUpdate(d, W0, W1, dW).1[k][m] == W1[k][m] + dW[d.OutputColumn(k, m)]
    {
      OutputWeightAt(d, W0, W1, dW, k, m);
    }
  }

  lemma HiddenWeightAt(d: Dims, W0: Matrix, W1: Matrix, dW: Vector, j: nat, i: nat)
    requires d.Shaped(W0, W1) && |dW| == d.NumWeights() && j < d.nHidden && i <= d.nInput
    ensures |Flatten(W0, W1)| == d.NumWeights() && d.HiddenColumn(j, i) < d.HiddenSize()
    ensures Flatten(W0, W1)[d.HiddenColumn(j, i)] == W0[j][i]
    ensures ApplyUpdate(d, W0, W1, dW).0[j][i] == W0[j][i] + dW[d.HiddenColumn(j, i)]
  {
    var hs, c := d.HiddenSize(), d.HiddenColumn(j, i);
    FlattenLength(d, W0, W1);
    RowMajorAt(W0, d.nHidden, d.nInput + 1, j, i);
    assert Flatten(W0, W1)[c] == RowMajor(W0)[c];
    var D := Reshape(dW[..hs], d.nHidden, d.nInput + 1);
    ReshapeAt(dW[..hs], d.nHidden, d.nInput + 1, j, i);
    assert D[j][i] == dW[c];
    assert ApplyUpdate(d, W0, W1, dW).0 == Add(W0, D);
  }

  lemma OutputWeightAt(d: Dims, W0: Matrix, W1: Matrix, dW: Vector, k: nat, m: nat)
    requires d.Shaped(W0, W1) && |dW| == d.NumWeights() && k < d.nOutput && m <= d.nHidden
    ensures |Flatten(W0, W1)| == d.NumWeights() && d.OutputColumn(k, m) < d.NumWeights()
    ensures Flatten(W0, W1)[d.OutputColumn(k, m)] == W1[k][m]
    ensures ApplyUpdate(d, W0, W1, dW).1[k][m] == W1[k][m] + dW[d.OutputColumn(k, m)]
  {
    FlatOutputAt(d, W0, W1, k, m);
    UpdatedOutputAt(d, W0, W1, dW, k, m);
  }

  /** `W[1][k][m]` sits at `OutputColumn(k, m)` of the flattened weights. */
  lemma FlatOutputAt(d: Dims, W0: Matrix, W1: Matrix, k: nat, m: nat)
    requires d.Shaped(W0, W1) && k < d.nOutput && m <= d.nHidden
    ensures |Flatten(W0, W1)| == d.NumWeights() && d.OutputColumn(k, m) < d.NumWeights()
    ensures Flatten(W0, W1)[d.OutputColumn(k, m)] == W1[k][m]
  {
    var hs, c := d.HiddenSize(), k * (d.nHidden + 1) + m;
    FlattenLength(d, W0, W1);
    RowMajorLength(W0, d.nHidden, d.nInput + 1);
    RowMajorAt(W1, d.nOutput, d.nHidden + 1, k, m);
    assert d.OutputColumn(k, m) == hs + c;
  }

  /** The update adds `dW[OutputColumn(k, m)]` to `W[1][k][m]`. */
  lemma UpdatedOutputAt(d: Dims, W0: Matrix, W1: Matrix, dW: Vector, k: nat, m: nat)
    requires d.Shaped(W0, W1) && |dW| == d.NumWeights() && k < d.nOutput && m <= d.nHidden
    ensures d.OutputColumn(k, m) < |dW|
    ensures ApplyUpdate(d, W0, W1, dW).1[k][m] == W1[k][m] + dW[d.OutputColumn(k, m)]
  {
    var hs, c := d.HiddenSize(), k * (d.nHidden + 1) + m;
    ReshapeAt(dW[hs..], d.nOutput, d.nHidden + 1, k, m);
    assert d.OutputColumn(k, m) == hs + c;
    assert ApplyUpdate(d, W0, W1, dW).1 == Add(W1, Reshape(dW[hs..], d.nOutput, d.nHidden + 1));
  }

  /** The Jacobian's output-block column for `W[1][k'][m]` is the exact
      sensitivity of the output layer `affine_transform(W[1], l)` to that
      weight: the layer is affine in `W[1]`, so raising the weight by `e`
      raises output `k` by `e` times that Jacobian entry. */
  lemma OutputColumnIsExactSensitivity(act: Activation, W1: Matrix, u: Vector, l: Vector,
                                       k: nat, k': nat, m: nat, e: real)
    requires IsMatrix(W1, |W1|, |l| + 1) && k < |W1| && k' < |W1| && m <= |l|
    ensures Dims(|u|, |l|, |W1|).OutputColumn(k', m) < Dims(|u|, |l|, |W1|).NumWeights()
    ensures Affine(Perturb(W1, k', m, e), l)[k]
      == Affine(W1, l)[k] + e * Jacobian(act, W1, u, l)[k][Dims(|u|, |l|, |W1|).OutputColumn(k', m)]
  {
    AffineInWeight(W1, l, k', m, e, k);
    JacobianOutputEntry(act, W1, u, l, k, k', m);
    var J := Jacobian(act, W1, u, l)[k][Dims(|u|, |l|, |W1|).OutputColumn(k', m)];
    if k == k' {
      assert J == WithBias(l)[m];
    } else {
      assert J == 0.0;
    }
  }

  /** Raising `W[1][k'][m]` by `e` moves output `k'` alone, by `e * [l, 1][m]`. */
  lemma ForwardInOutputWeight(np: Numerics, act: Activation, W0: Matrix, W1: Matrix, u: Vector,
                              k: nat, k': nat, m: nat, e: real)
    requires np.ExpPositive() && IsMatrix(W0, |W0|, |u| + 1) && IsMatrix(W1, |W1|, |W0| + 1)
    requires k < |W1| && k' < |W1| && m <= |W0|
    ensures Forward(np, act, W0, Perturb(W1, k', m, e), u).0[k]
      == Forward(np, act, W0, W1, u).0[k] + (if k == k' then e * WithBias(Hidden(np, act, W0, u))[m] else 0.0)
  {
    var l := Hidden(np, act, W0, u);
    ForwardOutput(np, act, W0, Perturb(W1, k', m, e), u);
    ForwardOutput(np, act, W0, W1, u);
    AffineInWeight(W1, l, k', m, e, k);
  }

  /** The outputs of `update` are the output layer applied to the hidden
      activations. */
  lemma ForwardOutput(np: Numerics, act: Activation, W0: Matrix, W1: Matrix, u: Vector)
    requires np.ExpPositive() && IsMatrix(W0, |W0|, |u| + 1) && IsMatrix(W1, |W1|, |W0| + 1)
    ensures Forward(np, act, W0, W1, u).0 == Affine(W1, Hidden(np, act, W0, u))
  {
  }

  /** The Jacobian's hidden-block entry follows the chain rule through hidden
      unit `j`: moving the activation `l[j]` by `e` moves output `k` by
      `e * W[1][k][j]` (the first factor of the entry; `AffineInWeight` on
      `W[0]` gives the last, `[u, 1][i]`, and `dsig(l[j])` the slope between). */
  lemma ForwardInHiddenUnit(np: Numerics, act: Activation, W0: Matrix, W1: Matrix, u: Vector,
                            k: nat, j: nat, e: real)
    requires np.ExpPositive() && IsMatrix(W0, |W0|, |u| + 1) && IsMatrix(W1, |W1|, |W0| + 1)
    requires k < |W1| && j < |W0|
    ensures var l := Hidden(np, act, W0, u);
      Affine(W1, l[j := l[j] + e])[k] == Forward(np, act, W0, W1, u).0[k] + e * W1[k][j]
  {
    var l := Hidden(np, act, W0, u);
    ForwardOutput(np, act, W0, W1, u);
    AffineInInput(W1, l, j, e, k);
  }
}
