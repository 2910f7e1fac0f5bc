/** One step of the Extended Kalman Filter that `EKF._ekf` applies to the
    network weights: the innovation covariance, the Kalman gain, the weight
    correction and the covariance update (`kalman_gain`,
    `update_weights_and_cov`, `_ekf`), as functions of the filter state. */
module Kalman {
  import opened Outcomes
  import opened Matrices
  import opened Activations
  import opened Network
  import opened Validation

  /** What `_ekf` reads and writes: the weights `W[0]`, `W[1]`, the weight
      covariance `P` and the last Jacobian `H` (none before the first step). */
  datatype State = State(W0: Matrix, W1: Matrix, P: Matrix, H: Option<Matrix>)

  /** What `train` fixes before the loop: `Q` (`None` when not given), the
      flag `Q_nonzero`, and `R`. */
  datatype Noise = Noise(Q: Option<Matrix>, qNonzero: bool, R: Matrix)

  /** The state has the shapes the network dimensions call for. */
  predicate Fits(d: Dims, s: State)
  {
    && d.Shaped(s.W0, s.W1)
    && IsMatrix(s.P, d.NumWeights(), d.NumWeights())
    && (s.H.Some? ==> IsMatrix(s.H.value, d.nOutput, d.NumWeights()))
  }

  /** `np.any(Q)`: some entry of `Q` is nonzero. `np.any(None)` is False. */
  predicate AnyNonzero(Q: Option<Matrix>)
  {
    Q.Some? && exists i, j :: 0 <= i < |Q.value| && 0 <= j < |Q.value[i]| && Q.value[i][j] != 0.0
  }

  /** The noise settings as `train` leaves them: `Q` square of size
      num_weights when present, the flag computed from `Q`, and `R` square of
      size n_output. */
  predicate NoiseFits(d: Dims, n: Noise)
  {
    && (n.Q.Some? ==> IsMatrix(n.Q.value, d.NumWeights(), d.NumWeights()))
    && n.qNonzero == AnyNonzero(n.Q)
    && IsMatrix(n.R, d.nOutput, d.nOutput)
  }

  /** `H.dot(P).dot(H.T) + R`: the innovation covariance `S`. */
  function Innovation(H: Matrix, P: Matrix, R: Matrix, nW: nat): (S: Matrix)
    requires IsMatrix(H, |H|, nW) && IsMatrix(P, nW, nW) && IsMatrix(R, |H|, |H|)
    ensures IsMatrix(S, |H|, |H|)
  {
    Add(MatMul(MatMul(H, P, nW, nW), Transpose(H, |H|, nW), nW, |H|), R)
  }

  /** `P.dot(H.T).dot(npl.inv(S))`; `None` when `npl.inv` raises. */
  function Gain(np: Numerics, P: Matrix, H: Matrix, S: Matrix, nW: nat): (K: Option<Matrix>)
    requires np.InverseShaped()
    requires IsMatrix(H, |H|, nW) && IsMatrix(P, nW, nW) && IsMatrix(S, |H|, |H|)
    ensures K.Some? <==> np.inv(S).Some?
    ensures K.Some? ==> IsMatrix(K.value, nW, |H|)
  {
    match np.inv(S)
    case None => None
    case Some(Sinv) => Some(MatMul(MatMul(P, Transpose(H, |H|, nW), nW, |H|), Sinv, |H|, |H|))
  }

  /** With a single output `S` is a scalar, and when the inverse is its
      reciprocal the gain is `P.dot(H.T) / S`. */
  lemma SingleOutputGain(np: Numerics, P: Matrix, H: Matrix, S: Matrix, nW: nat, a: nat)
    requires np.InverseShaped()
    requires IsMatrix(H, 1, nW) && IsMatrix(P, nW, nW) && IsMatrix(S, 1, 1) && S[0][0] != 0.0
    requires np.inv(S) == Some([[1.0 / S[0][0]]])
    requires a < nW
    ensures Gain(np, P, H, S, nW).Some?
    ensures Gain(np, P, H, S, nW).value[a][0]
      == MatMul(P, Transpose(H, 1, nW), nW, 1)[a][0] / S[0][0]
  {
    var PH := MatMul(P, Transpose(H, 1, nW), nW, 1);
    var col := Column([[1.0 / S[0][0]]], 0);
    assert Gain(np, P, H, S, nW).value[a][0] == Dot(PH[a], col, 1);
    DotSingle(PH[a], col);
    Reciprocal(PH[a][0], col[0], S[0][0]);
  }

  lemma DotSingle(a: Vector, b: Vector)
    requires 1 <= |a| && 1 <= |b|
    ensures Dot(a, b, 1) == a[0] * b[0]
  {
    assert Dot(a, b, 1) == Dot(a, b, 0) + a[0] * b[0];
  }

  lemma Reciprocal(x: real, c: real, s: real)
    requires s != 0.0 && c == 1.0 / s
    ensures x * c == x / s
  {
  }

  /** `P - K.dot(H.dot(P))`, plus `Q` when `Q_nonzero` is set. */
  function CovUpdate(P: Matrix, K: Matrix, H: Matrix, Q: Option<Matrix>, qNonzero: bool, nW: nat): (P': Matrix)
    requires IsMatrix(P, nW, nW) && IsMatrix(K, nW, |H|) && IsMatrix(H, |H|, nW)
    requires qNonzero ==> Q.Some? && IsMatrix(Q.value, nW, nW)
    ensures IsMatrix(P', nW, nW)
  {
    var reduced := Sub(P, MatMul(K, MatMul(H, P, nW, nW), |H|, nW));
    if qNonzero then Add(reduced, Q.value) else reduced
  }

  /** With a single output and the reciprocal as inverse, the covariance
      update keeps `P` symmetric when `Q` is symmetric: `K.dot(H.dot(P))` is
      the symmetric `P H^T (P H^T)^T / S`. */
  lemma CovUpdateSymmetric(np: Numerics, P: Matrix, H: Matrix, S: Matrix, Q: Option<Matrix>, qNonzero: bool, nW: nat)
    requires np.InverseShaped()
    requires IsMatrix(H, 1, nW) && Symmetric(P, nW) && IsMatrix(S, 1, 1) && S[0][0] != 0.0
    requires np.inv(S) == Some([[1.0 / S[0][0]]])
    requires qNonzero ==> Q.Some? && Symmetric(Q.value, nW)
    ensures Symmetric(CovUpdate(P, Gain(np, P, H, S, nW).value, H, Q, qNonzero, nW), nW)
  {
    var KHP := MatMul(Gain(np, P, H, S, nW).value, MatMul(H, P, nW, nW), 1, nW);
    ReducedSymmetric(np, P, H, S, nW);
    SubSymmetric(P, KHP, nW);
    if qNonzero {
      AddSymmetric(Sub(P, KHP), Q.value, nW);
    }
  }

  /** For one output, `K.dot(H.dot(P))` is symmetric. */
  lemma ReducedSymmetric(np: Numerics, P: Matrix, H: Matrix, S: Matrix, nW: nat)
    requires np.InverseShaped()
    requires IsMatrix(H, 1, nW) && Symmetric(P, nW) && IsMatrix(S, 1, 1) && S[0][0] != 0.0
    requires np.inv(S) == Some([[1.0 / S[0][0]]])
    ensures Symmetric(MatMul(Gain(np, P, H, S, nW).value, MatMul(H, P, nW, nW), 1, nW), nW)
  {
    var KHP := MatMul(Gain(np, P, H, S, nW).value, MatMul(H, P, nW, nW), 1, nW);
    forall i, j | 0 <= i < nW && 0 <= j < nW
      ensures KHP[i][j] == KHP[j][i]
    {
      ReducedPair(np, P, H, S, nW, i, j);
    }
  }

  lemma ReducedPair(np: Numerics, P: Matrix, H: Matrix, S: Matrix, nW: nat, i: nat, j: nat)
    requires np.InverseShaped()
    requires IsMatrix(H, 1, nW) && Symmetric(P, nW) && IsMatrix(S, 1, 1) && S[0][0] != 0.0
    requires np.inv(S) == Some([[1.0 / S[0][0]]])
    requires i < nW && j < nW
    ensures MatMul(Gain(np, P, H, S, nW).value, MatMul(H, P, nW, nW), 1, nW)[i][j]
      == MatMul(Gain(np, P, H, S, nW).value, MatMul(H, P, nW, nW), 1, nW)[j][i]
  {
    var PH := MatMul(P, Transpose(H, 1, nW), nW, 1);
    var a, b, c := PH[i][0], PH[j][0], S[0][0];
    ReducedEntry(np, P, H, S, nW, i, j, a, b, c);
    ReducedEntry(np, P, H, S, nW, j, i, b, a, c);
    QuotientCommutes(a, b, c);
  }

  lemma SubSymmetric(A: Matrix, B: Matrix, n: nat)
    requires Symmetric(A, n) && Symmetric(B, n)
    ensures Symmetric(Sub(A, B), n)
  {
  }

  lemma AddSymmetric(A: Matrix, B: Matrix, n: nat)
    requires Symmetric(A, n) && Symmetric(B, n)
    ensures Symmetric(Add(A, B), n)
  {
  }

  /** Entry (i, j) of `K.dot(H.dot(P))` for one output: `(P H^T)[i] / S`
      times `(P H^T)[j]` (named `a / c * b` so that callers' terms match). */
  lemma ReducedEntry(np: Numerics, P: Matrix, H: Matrix, S: Matrix, nW: nat, i: nat, j: nat, a: real, b: real, c: real)
    requires np.InverseShaped()
    requires IsMatrix(H, 1, nW) && Symmetric(P, nW) && IsMatrix(S, 1, 1) && S[0][0] != 0.0
    requires np.inv(S) == Some([[1.0 / S[0][0]]])
    requires i < nW && j < nW && S[0][0] == c
    requires MatMul(P, Transpose(H, 1, nW), nW, 1)[i][0] == a && MatMul(P, Transpose(H, 1, nW), nW, 1)[j][0] == b
    ensures MatMul(Gain(np, P, H, S, nW).value, MatMul(H, P, nW, nW), 1, nW)[i][j] == a / c * b
  {
    var K := Gain(np, P, H, S, nW).value;
    var HP := MatMul(H, P, nW, nW);
    SingleOutputGain(np, P, H, S, nW, i);
    DotSingle(K[i], Column(HP, j));
    HPIsPHTransposed(P, H, nW, j);
  }

  /** For a symmetric `P`, `H.dot(P)` is the transpose of `P.dot(H.T)`. */
  lemma HPIsPHTransposed(P: Matrix, H: Matrix, nW: nat, j: nat)
    requires IsMatrix(H, 1, nW) && Symmetric(P, nW) && j < nW
    ensures MatMul(H, P, nW, nW)[0][j] == MatMul(P, Transpose(H, 1, nW), nW, 1)[j][0]
  {
    assert Column(P, j) == P[j];
    assert Column(Transpose(H, 1, nW), 0) == H[0];
    DotSymmetric(H[0], P[j], nW);
  }

  lemma QuotientCommutes(a: real, b: real, s: real)
    requires s != 0.0
    ensures a / s * b == b / s * a
  {
  }

  /** Skipping `Q` when the flag is off loses nothing: a `Q` with no nonzero
      entry would have left the covariance as it is. */
  lemma ZeroQNeedsNoFlag(P: Matrix, K: Matrix, H: Matrix, Q: Matrix, nW: nat)
    requires IsMatrix(P, nW, nW) && IsMatrix(K, nW, |H|) && IsMatrix(H, |H|, nW)
    requires IsMatrix(Q, nW, nW) && !AnyNonzero(Some(Q))
    ensures CovUpdate(P, K, H, Some(Q), false, nW) == CovUpdate(P, K, H, Some(Q), true, nW)
  {
    var reduced := Sub(P, MatMul(K, MatMul(H, P, nW, nW), |H|, nW));
    var added := Add(reduced, Q);
    forall i, j | 0 <= i < nW && 0 <= j < nW
      ensures added[i][j] == reduced[i][j]
    {
      assert Q[i][j] == 0.0;
    }
    assert forall i :: 0 <= i < nW ==> added[i] == reduced[i];
  }

  /** The flag as `train` computes it: `np.any(None)` and `np.any(0 * eye)`
      are False, a nonzero scalar on a nonempty diagonal is True. */
  lemma FlagOfCheckedQ(Q: MatrixArg, n: nat)
    requires CheckMatrix(Q, n, BadQ).Ok?
    ensures Q.Absent? ==> !AnyNonzero(CheckMatrix(Q, n, BadQ).value)
    ensures Q.Scalar? ==> (AnyNonzero(CheckMatrix(Q, n, BadQ).value) <==> Q.s != 0.0 && n > 0)
  {
    if Q.Scalar? && Q.s != 0.0 && n > 0 {
      assert CheckMatrix(Q, n, BadQ).value.value[0][0] == Q.s;
    }
  }

  /** `_ekf(u, y, h, l, step)`: set `H` to the Jacobian at `(u, l)`, compute
      the gain from the stored `P` and `R`, add `step * K.dot(y - h)` to the
      flattened weights and update `P`. When `npl.inv` raises, `H` has already
      been replaced and nothing else has changed. */
  function EkfStep(d: Dims, np: Numerics, act: Activation, noise: Noise, s: State,
                   u: Vector, y: Vector, h: Vector, l: Vector, step: real): (r: (State, Outcome<Error>))
    requires np.InverseShaped() && Fits(d, s) && NoiseFits(d, noise)
    requires |u| == d.nInput && |y| == d.nOutput && |h| == d.nOutput && |l| == d.nHidden
    ensures Fits(d, r.0)
    ensures r.0.H == Some(Jacobian(act, s.W1, u, l))
    ensures r.1.Fail? <==> np.inv(Innovation(Jacobian(act, s.W1, u, l), s.P, noise.R, d.NumWeights())).None?
    ensures r.1.Fail? ==> r.1.error == SingularInnovation && r.0 == s.(H := r.0.H)
    ensures r.1.Pass? ==>
      var H := Jacobian(act, s.W1, u, l);
      && (r.0.W0, r.0.W1) == ApplyUpdate(d, s.W0, s.W1, Correction(d, np, act, noise, s, u, y, h, l, step))
      && r.0.P == CovUpdate(s.P, Gain(np, s.P, H, Innovation(H, s.P, noise.R, d.NumWeights()), d.NumWeights()).value,
                            H, noise.Q, noise.qNonzero, d.NumWeights())
  {
    var nW := d.NumWeights();
    var H := Jacobian(act, s.W1, u, l);
    assert IsMatrix(H, d.nOutput, nW);
    match Gain(np, s.P, H, Innovation(H, s.P, noise.R, nW), nW)
    case None => (s.(H := Some(H)), Fail(SingularInnovation))
    case Some(K) =>
      var dW := Correction(d, np, act, noise, s, u, y, h, l, step);
      var W := ApplyUpdate(d, s.W0, s.W1, dW);
      (State(W.0, W.1, CovUpdate(s.P, K, H, noise.Q, noise.qNonzero, nW), Some(H)), Pass)
  }

  /** The correction `dW = step * K.dot(y - h)` of a step that succeeds. */
  function Correction(d: Dims, np: Numerics, act: Activation, noise: Noise, s: State,
                      u: Vector, y: Vector, h: Vector, l: Vector, step: real): (dW: Vector)
    requires np.InverseShaped() && Fits(d, s) && NoiseFits(d, noise)
    requires |u| == d.nInput && |y| == d.nOutput && |h| == d.nOutput && |l| == d.nHidden
    requires np.inv(Innovation(Jacobian(act, s.W1, u, l), s.P, noise.R, d.NumWeights())).Some?
    ensures |dW| == d.NumWeights()
    ensures step == 0.0 ==> forall c :: 0 <= c < |dW| ==> dW[c] == 0.0
  {
    var nW := d.NumWeights();
    var H := Jacobian(act, s.W1, u, l);
    var K := Gain(np, s.P, H, Innovation(H, s.P, noise.R, nW), nW).value;
    VecScale(step, MatVec(K, VecSub(y, h)))
  }

  /** A step that succeeds adds its correction to each weight at that
      weight's flattened position, the position the Jacobian gives the
      weight's column (`JacobianHiddenEntry`, `JacobianOutputEntry`). */
  lemma StepUpdatesEachWeight(d: Dims, np: Numerics, act: Activation, noise: Noise, s: State,
                              u: Vector, y: Vector, h: Vector, l: Vector, step: real)
    requires np.InverseShaped() && Fits(d, s) && NoiseFits(d, noise)
    requires |u| == d.nInput && |y| == d.nOutput && |h| == d.nOutput && |l| == d.nHidden
    requires EkfStep(d, np, act, noise, s, u, y, h, l, step).1.Pass?
    ensures var r := EkfStep(d, np, act, noise, s, u, y, h, l, step).0;
      var dW := Correction(d, np, act, noise, s, u, y, h, l, step);
      && (forall j, i :: 0 <= j < d.nHidden && 0 <= i <= d.nInput ==>
            d.HiddenColumn(j, i) < |dW| && r.W0[j][i] == s.W0[j][i] + dW[d.HiddenColumn(j, i)])
      && (forall k, m :: 0 <= k < d.nOutput && 0 <= m <= d.nHidden ==>
            d.OutputColumn(k, m) < |dW| && r.W1[k][m] == s.W1[k][m] + dW[d.OutputColumn(k, m)])
  {
    var dW := Correction(d, np, act, noise, s, u, y, h, l, step);
    assert (EkfStep(d, np, act, noise, s, u, y, h, l, step).0.W0,
            EkfStep(d, np, act, noise, s, u, y, h, l, step).0.W1) == ApplyUpdate(d, s.W0, s.W1, dW);
    WeightPositions(d, s.W0, s.W1, dW);
  }

  /** `step = 0` makes `dW` zero: the weights stay as they are (only `P` and
      `H` move). */
  lemma ZeroStepKeepsWeights(d: Dims, np: Numerics, act: Activation, noise: Noise, s: State,
                             u: Vector, y: Vector, h: Vector, l: Vector)
    requires np.InverseShaped() && Fits(d, s) && NoiseFits(d, noise)
    requires |u| == d.nInput && |y| == d.nOutput && |h| == d.nOutput && |l| == d.nHidden
    ensures var r := EkfStep(d, np, act, noise, s, u, y, h, l, 0.0).0;
      r.W0 == s.W0 && r.W1 == s.W1
  {
    if EkfStep(d, np, act, noise, s, u, y, h, l, 0.0).1.Pass? {
      var dW := Correction(d, np, act, noise, s, u, y, h, l, 0.0);
      assert (EkfStep(d, np, act, noise, s, u, y, h, l, 0.0).0.W0,
              EkfStep(d, np, act, noise, s, u, y, h, l, 0.0).0.W1) == ApplyUpdate(d, s.W0, s.W1, dW);
      ApplyZeroUpdate(d, s.W0, s.W1, dW);
    }
  }

  /** With a single output and `npl.inv` the reciprocal on 1 x 1 matrices,
      a step keeps `P` symmetric when it starts symmetric and `Q` is. */
  lemma StepKeepsSymmetric(d: Dims, np: Numerics, act: Activation, noise: Noise, s: State,
                           u: Vector, y: Vector, h: Vector, l: Vector, step: real)
    requires np.InverseShaped() && np.InverseIsReciprocal() && Fits(d, s) && NoiseFits(d, noise)
    requires |u| == d.nInput && |y| == d.nOutput && |h| == d.nOutput && |l| == d.nHidden
    requires d.nOutput == 1 && Symmetric(s.P, d.NumWeights())
    requires noise.Q.Some? ==> Symmetric(noise.Q.value, d.NumWeights())
    ensures Symmetric(EkfStep(d, np, act, noise, s, u, y, h, l, step).0.P, d.NumWeights())
  {
    var nW := d.NumWeights();
    var H := Jacobian(act, s.W1, u, l);
    var S := Innovation(H, s.P, noise.R, nW);
    if EkfStep(d, np, act, noise, s, u, y, h, l, step).1.Pass? {
      assert IsMatrix(S, 1, 1) && np.inv(S).Some?;
      CovUpdateSymmetric(np, s.P, H, S, noise.Q, noise.qNonzero, nW);
    }
  }

  /** One feed of the training loop: `h, l = update(u, return_l=True)` with
      the current weights, then `_ekf(u, y, h, l, step)`. */
  function Feed(d: Dims, np: Numerics, act: Activation, noise: Noise, s: State,
                u: Vector, y: Vector, step: real): (r: (State, Outcome<Error>))
    requires np.Sound() && Fits(d, s) && NoiseFits(d, noise)
    requires |u| == d.nInput && |y| == d.nOutput
    ensures Fits(d, r.0) && r.0.H.Some?
    ensures r.1.Fail? ==> r.1.error == SingularInnovation && r.0 == s.(H := r.0.H)
  {
    var hl := Forward(np, act, s.W0, s.W1, u);
    EkfStep(d, np, act, noise, s, u, y, hl.0, hl.1, step)
  }
}
