/** The `EKF` class: a network whose weights, covariance and noise settings
    are fields that `_ekf`, `update_weights_and_cov` and `train` update in
    place. Each method is specified by the functions of `Kalman` and
    `Training`. */
module Trainer {
  import opened Outcomes
  import opened Matrices
  import opened Activations
  import opened Network
  import opened Validation
  import opened Kalman
  import opened Training

  /** `weight_scale * (2 * np.random.sample(shape) - 1)`, with the samples
      supplied by `sample(layer, row, column)`. */
  function InitialWeights(weightScale: real, sample: (nat, nat, nat) -> real, layer: nat, rows: nat, cols: nat)
    : (W: Matrix)
    ensures IsMatrix(W, rows, cols)
  {
    seq(rows, j requires 0 <= j < rows =>
      seq(cols, i requires 0 <= i < cols => weightScale * (2.0 * sample(layer, j, i) - 1.0)))
  }

  /** Samples in [0, 1) give weights in [-weight_scale, weight_scale). */
  lemma InitialWeightsBounded(weightScale: real, sample: (nat, nat, nat) -> real, layer: nat, rows: nat, cols: nat)
    requires weightScale > 0.0
    requires forall j, i :: 0 <= j < rows && 0 <= i < cols ==> 0.0 <= sample(layer, j, i) < 1.0
    ensures forall j, i :: 0 <= j < rows && 0 <= i < cols ==>
      -weightScale <= InitialWeights(weightScale, sample, layer, rows, cols)[j][i] < weightScale
  {
    forall j, i | 0 <= j < rows && 0 <= i < cols
      ensures -weightScale <= InitialWeights(weightScale, sample, layer, rows, cols)[j][i] < weightScale
    {
      var W := InitialWeights(weightScale, sample, layer, rows, cols);
      assert W[j][i] == weightScale * (2.0 * sample(layer, j, i) - 1.0);
      ScaledSampleBounded(weightScale, sample(layer, j, i));
    }
  }

  lemma ScaledSampleBounded(c: real, x: real)
    requires c > 0.0 && 0.0 <= x < 1.0
    ensures -c <= c * (2.0 * x - 1.0) < c
  {
    assert c * (2.0 * x - 1.0) == 2.0 * (c * x) - c;
    assert 0.0 <= c * x < c;
  }

  class EKF {
    const nInput: nat
    const nOutput: nat
    const nHidden: nat
    const activ: Activation
    /** exp, tanh, npl.inv and npl.matrix_rank. */
    const np: Numerics
    const numWeights: nat

    var W0: Matrix
    var W1: Matrix
    var P: Option<Matrix>
    var Q: Option<Matrix>
    var qNonzero: bool
    var R: Option<Matrix>
    var H: Option<Matrix>

    function Shape(): Dims
    {
      Dims(nInput, nHidden, nOutput)
    }

    /** P, Q, Q_nonzero and R as they are stored. */
    function Stored(): Settings
      reads this
    {
      Settings(P, Q, qNonzero, R)
    }

    /** The part of the state `_ekf` works on. */
    function Filter(): State
      reads this
      requires P.Some?
    {
      State(W0, W1, P.value, H)
    }

    /** The shapes every method keeps, and num_weights the weight count. */
    ghost predicate Valid()
      reads this
    {
      && np.Sound()
      && numWeights == Shape().NumWeights()
      && Shape().Shaped(W0, W1)
      && SettingsFit(Shape(), Stored())
      && (H.Some? ==> IsMatrix(H.value, nOutput, numWeights))
    }

    /** `__init__` once `activ` is known to be valid: random weights of the
        two layer shapes, num_weights their total size, and no P yet (Q, R,
        H and the flag are not set by the source until `train`; here they
        start empty). */
    constructor (nInput: nat, nOutput: nat, nHidden: nat, activ: Activation, np: Numerics,
                 weightScale: real, sample: (nat, nat, nat) -> real)
      requires np.Sound()
      ensures Valid()
      ensures this.nInput == nInput && this.nOutput == nOutput && this.nHidden == nHidden
      ensures this.activ == activ && this.np == np
      ensures numWeights == nHidden * (nInput + 1) + nOutput * (nHidden + 1)
      ensures W0 == InitialWeights(weightScale, sample, 0, nHidden, nInput + 1)
      ensures W1 == InitialWeights(weightScale, sample, 1, nOutput, nHidden + 1)
      ensures P.None? && Q.None? && !qNonzero && R.None? && H.None?
    {
      this.nInput := nInput;
      this.nOutput := nOutput;
      this.nHidden := nHidden;
      this.activ := activ;
      this.np := np;
      W0 := InitialWeights(weightScale, sample, 0, nHidden, nInput + 1);
      W1 := InitialWeights(weightScale, sample, 1, nOutput, nHidden + 1);
      numWeights := nHidden * (nInput + 1) + nOutput * (nHidden + 1);
      P := None;
      Q := None;
      qNonzero := false;
      R := None;
      H := None;
    }

    /** `kalman_gain(P, H, R)`: `P.dot(H.T)` times the inverse of
        `H.dot(self.P).dot(H.T) + self.R`. The inverse reads the stored P
        and R, whatever is passed. */
    function KalmanGain(P: Matrix, H: Matrix, R: Matrix): (K: Option<Matrix>)
      reads this
      requires Valid() && this.P.Some? && this.R.Some?
      requires IsMatrix(P, numWeights, numWeights) && IsMatrix(H, nOutput, numWeights)
      ensures K.Some? ==> IsMatrix(K.value, numWeights, nOutput)
    {
      Gain(np, P, H, Innovation(H, this.P.value, this.R.value, numWeights), numWeights)
    }

    /** The `R` argument plays no part, and the inverse is taken of the
        innovation built from the stored P and R whatever P is passed. With
        the stored P passed, as `_ekf` does, the result is the Kalman gain of
        the stored P and R. */
    lemma KalmanGainUsesStoredPR(P: Matrix, H: Matrix, R: Matrix, R': Matrix)
      requires Valid() && this.P.Some? && this.R.Some?
      requires IsMatrix(P, numWeights, numWeights) && IsMatrix(H, nOutput, numWeights)
      ensures KalmanGain(P, H, R) == KalmanGain(P, H, R')
      ensures KalmanGain(P, H, R).Some? <==> np.inv(Innovation(H, this.P.value, this.R.value, numWeights)).Some?
      ensures P == this.P.value ==>
        KalmanGain(P, H, R) == Gain(np, P, H, Innovation(H, P, this.R.value, numWeights), numWeights)
    {
    }

    /** `update_weights_and_cov(K, dW)`: `dW` cut row-major into the two
        layers and added to them, then `P - K.dot(H.dot(P))`, plus `Q` when
        the flag is set. */
    method UpdateWeightsAndCov(K: Matrix, dW: Vector)
      requires Valid() && P.Some? && H.Some?
      requires IsMatrix(K, numWeights, nOutput) && |dW| == numWeights
      modifies this
      ensures Valid() && P.Some?
      ensures Q == old(Q) && qNonzero == old(qNonzero) && R == old(R) && H == old(H)
      ensures (W0, W1) == ApplyUpdate(Shape(), old(W0), old(W1), dW)
      ensures P.value == CovUpdate(old(P.value), K, H.value, Q, qNonzero, numWeights)
    {
      var hs := Shape().HiddenSize();
      W0 := Add(W0, Reshape(dW[..hs], nHidden, nInput + 1));
      W1 := Add(W1, Reshape(dW[hs..], nOutput, nHidden + 1));
      P := Some(Sub(P.value, MatMul(K, MatMul(H.value, P.value, numWeights, numWeights), nOutput, numWeights)));
      if qNonzero {
        P := Some(Add(P.value, Q.value));
      }
    }

    /** `_ekf(u, y, h, l, step)` on the fields. */
    method Ekf(u: Vector, y: Vector, h: Vector, l: Vector, step: real) returns (o: Outcome<Error>)
      requires Valid() && P.Some? && R.Some?
      requires |u| == nInput && |y| == nOutput && |h| == nOutput && |l| == nHidden
      modifies this
      ensures Valid() && P.Some? && R.Some?
      ensures (Filter(), o) == EkfStep(Shape(), np, activ, NoiseOf(old(Stored())), old(Filter()), u, y, h, l, step)
      ensures Q == old(Q) && qNonzero == old(qNonzero) && R == old(R)
    {
      H := Some(Jacobian(activ, W1, u, l));
      var K := KalmanGain(P.value, H.value, R.value);
      if K.None? {
        return Fail(SingularInnovation);
      }
      var dW := VecScale(step, MatVec(K.value, VecSub(y, h)));
      UpdateWeightsAndCov(K.value, dW);
      o := Pass;
    }

    /** `train(n_epochs, U, Y, P, Q, R, step)`: validate the arrays, fix P,
        Q, Q_nonzero and R (`Configure`), then for each epoch feed the
        samples in the order of that epoch's permutation (`perms[epoch]`
        stands for `np.random.permutation(len(U))`), stopping when a step
        raises. A negative `n_epochs` runs no epoch, as `range` does. */
    method Train(nEpochs: int, U: Array2, Y: Array2, givenP: MatrixArg, givenQ: MatrixArg, givenR: MatrixArg,
                 step: real, perms: seq<seq<nat>>) returns (o: Outcome<Error>)
      requires Valid() && U.Wellformed() && Y.Wellformed()
      requires |perms| == if nEpochs < 0 then 0 else nEpochs
      requires forall e :: 0 <= e < |perms| ==> IsPermutation(perms[e], |U.rows|)
      modifies this
      ensures Valid()
      ensures ValidateShape(U, Y, nInput, nOutput).Err? ==>
        o == Fail(ValidateShape(U, Y, nInput, nOutput).error) && Stored() == old(Stored())
        && W0 == old(W0) && W1 == old(W1) && H == old(H)
      ensures ValidateShape(U, Y, nInput, nOutput).Ok? ==>
        var prep := Prepare(Shape(), np, old(Stored()), givenP, givenQ, givenR);
        && (prep.1.Fail? ==> o == prep.1 && Stored() == prep.0 && W0 == old(W0) && W1 == old(W1) && H == old(H))
        && (prep.1.Pass? ==>
              && P.Some? && Q == prep.0.Q && qNonzero == prep.0.qNonzero && R == prep.0.R
              && (forall t :: 0 <= t < |Order(perms)| ==> Order(perms)[t] < |U.rows|)
              && (Filter(), o) == Run(Shape(), np, activ, NoiseOf(prep.0), State(old(W0), old(W1), prep.0.P.value, old(H)),
                                      U.rows, Y.rows, Order(perms), step))
    {
      var checked := ValidateShape(U, Y, nInput, nOutput);
      if checked.Err? {
        return Fail(checked.error);
      }
      o := Configure(givenP, givenQ, givenR);
      if o.Fail? {
        return;
      }
      PermutationsInRange(perms, |U.rows|);
      assert Leads(Shape(), np, activ, NoiseOf(Stored()), Filter(), U.rows, Y.rows, [], step, Filter(), Pass);
      o := Epochs(U.rows, Y.rows, perms, step, Filter());
    }

    /** def_ekf.py:131-139, the loop of `train`: the epochs in turn, each fed
        in its own order, stopping at the first step that raises. */
    method Epochs(U: Matrix, Y: Matrix, perms: seq<seq<nat>>, step: real, ghost start: State)
      returns (o: Outcome<Error>)
      requires Valid() && P.Some? && R.Some?
      requires forall e, k :: 0 <= e < |perms| && 0 <= k < |perms[e]| ==> perms[e][k] < |U|
      requires Leads(Shape(), np, activ, NoiseOf(Stored()), start, U, Y, [], step, Filter(), Pass)
      modifies this
      ensures Valid() && P.Some? && R.Some?
      ensures Q == old(Q) && qNonzero == old(qNonzero) && R == old(R)
      ensures Leads(Shape(), np, activ, NoiseOf(old(Stored())), start, U, Y, Order(perms), step, Filter(), o)
    {
      ghost var noise := NoiseOf(Stored());
      if |perms| == 0 {
        return Pass;
      }
      assert perms[..0] == [];
      var epoch := 0;
      while epoch < |perms|
        invariant 0 <= epoch <= |perms|
        invariant Valid() && P.Some? && R.Some? && NoiseOf(Stored()) == noise
        invariant Q == old(Q) && qNonzero == old(qNonzero) && R == old(R)
        invariant Leads(Shape(), np, activ, noise, start, U, Y, Order(perms[..epoch]), step, Filter(), Pass)
      {
        o := Epoch(U, Y, perms[epoch], step, start, Order(perms[..epoch]));
        EpochsPrefix(perms, epoch);
        if o.Fail? {
          OrderInRange(perms[epoch + 1..], |U|);
          LeadsPastFailure(Shape(), np, activ, noise, start, U, Y, Order(perms[..epoch + 1]), Order(perms[epoch + 1..]), step, Filter(), o);
          return;
        }
        epoch := epoch + 1;
      }
      assert perms[..epoch] == perms;
      o := Pass;
    }

    /** def_ekf.py:118-128, the checks of `train`: P from the argument or the
        stored one, then `ConfigureNoise`. */
    method Configure(givenP: MatrixArg, givenQ: MatrixArg, givenR: MatrixArg) returns (o: Outcome<Error>)
      requires Valid()
      modifies this
      ensures Valid()
      ensures (Stored(), o) == Prepare(Shape(), np, old(Stored()), givenP, givenQ, givenR)
      ensures W0 == old(W0) && W1 == old(W1) && H == old(H)
    {
      if givenP.Absent? {
        if P.None? {
          return Fail(InitialPMissing);
        }
      } else {
        var checkedP := CheckMatrix(givenP, numWeights, BadP);
        if checkedP.Err? {
          return Fail(BadP);
        }
        P := checkedP.value;
      }
      o := ConfigureNoise(givenQ, givenR);
    }

    /** def_ekf.py:123-128, the noise checks of `train`: Q and its flag, then R
        and its rank check, each field assigned as soon as its argument is
        checked. */
    method ConfigureNoise(givenQ: MatrixArg, givenR: MatrixArg) returns (o: Outcome<Error>)
      requires Valid()
      modifies this
      ensures Valid()
      ensures (Stored(), o) == PrepareNoise(Shape(), np, old(Stored()), givenQ, givenR)
      ensures W0 == old(W0) && W1 == old(W1) && H == old(H)
    {
      var checkedQ := CheckMatrix(givenQ, numWeights, BadQ);
      if checkedQ.Err? {
        return Fail(BadQ);
      }
      Q := checkedQ.value;
      qNonzero := AnyNonzero(Q);
      var checkedR := CheckMatrix(givenR, nOutput, BadR);
      if checkedR.Err? {
        return Fail(BadR);
      }
      R := checkedR.value;
      if R.None? {
        return Fail(RMissing);
      }
      if np.rank(R.value) != nOutput {
        return Fail(RNotPositiveDefinite);
      }
      o := Pass;
    }

    /** The body of the loop in `train` for the sample `x`:
        `h, l = update(u, return_l=True)` and `feed(u, y, h, l, step)`.
        `order` is what was fed before from the state `start`. */
    method FeedSample(U: Matrix, Y: Matrix, x: nat, step: real, ghost start: State, ghost order: seq<nat>)
      returns (o: Outcome<Error>)
      requires Valid() && P.Some? && R.Some? && x < |U|
      requires Leads(Shape(), np, activ, NoiseOf(Stored()), start, U, Y, order, step, Filter(), Pass)
      modifies this
      ensures Valid() && P.Some? && R.Some?
      ensures Q == old(Q) && qNonzero == old(qNonzero) && R == old(R)
      ensures Leads(Shape(), np, activ, NoiseOf(old(Stored())), start, U, Y, order + [x], step, Filter(), o)
    {
      ghost var noise := NoiseOf(Stored());
      RunExtend(Shape(), np, activ, noise, start, U, Y, order, x, step);
      var u, y := U[x], Y[x];
      var hl := Forward(np, activ, W0, W1, u);
      o := Ekf(u, y, hl.0, hl.1, step);
    }

    /** One epoch of the loop in `train`: `FeedSample` for each sample in
        the order of `shuffled` (a permutation of the sample indices), stopping when a step raises. `done` is the
        order fed by the earlier epochs from the state `start`. */
    method Epoch(U: Matrix, Y: Matrix, shuffled: seq<nat>, step: real, ghost start: State, ghost done: seq<nat>)
      returns (o: Outcome<Error>)
      requires Valid() && P.Some? && R.Some?
      requires forall k :: 0 <= k < |shuffled| ==> shuffled[k] < |U|
      requires Leads(Shape(), np, activ, NoiseOf(Stored()), start, U, Y, done, step, Filter(), Pass)
      modifies this
      ensures Valid() && P.Some? && R.Some?
      ensures Q == old(Q) && qNonzero == old(qNonzero) && R == old(R)
      ensures Leads(Shape(), np, activ, NoiseOf(old(Stored())), start, U, Y, done + shuffled, step, Filter(), o)
    {
      ghost var noise := NoiseOf(Stored());
      if |shuffled| == 0 {
        assert done + shuffled == done;
        return Pass;
      }
      EpochPrefix(done, shuffled, 0);
      var i := 0;
      while i < |shuffled|
        invariant 0 <= i <= |shuffled|
        invariant Valid() && P.Some? && R.Some? && NoiseOf(Stored()) == noise
        invariant Q == old(Q) && qNonzero == old(qNonzero) && R == old(R)
        invariant Leads(Shape(), np, activ, noise, start, U, Y, done + shuffled[..i], step, Filter(), Pass)
      {
        o := FeedSample(U, Y, shuffled[i], step, start, done + shuffled[..i]);
        EpochStep(Shape(), np, activ, noise, start, U, Y, done, shuffled, i, step, Filter(), o);
        if o.Fail? {
          return;
        }
        i := i + 1;
      }
      EpochPrefix(done, shuffled, 0);
      o := Pass;
    }
  }

  /** `EKF(n_input, n_output, n_hidden, activ, weight_scale)`: an `activ`
      outside 'logistic', 'tanh' and 'relu' raises; otherwise the object of
      the constructor. */
  method NewEKF(nInput: nat, nOutput: nat, nHidden: nat, activ: string, np: Numerics,
                weightScale: real, sample: (nat, nat, nat) -> real) returns (r: Result<EKF, Error>)
    requires np.Sound()
    ensures r.Err? <==> activ !in {"logistic", "tanh", "relu"}
    ensures r.Err? ==> r.error == UnknownActivation
    ensures r.Ok? ==> fresh(r.value) && r.value.Valid() && Some(r.value.activ) == ParseActivation(activ)
    ensures r.Ok? ==> r.value.numWeights == nHidden * (nInput + 1) + nOutput * (nHidden + 1)
    ensures r.Ok? ==> r.value.nInput == nInput && r.value.nOutput == nOutput && r.value.nHidden == nHidden
    ensures r.Ok? ==> r.value.np == np
    ensures r.Ok? ==> r.value.W0 == InitialWeights(weightScale, sample, 0, nHidden, nInput + 1)
    ensures r.Ok? ==> r.value.W1 == InitialWeights(weightScale, sample, 1, nOutput, nHidden + 1)
    ensures r.Ok? ==> r.value.P.None? && r.value.Q.None? && !r.value.qNonzero && r.value.R.None? && r.value.H.None?
  {
    var parsed := ParseActivation(activ);
    if parsed.None? {
      return Err(UnknownActivation);
    }
    var net := new EKF(nInput, nOutput, nHidden, parsed.value, np, weightScale, sample);
    return Ok(net);
  }
}
