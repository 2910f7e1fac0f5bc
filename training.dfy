/** What `EKF.train` does, as functions: the argument checks that fix P, Q,
    Q_nonzero and R before the loop, the order in which the samples are fed,
    and the filter state after feeding them. */
module Training {
  import opened Outcomes
  import opened Matrices
  import opened Activations
  import opened Network
  import opened Validation
  import opened Kalman

  /** The trainer's `self.P`, `self.Q`, `self.Q_nonzero` and `self.R`. */
  datatype Settings = Settings(P: Option<Matrix>, Q: Option<Matrix>, qNonzero: bool, R: Option<Matrix>)

  /** The stored settings have the shapes the checks give them. */
  predicate SettingsFit(d: Dims, s: Settings)
  {
    && (s.P.Some? ==> IsMatrix(s.P.value, d.NumWeights(), d.NumWeights()))
    && (s.Q.Some? ==> IsMatrix(s.Q.value, d.NumWeights(), d.NumWeights()))
    && s.qNonzero == AnyNonzero(s.Q)
    && (s.R.Some? ==> IsMatrix(s.R.value, d.nOutput, d.nOutput))
  }

  /** The checks at the top of `train` once the shapes are validated, in
      source order, with the settings each leaves behind. A check that fails
      raises after every earlier assignment has happened: P (and then Q and
      the flag, and then R) are already overwritten when a later check
      rejects the call. `R = None` passes `_check_matrix` and then fails at
      `len(self.R)`. */
  function Prepare(d: Dims, np: Numerics, prior: Settings, P: MatrixArg, Q: MatrixArg, R: MatrixArg)
    : (r: (Settings, Outcome<Error>))
    requires SettingsFit(d, prior)
    ensures SettingsFit(d, r.0)
    ensures r.1.Pass? ==> r.0.P.Some? && r.0.R.Some? && np.rank(r.0.R.value) == d.nOutput
    ensures r.1.Pass? <==>
      && (P.Absent? ==> prior.P.Some?)
      && (!P.Absent? ==> CheckMatrix(P, d.NumWeights(), BadP).Ok?)
      && CheckMatrix(Q, d.NumWeights(), BadQ).Ok?
      && CheckMatrix(R, d.nOutput, BadR).Ok?
      && CheckMatrix(R, d.nOutput, BadR).value.Some?
      && np.rank(CheckMatrix(R, d.nOutput, BadR).value.value) == d.nOutput
    ensures P.Absent? && prior.P.None? ==> r == (prior, Fail(InitialPMissing))
    ensures !P.Absent? && CheckMatrix(P, d.NumWeights(), BadP).Err? ==> r == (prior, Fail(BadP))
    ensures r.1 in {Fail(InitialPMissing), Fail(BadP)} ==> r.0 == prior
    ensures r.1.Pass? ==>
      r.0 == Settings(if P.Absent? then prior.P else CheckMatrix(P, d.NumWeights(), BadP).value,
                      CheckMatrix(Q, d.NumWeights(), BadQ).value,
                      AnyNonzero(CheckMatrix(Q, d.NumWeights(), BadQ).value),
                      CheckMatrix(R, d.nOutput, BadR).value)
  {
    if P.Absent? && prior.P.None? then (prior, Fail(InitialPMissing))
    else
      var checkedP := if P.Absent? then Ok(prior.P) else CheckMatrix(P, d.NumWeights(), BadP);
      if checkedP.Err? then (prior, Fail(BadP))
      else PrepareNoise(d, np, prior.(P := checkedP.value), Q, R)
  }

  /** The second half of those checks: Q and its flag, then R and its rank. */
  function PrepareNoise(d: Dims, np: Numerics, prior: Settings, Q: MatrixArg, R: MatrixArg)
    : (r: (Settings, Outcome<Error>))
    requires SettingsFit(d, prior)
    ensures SettingsFit(d, r.0) && r.0.P == prior.P
    ensures r.1.Pass? ==> r.0.R.Some? && np.rank(r.0.R.value) == d.nOutput
    ensures r.1.Pass? <==>
      && CheckMatrix(Q, d.NumWeights(), BadQ).Ok?
      && CheckMatrix(R, d.nOutput, BadR).Ok?
      && CheckMatrix(R, d.nOutput, BadR).value.Some?
      && np.rank(CheckMatrix(R, d.nOutput, BadR).value.value) == d.nOutput
    ensures CheckMatrix(Q, d.NumWeights(), BadQ).Err? ==> r == (prior, Fail(BadQ))
    ensures CheckMatrix(Q, d.NumWeights(), BadQ).Ok? ==>
      var withQ := prior.(Q := CheckMatrix(Q, d.NumWeights(), BadQ).value,
                          qNonzero := AnyNonzero(CheckMatrix(Q, d.NumWeights(), BadQ).value));
      var checkedR := CheckMatrix(R, d.nOutput, BadR);
      && (checkedR.Err? ==> r == (withQ, Fail(BadR)))
      && (checkedR == Ok(None) ==> r == (withQ.(R := None), Fail(RMissing)))
      && (checkedR.Ok? && checkedR.value.Some? ==>
            r == (withQ.(R := checkedR.value),
                  if np.rank(checkedR.value.value) == d.nOutput then Pass else Fail(RNotPositiveDefinite)))
  {
    var checkedQ := CheckMatrix(Q, d.NumWeights(), BadQ);
    if checkedQ.Err? then (prior, Fail(BadQ))
    else
      var s1 := prior.(Q := checkedQ.value, qNonzero := AnyNonzero(checkedQ.value));
      var checkedR := CheckMatrix(R, d.nOutput, BadR);
      if checkedR.Err? then (s1, Fail(BadR))
      else
        var s2 := s1.(R := checkedR.value);
        if s2.R.None? then (s2, Fail(RMissing))
        else if np.rank(s2.R.value) != d.nOutput then (s2, Fail(RNotPositiveDefinite))
        else (s2, Pass)
  }

  /** No P given and none stored: `train` raises and changes nothing. */
  lemma MissingPRejected(d: Dims, np: Numerics, prior: Settings, Q: MatrixArg, R: MatrixArg)
    requires SettingsFit(d, prior) && prior.P.None?
    ensures Prepare(d, np, prior, Absent, Q, R) == (prior, Fail(InitialPMissing))
  {
  }

  /** With an exact rank, a scalar R is accepted exactly when it is nonzero
      (for at least one output): the scalar 0 is rejected as not positive
      definite, after P, Q and the flag have been overwritten. */
  lemma ScalarRChecked(d: Dims, np: Numerics, prior: Settings, P: MatrixArg, Q: MatrixArg, s: real)
    requires SettingsFit(d, prior) && np.RankExactOnScaledIdentity() && d.nOutput > 0
    requires P.Absent? ==> prior.P.Some?
    requires !P.Absent? ==> CheckMatrix(P, d.NumWeights(), BadP).Ok?
    requires CheckMatrix(Q, d.NumWeights(), BadQ).Ok?
    ensures var r := Prepare(d, np, prior, P, Q, Scalar(s));
      && (r.1.Pass? <==> s != 0.0)
      && (s == 0.0 ==> r.1 == Fail(RNotPositiveDefinite))
      && r.0.Q == CheckMatrix(Q, d.NumWeights(), BadQ).value
      && r.0.P == (if P.Absent? then prior.P else CheckMatrix(P, d.NumWeights(), BadP).value)
  {
    assert CheckMatrix(Scalar(s), d.nOutput, BadR).value.value == ScaledIdentity(s, d.nOutput);
  }

  /** When the R checks reject the call, P, Q and the flag already hold the
      new values: only the W matrices and H are left as they were. */
  lemma RejectedROverwritesPQ(d: Dims, np: Numerics, prior: Settings, P: MatrixArg, Q: MatrixArg, R: MatrixArg)
    requires SettingsFit(d, prior)
    requires Prepare(d, np, prior, P, Q, R).1 in {Fail(BadR), Fail(RMissing), Fail(RNotPositiveDefinite)}
    ensures var r := Prepare(d, np, prior, P, Q, R).0;
      && r.P == (if P.Absent? then prior.P else CheckMatrix(P, d.NumWeights(), BadP).value)
      && r.Q == CheckMatrix(Q, d.NumWeights(), BadQ).value
      && r.qNonzero == AnyNonzero(r.Q)
  {
  }

  /** The noise settings the loop runs with. */
  function NoiseOf(s: Settings): Noise
    requires s.R.Some?
  {
    Noise(s.Q, s.qNonzero, s.R.value)
  }

  /** `0, 1, ..., n-1`. */
  function Range(n: nat): (r: seq<nat>)
    ensures |r| == n && forall i :: 0 <= i < n ==> r[i] == i
  {
    seq(n, i requires 0 <= i < n => i)
  }

  /** What `np.random.permutation(n)` returns: each of `0 .. n-1` once. */
  predicate IsPermutation(p: seq<nat>, n: nat)
  {
    multiset(p) == multiset(Range(n))
  }

  /** A permutation of `0 .. n-1` has length n, visits every sample exactly
      once and no index outside the data. */
  lemma PermutationVisitsEachOnce(p: seq<nat>, n: nat)
    requires IsPermutation(p, n)
    ensures |p| == n
    ensures forall x: nat :: x < n ==> multiset(p)[x] == 1
    ensures forall t :: 0 <= t < |p| ==> p[t] < n
  {
    assert |p| == |multiset(p)| == |multiset(Range(n))| == n;
    RangeCounts(n);
    forall t | 0 <= t < |p|
      ensures p[t] < n
    {
      assert p[t] in multiset(p);
    }
  }

  lemma {:induction false} RangeCounts(n: nat)
    ensures forall x: nat :: multiset(Range(n))[x] == if x < n then 1 else 0
  {
    if n > 0 {
      RangeCounts(n - 1);
      assert Range(n) == Range(n - 1) + [n - 1];
    } else {
      assert Range(0) == [];
    }
  }

  /** The sample indices in the order the loop feeds them: the permutation of
      the first epoch, then of the second, and so on. */
  function Order(perms: seq<seq<nat>>): (o: seq<nat>)
    ensures |perms| == 0 ==> o == []
  {
    if |perms| == 0 then [] else Order(perms[..|perms| - 1]) + perms[|perms| - 1]
  }

  /** Feeding epochs `a` and then epochs `b` is feeding `a + b`. */
  lemma {:induction false} OrderAppend(a: seq<seq<nat>>, b: seq<seq<nat>>)
    ensures Order(a + b) == Order(a) + Order(b)
    decreases |b|
  {
    if |b| > 0 {
      var b' := b[..|b| - 1];
      assert (a + b)[..|a + b| - 1] == a + b';
      OrderAppend(a, b');
    } else {
      assert a + b == a;
    }
  }

  /** With `n` samples per epoch the loop feeds `epochs * n` samples. */
  lemma {:induction false} OrderLength(perms: seq<seq<nat>>, n: nat)
    requires forall e :: 0 <= e < |perms| ==> |perms[e]| == n
    ensures |Order(perms)| == |perms| * n
  {
    if |perms| > 0 {
      OrderLength(perms[..|perms| - 1], n);
      MulSucc(|perms| - 1, n);
    }
  }

  /** Position `e*n + i` of the order fed is sample `perms[e][i]`: the
      `i`-th sample of epoch `e`. */
  lemma {:induction false} OrderAt(perms: seq<seq<nat>>, n: nat, e: nat, i: nat)
    requires forall e :: 0 <= e < |perms| ==> |perms[e]| == n
    requires e < |perms| && i < n
    ensures e * n + i < |Order(perms)| && Order(perms)[e * n + i] == perms[e][i]
    decreases |perms|
  {
    var init := perms[..|perms| - 1];
    OrderLength(init, n);
    OrderLength(perms, n);
    FlatBound(e, i, |perms|, n);
    assert Order(perms) == Order(init) + perms[|perms| - 1];
    if e < |init| {
      OrderAt(init, n, e, i);
      FlatBound(e, i, |init|, n);
      assert perms[e] == init[e];
    } else {
      assert e * n + i == |Order(init)| + i;
    }
  }

  /** Every epoch's order that is a permutation of the `n` samples only
      indexes samples of the data. */
  lemma PermutationsInRange(perms: seq<seq<nat>>, n: nat)
    requires forall e :: 0 <= e < |perms| ==> IsPermutation(perms[e], n)
    ensures forall e, k :: 0 <= e < |perms| && 0 <= k < |perms[e]| ==> perms[e][k] < n
  {
    forall e | 0 <= e < |perms|
      ensures forall k :: 0 <= k < |perms[e]| ==> perms[e][k] < n
    {
      PermutationVisitsEachOnce(perms[e], n);
    }
  }

  /** When every epoch only indexes the `n` samples, so does the whole
      order fed. */
  lemma {:induction false} OrderInRange(perms: seq<seq<nat>>, n: nat)
    requires forall e, k :: 0 <= e < |perms| && 0 <= k < |perms[e]| ==> perms[e][k] < n
    ensures forall t :: 0 <= t < |Order(perms)| ==> Order(perms)[t] < n
  {
    if |perms| > 0 {
      OrderInRange(perms[..|perms| - 1], n);
    }
  }

  /** The orders fed after `e` epochs, after `e + 1`, and in all. */
  lemma EpochsPrefix(perms: seq<seq<nat>>, e: nat)
    requires e < |perms|
    ensures Order(perms[..e + 1]) == Order(perms[..e]) + perms[e]
    ensures Order(perms) == Order(perms[..e + 1]) + Order(perms[e + 1..])
  {
    OrderNextEpoch(perms, e);
    OrderAfterEpoch(perms, e);
  }

  lemma OrderNextEpoch(perms: seq<seq<nat>>, e: nat)
    requires e < |perms|
    ensures Order(perms[..e + 1]) == Order(perms[..e]) + perms[e]
  {
    var first := perms[..e + 1];
    assert first[..e] == perms[..e];
  }

  lemma OrderAfterEpoch(perms: seq<seq<nat>>, e: nat)
    requires e < |perms|
    ensures Order(perms) == Order(perms[..e + 1]) + Order(perms[e + 1..])
  {
    assert perms == perms[..e + 1] + perms[e + 1..];
    OrderAppend(perms[..e + 1], perms[e + 1..]);
  }

  /** The loop body fed the samples of `order` in turn, stopping at the first
      step that raises. */
  function Run(d: Dims, np: Numerics, act: Activation, noise: Noise, s: State,
               U: Matrix, Y: Matrix, order: seq<nat>, step: real): (r: (State, Outcome<Error>))
    requires np.Sound() && Fits(d, s) && NoiseFits(d, noise)
    requires IsMatrix(U, |U|, d.nInput) && IsMatrix(Y, |U|, d.nOutput)
    requires forall t :: 0 <= t < |order| ==> order[t] < |U|
    ensures Fits(d, r.0)
    ensures r.1.Fail? ==> r.1.error == SingularInnovation
    decreases |order|
  {
    if |order| == 0 then (s, Pass)
    else
      var prev := Run(d, np, act, noise, s, U, Y, order[..|order| - 1], step);
      if prev.1.Fail? then prev
      else
        var x := order[|order| - 1];
        Feed(d, np, act, noise, prev.0, U[x], Y[x], step)
  }

  /** Feeding `order` from `s` is well defined and ends in the state `t`
      with the outcome `o`. */
  ghost predicate Leads(d: Dims, np: Numerics, act: Activation, noise: Noise, s: State,
                        U: Matrix, Y: Matrix, order: seq<nat>, step: real, t: State, o: Outcome<Error>)
  {
    && np.Sound() && Fits(d, s) && NoiseFits(d, noise)
    && IsMatrix(U, |U|, d.nInput) && IsMatrix(Y, |U|, d.nOutput)
    && (forall k :: 0 <= k < |order| ==> order[k] < |U|)
    && Run(d, np, act, noise, s, U, Y, order, step) == (t, o)
  }

  /** Feeding one more sample: the run of `order + [x]` is the run of
      `order` followed by one feed of sample `x`, unless it already raised. */
  lemma RunExtend(d: Dims, np: Numerics, act: Activation, noise: Noise, s: State,
                  U: Matrix, Y: Matrix, order: seq<nat>, x: nat, step: real)
    requires np.Sound() && Fits(d, s) && NoiseFits(d, noise)
    requires IsMatrix(U, |U|, d.nInput) && IsMatrix(Y, |U|, d.nOutput)
    requires forall t :: 0 <= t < |order| ==> order[t] < |U|
    requires x < |U|
    ensures forall t :: 0 <= t < |order + [x]| ==> (order + [x])[t] < |U|
    ensures var prev := Run(d, np, act, noise, s, U, Y, order, step);
      Run(d, np, act, noise, s, U, Y, order + [x], step)
        == if prev.1.Fail? then prev else Feed(d, np, act, noise, prev.0, U[x], Y[x], step)
  {
    assert (order + [x])[..|order|] == order;
  }

  /** The prefixes of an epoch's order that the loop walks through. */
  lemma EpochPrefix(done: seq<nat>, p: seq<nat>, i: nat)
    requires i < |p|
    ensures done + p[..0] == done
    ensures done + p[..i + 1] == (done + p[..i]) + [p[i]]
    ensures done + p == (done + p[..i + 1]) + p[i + 1..]
    ensures p[..|p|] == p
  {
    assert p[..i + 1] == p[..i] + [p[i]];
    assert p == p[..i + 1] + p[i + 1..];
  }

  /** One sample of an epoch `p` fed after the orders `done`: a pass leads
      on to the next prefix of the epoch, a failure already accounts for the
      whole epoch. */
  lemma EpochStep(d: Dims, np: Numerics, act: Activation, noise: Noise, s: State,
                  U: Matrix, Y: Matrix, done: seq<nat>, p: seq<nat>, i: nat, step: real, t: State, o: Outcome<Error>)
    requires i < |p| && forall k :: 0 <= k < |p| ==> p[k] < |U|
    requires Leads(d, np, act, noise, s, U, Y, done + p[..i] + [p[i]], step, t, o)
    ensures o.Pass? ==> Leads(d, np, act, noise, s, U, Y, done + p[..i + 1], step, t, o)
    ensures o.Fail? ==> Leads(d, np, act, noise, s, U, Y, done + p, step, t, o)
  {
    EpochPrefix(done, p, i);
    if o.Fail? {
      LeadsPastFailure(d, np, act, noise, s, U, Y, done + p[..i + 1], p[i + 1..], step, t, o);
    }
  }

  /** Once a step raises, the later samples are not fed. */
  lemma {:induction false} RunStopsAtFailure(d: Dims, np: Numerics, act: Activation, noise: Noise, s: State,
                                             U: Matrix, Y: Matrix, order: seq<nat>, rest: seq<nat>, step: real)
    requires np.Sound() && Fits(d, s) && NoiseFits(d, noise)
    requires IsMatrix(U, |U|, d.nInput) && IsMatrix(Y, |U|, d.nOutput)
    requires forall t :: 0 <= t < |order| ==> order[t] < |U|
    requires forall t :: 0 <= t < |rest| ==> rest[t] < |U|
    requires Run(d, np, act, noise, s, U, Y, order, step).1.Fail?
    ensures Run(d, np, act, noise, s, U, Y, order + rest, step) == Run(d, np, act, noise, s, U, Y, order, step)
    decreases |rest|
  {
    if |rest| > 0 {
      var rest' := rest[..|rest| - 1];
      assert (order + rest)[..|order + rest| - 1] == order + rest';
      RunStopsAtFailure(d, np, act, noise, s, U, Y, order, rest', step);
    } else {
      assert order + rest == order;
    }
  }

  /** `RunStopsAtFailure` for a run known through `Leads`. */
  lemma LeadsPastFailure(d: Dims, np: Numerics, act: Activation, noise: Noise, s: State,
                         U: Matrix, Y: Matrix, order: seq<nat>, rest: seq<nat>, step: real, t: State, o: Outcome<Error>)
    requires Leads(d, np, act, noise, s, U, Y, order, step, t, o) && o.Fail?
    requires forall k :: 0 <= k < |rest| ==> rest[k] < |U|
    ensures Leads(d, np, act, noise, s, U, Y, order + rest, step, t, o)
  {
    RunStopsAtFailure(d, np, act, noise, s, U, Y, order, rest, step);
  }

  /** With `step = 0` every feed leaves the weights alone, so a whole run
      does too (only P and H move). */
  lemma {:induction false} ZeroStepRunKeepsWeights(d: Dims, np: Numerics, act: Activation, noise: Noise, s: State,
                                                   U: Matrix, Y: Matrix, order: seq<nat>)
    requires np.Sound() && Fits(d, s) && NoiseFits(d, noise)
    requires IsMatrix(U, |U|, d.nInput) && IsMatrix(Y, |U|, d.nOutput)
    requires forall t :: 0 <= t < |order| ==> order[t] < |U|
    ensures Run(d, np, act, noise, s, U, Y, order, 0.0).0.W0 == s.W0
    ensures Run(d, np, act, noise, s, U, Y, order, 0.0).0.W1 == s.W1
    decreases |order|
  {
    if |order| > 0 {
      var init := order[..|order| - 1];
      ZeroStepRunKeepsWeights(d, np, act, noise, s, U, Y, init);
      var prev := Run(d, np, act, noise, s, U, Y, init, 0.0);
      if prev.1.Pass? {
        var x := order[|order| - 1];
        var hl := Forward(np, act, prev.0.W0, prev.0.W1, U[x]);
        ZeroStepKeepsWeights(d, np, act, noise, prev.0, U[x], Y[x], hl.0, hl.1);
      }
    }
  }

  /** With a single output, `npl.inv` the reciprocal on 1 x 1 matrices and a
      symmetric `Q`, a whole run keeps a symmetric `P` symmetric. */
  lemma {:induction false} RunKeepsSymmetric(d: Dims, np: Numerics, act: Activation, noise: Noise, s: State,
                                             U: Matrix, Y: Matrix, order: seq<nat>, step: real)
    requires np.Sound() && np.InverseIsReciprocal() && Fits(d, s) && NoiseFits(d, noise)
    requires IsMatrix(U, |U|, d.nInput) && IsMatrix(Y, |U|, d.nOutput)
    requires forall t :: 0 <= t < |order| ==> order[t] < |U|
    requires d.nOutput == 1 && Symmetric(s.P, d.NumWeights())
    requires noise.Q.Some? ==> Symmetric(noise.Q.value, d.NumWeights())
    ensures Symmetric(Run(d, np, act, noise, s, U, Y, order, step).0.P, d.NumWeights())
    decreases |order|
  {
    if |order| > 0 {
      var init := order[..|order| - 1];
      RunKeepsSymmetric(d, np, act, noise, s, U, Y, init, step);
      var prev := Run(d, np, act, noise, s, U, Y, init, step);
      if prev.1.Pass? {
        var x := order[|order| - 1];
        var hl := Forward(np, act, prev.0.W0, prev.0.W1, U[x]);
        StepKeepsSymmetric(d, np, act, noise, prev.0, U[x], Y[x], hl.0, hl.1, step);
      }
    }
  }
}
