/** `EKF.sig` and `EKF.dsig`: the hidden layer's activation, chosen once at
    construction, and its slope written in terms of the activation's output. */
module Activations {
  import opened Outcomes
  import opened Matrices

  datatype Activation = Logistic | Tanh | Relu

  /** The constructor's check of the `activ` tag. */
  function ParseActivation(tag: string): (r: Option<Activation>)
    ensures r == Some(Logistic) <==> tag == "logistic"
    ensures r == Some(Tanh) <==> tag == "tanh"
    ensures r == Some(Relu) <==> tag == "relu"
    ensures r.None? <==> tag !in {"logistic", "tanh", "relu"}
  {
    if tag == "logistic" then Some(Logistic)
    else if tag == "tanh" then Some(Tanh)
    else if tag == "relu" then Some(Relu)
    else None
  }

  /** `sig(V)`: logistic `1/(1+exp(-V))`, `tanh(V)`, or ReLU `clip(V, 0, inf)`. */
  function Sig(np: Numerics, act: Activation, v: real): (r: real)
    requires np.ExpPositive()
    ensures act == Logistic ==> 0.0 < r < 1.0
    ensures act == Relu ==> r >= 0.0 && r >= v && (r == v || r == 0.0)
  {
    match act
    case Logistic => 1.0 / (1.0 + np.exp(-v))
    case Tanh => np.tanh(v)
    case Relu => if v < 0.0 then 0.0 else v
  }

  /** `dsig(s)` for an already activated value `s`: at most 1 for tanh, and
      the step 0 or 1 for ReLU. `LogisticSlope` bounds the logistic slope. */
  function DSig(act: Activation, s: real): (r: real)
    ensures act == Tanh ==> r <= 1.0
    ensures act == Relu ==> (r == 1.0 <==> s > 0.0) && (r == 0.0 <==> s <= 0.0)
  {
    match act
    case Logistic => s * (1.0 - s)
    case Tanh => 1.0 - s * s
    case Relu => if s > 0.0 then 1.0 else 0.0
  }

  /** ReLU is `max(0, v)`, and its slope read off the output is the step
      function of the input: 1 where `v > 0`, else 0. */
  lemma ReluSlopeIsStep(np: Numerics, v: real)
    requires np.ExpPositive()
    ensures Sig(np, Relu, v) >= 0.0 && Sig(np, Relu, v) >= v
    ensures Sig(np, Relu, v) == v || Sig(np, Relu, v) == 0.0
    ensures DSig(Relu, Sig(np, Relu, v)) == if v > 0.0 then 1.0 else 0.0
  {
  }

  /** The logistic output lies strictly between 0 and 1, and `s(1-s)`
      evaluated at it is the analytic derivative `exp(-v)/(1+exp(-v))^2`,
      which is positive and at most 1/4. */
  lemma LogisticSlope(np: Numerics, v: real)
    requires np.ExpPositive()
    ensures 0.0 < Sig(np, Logistic, v) < 1.0
    ensures DSig(Logistic, Sig(np, Logistic, v))
      == np.exp(-v) / ((1.0 + np.exp(-v)) * (1.0 + np.exp(-v)))
    ensures 0.0 < DSig(Logistic, Sig(np, Logistic, v)) <= 0.25
  {
    var e := np.exp(-v);
    assert e > 0.0;
    var d := 1.0 + e;
    var s := 1.0 / d;
    assert s * d == 1.0;
    assert 1.0 - s == e / d by {
      assert (1.0 - s) * d == d - 1.0;
    }
    assert s * (1.0 - s) == e / (d * d) by {
      assert s * (1.0 - s) * (d * d) == (s * d) * ((1.0 - s) * d);
    }
    assert 0.25 - s * (1.0 - s) == (s - 0.5) * (s - 0.5);
  }

  /** The tanh slope `1 - s^2` is positive exactly on the open interval
      (-1, 1), where tanh takes its values, and is largest at 0. */
  lemma TanhSlope(s: real)
    ensures DSig(Tanh, s) > 0.0 <==> -1.0 < s < 1.0
    ensures DSig(Tanh, s) <= DSig(Tanh, 0.0)
  {
    if -1.0 < s < 1.0 {
      assert 1.0 - s * s == (1.0 - s) * (1.0 + s);
    } else if s >= 1.0 {
      assert s * s >= 1.0 * s;
    } else {
      assert s * s >= (-1.0) * s;
    }
  }
}
