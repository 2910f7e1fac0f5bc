# EKF neural-network trainer, modelled in Dafny

`def_ekf.py` trains a two-layer neural network with an Extended Kalman Filter.
The network has `n_input` inputs, `n_hidden` hidden units and `n_output` outputs.
Its activation is logistic, tanh or ReLU, and each weight matrix carries a trailing bias column.
The weights themselves are the filter's state.

For each training sample the trainer does four things:
- it runs the network forward (`update`);
- it builds the Jacobian of the outputs with respect to every weight (`jacobian`);
- it computes the Kalman gain from the covariance `P` and the measurement noise `R` (`kalman_gain`);
- it adds `step * K (y - h)` to the flattened weights and updates `P`, adding the process noise `Q` when it has a nonzero entry (`update_weights_and_cov`, `_ekf`).

Before the loop, `train` runs its checks in this order:
- it validates the shapes of the data;
- it takes `P` from the argument or from the stored value;
- it checks `P`, `Q` and `R` with `_check_matrix`: a scalar becomes that multiple of the identity, an array must already be square of the right size, and an absent `Q` or `R` stays `None`;
- it rejects an `R` whose rank is below `n_output`.

Each epoch then feeds the samples in a fresh random order.

The project has one module per concern:

- `Matrices`: the numpy operations used, over exact reals.
  The routines whose numerics are not modelled (`np.exp`, `np.tanh`, `npl.inv`, `npl.matrix_rank`) are supplied as function values in `Numerics`.
  `Numerics.Sound` assumes exactly two things: `exp` is positive, and a returned inverse has the shape of its argument.
  Two further hypotheses are used only by the lemmas that name them: `RankExactOnScaledIdentity` (`matrix_rank` of `s*I` is exact) and `InverseIsReciprocal` (a 1 x 1 inverse is the reciprocal).
- `Validation`: `_check_matrix`, `validate_shape` and the exceptions, as an `Error` datatype.
- `Activations`: `sig` and `dsig`.
- `Network`:
  - `affine_transform`, `update`, `outer_plus_bias` and `jacobian`;
  - the row-major flattening that puts each weight at a column of the Jacobian.
- `Kalman`: one filter step as a function of the filter state (`EkfStep`), and one feed of the loop (`Feed`).
- `Training`:
  - the checks at the top of `train` as a function (`Prepare`);
  - the order in which the samples are fed (`Order`);
  - the state after feeding them (`Run`). `Run` stops at the first step whose innovation matrix cannot be inverted, as the exception would.
- `Trainer`: the class `EKF`.
  Its fields (`W0`, `W1`, `P`, `Q`, `qNonzero`, `R`, `H`) are updated in place by methods proved against the functions above.

Two behaviours of the source are modelled as written:
- The check on `R` tests the rank, so any nonsingular `R` is accepted, including negative-definite ones (`ScalarRChecked`: every nonzero scalar passes). The exception text calls the requirement "positive definite".
- When a later check rejects the arguments, the earlier assignments have already happened. `RejectedROverwritesPQ` shows that a rejected `R` leaves the new `P`, `Q` and flag in place.

## Model

| member | source | states |
|---|---|---|
| Validation.CheckMatrix | def_ekf.py:9-20 | A missing argument gives `None`. A scalar `s` gives the n x n matrix with `s` on the diagonal and 0 elsewhere. An array is accepted exactly when it is n x n, and is then returned unchanged. Any other input fails with the caller's error. |
| Validation.ValidateShape | def_ekf.py:25-34 | Passes exactly when U and Y have the same number of rows, U has `n_input` columns and Y has `n_output`, and then returns both arrays unchanged. Otherwise the first failing check, in source order, picks the error. |
| Activations.ParseActivation | def_ekf.py:61-63 | 'logistic', 'tanh' and 'relu' map to their activations. Every other string is rejected. |
| Activations.Sig | def_ekf.py:40-46 | `sig(V)`: logistic `1/(1+exp(-V))` with `exp` supplied, which lies in (0, 1); tanh supplied; ReLU `clip(V, 0, inf)`, which is `max(0, V)`: at least 0 and at least V, and equal to one of them. |
| Activations.DSig | def_ekf.py:48-54 | `dsig(s)` in terms of the activated output s: `s(1-s)` for the logistic (bounded by `LogisticSlope`), `1-s^2` for tanh, at most 1, and for ReLU 1 if s > 0 else 0. |
| Activations.ReluSlopeIsStep | def_ekf.py:45-54 | ReLU output is `max(0, v)`. `dsig` of that output is 1 when `v > 0` and 0 otherwise. |
| Activations.LogisticSlope | def_ekf.py:41-50 | The logistic output lies in (0, 1). `s(1-s)` at that output equals the analytic derivative `exp(-v)/(1+exp(-v))^2`, which lies in (0, 1/4]. |
| Activations.TanhSlope | def_ekf.py:51-52 | `1 - s^2` is positive exactly when -1 < s < 1, and is largest at s = 0. |
| Network.Affine | def_ekf.py:73 | `affine_transform(W, v)` has one entry per row of W. |
| Network.AffineInWeight | def_ekf.py:73 | Raising `W[j][i]` by e moves output j alone, by `e * [v, 1][i]`. |
| Network.AffineInInput | def_ekf.py:73 | Raising `v[j]` by e moves output k by `e * W[k][j]`. |
| Network.Hidden | def_ekf.py:80 | `l` has one entry per hidden unit. |
| Network.Forward | def_ekf.py:76-82 | `update(u, return_l=True)` returns n_output outputs and n_hidden activations. |
| Network.ForwardInOutputWeight | def_ekf.py:76-82 | Raising output weight `W[1][k'][m]` by e moves network output k' alone, by `e * [l, 1][m]`. |
| Network.ForwardInHiddenUnit | def_ekf.py:80-81 | Raising hidden activation `l[j]` by e moves output k by `e * W[1][k][j]`. This is the first factor of the chain rule behind the hidden-block entries. |
| Network.OuterPlusBias | def_ekf.py:36-37 | `outer_plus_bias(x, y)` has `len(x)` rows and `len(y) + 1` columns. |
| Network.OuterPlusBiasEntry | def_ekf.py:36-37 | For any bias, row r is `x[r] * [y, bias]`: entry (r, i) is `x[r] * y[i]` for i < len(y), and the last column is `x[r] * bias`. |
| Network.OuterPlusUnitBiasEntry | def_ekf.py:88 | With bias 1, as `jacobian` calls it, entry (r, i) is `x[r] * [y, 1][i]`. |
| Network.ScaledEntry | def_ekf.py:87 | After `.flatten()`, position `k*n_hidden + j` of `D = W[1][:, :-1] * dsig(l)` holds `W[1][k][j] * dsig(l[j])`, and `D` has n_output * n_hidden entries. |
| Network.Jacobian | def_ekf.py:85-89 | The Jacobian has n_output rows and num_weights columns. |
| Network.JacobianHiddenEntry | def_ekf.py:87-88 | For output k and hidden weight `W[0][j][i]`, the column is `j*(n_input+1) + i` and the entry is `W[1][k][j] * dsig(l[j]) * [u, 1][i]`. |
| Network.JacobianOutputEntry | def_ekf.py:88 | For output k and output weight `W[1][k'][m]`, the entry is `[l, 1][m]` when k = k' and 0 otherwise (the block-diagonal part). |
| Network.OutputColumnIsExactSensitivity | def_ekf.py:81-88 | Raising `W[1][k'][m]` by e changes output k by exactly e times the Jacobian entry in that weight's column. |
| Network.FlattenLength | def_ekf.py:71 | num_weights is the length of the flattened weights. |
| Network.Unflatten | def_ekf.py:93-94 | Cutting a num_weights vector gives matrices of the two layer shapes. |
| Network.FlattenRoundTrip | def_ekf.py:93-94 | Cutting the flattened weights gives them back, and flattening the cut pieces gives the vector back. |
| Network.ApplyUpdate | def_ekf.py:93-94 | The updated weights keep the layer shapes. |
| Network.ApplyUpdateIsFlatAdd | def_ekf.py:93-94 | The update adds `dW` to the flattened weights entry by entry. |
| Network.ApplyZeroUpdate | def_ekf.py:93-94 | A zero `dW` leaves both matrices unchanged. |
| Network.WeightPositions | def_ekf.py:93-94 | Weight `W[0][j][i]` sits at `HiddenColumn(j, i)` and weight `W[1][k][m]` at `OutputColumn(k, m)`. The update adds `dW` at exactly that position. |
| Matrices.ReshapeRowMajor | def_ekf.py:93-94 | Reshaping a flattened matrix gives the matrix back. |
| Matrices.RowMajorReshape | def_ekf.py:93-94 | Flattening a reshaped vector gives the vector back. |
| Matrices.BlockDiagAt | def_ekf.py:88 | Row k of `block_diag` of one-row blocks holds block k at columns `k*w ..` and zeros elsewhere. |
| Kalman.Innovation | def_ekf.py:100 | `H P H^T + R` is n_output x n_output. |
| Kalman.Gain | def_ekf.py:99-101 | The gain exists exactly when `npl.inv` succeeds on its argument, and is then num_weights x n_output. |
| Kalman.SingleOutputGain | def_ekf.py:99-101 | With one output and an inverse that is the reciprocal, the gain is `P H^T / S`. |
| Kalman.CovUpdate | def_ekf.py:95-96 | The new P is num_weights x num_weights. Its symmetry is stated by `CovUpdateSymmetric`. |
| Kalman.CovUpdateSymmetric | def_ekf.py:95-101 | With one output and the reciprocal as inverse, the new P (`P - K H P`, plus Q when the flag is set) is symmetric whenever P is symmetric and any Q added is symmetric. |
| Kalman.ZeroQNeedsNoFlag | def_ekf.py:95-96 | For a Q with no nonzero entry, skipping Q (flag off) gives the same P as adding it. |
| Kalman.FlagOfCheckedQ | def_ekf.py:123-125 | The flag is off for a missing Q. For a scalar Q it is on exactly when the scalar is nonzero and num_weights > 0. |
| Kalman.EkfStep | def_ekf.py:103-110 | H becomes the Jacobian at (u, l), even when the step fails. The step fails exactly when `npl.inv` fails on the innovation matrix, and a failed step changes nothing but H. A step that succeeds adds the correction `Correction` to the flattened weights, and sets P to `CovUpdate` with the gain of the old P. Shapes are kept. |
| Kalman.Correction | def_ekf.py:109 | `dW` has num_weights entries, and is zero when step = 0. |
| Kalman.StepUpdatesEachWeight | def_ekf.py:109-110 | A step that succeeds adds to each weight the entry of `dW` at that weight's Jacobian column. |
| Kalman.StepKeepsSymmetric | def_ekf.py:103-110 | With one output and `npl.inv` the reciprocal on 1 x 1 matrices, `_ekf` leaves P symmetric when it was, given a symmetric Q, whether or not the step succeeds. |
| Kalman.ZeroStepKeepsWeights | def_ekf.py:103-110 | With step = 0 the weights are unchanged; only P and H move. |
| Kalman.Feed | def_ekf.py:138-139 | `update` followed by `_ekf` keeps shapes and sets H. It fails only when the inverse fails, and then only H has changed. |
| Training.Prepare | def_ekf.py:118-128 | The checks pass exactly when P is given or stored, each given P, Q and R has the right shape, R is present, and R has rank n_output. A missing P raises `InitialPMissing` and a bad P raises `BadP`, both leaving the settings as they were. After a pass, the stored P is the given one after `_check_matrix` (or the stored one when none is given), Q and R are the `_check_matrix` results, and the flag is `np.any(Q)`. The settings keep their shapes. |
| Training.PrepareNoise | def_ekf.py:123-128 | The Q and R half of the checks, with every outcome. A bad Q raises `BadQ` and changes nothing. Otherwise Q and the flag `np.any(Q)` are stored first. Then a bad R raises `BadR` with R unchanged. A missing R is stored as `None` and raises `RMissing`. A present R is stored, and the call passes exactly when its rank is n_output, raising `RNotPositiveDefinite` otherwise. P is untouched. |
| Training.MissingPRejected | def_ekf.py:118-120 | With no P given and none stored, `train` raises and changes nothing. |
| Training.ScalarRChecked | def_ekf.py:126-128 | With an exact rank, a scalar R passes exactly when it is nonzero. A zero scalar fails as not positive definite, after P and Q are already set. |
| Training.RejectedROverwritesPQ | def_ekf.py:118-128 | When the R checks fail, P, Q and the flag already hold the new values. |
| Training.PermutationVisitsEachOnce | def_ekf.py:132-134 | A permutation of the samples has one entry per sample, visits each sample exactly once, and indexes only samples. |
| Training.PermutationsInRange | def_ekf.py:131-134 | Every epoch's permutation indexes only samples of the data. |
| Training.OrderAppend | def_ekf.py:131-139 | Feeding epochs a and then epochs b is feeding a + b. |
| Training.OrderLength | def_ekf.py:131-137 | With n samples per epoch, the loop feeds epochs * n samples. |
| Training.OrderAt | def_ekf.py:131-137 | The `e*n + i`-th sample fed is `perms[e][i]`. |
| Training.OrderInRange | def_ekf.py:131-134 | When every epoch indexes only samples, so does the whole order fed. |
| Training.Run | def_ekf.py:131-139 | Feeding keeps the state's shapes, and the only failure is a singular innovation matrix. |
| Training.RunExtend | def_ekf.py:137-139 | Feeding one more sample is one more `Feed`, unless an earlier step already failed. |
| Training.RunStopsAtFailure | def_ekf.py:137-139 | After a step fails, no later sample is fed. |
| Training.RunKeepsSymmetric | def_ekf.py:131-139 | Under the same hypotheses, P is still symmetric after any number of feeds from a symmetric P. |
| Training.ZeroStepRunKeepsWeights | def_ekf.py:131-139 | With step = 0 a whole run leaves both weight matrices unchanged. |
| Trainer.InitialWeights | def_ekf.py:65-70 | `random_weights(shape)` has the requested shape. |
| Trainer.InitialWeightsBounded | def_ekf.py:65-66 | Samples in [0, 1) give weights in [-weight_scale, weight_scale). |
| Trainer.NewEKF | def_ekf.py:56-73 | Construction fails exactly when `activ` is not one of the three names. Otherwise the new object stores the given dimensions, the parsed activation and `random_weights` of the two layer shapes, num_weights is the sum of the layer sizes, and no P, Q, R or H is set. |
| Trainer.EKF.constructor | def_ekf.py:56-73 | Stores the dimensions and activation, sets the weights to `random_weights` of the two layer shapes and num_weights to their total size, and stores no P. |
| Trainer.EKF.KalmanGain | def_ekf.py:99-101 | When the inverse succeeds, the gain is num_weights x n_output. `KalmanGainUsesStoredPR` states that the inverse is of the innovation from the stored P and R. |
| Trainer.EKF.KalmanGainUsesStoredPR | def_ekf.py:99-101 | The `R` argument plays no part. Whatever P is passed, the gain exists exactly when `npl.inv` succeeds on `H self.P H^T + self.R`, built from the stored P and R. With the stored P passed, the result is `Gain` of the stored P and R. |
| Trainer.EKF.UpdateWeightsAndCov | def_ekf.py:91-96 | The new weights are `ApplyUpdate` of `dW` and the new P is `CovUpdate`. Q, R, H and the flag are unchanged. |
| Trainer.EKF.Ekf | def_ekf.py:103-110 | The new filter state and outcome are `EkfStep` of the old state. The noise settings are unchanged. |
| Trainer.EKF.Train | def_ekf.py:112-139 | A shape error raises and changes nothing. A failing setting check raises with the settings `Prepare` leaves and the weights and H unchanged. Otherwise, the final state and outcome are `Run` over all epochs' orders from the old weights and the prepared P. |
| Trainer.EKF.Configure | def_ekf.py:118-128 | The stored settings and outcome are those of `Prepare`. Weights and H are unchanged. |
| Trainer.EKF.ConfigureNoise | def_ekf.py:123-128 | The stored settings and outcome are those of `PrepareNoise`. Weights and H are unchanged. |
| Trainer.EKF.Epochs | def_ekf.py:131-139 | After the loop over epochs, the state and outcome are `Run` over the concatenated orders. |
| Trainer.EKF.Epoch | def_ekf.py:132-139 | After one epoch, the state and outcome are `Run` over the earlier orders followed by this epoch's order. |
| Trainer.EKF.FeedSample | def_ekf.py:138-139 | One loop body extends the run by one sample. |

## Left out

- Floating point: all arithmetic is on exact reals. `np.float64` conversions (lines 20, 77, 113-114) are the identity here.
- `np.exp`, `np.tanh`, `npl.inv` and `npl.matrix_rank` are supplied as function values. A `LinAlgError` from `npl.inv` is `None`. Nothing about their numerics is modelled beyond `Numerics.Sound` and the two hypotheses `RankExactOnScaledIdentity` (used by `ScalarRChecked`) and `InverseIsReciprocal` (used by the symmetry lemmas).
- Randomness: `np.random.sample` becomes the `sample` parameter of the constructor, and `np.random.permutation` becomes the `perms` parameter of `Train`, one permutation per epoch.
- The `tqdm` progress bar (line 135) only prints, and is not modelled.
- The `method` argument of `train` and `self.feed` (line 117): the feed is always `_ekf`, as in the source.
- The 1-D branches are not modelled: `update` turning a 1-D `U` longer than `n_input` into a column (lines 78-79), and `validate_shape` reshaping a 1-D `Y` (lines 32-33). The data are 2-D arrays (`Array2`), and `update` is called on one sample at a time.
- `update` with `return_l=False`: only the `(h, l)` form that `train` uses is modelled.
- `Q`, `R`, `H` and `Q_nonzero` do not exist before the first `train` call. They start as `None` or false, and `Ekf` requires `P` and `R` to be set, so the `AttributeError` of calling `_ekf` before `train` is not modelled.
- Dimensions are `nat`: the `int(...)` conversions and negative sizes are not modelled. Zero dimensions are not modelled either: with n_output = 0, `block_diag()` gives a 1 x 0 array and `np.hstack` at line 88 raises, while `Network.Jacobian` returns an empty n_output x num_weights matrix and the step goes on.
- Default arguments are not modelled: `weight_scale` (default 5) and `train`'s `step` (default 1) are always passed explicitly.
- Kalman.CovUpdate: symmetry of P is proved only for one output with the reciprocal inverse (`CovUpdateSymmetric`, `StepKeepsSymmetric`, `RunKeepsSymmetric`). For several outputs it is not stated: `npl.inv` is an abstract function here, so nothing says `inv(S)` is symmetric; and the source accepts non-symmetric Q and R arrays, for which the property is false.
- The definiteness of `P`, the Kalman filter's optimality and convergence of training are not stated.
- Network.ForwardInHiddenUnit: the chain rule for a hidden weight is stated factor by factor (`ForwardInHiddenUnit`, `AffineInWeight`, `LogisticSlope`, `TanhSlope`, `ReluSlopeIsStep`), not as one derivative, because the activations' derivatives are not modelled over the reals.
- Network.Forward, Network.Hidden: these functions state shapes only. Their values are given by their definitions (`l = sig(affine_transform(W[0], u))`, `h = affine_transform(W[1], l)`). The lemmas beside them state only how the outputs change when one weight or one hidden unit changes.
- Network.Jacobian, Network.OuterPlusBias: these functions state shapes only. Their entries are stated by `JacobianHiddenEntry`, `JacobianOutputEntry` and `OuterPlusBiasEntry`.
- double_pendulum_simulation.py, sim2.py and ekf.py are not part of this model.
