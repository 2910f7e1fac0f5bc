/** The argument checks at the top of def_ekf.py: `_check_matrix`, which turns
    a scalar P, Q or R into that multiple of the identity, accepts an array
    only when it is square of the right size, and leaves a missing argument
    as `None`; and `validate_shape`, which
    checks the training arrays against the network's dimensions. */
module Validation {
  import opened Outcomes
  import opened Matrices

  /** The exceptions the trainer raises; each names the check that failed. */
  datatype Error =
    | UnknownActivation    // activ not one of 'logistic', 'tanh', 'relu'
    | SampleCountMismatch  // U and Y have different numbers of rows
    | InputWidthMismatch   // U's rows are not n_input wide
    | OutputWidthMismatch  // Y's rows are not n_output wide
    | BadP                 // P neither a scalar nor num_weights x num_weights
    | BadQ                 // Q neither a scalar nor num_weights x num_weights
    | BadR                 // R neither a scalar nor n_output x n_output
    | InitialPMissing      // no P given and none stored
    | RNotPositiveDefinite // rank of R below n_output
    | RMissing             // R omitted: `len(None)` raises TypeError
    | SingularInnovation   // npl.inv raised LinAlgError

  /** What a caller may pass for P, Q or R: nothing, a scalar or a 2-D array. */
  datatype MatrixArg = Absent | Scalar(s: real) | Array(entries: Matrix)

  /** `_check_matrix(M, n, error_msg)`. An absent argument yields `None`: the
      inner test asks whether the string 'M' has a `__dict__`, which no string
      has, so that branch never returns. */
  function CheckMatrix(M: MatrixArg, n: nat, err: Error): (r: Result<Option<Matrix>, Error>)
    ensures r.Ok? && r.value.Some? ==> IsMatrix(r.value.value, n, n)
    ensures M.Absent? ==> r == Ok(None)
    ensures M.Scalar? ==> r.Ok? && r.value.Some?
    ensures M.Scalar? ==> forall i, j :: 0 <= i < n && 0 <= j < n ==>
      r.value.value[i][j] == if i == j then M.s else 0.0
    ensures M.Array? ==> (r.Ok? <==> IsMatrix(M.entries, n, n))
    ensures M.Array? && r.Ok? ==> r.value == Some(M.entries)
    ensures r.Err? ==> r.error == err
  {
    match M
    case Absent => Ok(None)
    case Scalar(s) => Ok(Some(ScaledIdentity(s, n)))
    case Array(entries) => if IsMatrix(entries, n, n) then Ok(Some(entries)) else Err(err)
  }

  /** A 2-D numpy array of shape (|rows|, width). */
  datatype Array2 = Array2(width: nat, rows: Matrix)
  {
    /** numpy arrays are rectangular. */
    predicate Wellformed()
    {
      IsMatrix(rows, |rows|, width)
    }
  }

  /** `validate_shape(X, Y, n_input, n_output)`: the three checks in source
      order, and the arrays handed back unchanged when all pass. */
  function ValidateShape(X: Array2, Y: Array2, nInput: nat, nOutput: nat): (r: Result<(Array2, Array2), Error>)
    ensures r.Ok? <==> |X.rows| == |Y.rows| && X.width == nInput && Y.width == nOutput
    ensures r.Ok? ==> r.value == (X, Y)
    ensures |X.rows| != |Y.rows| ==> r == Err(SampleCountMismatch)
    ensures |X.rows| == |Y.rows| && X.width != nInput ==> r == Err(InputWidthMismatch)
    ensures |X.rows| == |Y.rows| && X.width == nInput && Y.width != nOutput ==> r == Err(OutputWidthMismatch)
  {
    if |X.rows| != |Y.rows| then Err(SampleCountMismatch)
    else if X.width != nInput then Err(InputWidthMismatch)
    else if Y.width != nOutput then Err(OutputWidthMismatch)
    else Ok((X, Y))
  }
}
