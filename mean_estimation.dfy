/**
 * `private_mean`: the shape check and the defaults around the iterative
 * estimator. The estimator itself (`algos.multivariate_mean_iterative`) and
 * `np.sqrt` are calls into code this model does not contain; they are
 * parameters.
 */
module MeanEstimation {
  import opened Wrappers
  import opened Errors

  /**
   * A numpy array viewed along its first axis: the sub-arrays `rows` and the
   * shape each of them has, so that the whole array has shape
   * `[|rows|] + rowShape`.
   */
  datatype NdArray<T> = NdArray(rows: seq<T>, rowShape: seq<nat>) {
    function Shape(): seq<nat> { [|rows|] + rowShape }
  }

  /** The arguments of one call `multivariate_mean_iterative(X, c=c, r=r, t=t, Ps=Ps)`. */
  datatype MeanCall<T> = MeanCall(X: NdArray<T>, c: seq<real>, r: real, t: nat, Ps: seq<real>)

  /** `np.zeros(d)`. */
  function Zeros(d: nat): seq<real> {
    seq(d, _ => 0.0)
  }

  /**
   * The call `private_mean` hands to the estimator, or the error it raises:
   * only 2-D arrays are accepted; the radius defaults to `3 * sqrt(d)` and the
   * centre to the origin of the row space; `t` is the number of budgets.
   */
  function EstimatorCall<T>(X: NdArray<T>, Ps: seq<real>, r: Option<real>, c: Option<seq<real>>,
                            sqrt: real -> real): (call: Result<MeanCall<T>, Error>)
    ensures call.Failure? <==> |X.Shape()| != 2
    ensures call.Failure? ==> call.error == ValueError(MustBeTwoDimensional)
    ensures call.Success? ==>
      var d := X.Shape()[1];
      && call.value.X == X
      && call.value.t == |Ps| && call.value.Ps == Ps
      && (r.Some? ==> call.value.r == r.value)
      && (r.None? ==> call.value.r == 3.0 * sqrt(d as real))
      && (c.Some? ==> call.value.c == c.value)
      && (c.None? ==> |call.value.c| == d && forall i :: 0 <= i < d ==> call.value.c[i] == 0.0)
  {
    if |X.rowShape| != 1 then Failure(ValueError(MustBeTwoDimensional))
    else
      var d := X.rowShape[0];
      var radius := if r.None? then sqrt(d as real) * 3.0 else r.value;
      var centre := if c.None? then Zeros(d) else c.value;
      Success(MeanCall(X, centre, radius, |Ps|, Ps))
  }

  /** `private_mean(X, Ps, r, c)`: the estimator's answer on the call above. */
  function PrivateMean<T>(X: NdArray<T>, Ps: seq<real>, r: Option<real>, c: Option<seq<real>>,
                          sqrt: real -> real, estimator: MeanCall<T> -> seq<real>): (mean: Result<seq<real>, Error>)
    ensures mean.Failure? <==> |X.Shape()| != 2
    ensures mean.Success? ==> mean.value == estimator(EstimatorCall(X, Ps, r, c, sqrt).value)
  {
    var call :- EstimatorCall(X, Ps, r, c, sqrt);
    Success(estimator(call))
  }

  /**
   * When `np.sqrt` is exact at `d`, the default radius is the non-negative
   * number whose square is `9 * d`.
   */
  lemma DefaultRadius<T>(X: NdArray<T>, Ps: seq<real>, c: Option<seq<real>>, sqrt: real -> real)
    requires |X.Shape()| == 2
    requires var d := X.Shape()[1] as real; 0.0 <= sqrt(d) && sqrt(d) * sqrt(d) == d
    ensures var call := EstimatorCall(X, Ps, None, c, sqrt);
      call.Success? && 0.0 <= call.value.r && call.value.r * call.value.r == 9.0 * X.Shape()[1] as real
  {
    var d := X.Shape()[1] as real;
    var s := sqrt(d);
    assert (3.0 * s) * (3.0 * s) == 9.0 * (s * s);
  }
}
