/**
 * `give_private_prototypes`: partition the training rows by label, optionally
 * subsample each partition, and run `private_mean` on each, one prototype per
 * distinct label in ascending label order.
 */
module Prototypes {
  import opened Wrappers
  import opened Errors
  import opened Labels
  import opened Subsampling
  import opened MeanEstimation

  /** The partitions `[train_preds[train_targets == t] for t in np.unique(train_targets)]`. */
  function LabelPartitions<T>(trainPreds: NdArray<T>, trainTargets: seq<int>): seq<seq<T>>
    requires trainTargets == [] || |trainTargets| == |trainPreds.rows|
  {
    if trainTargets == [] then [] else Partition(trainPreds.rows, trainTargets)
  }

  /** The subsample of the `k`-th partition when `subsampling < 1.0`. */
  function SubsampleOne<T>(part: seq<T>, k: nat, ratio: real, poissonSampling: bool, draws: Draws): seq<T>
    requires !poissonSampling ==> PartnersInRange(draws)
  {
    if poissonSampling then Repeat(part, CountsFor(draws, k, |part|))
    else FixedRatio(part, PartnersFor(draws, k), ratio)
  }

  /**
   * The block `if subsampling < 1.0: ...`: comparing `None` raises, a ratio of at
   * least 1 passes every partition through, and numpy refuses a negative
   * Poisson mean on the first partition it samples.
   */
  function Subsample<T>(parts: seq<seq<T>>, subsampling: Option<real>, poissonSampling: bool,
                        draws: Draws): (r: Result<seq<seq<T>>, Error>)
    requires !poissonSampling ==> PartnersInRange(draws)
    ensures r.Failure? <==>
      subsampling.None? || (poissonSampling && subsampling.value < 0.0 && parts != [])
    ensures r.Success? ==> |r.value| == |parts|
    ensures r.Success? && 1.0 <= subsampling.value ==> r.value == parts
  {
    if subsampling.None? then Failure(TypeError(NoneNotOrderable))
    else if 1.0 <= subsampling.value then Success(parts)
    else if poissonSampling && subsampling.value < 0.0 && parts != [] then Failure(ValueError(NegativeLam))
    else
      Success(seq(|parts|, k requires 0 <= k < |parts| =>
        SubsampleOne(parts[k], k, subsampling.value, poissonSampling, draws)))
  }

  /** The estimator's call for one (sub)partition, with `private_mean`'s defaults. */
  function CallFor<T>(part: seq<T>, rowShape: seq<nat>, Ps: seq<real>, sqrt: real -> real): MeanCall<T>
    requires |rowShape| == 1
  {
    EstimatorCall(NdArray(part, rowShape), Ps, None, None, sqrt).value
  }

  /** `np.asarray([private_mean(part, Ps) for part in parts])`; the first failure propagates. */
  function Means<T>(parts: seq<seq<T>>, rowShape: seq<nat>, Ps: seq<real>, sqrt: real -> real,
                    estimator: MeanCall<T> -> seq<real>): (r: Result<seq<seq<real>>, Error>)
    ensures r.Success? <==> parts == [] || |rowShape| == 1
    ensures r.Success? ==> |r.value| == |parts|
    ensures r.Success? ==> forall k :: 0 <= k < |parts| ==>
      r.value[k] == estimator(CallFor(parts[k], rowShape, Ps, sqrt))
  {
    if parts == [] then Success([])
    else
      match PrivateMean(NdArray(parts[0], rowShape), Ps, None, None, sqrt, estimator)
      case Failure(e) => Failure(e)
      case Success(first) =>
        var rest := Means(parts[1..], rowShape, Ps, sqrt, estimator);
        Success([first] + rest.value)
  }

  /**
   * What `give_private_prototypes` returns or raises, with the generator's draws
   * for `seed` given as `draws`. It refuses `sample_each_step` before any other
   * work, fails exactly on a mask of the wrong length, a `None` ratio, a negative
   * Poisson mean or rows that are not vectors, and otherwise returns one
   * prototype per distinct label.
   */
  function PrivatePrototypes<T>(trainPreds: NdArray<T>, trainTargets: seq<int>, Ps: seq<real>,
                                subsampling: Option<real>, sampleEachStep: bool, poissonSampling: bool,
                                draws: Draws, sqrt: real -> real,
                                estimator: MeanCall<T> -> seq<real>): (r: Result<seq<seq<real>>, Error>)
    requires !poissonSampling ==> PartnersInRange(draws)
    ensures sampleEachStep ==> r == Failure(NotImplementedError(SamplingEachStepNotImplemented))
    ensures r.Success? <==>
      && !sampleEachStep
      && (trainTargets == [] || |trainTargets| == |trainPreds.rows|)
      && subsampling.Some?
      && !(poissonSampling && subsampling.value < 0.0 && trainTargets != [])
      && (trainTargets == [] || |trainPreds.rowShape| == 1)
    ensures r.Success? ==> |r.value| == |Unique(trainTargets)|
  {
    if sampleEachStep then Failure(NotImplementedError(SamplingEachStepNotImplemented))
    else if trainTargets != [] && |trainTargets| != |trainPreds.rows| then Failure(IndexError(MaskLengthMismatch))
    else
      var parts := LabelPartitions(trainPreds, trainTargets);
      assert trainTargets != [] ==> parts != [] by {
        if trainTargets != [] {
          assert trainTargets[0] in Unique(trainTargets);
        }
      }
      match Subsample(parts, subsampling, poissonSampling, draws)
      case Failure(e) => Failure(e)
      case Success(sub) => Means(sub, trainPreds.rowShape, Ps, sqrt, estimator)
  }

  /**
   * Without subsampling, prototype `k` is the estimator's answer on exactly the
   * rows whose label is the `k`-th smallest label, in their original order.
   */
  lemma PrototypeOfEachLabel<T>(trainPreds: NdArray<T>, trainTargets: seq<int>, Ps: seq<real>,
                                ratio: real, poissonSampling: bool, draws: Draws,
                                sqrt: real -> real, estimator: MeanCall<T> -> seq<real>, k: nat)
    requires !poissonSampling ==> PartnersInRange(draws)
    requires 1.0 <= ratio
    requires |trainTargets| == |trainPreds.rows| && |trainPreds.rowShape| == 1
    requires k < |Unique(trainTargets)|
    ensures var r := PrivatePrototypes(trainPreds, trainTargets, Ps, Some(ratio), false, poissonSampling,
                                       draws, sqrt, estimator);
      r.Success? && r.value[k] ==
        estimator(CallFor(Select(trainPreds.rows, trainTargets, Unique(trainTargets)[k]), trainPreds.rowShape, Ps, sqrt))
  {
    var parts := LabelPartitions(trainPreds, trainTargets);
    assert Subsample(parts, Some(ratio), poissonSampling, draws) == Success(parts);
  }

  /**
   * In Poisson mode, prototype `k` is the estimator's answer on the `k`-th
   * label's rows, row `i` of them repeated as often as the count drawn for it.
   */
  lemma PoissonPrototypeOfEachLabel<T>(trainPreds: NdArray<T>, trainTargets: seq<int>, Ps: seq<real>,
                                       ratio: real, draws: Draws,
                                       sqrt: real -> real, estimator: MeanCall<T> -> seq<real>, k: nat)
    requires 0.0 <= ratio < 1.0
    requires |trainTargets| == |trainPreds.rows| && |trainPreds.rowShape| == 1
    requires k < |Unique(trainTargets)|
    ensures var r := PrivatePrototypes(trainPreds, trainTargets, Ps, Some(ratio), false, true,
                                       draws, sqrt, estimator);
      var part := Select(trainPreds.rows, trainTargets, Unique(trainTargets)[k]);
      r.Success? && r.value[k] ==
        estimator(CallFor(Repeat(part, CountsFor(draws, k, |part|)), trainPreds.rowShape, Ps, sqrt))
  {
    var parts := LabelPartitions(trainPreds, trainTargets);
    var sub := Subsample(parts, Some(ratio), true, draws);
    assert sub.value[k] == SubsampleOne(parts[k], k, ratio, true, draws);
  }

  /**
   * In fixed-ratio mode, prototype `k` is the estimator's answer on the first
   * `int(ratio * n)` rows of the `k`-th label's rows after the Fisher-Yates
   * shuffle drawn for partition `k`.
   */
  lemma FixedPrototypeOfEachLabel<T>(trainPreds: NdArray<T>, trainTargets: seq<int>, Ps: seq<real>,
                                     ratio: real, draws: Draws,
                                     sqrt: real -> real, estimator: MeanCall<T> -> seq<real>, k: nat)
    requires ratio < 1.0
    requires PartnersInRange(draws)
    requires |trainTargets| == |trainPreds.rows| && |trainPreds.rowShape| == 1
    requires k < |Unique(trainTargets)|
    ensures var r := PrivatePrototypes(trainPreds, trainTargets, Ps, Some(ratio), false, false,
                                       draws, sqrt, estimator);
      var part := Select(trainPreds.rows, trainTargets, Unique(trainTargets)[k]);
      r.Success? && r.value[k] ==
        estimator(CallFor(FixedRatio(part, PartnersFor(draws, k), ratio), trainPreds.rowShape, Ps, sqrt))
  {
    var parts := LabelPartitions(trainPreds, trainTargets);
    var sub := Subsample(parts, Some(ratio), false, draws);
    assert sub.value[k] == SubsampleOne(parts[k], k, ratio, false, draws);
  }

  lemma SubsampleUnfolds<T>(parts: seq<seq<T>>, ratio: real, poissonSampling: bool, draws: Draws,
                            subsampled: seq<seq<T>>)
    requires ratio < 1.0
    requires !poissonSampling ==> PartnersInRange(draws)
    requires poissonSampling && parts != [] ==> 0.0 <= ratio
    requires |subsampled| == |parts|
    requires forall j :: 0 <= j < |parts| ==> subsampled[j] == SubsampleOne(parts[j], j, ratio, poissonSampling, draws)
    ensures Subsample(parts, Some(ratio), poissonSampling, draws) == Success(subsampled)
  {
    var each := seq(|parts|, k requires 0 <= k < |parts| => SubsampleOne(parts[k], k, ratio, poissonSampling, draws));
    assert forall j :: 0 <= j < |parts| ==> each[j] == subsampled[j];
    assert each == subsampled;
  }

  /** The body of the subsampling loop for the `k`-th partition. */
  method SubsamplePartition<T>(part: seq<T>, k: nat, ratio: real, poissonSampling: bool, draws: Draws)
    returns (kept: seq<T>)
    requires !poissonSampling ==> PartnersInRange(draws)
    ensures kept == SubsampleOne(part, k, ratio, poissonSampling, draws)
  {
    if poissonSampling {
      kept := Repeat(part, CountsFor(draws, k, |part|));
    } else {
      kept := ShuffleAndKeep(part, PartnersFor(draws, k), ratio);
    }
  }

  /**
   * The loop of `give_private_prototypes` for a ratio below 1: each partition's
   * subsample is appended to `subsampled`; in fixed-ratio mode the partition's
   * rows are first shuffled in place.
   */
  method SubsampleLoop<T>(sorted: seq<seq<T>>, ratio: real, poissonSampling: bool, draws: Draws)
    returns (r: Result<seq<seq<T>>, Error>)
    requires ratio < 1.0
    requires !poissonSampling ==> PartnersInRange(draws)
    ensures r == Subsample(sorted, Some(ratio), poissonSampling, draws)
  {
    var subsampled: seq<seq<T>> := [];
    var k := 0;
    while k < |sorted|
      invariant 0 <= k <= |sorted|
      invariant |subsampled| == k
      invariant forall j :: 0 <= j < k ==>
        subsampled[j] == SubsampleOne(sorted[j], j, ratio, poissonSampling, draws)
      invariant 0 < k && poissonSampling ==> 0.0 <= ratio
    {
      if poissonSampling && ratio < 0.0 {
        return Failure(ValueError(NegativeLam));
      }
      var kept := SubsamplePartition(sorted[k], k, ratio, poissonSampling, draws);
      subsampled := subsampled + [kept];
      k := k + 1;
    }
    SubsampleUnfolds(sorted, ratio, poissonSampling, draws, subsampled);
    r := Success(subsampled);
  }

  /**
   * The imperative `give_private_prototypes`. `draws` stands for what
   * `np.random.default_rng(seed)` produces.
   */
  method GivePrivatePrototypes<T>(trainPreds: NdArray<T>, trainTargets: seq<int>, Ps: seq<real>,
                                  subsampling: Option<real>, sampleEachStep: bool, poissonSampling: bool,
                                  draws: Draws, sqrt: real -> real,
                                  estimator: MeanCall<T> -> seq<real>) returns (protos: Result<seq<seq<real>>, Error>)
    requires !poissonSampling ==> PartnersInRange(draws)
    ensures protos == PrivatePrototypes(trainPreds, trainTargets, Ps, subsampling, sampleEachStep,
                                        poissonSampling, draws, sqrt, estimator)
  {
    if sampleEachStep {
      return Failure(NotImplementedError(SamplingEachStepNotImplemented));
    }
    if trainTargets != [] && |trainTargets| != |trainPreds.rows| {
      return Failure(IndexError(MaskLengthMismatch));
    }
    var sorted := LabelPartitions(trainPreds, trainTargets);
    if subsampling.None? {
      return Failure(TypeError(NoneNotOrderable));
    }
    if subsampling.value < 1.0 {
      var sub := SubsampleLoop(sorted, subsampling.value, poissonSampling, draws);
      if sub.Failure? {
        return Failure(sub.error);
      }
      sorted := sub.value;
    }
    protos := Means(sorted, trainPreds.rowShape, Ps, sqrt, estimator);
  }
}
