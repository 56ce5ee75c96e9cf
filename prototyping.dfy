/**
 * The `CoinpressPrototyping` configuration object: validated setters, the
 * mechanism slot that warns when overwritten, the choice of calibration path in
 * `try_calibrate`, and the `prototypes` entry point.
 *
 * The calibration search (`calibrate_single_param`), the mechanism classes
 * (`CoinpressGM`, `ScaledCoinpressGM`) and the estimator are calls into code this
 * model does not contain; they are passed in as functions.
 */
module Prototyping {
  import opened Wrappers
  import opened Errors
  import opened Subsampling
  import opened MeanEstimation
  import opened Prototypes

  /** A privacy mechanism; of its parameters this code reads only `params["Ps"]`, the per-step budgets. */
  datatype Mechanism = Mechanism(Ps: seq<real>)

  /**
   * What `calibrate_single_param` is asked for: the fields that the
   * `scaled_mechanism` closure captures, with the target epsilon and delta.
   */
  datatype CalibrationRequest =
    | ScheduleShape(epsilon: Option<real>, delta: Option<real>, steps: Option<int>, dist: Option<string>,
                    order: Option<real>, pSampling: Option<real>, sampleEachStep: bool, verbose: bool)
    | ExplicitBudgets(epsilon: Option<real>, delta: Option<real>, Ps: Option<seq<real>>,
                      pSampling: Option<real>, sampleEachStep: bool, verbose: bool)

  /** The calibration `try_calibrate` runs, if any. */
  datatype CalibrationPath = NoCalibration | ByExplicitBudgets | ByScheduleShape

  const OverwriteWarning := "Overwriting existing mechanism"

  /** The names the `dist` setter accepts besides `None`. */
  const DistNames: seq<string> := ["lin", "exp", "log", "eq"]

  /** The values the `epsilon` and `delta` setters accept. */
  predicate PositiveOrNone(v: Option<real>) {
    v.None? || 0.0 < v.value
  }

  /** The values the `steps` setter accepts. */
  predicate PositiveStepsOrNone(v: Option<int>) {
    v.None? || 0 < v.value
  }

  /** The values the `p_sampling` setter accepts: `None` or a ratio in (0, 1]. */
  predicate RatioOrNone(v: Option<real>) {
    v.None? || (0.0 < v.value && v.value <= 1.0)
  }

  /** The values the `dist` setter accepts. */
  predicate KnownDistOrNone(v: Option<string>) {
    v.None? || v.value in DistNames
  }

  /** The warnings a mechanism assignment issues, given the mechanism it replaces. */
  function OverwriteWarnings(previous: Option<Mechanism>): (w: seq<string>)
    ensures |w| <= 1
    ensures |w| == 1 <==> previous.Some?
  {
    if previous.Some? then [OverwriteWarning] else []
  }

  /**
   * `try_calibrate`'s decision: nothing without epsilon and delta; explicit
   * budgets `Ps` take precedence over the schedule shape; the schedule shape
   * needs `dist`, `order` and `steps` all set.
   */
  function ChoosePath(epsilon: Option<real>, delta: Option<real>, Ps: Option<seq<real>>,
                      dist: Option<string>, order: Option<real>, steps: Option<int>): (path: CalibrationPath)
    ensures epsilon.None? || delta.None? ==> path == NoCalibration
    ensures epsilon.Some? && delta.Some? && Ps.Some? ==> path == ByExplicitBudgets
    ensures path == ByExplicitBudgets <==> epsilon.Some? && delta.Some? && Ps.Some?
    ensures path == ByScheduleShape <==>
      epsilon.Some? && delta.Some? && Ps.None? && dist.Some? && order.Some? && steps.Some?
  {
    if epsilon.None? || delta.None? then NoCalibration
    else if Ps.Some? then ByExplicitBudgets
    else if dist.None? || order.None? || steps.None? then NoCalibration
    else ByScheduleShape
  }

  class CoinpressPrototyping {
    var epsilon: Option<real>
    var delta: Option<real>
    var steps: Option<int>
    var dist: Option<string>
    var Ps: Option<seq<real>>
    var pSampling: Option<real>
    var sampleEachStep: bool
    var seed: int
    var order: Option<real>
    var calibrated: bool
    var verbose: bool
    var mechanism: Option<Mechanism>
    /** The warnings issued so far, oldest first. */
    ghost var warnings: seq<string>

    /** Every checked field holds a value its setter would accept. */
    ghost predicate Validated()
      reads this
    {
      PositiveOrNone(epsilon) && PositiveOrNone(delta) && PositiveStepsOrNone(steps)
      && KnownDistOrNone(dist) && RatioOrNone(pSampling)
    }

    /**
     * The dataclass initialiser followed by `__post_init__`. The initialiser
     * assigns the fields directly, so no setter check runs; a calibrated
     * configuration then builds its mechanism through the mechanism setter.
     */
    constructor (coinpressGM: (Option<seq<real>>, Option<real>, bool) -> Mechanism,
                 epsilon: Option<real> := None, delta: Option<real> := None,
                 steps: Option<int> := None, dist: Option<string> := None,
                 Ps: Option<seq<real>> := None, pSampling: Option<real> := Some(1.0),
                 sampleEachStep: bool := false, seed: int := 42, order: Option<real> := Some(1.0),
                 calibrated: bool := false, verbose: bool := false,
                 mechanism: Option<Mechanism> := None)
      ensures this.epsilon == epsilon && this.delta == delta && this.steps == steps && this.dist == dist
      ensures this.Ps == Ps && this.pSampling == pSampling && this.sampleEachStep == sampleEachStep
      ensures this.seed == seed && this.order == order && this.calibrated == calibrated
      ensures this.verbose == verbose
      ensures this.mechanism == if calibrated then Some(coinpressGM(Ps, pSampling, sampleEachStep)) else mechanism
      ensures warnings == if calibrated then OverwriteWarnings(mechanism) else []
    {
      this.epsilon := epsilon;
      this.delta := delta;
      this.steps := steps;
      this.dist := dist;
      this.Ps := Ps;
      this.pSampling := pSampling;
      this.sampleEachStep := sampleEachStep;
      this.seed := seed;
      this.order := order;
      this.calibrated := calibrated;
      this.verbose := verbose;
      this.mechanism := mechanism;
      warnings := [];
      new;
      if calibrated {
        SetMechanism(Some(coinpressGM(Ps, pSampling, sampleEachStep)));
      }
    }

    /** The `mechanism` setter: it always stores the value and warns when it replaces a mechanism. */
    method SetMechanism(value: Option<Mechanism>)
      modifies this`mechanism, this`warnings
      ensures mechanism == value
      ensures warnings == old(warnings) + OverwriteWarnings(old(mechanism))
    {
      if mechanism.Some? {
        warnings := warnings + [OverwriteWarning];
      }
      mechanism := value;
    }

    /** The `epsilon` setter: `None` or a positive value, otherwise the assertion fails and nothing changes. */
    method SetEpsilon(value: Option<real>) returns (outcome: Outcome<Error>)
      modifies this`epsilon
      ensures outcome.Pass? <==> PositiveOrNone(value)
      ensures outcome.Fail? ==> outcome.error == AssertionError(EpsilonMustBePositive)
      ensures epsilon == if outcome.Pass? then value else old(epsilon)
      ensures old(Validated()) ==> Validated()
    {
      if value.Some? && !(0.0 < value.value) {
        return Fail(AssertionError(EpsilonMustBePositive));
      }
      epsilon := value;
      outcome := Pass;
    }

    /** The `delta` setter: `None` or a positive value. */
    method SetDelta(value: Option<real>) returns (outcome: Outcome<Error>)
      modifies this`delta
      ensures outcome.Pass? <==> PositiveOrNone(value)
      ensures outcome.Fail? ==> outcome.error == AssertionError(DeltaMustBePositive)
      ensures delta == if outcome.Pass? then value else old(delta)
      ensures old(Validated()) ==> Validated()
    {
      if value.Some? && !(0.0 < value.value) {
        return Fail(AssertionError(DeltaMustBePositive));
      }
      delta := value;
      outcome := Pass;
    }

    /** The `dist` setter: one of "lin", "exp", "log", "eq", or `None`. */
    method SetDist(value: Option<string>) returns (outcome: Outcome<Error>)
      modifies this`dist
      ensures outcome.Pass? <==> KnownDistOrNone(value)
      ensures outcome.Fail? ==> outcome.error == AssertionError(DistMustBeKnown)
      ensures dist == if outcome.Pass? then value else old(dist)
      ensures old(Validated()) ==> Validated()
    {
      if value.Some? && value.value !in DistNames {
        return Fail(AssertionError(DistMustBeKnown));
      }
      dist := value;
      outcome := Pass;
    }

    /** The `order` setter, which checks nothing. */
    method SetOrder(value: Option<real>)
      modifies this`order
      ensures order == value
    {
      order := value;
    }

    /** The `steps` setter: `None` or a positive count. */
    method SetSteps(value: Option<int>) returns (outcome: Outcome<Error>)
      modifies this`steps
      ensures outcome.Pass? <==> PositiveStepsOrNone(value)
      ensures outcome.Fail? ==> outcome.error == AssertionError(StepsMustBePositive)
      ensures steps == if outcome.Pass? then value else old(steps)
      ensures old(Validated()) ==> Validated()
    {
      if value.Some? && !(0 < value.value) {
        return Fail(AssertionError(StepsMustBePositive));
      }
      steps := value;
      outcome := Pass;
    }

    /** The `p_sampling` setter: `None` or a ratio in (0, 1]. */
    method SetPSampling(value: Option<real>) returns (outcome: Outcome<Error>)
      modifies this`pSampling
      ensures outcome.Pass? <==> RatioOrNone(value)
      ensures outcome.Fail? ==> outcome.error == AssertionError(PSamplingMustBeRatio)
      ensures pSampling == if outcome.Pass? then value else old(pSampling)
      ensures old(Validated()) ==> Validated()
    {
      if value.Some? && !(0.0 < value.value && value.value <= 1.0) {
        return Fail(AssertionError(PSamplingMustBeRatio));
      }
      pSampling := value;
      outcome := Pass;
    }

    /** The request `calibrate_steps` sends to the calibration search. */
    function ScheduleShapeRequest(): CalibrationRequest
      reads this
    {
      ScheduleShape(epsilon, delta, steps, dist, order, pSampling, sampleEachStep, verbose)
    }

    /** The request `calibrate_Ps` sends to the calibration search. */
    function ExplicitBudgetsRequest(): CalibrationRequest
      reads this
    {
      ExplicitBudgets(epsilon, delta, Ps, pSampling, sampleEachStep, verbose)
    }

    /** `calibrate_steps`: store the mechanism the search returns, through the warning setter. */
    method CalibrateSteps(calibrate: CalibrationRequest -> Mechanism)
      modifies this`mechanism, this`warnings
      ensures mechanism == Some(calibrate(ScheduleShapeRequest()))
      ensures warnings == old(warnings) + OverwriteWarnings(old(mechanism))
    {
      SetMechanism(Some(calibrate(ScheduleShapeRequest())));
    }

    /** `calibrate_Ps`: the same, for the explicit per-step budgets. */
    method CalibratePs(calibrate: CalibrationRequest -> Mechanism)
      modifies this`mechanism, this`warnings
      ensures mechanism == Some(calibrate(ExplicitBudgetsRequest()))
      ensures warnings == old(warnings) + OverwriteWarnings(old(mechanism))
    {
      SetMechanism(Some(calibrate(ExplicitBudgetsRequest())));
    }

    /** `try_calibrate`: run the calibration `ChoosePath` selects, or leave everything as it is. */
    method TryCalibrate(calibrate: CalibrationRequest -> Mechanism)
      modifies this`mechanism, this`warnings
      ensures var path := ChoosePath(epsilon, delta, Ps, dist, order, steps);
        && (path == NoCalibration ==> mechanism == old(mechanism) && warnings == old(warnings))
        && (path == ByExplicitBudgets ==> mechanism == Some(calibrate(ExplicitBudgetsRequest())))
        && (path == ByScheduleShape ==> mechanism == Some(calibrate(ScheduleShapeRequest())))
        && (path != NoCalibration ==> warnings == old(warnings) + OverwriteWarnings(old(mechanism)))
    {
      if epsilon.None? || delta.None? {
        return;
      }
      if Ps.Some? {
        CalibratePs(calibrate);
        return;
      }
      if dist.None? || order.None? || steps.None? {
        return;
      }
      CalibrateSteps(calibrate);
    }

    /**
     * `prototypes`: refuses to run without a mechanism; otherwise draws with
     * `overwrite_seed` if given, else with `seed`, and runs
     * `give_private_prototypes` in Poisson mode with the mechanism's budgets.
     * `rng` gives what `np.random.default_rng` draws for a seed.
     */
    method Prototypes<T>(trainPreds: NdArray<T>, trainTargets: seq<int>, overwriteSeed: Option<int>,
                         rng: int -> Draws, sqrt: real -> real, estimator: MeanCall<T> -> seq<real>)
      returns (r: Result<seq<seq<real>>, Error>)
      ensures mechanism.None? ==> r == Failure(ValueError(MechanismNotCalibrated))
      ensures mechanism.Some? ==>
        r == PrivatePrototypes(trainPreds, trainTargets, mechanism.value.Ps, pSampling, sampleEachStep, true,
                               rng(if overwriteSeed.Some? then overwriteSeed.value else seed), sqrt, estimator)
    {
      if mechanism.None? {
        return Failure(ValueError(MechanismNotCalibrated));
      }
      var s := overwriteSeed.GetOr(seed);
      r := GivePrivatePrototypes(trainPreds, trainTargets, mechanism.value.Ps, pSampling, sampleEachStep,
                                 true, rng(s), sqrt, estimator);
    }
  }

  /**
   * A client of the class: the initialiser stores an out-of-range epsilon
   * unchecked, while the setter refuses the same value and keeps the old one.
   */
  method UncheckedInitialiserCheckedSetter()
  {
    var config := new CoinpressPrototyping((Ps, p, each) => Mechanism([]), epsilon := Some(-1.0));
    assert config.epsilon == Some(-1.0) && !config.Validated();
    var outcome := config.SetEpsilon(Some(-1.0));
    assert outcome == Fail(AssertionError(EpsilonMustBePositive)) && config.epsilon == Some(-1.0);
    outcome := config.SetEpsilon(Some(2.0));
    assert outcome == Pass && config.epsilon == Some(2.0);
  }
}
