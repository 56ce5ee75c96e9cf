/** Failure-compatible wrappers used to model Python's `None` and raised exceptions. */
module Wrappers {

  /** A Python `Optional[...]` value: `None` or a present value. */
  datatype Option<+T> = None | Some(value: T) {
    /** The value, or `default` when absent (`x if x is not None else default`). */
    function GetOr(default: T): T {
      match this
      case Some(v) => v
      case None => default
    }
  }

  /** The outcome of a Python call that either returns a value or raises. */
  datatype Result<+R, +E> = Success(value: R) | Failure(error: E) {
    predicate IsFailure() { Failure? }

    function PropagateFailure<U>(): Result<U, E>
      requires Failure?
    {
      Failure(error)
    }

    function Extract(): R
      requires Success?
    {
      value
    }
  }

  /** The outcome of a Python call that returns nothing or raises. */
  datatype Outcome<+E> = Pass | Fail(error: E)
}

/**
 * The exceptions the modelled code raises, each with the fixed part of its
 * message. Where the source goes on to format a value into the message (the
 * rejected epsilon, the array's shape, numpy's array sizes), only the text
 * before that value is kept.
 */
module Errors {

  datatype Error =
    | AssertionError(message: string)
    | ValueError(message: string)
    | TypeError(message: string)
    | IndexError(message: string)
    | NotImplementedError(message: string)

  /** The message prefix; the source appends ", but received" and the rejected value. */
  const EpsilonMustBePositive := "epsilon must be positive"
  const DeltaMustBePositive := "delta must be positive"
  const DistMustBeKnown := "dist must be in ['lin', 'exp', 'log', 'eq']"
  const StepsMustBePositive := "steps must be positive"
  const PSamplingMustBeRatio := "p_sampling must be in (0, 1]"
  const MechanismNotCalibrated := "Mechanism not calibrated"
  const SamplingEachStepNotImplemented := "Sampling each step is not implemented"
  /** The message prefix; the source appends ", but received shape:" and the shape. */
  const MustBeTwoDimensional := "X must be a 2D array"
  /** The prefix of numpy's refusal of a boolean mask whose length differs from the indexed axis. */
  const MaskLengthMismatch := "boolean index did not match indexed array along dimension 0"
  /** Python's refusal to order `None` against a float. */
  const NoneNotOrderable := "'<' not supported between instances of 'NoneType' and 'float'"
  /** The prefix of numpy's refusal of a negative Poisson mean. */
  const NegativeLam := "lam < 0"
}
