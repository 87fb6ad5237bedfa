/** Optional values and failures: the Python code returns None for "nothing found"
    and raises an exception for the error paths modelled here. */
module Results {

  datatype Option<+T> = None | Some(value: T)

  /** The exceptions of the core that the model turns into values. */
  datatype Fault =
    | EmptyArray      // numpy's max/min of a zero-size array raises ValueError
    | DivisionByZero  // Python float division by zero raises ZeroDivisionError
    | InvalidCutoff   // scipy's butter rejects a digital cutoff outside (0, 1) with ValueError
    | SignalTooShort  // scipy's sosfiltfilt rejects a signal no longer than its padding

  datatype Result<+T> = Success(value: T) | Failure(fault: Fault)
}
