/** Fatal conditions of the remixing engine.  The C program prints a diagnostic and
    calls exit(1) for each of them; here they are values of a failure-compatible
    Result type, so a caller can see which one stopped the run. */
module Errors {

  /** The fatal error kinds the core can raise. */
  datatype Fatal =
    | UnsupportedChannels(count: int)  // more than six input or output channels
    | InvalidBufferSize                // a channel container of length zero
    | InvalidFftSize                   // a transform plan of size zero
    | ReadFailed                       // the very first read returned no frames

  /** Either a value or the fatal error that ended processing. */
  datatype Result<+T> = Ok(value: T) | Fail(error: Fatal) {

    predicate IsFailure() {
      Fail?
    }

    function PropagateFailure<U>(): Result<U>
      requires Fail?
    {
      Fail(error)
    }

    function Extract(): T
      requires Ok?
    {
      value
    }
  }
}
