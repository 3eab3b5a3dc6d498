/** Option, Result and Outcome: the failure-carrying values the unparser and the
    runtime functions return instead of throwing. */
module Wrappers {

  datatype Option<+T> = None | Some(value: T)

  datatype Result<+R, +E> = Ok(value: R) | Err(error: E)

  /** What a method that only writes reports: it finished, or it stopped with an error. */
  datatype Outcome<+E> = Pass | Fail(error: E)

  /** The outcome a writing method reports when its output is described by `r`. */
  function StatusOf<R, E>(r: Result<R, E>): Outcome<E>
  {
    match r
    case Ok(_) => Pass
    case Err(e) => Fail(e)
  }
}
