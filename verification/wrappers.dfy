/** Small value wrappers shared by every module of the model. */
module Wrappers {

  /** A value that may be absent: TypeScript's `T | undefined | null`. */
  datatype Option<T> = None | Some(value: T)
  {
    /** `value ?? fallback`, the effect of a default parameter. */
    function GetOr(fallback: T): T
    {
      if Some? then value else fallback
    }
  }

  /**
   * The settled outcome of an awaited service call. The console never
   * inspects the error it catches, so a failure carries nothing.
   */
  datatype Response<T> = Success(value: T) | Failure

  /** How an async handler finished for its caller: it returned, or it threw. */
  datatype Completion<T> = Returned(value: T) | Threw
}
