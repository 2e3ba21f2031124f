/** Optional values and the simulator's fatal aborts. */
module Outcomes {

  /** A value that may be absent; stands for a Java reference that may be null. */
  datatype Option<+T> = None | Some(value: T)

  /** Why a run terminates early. Each one is a call of `printError`, which prints a
      diagnostic and exits with status 1, or an uncaught exception with the same exit
      status. */
  datatype Failure =
    | InvalidEventTime      // an event scheduled before the current simulation time
    | InvalidTask           // a service completion that does not match the queue head
    | NoTaskToServe         // ACTIVE_SERVE entered with an empty queue (scheme not single)
    | ConfigError(message: string)   // a rejected configuration line
    | MissingField          // a configuration line with too few fields

  /** Either the operation completed with a value, or the run aborts. */
  datatype Outcome<+T> = Ok(value: T) | Abort(failure: Failure) {
    predicate IsFailure() { Abort? }

    function PropagateFailure<U>(): Outcome<U>
      requires Abort?
    {
      Abort(failure)
    }

    function Extract(): T
      requires Ok?
    {
      value
    }
  }

  /** Continue when `condition` holds, abort with `failure` otherwise. */
  function Need(condition: bool, failure: Failure): Outcome<()>
  {
    if condition then Ok(()) else Abort(failure)
  }
}
