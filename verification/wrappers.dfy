/** Failure-compatible wrappers shared by the whole model, and the exceptions
    of the modelled Python code written as data. */
module Wrappers {

  /** A value that may be absent (Python's `None`). */
  datatype Option<+T> = None | Some(value: T)

  /** The exceptions the modelled code raises, catches or lets escape. */
  datatype Fault =
    | TypeError         // arithmetic on a missing (None) timestamp, or indexing a non-object
    | KeyError          // a dictionary key that is not there
    | IndexError        // the first element of an empty list
    | AttributeError    // a method called on a value that does not have it
    | RuntimeError      // the remote service could not produce a job's results
    | DecodeError       // json.loads rejected its input
    | UnboundJob        // the local `job` read before any submission succeeded
    | EmptyProblemList  // the fatal "Empty problem list" error

  /** The text of a fault where the engine raises it with a fixed message. */
  function Message(f: Fault): string
  {
    match f
    case EmptyProblemList => "Empty problem list"
    case _ => ""
  }

  /** Either a value or the exception that prevented it. */
  datatype Result<+T> = Ok(value: T) | Err(fault: Fault) {

    predicate IsFailure() {
      Err?
    }

    function PropagateFailure<U>(): Result<U>
      requires Err?
    {
      Err(fault)
    }

    function Extract(): T
      requires Ok?
    {
      value
    }
  }
}
