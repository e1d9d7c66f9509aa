/** Failure-compatible results for the Python exceptions the assembler can raise. */
module Wrappers {

  /** The exceptions the modelled code raises on malformed input. */
  datatype PyError =
    | IndexError   // `attr[0]` on an empty list attribute
    | KeyError     // `pop("attributes")` on an entry that no longer has the key
    | TypeError    // `"".join(*values)` with zero or several arguments

  datatype Option<+T> = None | Some(value: T)

  datatype Result<+T> = Ok(value: T) | Err(error: PyError) {
    predicate IsFailure() {
      Err?
    }

    function PropagateFailure<U>(): Result<U>
      requires Err?
    {
      Err(error)
    }

    function Extract(): T
      requires Ok?
    {
      value
    }
  }
}
