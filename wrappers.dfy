/** Option and Result values, and the Python exceptions the modelled code can raise. */
module Wrappers {

  datatype Option<+T> = None | Some(value: T)

  /** The exceptions that abort an operation of the modelled scripts. */
  datatype Exception =
    | TypeError(reason: string)        // e.g. `**None` in a call
    | IndexError                       // a list or array index out of range
    | KeyError(key: string)            // a missing DataFrame column
    | AttributeError(reason: string)   // e.g. a method called on None
    | LibraryError(reason: string)     // raised inside a library the model does not see

  /** The outcome of a call that either returns a value or raises. */
  datatype Result<+T> = Ok(value: T) | Err(error: Exception)

  /**
   * Python's `s[i]`: negative indices count from the end, anything
   * outside `-|s| <= i < |s|` raises IndexError.
   */
  function PyIndex<T>(s: seq<T>, i: int): (r: Result<T>)
    ensures r.Ok? <==> -|s| <= i < |s|
    ensures 0 <= i < |s| ==> r == Ok(s[i])
    ensures -|s| <= i < 0 ==> r == Ok(s[|s| + i])
  {
    if 0 <= i < |s| then Ok(s[i])
    else if -|s| <= i < 0 then Ok(s[|s| + i])
    else Err(IndexError)
  }
}
