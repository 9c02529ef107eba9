/** Values shared by every script: an optional value (Python's None) and the
    outcome of a step that may raise an exception the scripts do not catch. */
module Common {

  /** Python's `None` or a present value. */
  datatype Option<+T> = None | Some(value: T)

  /** The Python exceptions that escape the scripts and abort a run. */
  datatype Error =
    | IndexError      // a list index past the end (`info[2]`, `cols[0]`, `cols[2]`)
    | KeyError        // a missing dataframe column or dictionary key
    | ValueError      // a row wider than its header, `pd.concat` of nothing
    | AttributeError  // `.text` of a missing element
    | TypeError       // `~` applied to the NaN that `.str.startswith` gives for a missing cell

  /** Either the value a step computed or the exception it raised. */
  datatype Result<+T> = Ok(value: T) | Err(error: Error) {
    predicate IsFailure() { Err? }
    function PropagateFailure<U>(): Result<U>
      requires Err?
    {
      Err(error)
    }
    function Extract(): T
      requires Ok?
    {
      value
    }
  }
}
