/** Failure-carrying results and the Python exception kinds the metadata layer raises. */
module Common {

  datatype Option<+T> = None | Some(value: T)

  /** The exception a Python operation raises, by kind. */
  datatype Error =
    | TypeError
      /** `parse_filters`: the element at `index` is neither a codec nor a dict. */
    | InvalidFilterAt(index: nat)
    | ValueError
    | KeyError(key: string)
    | AttributeError
      /** numpy refuses a Python integer outside the range of the target width. */
    | OverflowError
    | UnicodeDecodeError
    | UnicodeEncodeError
      /** An outcome that depends on numpy or Python behaviour this model does not describe. */
    | Unmodelled

  datatype Result<+R> = Ok(value: R) | Err(error: Error) {
    predicate IsFailure() { Err? }

    function PropagateFailure<U>(): Result<U>
      requires Err?
    {
      Err(error)
    }

    function Extract(): R
      requires Ok?
    {
      value
    }
  }
}
