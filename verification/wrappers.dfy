/** Failure-carrying values shared by the whole model.
    - Option<T> stands for a C# reference that may be null.
    - Result<T> stands for a call that either returns a value or throws one of the
      exceptions the helper can raise. */
module Wrappers {

  /** A nullable value: None is `null`. */
  datatype Option<+T> = None | Some(value: T)

  /** The exceptions the modelled code can let escape. */
  datatype Fault =
    | ArgumentOutOfRange  // indexing an empty list at 0
    | KeyNotFound       // `dictionary[key]` for an absent key

  /** Either the value a call returned or the exception it threw. */
  datatype Result<+T> = Ok(value: T) | Thrown(fault: Fault)
}
