/** Shared result types for the processors. An exception raised by the
    processors (or by the helpers they call) becomes a `Failure`. */
module Common {

  datatype Option<+T> = None | Some(value: T)

  /** The ways a batch or a run can fail. */
  datatype Failure =
    | UnresolvableYear                 // extract_year raised RuntimeError and nobody caught it
    | UndefinedSelection(name: string) // a region names a selection that was never added
    | UnknownProcessor(name: string)   // run_quick was asked for a processor it does not know

  datatype Result<+T> = Ok(value: T) | Err(failure: Failure)
}
