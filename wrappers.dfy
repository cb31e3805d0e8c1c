/** Optional values and error results shared by every stage of the pipeline. */
module Wrappers {

  datatype Option<+T> = None | Some(value: T)

  /** A computation that either yields a value or stops with the exception the
      Python code would raise. */
  datatype Result<+T> = Ok(value: T) | Err(error: string)
}
