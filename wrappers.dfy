/** Failure-carrying values: the per-record outcome of a lookup or of one
    enrichment step. */
module Wrappers {

  datatype Option<+T> = None | Some(value: T)

  datatype Result<+R, +E> = Success(value: R) | Failure(error: E)
}
