/**
 * Failure-carrying results, used wherever the source raises an exception,
 * and the text token both parsers read.
 */
module Wrappers {

  datatype Option<T> = None | Some(value: T)

  datatype Result<T, E> = Success(value: T) | Failure(error: E)

  /** One whitespace-separated field of a text line, as `str.split()` yields it. */
  type Token = string
}
