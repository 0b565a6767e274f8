/** Failure-carrying values used across the model: Go's `nil` pointers become
    `Option`, `(T, error)` pairs become `Result`, and a Go runtime panic is the
    `Panicked` outcome of an `Outcome`. */
module Wrappers {

  datatype Option<+T> = None | Some(value: T) {
    function GetOr(default: T): T {
      match this
      case Some(v) => v
      case None => default
    }
  }

  /** A Go `(value, error)` pair: `Err` carries the error's message. */
  datatype Result<+T> = Ok(value: T) | Err(msg: string) {
    predicate IsOk() { Ok? }
  }

  /** A configuration file as read and decoded: the read failed, the YAML did
      not decode, or the decoded contents. */
  datatype FileContents<+T> = ReadFailed(msg: string) | ParseFailed(msg: string) | Parsed(value: T)

  /** What a Go call does when it may panic: it returns a value or it panics. */
  datatype Outcome<+T> = Returned(value: T) | Panicked(reason: string)
}
