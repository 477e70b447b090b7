/** Rust's `Option` and `Result`, as used by the modelled code. */
module Core {

  datatype Option<+T> = None | Some(value: T)

  datatype Result<+T, +E> = Ok(value: T) | Err(error: E)

  /** The zero- or one-element sequence holding an option's value. */
  function OptionToSeq<T>(o: Option<T>): (s: seq<T>)
    ensures |s| <= 1
    ensures o.None? <==> s == []
    ensures o.Some? ==> s == [o.value]
  {
    match o
    case None => []
    case Some(v) => [v]
  }
}

/** The part of `std::io` the modelled code relies on: error kinds and errors. */
module Io {
  import opened Core

  /** A selection of `std::io::ErrorKind`; only `WouldBlock` is treated specially. */
  datatype ErrorKind =
    | NotFound
    | PermissionDenied
    | ConnectionRefused
    | ConnectionReset
    | NotConnected
    | AddrInUse
    | WouldBlock
    | InvalidInput
    | TimedOut
    | Interrupted
    | Other

  /** An `io::Error`: its kind and an opaque operating-system code. */
  datatype IoError = IoError(kind: ErrorKind, code: int)

  type IoResult<T> = Result<T, IoError>
}

/** The part of the futures crate the modelled code relies on. */
module Futures {

  /** The outcome of polling a future. */
  datatype Poll<+T> = Pending | Ready(value: T)

  /** Identifies a task's `Waker`; two equal ids wake the same task. */
  type WakerId = nat
}
