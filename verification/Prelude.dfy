/** Datatypes shared by the other modules. */
module Prelude {

  datatype Option<+T> = None | Some(value: T)

  /** The kinds of exception the modelled code raises itself or lets through. */
  datatype Error = ValueError | OSError | RuntimeError | LookupFailed | AssertionFailed | AttributeFailed

  /** A call that either returns a value or raises. */
  datatype Result<+T> = Ok(value: T) | Raised(error: Error)

  datatype Unit = Unit

  type Byte = b: int | 0 <= b < 256

  /** An ideal SHA-256: two messages have the same digest only if they are equal. */
  datatype Digest = Sha256(message: seq<Byte>)

  function Min(x: int, y: int): int { if x <= y then x else y }

  function Max(x: int, y: int): int { if x >= y then x else y }
}
