/** Option, Result, the byte types and the limits shared by several modules. */
module Wrappers {
  datatype Option<+T> = None | Some(value: T)

  /** A protocol operation yields a value or one of the source's error codes. */
  datatype Result<+T> = Ok(value: T) | Err(error: ProtocolError)

  datatype ProtocolError =
    | InvalidMessage
    | InvalidArgument
    | InvalidState
    | InvalidKey
    | InvalidCiphertext
    | AuthenticationFailed
    | MaxSkippedMessagesExceeded
    | MessageNumberOverflow
    | MessageTooOld
    | NonceReservationRequired
    | ReplayAttackDetected
    | KeyNotFound
    | Expired

  type Byte = b: int | 0 <= b < 256
  type Bytes = seq<Byte>

  const U32: nat := 0x1_0000_0000
  const U64: nat := 0x1_0000_0000_0000_0000

  /** The encoded ratchet header, the associated data of one message, and a message's age in seconds. */
  const HEADER_SIZE: nat := 56
  const MAX_AD: nat := 256
  const MAX_AGE: nat := 86400

  function Min(a: int, b: int): int { if a < b then a else b }
  function Max(a: int, b: int): int { if a < b then b else a }
}
