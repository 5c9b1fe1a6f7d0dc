/** Value types shared by every module of the indexer model: optional values,
    results, the fixed-width integer ranges of Go, and the error taxonomy. */
module Base {

  datatype Option<+T> = None | Some(value: T)

  datatype Result<+T, +E> = Ok(value: T) | Err(error: E)

  const TWO_63: int := 0x8000_0000_0000_0000
  const TWO_64: int := 0x1_0000_0000_0000_0000

  /** Go's int64. */
  type Int64 = x: int | -0x8000_0000_0000_0000 <= x < 0x8000_0000_0000_0000

  /** Go's uint64 (block numbers). */
  type Uint64 = x: int | 0 <= x < 0x1_0000_0000_0000_0000

  /** Go's uint8 (order and match states). */
  type Uint8 = x: int | 0 <= x < 256

  /** A contract identifier (a uint256 on chain) that `big.Int.Int64()` converts
      without truncation. */
  type Id64 = x: int | 0 <= x < 0x8000_0000_0000_0000

  /** An error returned by the json-api connector. `status` is present exactly
      when the error is a `cerrors.Error` (an HTTP error response); `text` is
      what its `Error()` method returns. */
  datatype ConnError = ConnError(status: Option<nat>, text: string)

  /** The causes of the errors the indexer returns (Go wraps them in messages,
      which are not modelled). */
  datatype Error =
    | Conn(cause: ConnError)  // a collector request failed
    | Rpc                     // a call to the chain node failed
    | Iteration               // a log iterator stopped with an error
    | Decode                  // ABI unpacking of a log payload failed
    | UnknownTopic            // no ABI event has the log's first topic
    | NoHandler               // the event name has no handler
    | Parse                   // a decimal string did not parse
    | Db                      // a database statement failed
    | NilCheckpoint           // a nil last-block pointer was dereferenced
    | Cancelled               // the context was cancelled
}
