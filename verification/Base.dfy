/** Types shared by every module: bytes, optional values and the error results of the Go code. */
module Base {

  type byte = b: int | 0 <= b < 256

  type bytes = seq<byte>

  datatype Option<+T> = None | Some(value: T)

  /** A write to a document store happens, does not, or happens and is reported as an error (a timeout). */
  datatype Save = Saved | NotSaved | SavedUnreported

  /** The error values the modelled functions return; wrapping text is dropped. */
  datatype Error =
    | InvalidSignature | InvalidVersion | InvalidBTCNet           // package model
    | FailedToDecode | InvalidOpReturn | InconsistentBTCNet       // package btc
    | PingFailed | InvalidTransactionID | InvalidFee | NotEnoughBalance
    | FailedToSign | CommandFailed
    | CouldNotGetNextUTXO | CouldNotAddUTXO | CouldNotLoadWallet | CouldNotSaveWallet
    | FailedToGet | FailedToPut | FailedToUpdate                  // package store
    | CouldNotPutAnchor | CouldNotStoreRecord                     // package gw
    | CouldNotGetRecord | CouldNotRefreshRecord

  datatype Result<+T> = Ok(value: T) | Err(error: Error)
}
