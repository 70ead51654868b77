/** Optional values, results and the error kinds the player reports. */
module Wrappers {

  /** Swift's `T?`. */
  datatype Option<+T> = None | Some(value: T)

  /** A call that either returns a value or throws an error. */
  datatype Result<+T, +E> = Success(value: T) | Failure(error: E)

  /** A call that returns nothing or throws an error. */
  datatype Outcome<+E> = Pass | Fail(error: E)

  /**
   * The errors thrown or reported by the playback core (MediaPlayerControlError,
   * LocalAudioPlayer, LocalMediaPlayerError and the NSErrors of AudioModel).
   */
  datatype PlayerError =
    | IsNotEnable
    | NoInvalidItem
    | CurrentItemIsNil
    | AlreadyBeenPreparing
    | OperationExpired
    | FileUrlInvalid
    | PrepareToPlayFailed
    | MediaUrlIsNil
    | MediaUrlInvalid
    | TransferFailed
    | DataReadFailed
}
