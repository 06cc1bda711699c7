/** Small wrapper types shared by the game client and the leaderboard server. */
module Common {

  /** A value that may be missing, as `undefined` is in the source. */
  datatype Option<+T> = None | Some(value: T)

  /** A computation that either succeeds with a value or fails with an error. */
  datatype Result<+T, +E> = Success(value: T) | Failure(error: E)
}
