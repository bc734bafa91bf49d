/** Value types shared by every step of the back-end pipeline. */
module Results {

  /** One byte of audio or file data. */
  newtype byte = x: int | 0 <= x < 256

  /** A JavaScript value that may be `null`: `None` is `null`. */
  datatype Option<+T> = None | Some(value: T)

  /**
   * The `{ isSuccessful, ... }` record every step of the back end returns:
   * `Succeeded(v)` is `isSuccessful: true` with its payload `v`,
   * `Failed` is `isSuccessful: false` with the payload field set to `null`.
   * The human-readable `message` field is only logged and is not modelled.
   */
  datatype Outcome<+T> = Succeeded(value: T) | Failed
}
