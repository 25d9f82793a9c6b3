/** Result and error types shared by every part of the photoionisation model. */
module Outcome {

  datatype Option<+T> = None | Some(value: T)

  datatype Result<+T> = Ok(value: T) | Err(error: Stop)

  /** The reasons for which the program stops (its `exit()` calls and the
      exceptions it lets escape). `NoLimitsRow` is the one exception: a limits
      lookup that skipped `skipped` rows past the only data row reads no
      limits, and the program goes on with empty arrays, which the model does
      not follow. */
  datatype Stop =
    | UnknownModel(photmod: string)
    | UnknownProperty(propname: string)
    | NoLimitsRow(path: string, skipped: nat)
    | MissingLimitsFile(path: string)
    | MissingGridFile(zmet: string)
    | MalformedRow(k: nat, iline: nat)
}
