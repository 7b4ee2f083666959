/** The stock option type, shared by every other module. */
module Options {
  datatype Option<+T> = None | Some(value: T)

  /** How one call on a database or a bus ended. `FailedAfter` is a call whose effect is
      already in the table although the caller got an error (a lost acknowledgement). */
  datatype Outcome = Done | Failed | FailedAfter
}
