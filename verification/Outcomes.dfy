/** The result types shared by every component. */
module Outcomes {

  datatype Option<+T> = None | Some(value: T)

  datatype Result<+T> = Ok(value: T) | Corrupt

  /** How one step of a process ends.  `Failed` is a returned error, carrying the
      error's `recovery_required` flag; `Crashed` means the process is gone and only
      what the disk holds remains. */
  datatype Outcome = Done | Failed(recoveryRequired: bool) | Crashed
}
