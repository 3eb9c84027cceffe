// The status column of the operations job table.
module JobStates {

  datatype Status =
    | Queued | Running | Waiting | Applying
    | Succeeded | Failed | Interrupted | Cancelled | NeedsRecovery

  /** A task is, or will be, working on the job. */
  predicate Executing(s: Status)
  {
    s in {Queued, Running, Waiting, Applying}
  }

  /** The job keeps its scope closed to others. */
  predicate Holding(s: Status)
  {
    Executing(s) || s in {NeedsRecovery, Interrupted}
  }
}
