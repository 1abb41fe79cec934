/** Vocabulary shared by every component: identifiers, enumerations and the optional value. */
module Domain {
  /** A nullable Java reference. */
  datatype Option<+T> = None | Some(value: T)

  type ReceiptId = nat
  type JobId = nat
  type EmployeeId = nat
  /** A claim token: a random UUID in the source, here any value not used before. */
  type Token = nat
  type Instant = int
  type Date = int

  datatype ReceiptStatus =
    | AutoApproved | NeedsReview | NeedsRecapture | ManualEntry | Unreadable | Approved | Rejected

  predicate IsTerminal(status: ReceiptStatus) {
    status == Approved || status == Rejected
  }

  datatype JobStatus = Queued | Processing | RetryWait | Completed | Failed

  predicate IsWaiting(status: JobStatus) {
    status == Queued || status == RetryWait
  }

  predicate IsFinished(status: JobStatus) {
    status == Completed || status == Failed
  }

  datatype EmployeeRole = EmployeeOnly | Reviewer | Admin

  /** The logged-in employee, as far as permissions look at it. */
  datatype Employee = Employee(id: EmployeeId, role: EmployeeRole)

  datatype ReviewDecision = Approve | Reject
}
