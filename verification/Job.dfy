/** The extraction job: its row, its state machine and the entity that runs it (ReceiptExtractionJob.java). */
module Job {
  import opened Domain

  /** A row of receipt_extraction_jobs, with the version the next writer must still find there. */
  datatype JobRow = JobRow(
    version: nat,
    receiptId: ReceiptId,
    status: JobStatus,
    duplicateDetected: bool,
    attemptCount: nat,
    availableAt: Instant,
    startedAt: Option<Instant>,
    completedAt: Option<Instant>,
    lockedBy: Option<string>,
    leaseUntil: Option<Instant>,
    claimToken: Option<Token>,
    lastErrorCode: Option<string>)
  {
    predicate IsOwnedBy(workerId: string, token: Token) {
      status == Processing && lockedBy == Some(workerId) && claimToken == Some(token)
    }

    predicate IsExpired(now: Instant) {
      status == Processing && leaseUntil.Some? && leaseUntil.value < now
    }

    predicate IsAvailable(now: Instant) {
      IsWaiting(status) && availableAt <= now
    }

    function Unlocked(): JobRow {
      this.(lockedBy := None, leaseUntil := None, claimToken := None)
    }

    function Claimed(workerId: string, token: Token, now: Instant, until: Instant): JobRow {
      this.(status := Processing, lockedBy := Some(workerId), claimToken := Some(token), leaseUntil := Some(until),
            attemptCount := attemptCount + 1, startedAt := Some(now), completedAt := None)
    }

    function Finished(outcome: JobStatus, now: Instant): JobRow {
      Unlocked().(status := outcome, completedAt := Some(now))
    }

    function RetryAt(next: Instant, errorCode: string): JobRow {
      Unlocked().(status := RetryWait, availableAt := next, completedAt := None, lastErrorCode := Some(errorCode))
    }

    /** Back to the queue, after an expired lease or a returned claim. */
    function Requeued(now: Instant): JobRow {
      Unlocked().(status := Queued, availableAt := now)
    }
  }

  function NewJob(receiptId: ReceiptId, now: Instant): JobRow {
    JobRow(0, receiptId, Queued, false, 0, now, None, None, None, None, None, None)
  }

  /** The lease fields are all set while the job is processed and all null otherwise. */
  predicate LeaseMatchesStatus(row: JobRow) {
    if row.status == Processing
    then row.lockedBy.Some? && row.leaseUntil.Some? && row.claimToken.Some?
    else row.lockedBy.None? && row.leaseUntil.None? && row.claimToken.None?
  }

  /** The JPA entity. A method that throws in the source returns false here and changes nothing. */
  class ReceiptExtractionJob {
    const version: nat
    const receiptId: ReceiptId
    var status: JobStatus
    var duplicateDetected: bool
    var attemptCount: nat
    var availableAt: Instant
    var startedAt: Option<Instant>
    var completedAt: Option<Instant>
    var lockedBy: Option<string>
    var leaseUntil: Option<Instant>
    var claimToken: Option<Token>
    var lastErrorCode: Option<string>

    function Row(): JobRow
      reads this
    {
      JobRow(version, receiptId, status, duplicateDetected, attemptCount, availableAt, startedAt, completedAt,
             lockedBy, leaseUntil, claimToken, lastErrorCode)
    }

    constructor (receiptId: ReceiptId, now: Instant)
      ensures Row() == NewJob(receiptId, now)
      ensures this.receiptId == receiptId && status == Queued && availableAt == now && attemptCount == 0
      ensures !duplicateDetected && lockedBy.None? && leaseUntil.None? && claimToken.None? && version == 0
    {
      this.version, this.receiptId := 0, receiptId;
      status, availableAt := Queued, now;
      duplicateDetected, attemptCount := false, 0;
      startedAt, completedAt, lockedBy, leaseUntil, claimToken, lastErrorCode := None, None, None, None, None, None;
    }

    /** Hibernate filling an entity from a row. */
    constructor FromRow(row: JobRow)
      ensures Row() == row
    {
      version, receiptId, status := row.version, row.receiptId, row.status;
      duplicateDetected, attemptCount, availableAt := row.duplicateDetected, row.attemptCount, row.availableAt;
      startedAt, completedAt, lockedBy := row.startedAt, row.completedAt, row.lockedBy;
      leaseUntil, claimToken, lastErrorCode := row.leaseUntil, row.claimToken, row.lastErrorCode;
    }

    method Claim(workerId: string, token: Token, now: Instant, newLeaseUntil: Instant) returns (ok: bool)
      modifies this
      ensures ok == (old(status) == Queued || old(status) == RetryWait)
      ensures ok ==>
                && status == Processing && lockedBy == Some(workerId) && claimToken == Some(token)
                && leaseUntil == Some(newLeaseUntil) && attemptCount == old(attemptCount) + 1
                && startedAt == Some(now) && completedAt.None?
      ensures duplicateDetected == old(duplicateDetected) && availableAt == old(availableAt)
      ensures Row() == if ok then old(Row()).Claimed(workerId, token, now, newLeaseUntil) else old(Row())
    {
      if status != Queued && status != RetryWait {
        return false;
      }
      status := Processing;
      lockedBy := Some(workerId);
      claimToken := Some(token);
      leaseUntil := Some(newLeaseUntil);
      attemptCount := attemptCount + 1;
      startedAt := Some(now);
      completedAt := None;
      ok := true;
    }

    method Complete(workerId: string, token: Token, now: Instant) returns (ok: bool)
      modifies this
      ensures ok == (old(status) == Processing && old(lockedBy) == Some(workerId) && old(claimToken) == Some(token))
      ensures ok ==>
                && status == Completed && completedAt == Some(now)
                && lockedBy.None? && leaseUntil.None? && claimToken.None?
      ensures attemptCount == old(attemptCount) && duplicateDetected == old(duplicateDetected)
      ensures Row() == if ok then old(Row()).Finished(Completed, now) else old(Row())
    {
      ok := IsOwnedBy(workerId, token);
      if ok {
        status := Completed;
        completedAt := Some(now);
        lockedBy := None;
        leaseUntil := None;
        claimToken := None;
      }
    }

    method Fail(workerId: string, token: Token, errorCode: string, now: Instant) returns (ok: bool)
      modifies this
      ensures ok == (old(status) == Processing && old(lockedBy) == Some(workerId) && old(claimToken) == Some(token))
      ensures ok ==>
                && status == JobStatus.Failed && completedAt == Some(now) && lastErrorCode == Some(errorCode)
                && lockedBy.None? && leaseUntil.None? && claimToken.None?
      ensures attemptCount == old(attemptCount) && duplicateDetected == old(duplicateDetected)
      ensures Row() == if ok then old(Row()).Finished(Failed, now).(lastErrorCode := Some(errorCode)) else old(Row())
    {
      ok := IsOwnedBy(workerId, token);
      if ok {
        status := Failed;
        lastErrorCode := Some(errorCode);
        completedAt := Some(now);
        lockedBy := None;
        leaseUntil := None;
        claimToken := None;
      }
    }

    method ScheduleRetry(workerId: string, token: Token, next: Instant, errorCode: string, now: Instant)
      returns (ok: bool)
      modifies this
      ensures ok == (old(status) == Processing && old(lockedBy) == Some(workerId) && old(claimToken) == Some(token)
                     && next > now)
      ensures ok ==>
                && status == RetryWait && availableAt == next && lastErrorCode == Some(errorCode)
                && lockedBy.None? && leaseUntil.None? && claimToken.None?
      ensures attemptCount == old(attemptCount) && duplicateDetected == old(duplicateDetected)
      ensures Row() == if ok then old(Row()).RetryAt(next, errorCode) else old(Row())
    {
      ok := IsOwnedBy(workerId, token);
      if !ok || next <= now {
        return false;
      }
      status := RetryWait;
      availableAt := next;
      lastErrorCode := Some(errorCode);
      completedAt := None;
      lockedBy := None;
      leaseUntil := None;
      claimToken := None;
    }

    method RecoverExpiredLease(now: Instant) returns (ok: bool)
      modifies this
      ensures ok == (old(status) == Processing && old(leaseUntil).Some? && old(leaseUntil).value < now)
      ensures ok ==> status == Queued && availableAt == now && lockedBy.None? && leaseUntil.None? && claimToken.None?
      ensures attemptCount == old(attemptCount) && duplicateDetected == old(duplicateDetected)
      ensures Row() == if ok then old(Row()).Requeued(now) else old(Row())
    {
      if status != Processing || leaseUntil.None? || !(leaseUntil.value < now) {
        return false;
      }
      status := Queued;
      availableAt := now;
      lockedBy := None;
      leaseUntil := None;
      claimToken := None;
      ok := true;
    }

    method ReleaseClaim(workerId: string, token: Token, now: Instant) returns (ok: bool)
      modifies this
      ensures ok == (old(status) == Processing && old(lockedBy) == Some(workerId) && old(claimToken) == Some(token))
      ensures ok ==> status == Queued && availableAt == now && lockedBy.None? && leaseUntil.None? && claimToken.None?
      ensures attemptCount == old(attemptCount) && duplicateDetected == old(duplicateDetected)
      ensures Row() == if ok then old(Row()).Requeued(now) else old(Row())
    {
      ok := IsOwnedBy(workerId, token);
      if ok {
        status := Queued;
        availableAt := now;
        lockedBy := None;
        leaseUntil := None;
        claimToken := None;
      }
    }

    predicate IsOwnedBy(workerId: string, token: Token)
      reads this
    {
      status == Processing && lockedBy == Some(workerId) && claimToken == Some(token)
    }

    method MarkDuplicate()
      modifies this
      ensures Row() == old(Row()).(duplicateDetected := true)
    {
      duplicateDetected := true;
    }
  }
}
