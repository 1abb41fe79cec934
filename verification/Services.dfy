/**
 The transactional services, written as the source runs them: load entities from the snapshot, call their methods,
 collect audit events, hand everything to the flush. Each is proved to compute what Transactions says.
 */
module LifecycleService {
  import opened Domain
  import opened ReceiptContent
  import opened Validation
  import opened Job
  import opened ReceiptEntity
  import opened Database
  import opened Transactions

  /** findOwnedJob and findReceipt: what the transaction throws, if anything. */
  method CheckRows(db: Db, claim: Claim) returns (error: Option<TxError>)
    ensures error == (if claim.jobId !in db.jobs then Some(JobMissing)
                      else if !Owns(db.jobs[claim.jobId], claim) then Some(OwnershipLost)
                      else if claim.receiptId !in db.receipts then Some(ReceiptMissing)
                      else None)
  {
    if claim.jobId !in db.jobs {
      return Some(JobMissing);
    }
    var job := new ReceiptExtractionJob.FromRow(db.jobs[claim.jobId]);
    if job.receiptId != claim.receiptId || !job.IsOwnedBy(claim.workerId, claim.token) {
      return Some(OwnershipLost);
    }
    if claim.receiptId !in db.receipts {
      return Some(ReceiptMissing);
    }
    error := None;
  }

  method CompleteQualityRejection(db: Db, claim: Claim, recapture: bool, now: Instant) returns (o: Outcome)
    ensures o == Run(db, Tx.CompleteQualityRejection(claim, recapture, now))
  {
    var error := CheckRows(db, claim);
    if error.Some? {
      return Aborted(error.value);
    }
    var job := new ReceiptExtractionJob.FromRow(db.jobs[claim.jobId]);
    var receipt := new Receipt.FromRow(db.receipts[claim.receiptId]);
    var next := if recapture then NeedsRecapture else Unreadable;
    receipt.CompleteExtraction(None, [], next, now);
    var owned := job.Complete(claim.workerId, claim.token, now);
    assert owned;
    var events := [SystemEvent(now, QualityRejected, None, Some(next), NoDetails)];
    o := Ready(claim.jobId, claim.receiptId, Change(Some(job.Row()), Some(receipt.Row()), events));
  }

  method CompleteExtraction(db: Db, claim: Claim, data: Option<ReceiptData>, extractedAt: Instant, today: Date,
                            now: Instant) returns (o: Outcome)
    ensures o == Run(db, Tx.CompleteExtraction(claim, data, extractedAt, today, now))
  {
    var error := CheckRows(db, claim);
    if error.Some? {
      return Aborted(error.value);
    }
    var job := new ReceiptExtractionJob.FromRow(db.jobs[claim.jobId]);
    var receipt := new Receipt.FromRow(db.receipts[claim.receiptId]);
    var rules := Validate(data, job.duplicateDetected, today);
    var next := Route(data, rules);
    receipt.CompleteExtraction(data, rules, next, now);
    var owned := job.Complete(claim.workerId, claim.token, now);
    assert owned;
    var events := [SystemEvent(extractedAt, ExtractionCompleted, None, None, Proposed(data))];
    events := events + [SystemEvent(now, ValidationCompleted, None, Some(next), Rules(rules))];
    o := Ready(claim.jobId, claim.receiptId, Change(Some(job.Row()), Some(receipt.Row()), events));
  }

  method ScheduleRetry(db: Db, claim: Claim, errorCode: string, requestedRetryAt: Instant, now: Instant)
    returns (o: Outcome)
    ensures o == Run(db, Tx.ScheduleRetry(claim, errorCode, requestedRetryAt, now))
  {
    var error := CheckRows(db, claim);
    if error.Some? {
      return Aborted(error.value);
    }
    var job := new ReceiptExtractionJob.FromRow(db.jobs[claim.jobId]);
    var next := if requestedRetryAt > now then requestedRetryAt else now + MILLISECOND;
    var scheduled := job.ScheduleRetry(claim.workerId, claim.token, next, errorCode, now);
    assert scheduled;
    var events := [SystemEvent(now, RetryScheduled, None, None, NoDetails)];
    o := Ready(claim.jobId, claim.receiptId, Change(Some(job.Row()), None, events));
  }

  method FailExtraction(db: Db, claim: Claim, errorCode: string, now: Instant) returns (o: Outcome)
    ensures o == Run(db, Tx.FailExtraction(claim, errorCode, now))
  {
    var error := CheckRows(db, claim);
    if error.Some? {
      return Aborted(error.value);
    }
    var job := new ReceiptExtractionJob.FromRow(db.jobs[claim.jobId]);
    var receipt := new Receipt.FromRow(db.receipts[claim.receiptId]);
    receipt.CompleteExtraction(None, [], ManualEntry, now);
    var owned := job.Fail(claim.workerId, claim.token, errorCode, now);
    assert owned;
    var events := [SystemEvent(now, ExtractionFailed, None, Some(ManualEntry), NoDetails)];
    o := Ready(claim.jobId, claim.receiptId, Change(Some(job.Row()), Some(receipt.Row()), events));
  }
}

/** One worker's handling of one claim, outside any transaction until the result (ReceiptExtractionProcessor.java). */
module Processor {
  import opened Domain
  import opened Database
  import opened Transactions
  import LifecycleService

  method Process(db: Db, claim: Claim, result: Processing, at: Instant, today: Date, now: Instant)
    returns (o: Outcome)
    ensures o == Run(db, ProcessorTx(claim, result, at, today, now))
  {
    match result
    case NotAcceptable(recapture) =>
      o := LifecycleService.CompleteQualityRejection(db, claim, recapture, now);
    case Extraction(data) =>
      o := LifecycleService.CompleteExtraction(db, claim, data, at, today, now);
    case ExtractionError(code) =>
      o := RetryOrFail(db, claim, code, at, now);
    case StorageError(code, retryable) =>
      if retryable {
        o := RetryOrFail(db, claim, code, at, now);
      } else {
        o := LifecycleService.FailExtraction(db, claim, code, now);
      }
  }

  method RetryOrFail(db: Db, claim: Claim, code: string, at: Instant, now: Instant) returns (o: Outcome)
    ensures o == Run(db, Transactions.RetryOrFail(claim, code, at, now))
  {
    if claim.attemptCount < MAX_ATTEMPTS {
      o := LifecycleService.ScheduleRetry(db, claim, code, at + RETRY_DELAY, now);
    } else {
      o := LifecycleService.FailExtraction(db, claim, code, now);
    }
  }
}

/** Claiming and giving back (ReceiptJobClaimService.java), and recovery (ExpiredJobRecoveryService.java). */
module ClaimService {
  import opened Domain
  import opened ReceiptContent
  import opened Job
  import opened Database
  import opened Transactions
  import opened JobQueries
  import opened CaseFile
  import opened Protocol
  import Invariance

  /** One pass of the claim loop: the entity is claimed, stored and logged. */
  method ClaimRow(s: State, id: JobId, workerId: string, token: Token, now: Instant, until: Instant) returns (t: State)
    requires id in s.db.jobs && IsWaiting(s.db.jobs[id].status)
    ensures t == ClaimOne(s, id, workerId, token, now, until)
  {
    var job := new ReceiptExtractionJob.FromRow(s.db.jobs[id]);
    var ok := job.Claim(workerId, token, now, until);
    assert ok;
    var stored := BumpedJob(job.Row());
    var log := Log(s.db, job.receiptId) + [ClaimEvent(now)];
    var db := s.db.(jobs := s.db.jobs[id := stored], audit := s.db.audit[job.receiptId := log]);
    t := s.(db := db, issued := s.issued[token := ClaimOf(id, stored, workerId, token, until)]);
  }

  /** After the flush: one claim per row, with the version the flush gave it. */
  method ToClaims(s: State, rows: seq<JobId>, workerId: string, tokens: seq<Token>, until: Instant)
    returns (claims: seq<Claim>)
    requires |tokens| == |rows| && forall i :: 0 <= i < |rows| ==> rows[i] in s.db.jobs
    ensures |claims| == |rows|
    ensures forall i :: 0 <= i < |rows| ==>
              claims[i] == ClaimOf(rows[i], s.db.jobs[rows[i]], workerId, tokens[i], until)
  {
    claims := [];
    for i := 0 to |rows|
      invariant |claims| == i
      invariant forall k :: 0 <= k < i ==> claims[k] == ClaimOf(rows[k], s.db.jobs[rows[k]], workerId, tokens[k], until)
    {
      claims := claims + [ClaimOf(rows[i], s.db.jobs[rows[i]], workerId, tokens[i], until)];
    }
  }

  lemma ClaimAllStep(s: State, rows: seq<JobId>, workerId: string, tokens: seq<Token>, now: Instant, until: Instant,
                     i: nat)
    requires |tokens| == |rows| && i < |rows| && Invariance.Distinct(rows)
    requires forall k :: 0 <= k < |rows| ==> rows[k] in s.db.jobs
    ensures var t := ClaimAll(s, rows[..i], workerId, tokens[..i], now, until);
            && t.db.jobs[rows[i]] == s.db.jobs[rows[i]]
            && ClaimAll(s, rows[..i + 1], workerId, tokens[..i + 1], now, until)
               == ClaimOne(t, rows[i], workerId, tokens[i], now, until)
  {
    hide ClaimOne;
    Invariance.ClaimAllFrame(s, rows[..i], workerId, tokens[..i], now, until);
    assert rows[..i + 1][..i] == rows[..i] && tokens[..i + 1][..i] == tokens[..i];
  }

  /** `rows` is the locking query's answer; its row locks make the state current until the commit. */
  method ClaimAvailable(s: State, workerId: string, batchSize: int, leaseDuration: int, ghost locked: set<JobId>,
                        rows: seq<JobId>, tokens: seq<Token>, now: Instant)
    returns (claims: Option<seq<Claim>>, t: State)
    requires batchSize > 0 ==> IsBatch(rows, Available(s.db.jobs, now, locked), batchSize)
    requires |tokens| == |rows|
    ensures claims.Some? <==> ValidClaimRequest(workerId, batchSize, leaseDuration)
    ensures claims.Some? <==> !IsBlank(workerId) && |workerId| <= 100 && batchSize > 0 && leaseDuration > 0
    ensures claims.None? ==> t == s
    ensures claims.Some? ==>
              && (forall i :: 0 <= i < |rows| ==> rows[i] in s.db.jobs)
              && t == ClaimAll(s, rows, workerId, tokens, now, now + leaseDuration)
              && |claims.value| == |rows| <= batchSize
              && forall i :: 0 <= i < |rows| ==>
                   claims.value[i] == ClaimOf(rows[i], t.db.jobs[rows[i]], workerId, tokens[i], now + leaseDuration)
  {
    hide ClaimOne;
    if !ValidClaimRequest(workerId, batchSize, leaseDuration) {
      return None, s;
    }
    var leaseUntil := now + leaseDuration;
    BatchHasNoRepeats(rows, Available(s.db.jobs, now, locked), batchSize);
    t := s;
    for i := 0 to |rows|
      invariant t == ClaimAll(s, rows[..i], workerId, tokens[..i], now, leaseUntil)
    {
      ClaimAllStep(s, rows, workerId, tokens, now, leaseUntil, i);
      t := ClaimRow(t, rows[i], workerId, tokens[i], now, leaseUntil);
    }
    assert rows[..|rows|] == rows && tokens[..|tokens|] == tokens;
    var list := ToClaims(t, rows, workerId, tokens, leaseUntil);
    claims := Some(list);
  }

  method Release(db: Db, claim: Claim, now: Instant) returns (o: Outcome)
    ensures o == Run(db, Tx.Release(claim, now))
  {
    if claim.jobId !in db.jobs {
      return Aborted(JobMissing);
    }
    var job := new ReceiptExtractionJob.FromRow(db.jobs[claim.jobId]);
    if !job.IsOwnedBy(claim.workerId, claim.token) {
      return Aborted(OwnershipLost);
    }
    var released := job.ReleaseClaim(claim.workerId, claim.token, now);
    assert released;
    o := Ready(claim.jobId, job.receiptId, Change(Some(job.Row()), None, []));
  }

  method RecoverRow(s: State, id: JobId, now: Instant) returns (t: State)
    requires id in s.db.jobs && s.db.jobs[id].IsExpired(now)
    ensures t == RecoverOne(s, id, now)
  {
    var job := new ReceiptExtractionJob.FromRow(s.db.jobs[id]);
    var ok := job.RecoverExpiredLease(now);
    assert ok;
    var log := Log(s.db, job.receiptId) + [RecoveryEvent(now)];
    t := s.(db := s.db.(jobs := s.db.jobs[id := BumpedJob(job.Row())], audit := s.db.audit[job.receiptId := log]));
  }

  method RecoverExpired(s: State, batchSize: int, ghost locked: set<JobId>, rows: seq<JobId>, now: Instant)
    returns (ok: bool, t: State)
    requires batchSize > 0 ==> IsBatch(rows, Expired(s.db.jobs, now, locked), batchSize)
    ensures ok <==> batchSize > 0
    ensures !ok ==> t == s
    ensures ok ==> (forall i :: 0 <= i < |rows| ==> rows[i] in s.db.jobs) && t == RecoverAll(s, rows, now)
  {
    if batchSize <= 0 {
      return false, s;
    }
    BatchHasNoRepeats(rows, Expired(s.db.jobs, now, locked), batchSize);
    t := s;
    for i := 0 to |rows|
      invariant t == RecoverAll(s, rows[..i], now)
      invariant forall k :: i <= k < |rows| ==> t.db.jobs[rows[k]] == s.db.jobs[rows[k]]
    {
      assert rows[..i + 1][..i] == rows[..i];
      t := RecoverRow(t, rows[i], now);
    }
    assert rows[..|rows|] == rows;
    ok := true;
  }
}

/** Intake and duplicate marking (ReceiptPersistenceService.java). */
module PersistenceService {
  import opened Domain
  import opened ReceiptContent
  import opened Validation
  import opened Job
  import opened ReceiptEntity
  import opened Database
  import opened Transactions
  import opened CaseFile
  import opened Protocol

  /** False is a violated unique constraint: everything is rolled back. */
  method CreateQueued(db: Db, u: NewUpload) returns (ok: bool, stored: Db)
    requires u.receiptId !in db.receipts && u.jobId !in db.jobs
    ensures ok <==> !Conflicts(db, u.companyId, u.imageSha256, u.key)
    ensures stored == if ok then Inserted(db, u) else db
  {
    var receipt := new Receipt(u.companyId, u.imageSha256, u.createdAt);
    var owned := receipt.SubmittedBy(u.owner);
    assert owned;
    if (u.companyId, u.imageSha256) in db.imageIndex {
      return false, db;
    }
    stored := db.(receipts := db.receipts[u.receiptId := receipt.Row()],
                  imageIndex := db.imageIndex[(u.companyId, u.imageSha256) := u.receiptId]);
    var job := new ReceiptExtractionJob(u.receiptId, u.now);
    stored := stored.(jobs := stored.jobs[u.jobId := job.Row()], jobIndex := stored.jobIndex[u.receiptId := u.jobId]);
    if u.key.Some? && !IsBlank(u.key.value) {
      if (u.companyId, u.key.value) in db.keys {
        return false, db;
      }
      stored := stored.(keys := stored.keys[(u.companyId, u.key.value) := u.receiptId]);
    }
    stored := stored.(audit := stored.audit[u.receiptId := [UploadEvent(u.owner, u.createdAt)]]);
    ok := true;
  }

  method MarkDuplicate(db: Db, receiptId: ReceiptId, today: Date, now: Instant) returns (o: Outcome)
    ensures o == Run(db, Tx.MarkDuplicate(receiptId, today, now))
  {
    if receiptId !in db.receipts {
      return Aborted(ReceiptMissing);
    }
    if receiptId !in db.jobIndex || db.jobIndex[receiptId] !in db.jobs {
      return Aborted(JobMissing);
    }
    var jobId := db.jobIndex[receiptId];
    var receipt := new Receipt.FromRow(db.receipts[receiptId]);
    var job := new ReceiptExtractionJob.FromRow(db.jobs[jobId]);
    if job.duplicateDetected {
      return Ready(jobId, receiptId, NO_CHANGE);
    }
    job.MarkDuplicate();
    if receipt.status.None? {
      var event := SystemEvent(now, DuplicateDetected, None, None, Deferred);
      return Ready(jobId, receiptId, Change(Some(job.Row()), None, [event]));
    }
    if Validation.Failed(receipt.ruleResults, DuplicateSubmission) {
      return Ready(jobId, receiptId, Change(Some(job.Row()), None, []));
    }
    var previous := receipt.status.value;
    var results := Validate(receipt.currentData, true, today);
    var next := previous;
    if !IsTerminal(previous) {
      next := Route(receipt.currentData, results);
    }
    receipt.UpdateData(receipt.currentData, results, next, now);
    var event := SystemEvent(now, DuplicateDetected, Some(previous), Some(next), NoDetails);
    o := Ready(jobId, receiptId, Change(Some(job.Row()), Some(receipt.Row()), [event]));
  }
}

/** Corrections and decisions (ReceiptCommandService.java). */
module CommandService {
  import opened Domain
  import opened Corrections
  import opened Validation
  import opened ReceiptEntity
  import opened Database
  import opened Transactions

  method CorrectFields(db: Db, receiptId: ReceiptId, expectedVersion: nat, corrections: FieldCorrections,
                       employee: Employee, today: Date, now: Instant) returns (o: Outcome)
    ensures o == Run(db, Tx.CorrectFields(receiptId, expectedVersion, corrections, employee, today, now))
  {
    if !OnlyClearable(corrections.clearFields) {
      return Aborted(IllegalArgument);
    }
    if receiptId !in db.receipts {
      return Aborted(ReceiptMissing);
    }
    var receipt := new Receipt.FromRow(db.receipts[receiptId]);
    var refusal := ModifyRefusal(receipt.Row(), employee);
    if refusal.Some? {
      return Aborted(refusal.value);
    }
    if receipt.version != expectedVersion || !IsEditable(receipt.Row()) {
      return Aborted(Conflict);
    }
    var before := receipt.currentData;
    var after := ApplyTo(corrections, before);
    var duplicate := Validation.Failed(receipt.ruleResults, DuplicateSubmission);
    var results := Validate(Some(after), duplicate, today);
    var previousStatus := receipt.status;
    var nextStatus := Route(Some(after), results);
    if nextStatus == AutoApproved {
      if employee.role == EmployeeOnly || Some(employee.id) == receipt.owner {
        nextStatus := NeedsReview;
      }
    }
    receipt.UpdateData(Some(after), results, nextStatus, now);
    var event := AuditEvent(now, Human(employee.id), FieldsCorrected, previousStatus, Some(nextStatus),
                            Correction(before, after, results));
    o := Ready(0, receiptId, Change(None, Some(receipt.Row()), [event]));
  }

  method Decide(db: Db, receiptId: ReceiptId, expectedVersion: nat, decision: ReviewDecision, employee: Employee,
                now: Instant) returns (o: Outcome)
    ensures o == Run(db, Tx.Decide(receiptId, expectedVersion, decision, employee, now))
  {
    if receiptId !in db.receipts {
      return Aborted(ReceiptMissing);
    }
    var receipt := new Receipt.FromRow(db.receipts[receiptId]);
    var refusal := ReviewRefusal(receipt.Row(), employee);
    if refusal.Some? {
      return Aborted(refusal.value);
    }
    if receipt.version != expectedVersion || !IsEditable(receipt.Row()) {
      return Aborted(Conflict);
    }
    if decision == Approve {
      if !IsApprovable(receipt.Row()) {
        return Aborted(Conflict);
      }
    }
    var previous := receipt.status;
    var next := if decision == Approve then Approved else Rejected;
    var action := if decision == Approve then ReviewApproved else ReviewRejected;
    receipt.ChangeStatus(next, now);
    var event := AuditEvent(now, Human(employee.id), action, previous, Some(next), NoDetails);
    o := Ready(0, receiptId, Change(None, Some(receipt.Row()), [event]));
  }
}
