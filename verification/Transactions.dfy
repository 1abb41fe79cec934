/**
 What each @Transactional method computes from the rows it reads: the lifecycle service, release, markDuplicate,
 corrections and decisions. A plan is what the body wants to write; Run looks the rows up first.
 */
module Transactions {
  import opened Domain
  import opened ReceiptContent
  import opened Corrections
  import opened Validation
  import opened Job
  import opened ReceiptEntity
  import opened Database

  datatype Plan = Refused(error: TxError) | Planned(change: Change)

  datatype Tx =
    | CompleteQualityRejection(claim: Claim, recapture: bool, now: Instant)
    | CompleteExtraction(claim: Claim, data: Option<ReceiptData>, extractedAt: Instant, today: Date, now: Instant)
    | ScheduleRetry(claim: Claim, errorCode: string, requestedRetryAt: Instant, now: Instant)
    | FailExtraction(claim: Claim, errorCode: string, now: Instant)
    | Release(claim: Claim, now: Instant)
    | MarkDuplicate(receiptId: ReceiptId, today: Date, now: Instant)
    | CorrectFields(receiptId: ReceiptId, expectedVersion: nat, corrections: FieldCorrections, employee: Employee,
                    today: Date, now: Instant)
    | Decide(receiptId: ReceiptId, expectedVersion: nat, decision: ReviewDecision, employee: Employee, now: Instant)

  /** The transactions a worker starts with a claim in hand. */
  predicate UsesClaim(tx: Tx) {
    tx.CompleteQualityRejection? || tx.CompleteExtraction? || tx.ScheduleRetry? || tx.FailExtraction? || tx.Release?
  }

  /** An extractor hands over a ReceiptData, which only the constructor makes. */
  predicate BringsConstructed(tx: Tx) {
    tx.CompleteExtraction? ==> HoldsConstructed(tx.data)
  }

  /** The ones that end the job. */
  predicate IsFinal(tx: Tx) {
    tx.CompleteQualityRejection? || tx.CompleteExtraction? || tx.FailExtraction?
  }

  function SystemEvent(at: Instant, action: AuditAction, previous: Option<ReceiptStatus>, next: Option<ReceiptStatus>,
                       details: Details): AuditEvent
  {
    AuditEvent(at, System, action, previous, next, details)
  }

  predicate Owns(job: JobRow, claim: Claim) {
    job.receiptId == claim.receiptId && job.IsOwnedBy(claim.workerId, claim.token)
  }

  function PlanQualityRejection(job: JobRow, receipt: ReceiptRow, claim: Claim, recapture: bool, now: Instant): Plan {
    if !Owns(job, claim) then Refused(OwnershipLost)
    else
      var next := if recapture then NeedsRecapture else Unreadable;
      Planned(Change(Some(job.Finished(Completed, now)),
                     Some(receipt.Extracted(None, [], next, now)),
                     [SystemEvent(now, QualityRejected, None, Some(next), NoDetails)]))
  }

  function PlanExtraction(job: JobRow, receipt: ReceiptRow, claim: Claim, data: Option<ReceiptData>,
                          extractedAt: Instant, today: Date, now: Instant): Plan
  {
    if !Owns(job, claim) then Refused(OwnershipLost)
    else
      // The duplicate flag comes from the job as it is now, not from the claim.
      var rules := Results(data, job.duplicateDetected, today);
      var next := Route(data, rules);
      Planned(Change(Some(job.Finished(Completed, now)),
                     Some(receipt.Extracted(data, rules, next, now)),
                     [SystemEvent(extractedAt, ExtractionCompleted, None, None, Proposed(data)),
                      SystemEvent(now, ValidationCompleted, None, Some(next), Rules(rules))]))
  }

  function PlanRetry(job: JobRow, claim: Claim, errorCode: string, requestedRetryAt: Instant, now: Instant): Plan {
    if !Owns(job, claim) then Refused(OwnershipLost)
    else
      var next := if requestedRetryAt > now then requestedRetryAt else now + MILLISECOND;
      Planned(Change(Some(job.RetryAt(next, errorCode)), None,
                     [SystemEvent(now, RetryScheduled, None, None, NoDetails)]))
  }

  function PlanFailure(job: JobRow, receipt: ReceiptRow, claim: Claim, errorCode: string, now: Instant): Plan {
    if !Owns(job, claim) then Refused(OwnershipLost)
    else
      Planned(Change(Some(job.Finished(Failed, now).(lastErrorCode := Some(errorCode))),
                     Some(receipt.Extracted(None, [], ManualEntry, now)),
                     [SystemEvent(now, ExtractionFailed, None, Some(ManualEntry), NoDetails)]))
  }

  /** release does not compare receipt ids and reads no receipt. */
  function PlanRelease(job: JobRow, claim: Claim, now: Instant): Plan {
    if !job.IsOwnedBy(claim.workerId, claim.token) then Refused(OwnershipLost)
    else Planned(Change(Some(job.Requeued(now)), None, []))
  }

  function PlanDuplicate(job: JobRow, receipt: ReceiptRow, today: Date, now: Instant): Plan {
    if job.duplicateDetected then Planned(NO_CHANGE)
    else
      var marked := job.(duplicateDetected := true);
      if receipt.status.None? then
        Planned(Change(Some(marked), None, [SystemEvent(now, DuplicateDetected, None, None, Deferred)]))
      else if Validation.Failed(receipt.ruleResults, DuplicateSubmission) then
        Planned(Change(Some(marked), None, []))
      else
        var results := Results(receipt.currentData, true, today);
        var previous := receipt.status.value;
        var next := if IsTerminal(previous) then previous else Route(receipt.currentData, results);
        Planned(Change(Some(marked), Some(receipt.Updated(receipt.currentData, results, next, now)),
                       [SystemEvent(now, DuplicateDetected, Some(previous), Some(next), NoDetails)]))
  }

  const EMPLOYEE_EDITABLE_STATUSES: set<ReceiptStatus> := {NeedsReview, NeedsRecapture, Unreadable, ManualEntry}

  function ModifyRefusal(receipt: ReceiptRow, employee: Employee): Option<TxError> {
    if receipt.owner.None? then
      if employee.role != Admin then Some(ReceiptMissing) else Some(Conflict)
    else if employee.role != EmployeeOnly then None
    else if Some(employee.id) != receipt.owner then Some(ReceiptMissing)
    else if receipt.status.None? || receipt.status.value !in EMPLOYEE_EDITABLE_STATUSES then Some(Conflict)
    else None
  }

  function ReviewRefusal(receipt: ReceiptRow, employee: Employee): Option<TxError> {
    if employee.role == EmployeeOnly then Some(AccessDenied)
    else if ModifyRefusal(receipt, employee).Some? then ModifyRefusal(receipt, employee)
    else if Some(employee.id) == receipt.owner then Some(AccessDenied)
    else None
  }

  predicate IsEditable(receipt: ReceiptRow) {
    receipt.status.Some? && !IsTerminal(receipt.status.value)
  }

  /** What a reviewer must see before approving. */
  predicate IsApprovable(receipt: ReceiptRow) {
    && receipt.status != Some(NeedsRecapture) && receipt.status != Some(Unreadable)
    && HasEssentials(receipt.currentData)
  }

  predicate HasEssentials(data: Option<ReceiptData>) {
    && data.Some?
    && data.value.shopName.Some? && !IsBlank(data.value.shopName.value)
    && data.value.date.Some?
    && data.value.totalAmount.Some? && data.value.totalAmount.value > 0.0
  }

  function PlanCorrection(receipt: ReceiptRow, expectedVersion: nat, corrections: FieldCorrections, employee: Employee,
                          today: Date, now: Instant): Plan
  {
    if !OnlyClearable(corrections.clearFields) then Refused(IllegalArgument)
    else if ModifyRefusal(receipt, employee).Some? then Refused(ModifyRefusal(receipt, employee).value)
    else if receipt.version != expectedVersion || !IsEditable(receipt) then Refused(Conflict)
    else
      var after := Applied(corrections, receipt.currentData);
      var duplicate := Validation.Failed(receipt.ruleResults, DuplicateSubmission);
      var results := Results(Some(after), duplicate, today);
      var routed := Route(Some(after), results);
      var next := if routed == AutoApproved && (employee.role == EmployeeOnly || Some(employee.id) == receipt.owner)
                  then NeedsReview else routed;
      Planned(Change(None, Some(receipt.Updated(Some(after), results, next, now)),
                     [AuditEvent(now, Human(employee.id), FieldsCorrected, receipt.status, Some(next),
                                 Correction(receipt.currentData, after, results))]))
  }

  function PlanDecision(receipt: ReceiptRow, expectedVersion: nat, decision: ReviewDecision, employee: Employee,
                        now: Instant): Plan
  {
    if ReviewRefusal(receipt, employee).Some? then Refused(ReviewRefusal(receipt, employee).value)
    else if receipt.version != expectedVersion || !IsEditable(receipt) then Refused(Conflict)
    else if decision == Approve && !IsApprovable(receipt) then Refused(Conflict)
    else
      var next := if decision == Approve then Approved else Rejected;
      var action := if decision == Approve then ReviewApproved else ReviewRejected;
      Planned(Change(None, Some(receipt.WithStatus(next, now)),
                     [AuditEvent(now, Human(employee.id), action, receipt.status, Some(next), NoDetails)]))
  }

  /** The plan of any transaction on the job and receipt it concerns. */
  function PlanOn(job: JobRow, receipt: ReceiptRow, tx: Tx): Plan {
    match tx
    case CompleteQualityRejection(claim, recapture, now) => PlanQualityRejection(job, receipt, claim, recapture, now)
    case CompleteExtraction(claim, data, extractedAt, today, now) =>
      PlanExtraction(job, receipt, claim, data, extractedAt, today, now)
    case ScheduleRetry(claim, errorCode, requestedRetryAt, now) =>
      PlanRetry(job, claim, errorCode, requestedRetryAt, now)
    case FailExtraction(claim, errorCode, now) => PlanFailure(job, receipt, claim, errorCode, now)
    case Release(claim, now) => PlanRelease(job, claim, now)
    case MarkDuplicate(_, today, now) => PlanDuplicate(job, receipt, today, now)
    case CorrectFields(_, expectedVersion, corrections, employee, today, now) =>
      PlanCorrection(receipt, expectedVersion, corrections, employee, today, now)
    case Decide(_, expectedVersion, decision, employee, now) =>
      PlanDecision(receipt, expectedVersion, decision, employee, now)
  }

  function ToOutcome(jobId: JobId, receiptId: ReceiptId, plan: Plan): Outcome {
    match plan
    case Refused(error) => Aborted(error)
    case Planned(change) => Ready(jobId, receiptId, change)
  }

  /** The whole transaction body on a snapshot: look the rows up, then plan. */
  function Run(db: Db, tx: Tx): Outcome {
    match tx
    case Release(claim, now) =>
      if claim.jobId !in db.jobs then Aborted(JobMissing)
      else ToOutcome(claim.jobId, db.jobs[claim.jobId].receiptId, PlanRelease(db.jobs[claim.jobId], claim, now))
    case MarkDuplicate(receiptId, today, now) =>
      if receiptId !in db.receipts then Aborted(ReceiptMissing)
      else if receiptId !in db.jobIndex || db.jobIndex[receiptId] !in db.jobs then Aborted(JobMissing)
      else ToOutcome(db.jobIndex[receiptId], receiptId,
                     PlanDuplicate(db.jobs[db.jobIndex[receiptId]], db.receipts[receiptId], today, now))
    case CorrectFields(receiptId, expectedVersion, corrections, employee, today, now) =>
      if !OnlyClearable(corrections.clearFields) then Aborted(IllegalArgument)
      else if receiptId !in db.receipts then Aborted(ReceiptMissing)
      else ToOutcome(0, receiptId,
                     PlanCorrection(db.receipts[receiptId], expectedVersion, corrections, employee, today, now))
    case Decide(receiptId, expectedVersion, decision, employee, now) =>
      if receiptId !in db.receipts then Aborted(ReceiptMissing)
      else ToOutcome(0, receiptId, PlanDecision(db.receipts[receiptId], expectedVersion, decision, employee, now))
    case _ =>
      var claim := tx.claim;
      if claim.jobId !in db.jobs then Aborted(JobMissing)
      else if !Owns(db.jobs[claim.jobId], claim) then Aborted(OwnershipLost)
      else if claim.receiptId !in db.receipts then Aborted(ReceiptMissing)
      else ToOutcome(claim.jobId, claim.receiptId,
                     PlanOn(db.jobs[claim.jobId], db.receipts[claim.receiptId], tx))
  }

  /** Attempts, the first one included, after which a failure is final. */
  const MAX_ATTEMPTS: nat := 3
  const RETRY_DELAY: int := 10 * SECOND

  /** How loading, inspecting and extracting one image can end. */
  datatype Processing =
    | NotAcceptable(recapture: bool)
    | Extraction(data: Option<ReceiptData>)
    | ExtractionError(code: string)
    | StorageError(code: string, retryable: bool)

  function RetryOrFail(claim: Claim, code: string, at: Instant, now: Instant): Tx {
    if claim.attemptCount < MAX_ATTEMPTS then ScheduleRetry(claim, code, at + RETRY_DELAY, now)
    else FailExtraction(claim, code, now)
  }

  /** The result transaction the processor starts (ReceiptExtractionProcessor.process). */
  function ProcessorTx(claim: Claim, result: Processing, at: Instant, today: Date, now: Instant): Tx {
    match result
    case NotAcceptable(recapture) => CompleteQualityRejection(claim, recapture, now)
    case Extraction(data) => CompleteExtraction(claim, data, at, today, now)
    case ExtractionError(code) => RetryOrFail(claim, code, at, now)
    case StorageError(code, retryable) =>
      if retryable then RetryOrFail(claim, code, at, now) else FailExtraction(claim, code, now)
  }

  /** A worker retries only below the limit; every other failure is final. */
  lemma ProcessorRetriesBelowLimit(claim: Claim, result: Processing, at: Instant, today: Date, now: Instant)
    ensures var tx := ProcessorTx(claim, result, at, today, now);
            && UsesClaim(tx) && tx.claim == claim && !tx.Release?
            && (tx.ScheduleRetry? <==>
                  claim.attemptCount < MAX_ATTEMPTS
                  && (result.ExtractionError? || (result.StorageError? && result.retryable)))
            && (tx.FailExtraction? <==>
                  (result.StorageError? && !result.retryable)
                  || (claim.attemptCount >= MAX_ATTEMPTS && (result.ExtractionError? || result.StorageError?)))
  {}

  /** Which transaction each outcome starts, and with what: retries after ten seconds, before the third attempt only. */
  lemma ProcessorStarts(claim: Claim, result: Processing, at: Instant, today: Date, now: Instant)
    ensures var tx := ProcessorTx(claim, result, at, today, now);
            match result
            case NotAcceptable(recapture) => tx == CompleteQualityRejection(claim, recapture, now)
            case Extraction(data) => tx == CompleteExtraction(claim, data, at, today, now)
            case ExtractionError(code) =>
              tx == if claim.attemptCount < 3 then ScheduleRetry(claim, code, at + 10_000_000, now)
                    else FailExtraction(claim, code, now)
            case StorageError(code, retryable) =>
              tx == if retryable && claim.attemptCount < 3 then ScheduleRetry(claim, code, at + 10_000_000, now)
                    else FailExtraction(claim, code, now)
  {}

  // ---------- Which transactions are accepted ----------

  /** A worker's result is accepted exactly while its job is processed under its worker, token and receipt. */
  lemma ResultAcceptedIff(db: Db, tx: Tx)
    requires UsesClaim(tx) && !tx.Release?
    requires tx.claim.jobId in db.jobs ==> db.jobs[tx.claim.jobId].receiptId in db.receipts
    ensures var c := tx.claim;
            && (c.jobId !in db.jobs ==> Run(db, tx) == Aborted(JobMissing))
            && (c.jobId in db.jobs ==>
                  var job := db.jobs[c.jobId];
                  var owns := job.receiptId == c.receiptId && job.status == Processing
                    && job.lockedBy == Some(c.workerId) && job.claimToken == Some(c.token);
                  (if owns then Run(db, tx).Ready? else Run(db, tx) == Aborted(OwnershipLost)))
  {
    hide Results, Route;
  }

  lemma ReleaseAcceptedIff(db: Db, tx: Tx)
    requires tx.Release?
    ensures var c := tx.claim;
            && (c.jobId !in db.jobs ==> Run(db, tx) == Aborted(JobMissing))
            && (c.jobId in db.jobs ==>
                  var job := db.jobs[c.jobId];
                  var owns := job.status == Processing && job.lockedBy == Some(c.workerId)
                    && job.claimToken == Some(c.token);
                  (if owns then Run(db, tx).Ready? else Run(db, tx) == Aborted(OwnershipLost)))
  {}

  lemma MarkAcceptedIff(db: Db, tx: Tx)
    requires tx.MarkDuplicate?
    requires tx.receiptId in db.receipts ==> tx.receiptId in db.jobIndex && db.jobIndex[tx.receiptId] in db.jobs
    ensures if tx.receiptId in db.receipts then Run(db, tx).Ready? else Run(db, tx) == Aborted(ReceiptMissing)
  {
    hide Results, Route;
  }

  /** Exactly when a correction is accepted, and otherwise why not. */
  lemma CorrectionAcceptedIff(db: Db, tx: Tx)
    requires tx.CorrectFields?
    ensures (exists f :: f in tx.corrections.clearFields && f.Unsupported?) ==> Run(db, tx) == Aborted(IllegalArgument)
    ensures (forall f :: f in tx.corrections.clearFields ==> !f.Unsupported?) ==>
              if tx.receiptId !in db.receipts then Run(db, tx) == Aborted(ReceiptMissing)
              else
                var row, e := db.receipts[tx.receiptId], tx.employee;
                if row.owner.None? then Run(db, tx) == Aborted(if e.role == Admin then Conflict else ReceiptMissing)
                else if e.role == EmployeeOnly && row.owner != Some(e.id) then Run(db, tx) == Aborted(ReceiptMissing)
                else
                  var open := row.status.Some? && row.status != Some(Approved) && row.status != Some(Rejected);
                  var mayEdit := e.role != EmployeeOnly || row.status == Some(NeedsReview)
                    || row.status == Some(NeedsRecapture) || row.status == Some(Unreadable)
                    || row.status == Some(ManualEntry);
                  if open && mayEdit && row.version == tx.expectedVersion then Run(db, tx).Ready?
                  else Run(db, tx) == Aborted(Conflict)
  {
    hide Applied, Results, Route;
    var fields := tx.corrections.clearFields;
    assert forall f :: f in CLEARABLE_FIELDS <==> !f.Unsupported?;
    assert OnlyClearable(fields) <==> forall f :: f in fields ==> !f.Unsupported?;
  }

  /** Exactly when a decision is accepted, and otherwise why not. */
  lemma DecisionAcceptedIff(db: Db, tx: Tx)
    requires tx.Decide?
    ensures if tx.receiptId !in db.receipts then Run(db, tx) == Aborted(ReceiptMissing)
            else
              var row, e := db.receipts[tx.receiptId], tx.employee;
              if e.role == EmployeeOnly then Run(db, tx) == Aborted(AccessDenied)
              else if row.owner.None? then Run(db, tx) == Aborted(if e.role == Admin then Conflict else ReceiptMissing)
              else if row.owner == Some(e.id) then Run(db, tx) == Aborted(AccessDenied)
              else
                var open := row.status.Some? && row.status != Some(Approved) && row.status != Some(Rejected);
                var complete := row.status != Some(NeedsRecapture) && row.status != Some(Unreadable)
                  && row.currentData.Some?
                  && row.currentData.value.shopName.Some? && !IsBlank(row.currentData.value.shopName.value)
                  && row.currentData.value.date.Some?
                  && row.currentData.value.totalAmount.Some? && row.currentData.value.totalAmount.value > 0.0;
                if open && row.version == tx.expectedVersion && (tx.decision == Approve ==> complete)
                then Run(db, tx).Ready?
                else Run(db, tx) == Aborted(Conflict)
  {
    hide IsBlank;
  }

  // ---------- Automatic and manual approval ----------

  /** What the system approves by itself would pass a manual approval exactly if its shop name is not blank. */
  lemma AutoApprovedIsApprovableIff(data: Option<ReceiptData>, duplicate: bool, today: Date)
    requires Route(data, Results(data, duplicate, today)) == AutoApproved
    ensures data.Some? && data.value.shopName.Some?
    ensures HasEssentials(data) <==> !IsBlank(data.value.shopName.value)
  {
    AutoApprovedIff(data, duplicate, today);
  }

  /** The same for the text a caller sends, and for the receipt as it is read afterwards. */
  lemma ShopTextIsApprovableIff(shop: string, date: Option<Date>, total: Option<real>, number: Option<string>,
                                payment: Option<string>, items: Option<seq<LineItem>>, duplicate: bool, today: Date)
    ensures var d := Some(Construct(Some(shop), date, total, number, payment, items));
            Route(d, Results(d, duplicate, today)) == AutoApproved ==>
              && (HasEssentials(d) <==> !IsBlank(Trim(shop)))
              && (HasEssentials(ReadBack(d)) <==> !IsBlank(Trim(shop)))
              && (ReadBack(d).value.shopName.Some? <==> !IsBlank(Trim(shop)))
  {
    var d := Some(Construct(Some(shop), date, total, number, payment, items));
    if Route(d, Results(d, duplicate, today)) == AutoApproved {
      AutoApprovedIsApprovableIff(d, duplicate, today);
      StoredBlankIff(shop);
      NormalizeTwice(Some(shop));
      TrimmedUnchanged(Trim(shop));
    }
  }

  /** Such texts exist: one control character is stored as empty text, approved automatically and refused manually. */
  lemma BlankShopNameCanBeAutoApproved(today: Date)
    ensures var d := Some(Construct(Some("\U{0001}"), Some(today), Some(1.0), None, None, None));
            && Route(d, Results(d, false, today)) == AutoApproved && d.value.shopName == Some("")
            && !HasEssentials(d) && ReadBack(d).value.shopName == None && !HasEssentials(ReadBack(d))
  {
    assert !IsWhitespace("\U{0001}"[0]);
    var d := Some(Construct(Some("\U{0001}"), Some(today), Some(1.0), None, None, None));
    assert d.value.shopName == Some("");
    AutoApprovedIff(d, false, today);
  }
}
