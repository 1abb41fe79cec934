/** The tables, and how a transaction's writes reach them under optimistic versions. */
module Database {
  import opened Domain
  import opened ReceiptContent
  import opened Validation
  import opened Job
  import opened ReceiptEntity

  const MILLISECOND: int := 1_000
  const SECOND: int := 1_000_000

  datatype Actor = System | Human(id: EmployeeId)

  datatype AuditAction =
    | Uploaded | JobClaimed | JobRecovered | RetryScheduled | QualityRejected | ExtractionCompleted
    | ExtractionFailed | ValidationCompleted | DuplicateDetected | FieldsCorrected | ReviewApproved | ReviewRejected

  /** The parts of an event's JSON details that carry receipt contents. */
  datatype Details =
    | NoDetails
    | Proposed(data: Option<ReceiptData>)
    | Rules(rules: seq<RuleResult>)
    | Correction(before: Option<ReceiptData>, after: ReceiptData, rules: seq<RuleResult>)
    | Deferred

  datatype AuditEvent = AuditEvent(
    at: Instant,
    actor: Actor,
    action: AuditAction,
    previousStatus: Option<ReceiptStatus>,
    newStatus: Option<ReceiptStatus>,
    details: Details)

  /** What claimAvailable hands to a worker (ClaimedReceiptJob.java). */
  datatype Claim = Claim(
    jobId: JobId,
    receiptId: ReceiptId,
    jobVersion: nat,
    attemptCount: nat,
    workerId: string,
    token: Token,
    leaseUntil: Instant,
    duplicateDetected: bool)

  /** The tables. Unique constraints are the index maps; the audit table is grouped by receipt. */
  datatype Db = Db(
    receipts: map<ReceiptId, ReceiptRow>,
    jobs: map<JobId, JobRow>,
    jobIndex: map<ReceiptId, JobId>,
    imageIndex: map<(string, string), ReceiptId>,
    keys: map<(string, string), ReceiptId>,
    audit: map<ReceiptId, seq<AuditEvent>>)

  const EMPTY_DB := Db(map[], map[], map[], map[], map[], map[])

  /** New row contents, still carrying the version that was read, and the events to insert. */
  datatype Change = Change(job: Option<JobRow>, receipt: Option<ReceiptRow>, events: seq<AuditEvent>)

  const NO_CHANGE := Change(None, None, [])

  datatype TxError =
    | JobMissing | OwnershipLost | ReceiptMissing | AccessDenied | Conflict | IllegalArgument

  /** A transaction body run on a snapshot: it threw, or it is ready to flush. */
  datatype Outcome = Aborted(error: TxError) | Ready(jobId: JobId, receiptId: ReceiptId, change: Change)

  function Log(db: Db, receiptId: ReceiptId): seq<AuditEvent> {
    if receiptId in db.audit then db.audit[receiptId] else []
  }

  /** Every UPDATE carries the version that was read; it matches no row if another transaction came first. */
  predicate CanCommit(db: Db, o: Outcome)
    requires o.Ready?
  {
    && (o.change.job.Some? ==> o.jobId in db.jobs && db.jobs[o.jobId].version == o.change.job.value.version)
    && (o.change.receipt.Some? ==>
          o.receiptId in db.receipts && db.receipts[o.receiptId].version == o.change.receipt.value.version)
  }

  function BumpedJob(row: JobRow): JobRow {
    row.(version := row.version + 1)
  }

  /** A receipt row as every later transaction reads it: the contents have gone through their JSON columns. */
  function StoredReceipt(row: ReceiptRow): ReceiptRow {
    row.(version := row.version + 1,
         originalData := ReadBack(row.originalData), currentData := ReadBack(row.currentData))
  }

  function Commit(db: Db, o: Outcome): Db
    requires o.Ready?
  {
    db.(jobs := if o.change.job.Some? then db.jobs[o.jobId := BumpedJob(o.change.job.value)] else db.jobs,
        receipts := if o.change.receipt.Some?
                    then db.receipts[o.receiptId := StoredReceipt(o.change.receipt.value)] else db.receipts,
        audit := if o.change.events == [] then db.audit
                 else db.audit[o.receiptId := Log(db, o.receiptId) + o.change.events])
  }
}
