# Receipt intake and extraction: a verified model

The system takes photographs of receipts, extracts their contents with an external model, checks them with fixed rules and
lets people correct and decide the rest. Its core is a durable job queue in a shared database: any number of workers claim
jobs under a lease and a random token, work outside any transaction, and write the result in a transaction guarded by
row versions. Uploads, duplicate marking, corrections and decisions race with them on the same two rows, `Receipt` and
`ReceiptExtractionJob`. This project models that core in Dafny and proves what it keeps over every run.

`dafny verify dfyconfig.toml` checks everything.

## How the model is built

- **Rows and entities.** A row is a datatype (`JobRow`, `ReceiptRow`, `EmployeeRow`). The JPA entity over it is a class whose
  methods assign fields as the source does; each is proved against the row function it stands for.
- **Transactions** (`Transactions.dfy`). `Run` is what a transaction body does with the rows it reads: throw, or have
  changed rows and audit events ready. The services in `Services.dfy` are the source's own statement sequences, over entity
  objects, and each is proved to return `Run` of the matching transaction.
- **Stored contents.** `original_data` and `current_data` are JSON columns, and loading them runs the normalising constructor
  once more. A commit therefore stores a row as every later reader gets it (`Database.StoredReceipt`), while rules, routing
  and audit events are computed from the contents as they were written. A receipt's contents are made by the constructor.
- **Two machines** (`Protocol.dfy`). In the optimistic machine a transaction has read any earlier committed state, one
  snapshot, and its flush goes through if every row it updates still has the version that was read. In the atomic machine it
  runs at once. Claims, recoveries and inserts hold row locks or only insert, so both machines run them on the current
  state; which rows other transactions have locked is arbitrary. A worker may crash anywhere: its later steps just never
  come. `Serial.dfy` proves that every optimistic run is an atomic run, so the invariants of the atomic machine
  (`CaseFile.dfy` for one receipt, `Invariance.dfy` for all) hold of the real one; `Guarantees.dfy` states them over runs.
- **Uploads** (`Uploads.dfy`) interleave call by call with each other and with every other transaction, and any call may
  throw. The Redis lock may be granted, refused or fail, its release may fail, and it excludes nobody; safety comes from
  the unique constraints.
- **Outcomes** (`Effects.dfy`, and the acceptance lemmas in `Transactions.dfy`) say, on the fields of the rows, which calls are
  accepted, what each committed step changed and what it left alone.
- **Waiting and recovery** (`Waiting.dfy`, `Recovery.dfy`) bound how many claim or recovery calls a job can be passed over.
- **The worker** (`Worker.dfy`, `QueueBound.dfy`) is a machine of threads, one step per action on the semaphore, the
  executor or the claim service, beside the component itself written as a class.
- **Listing** (`Listing.dfy`), **employees** (`Employees.dfy`), **rules** (`Validation.dfy`, `BusinessNumber.dfy`) and
  **corrections** (`Corrections.dfy`, `ReceiptContent.dfy`) are proved against independent definitions of what they are for.

Clocks, generated ids, tokens, the lock, extraction outcomes and the order of query results are inputs. Instants are whole
microseconds, dates are days since 1970-01-01, amounts are exact rationals. Claim tokens and setup tokens are new when they
are drawn, and a hash stands for the value it was made from.

## What the code does that its documentation does not say

- README.md of the repository (line 33) promises three retries. The limit counts the first attempt, so there are at most
  two retries (`Guarantees.AttemptsAreBounded`); recoveries and releases use up attempts too.
- A retry also needs a quiet job: it commits only while at most one attempt was retried, recovered or given back before
  (`Guarantees.RetriesNeedQuietJobs`).
- Normalising is not idempotent (`ReceiptContent.NormalizeIsIdempotentIff` says on which texts), an empty correction can
  change a receipt (`Corrections.EmptyCorrectionCanChange`), and a shop name can be blank and yet approved automatically
  (`Transactions.BlankShopNameCanBeAutoApproved`; when exactly, `Transactions.ShopTextIsApprovableIff`). Read again, such a
  receipt has no shop. A blank text field also breaks the literal chain of the audit log (`CaseFile.LiteralChainCanBreak`;
  when exactly, `CaseFile.LogIsLiteralIff`).
- A failed upload may have been stored: an exception from releasing the lock leaves the upload after its rows are committed
  (`Uploads.ReleaseCanFailAfterCommit`). Trying again finds the receipt (`Uploads.RetryReturnsTheReceipt`).
- A completed quality rejection and a failed extraction reset the rules even on a job marked duplicate
  (`CaseFile.RejectionHidesMark`). Which receipts show the mark is stated exactly in
  `Guarantees.DuplicateIsNeitherLostNorRepeated`.
- Swapping the eighth and ninth digit of a business number goes unnoticed under another condition than swapping earlier
  neighbours (`BusinessNumber.SwapIsNoticedUnless`), because of the extra carry term.
- Marking a duplicate is safe only because its two reads see one snapshot (`Serial.MixedReadsLoseTheMark`).

## Model

| member | source | states |
|---|---|---|
| Serial.OptimisticRunIsAtomic | src/main/java/com/example/receipt/domain/extraction/service/ReceiptExtractionLifecycleService.java:41-134 | every run in which transactions read any earlier committed snapshot and commit only where the written rows kept their version is a run in which each transaction executes at once on the current state |
| Serial.CommitSawCurrentRows | src/main/java/com/example/receipt/domain/receipt/service/ReceiptPersistenceService.java:63-121 | a transaction that passes its version checks, even one that writes only one of the two rows it read, would compute the same outcome from the current rows |
| Serial.MarkStands | src/main/java/com/example/receipt/domain/receipt/service/ReceiptPersistenceService.java:76-90 | marking a duplicate may write only the job; the receipt status it read is still right because every change of that status also changes the job's version |
| Serial.MixedReadsLoseTheMark | src/main/java/com/example/receipt/domain/receipt/service/ReceiptPersistenceService.java:66-90 | the snapshot is needed: had the receipt been read before and the job after a completion, the deferred mark would commit and no rule would ever show it |
| Guarantees.OnlyLatestClaimCommits | src/main/java/com/example/receipt/domain/extraction/service/ReceiptExtractionLifecycleService.java:126-134 | in every interleaving a worker's transaction commits only while the job is PROCESSING under exactly that claim token, and no claim of the job is newer |
| Guarantees.LostClaimStaysLost | src/main/java/com/example/receipt/domain/extraction/entity/ReceiptExtractionJob.java:151-177 | a claim that lost its job, to a result, a recovery or a release, never commits anything again in the whole run |
| Guarantees.OneFinalTransactionPerJob | src/main/java/com/example/receipt/domain/extraction/service/ReceiptExtractionLifecycleService.java:41-109 | over a whole run at most one completion, quality rejection or failure commits for a job |
| Guarantees.OriginalDataIsSetOnce | src/main/java/com/example/receipt/domain/extraction/service/ReceiptExtractionLifecycleService.java:41-109 | before the job ends the extraction result is empty; after, it and the final job status never change |
| Guarantees.RowsAlwaysAgree | src/main/java/com/example/receipt/domain/extraction/entity/ReceiptExtractionJob.java:97-188 | in every reachable state the receipt has no business status exactly while its job is QUEUED, PROCESSING or RETRY_WAIT, and holder, token and lease are set exactly while it is PROCESSING |
| Guarantees.AttemptsAreBounded | src/main/java/com/example/receipt/domain/extraction/service/ReceiptExtractionProcessor.java:29-69 | attempts = retries + recoveries + releases + the one under way or finished; at most two retries; claims at most 3 + recoveries + releases; one final event exactly when the job is finished |
| Guarantees.RetriesNeedQuietJobs | src/main/java/com/example/receipt/domain/extraction/service/ReceiptExtractionProcessor.java:61-69 | a retry commits only if at most one attempt of the job was retried, recovered or given back before |
| Guarantees.DuplicateIsNeitherLostNorRepeated | src/main/java/com/example/receipt/domain/receipt/service/ReceiptPersistenceService.java:63-121 | the duplicate mark never resets and is logged exactly once when set; a receipt with a status fails DUPLICATE_SUBMISSION exactly if it was marked and its extraction completed, or the mark came after the job had ended; with no status it never does |
| CaseFile.RejectionHidesMark | src/main/java/com/example/receipt/domain/extraction/service/ReceiptExtractionLifecycleService.java:41-53 | a quality rejection or a failure of a marked job leaves the mark set and the duplicate rule not shown |
| Guarantees.LogReplaysReceipt | src/main/java/com/example/receipt/domain/receipt/service/ReceiptCommandService.java:53-119 | replaying the audit events from nothing gives status, version and, once they are read, contents, each event starting from the status reached and each correction from what a reader saw before; without the reading in between, last contents and chain hold exactly if the contents written had no blank text |
| CaseFile.LogIsLiteralIff | src/main/java/com/example/receipt/domain/receipt/service/ReceiptCommandService.java:67-87 | for one receipt's file: the last contents the log wrote are those read exactly if they had no blank text, and its corrections chain literally exactly if no contents corrected later had any |
| CaseFile.LiteralChainCanBreak | src/main/java/com/example/receipt/domain/receipt/service/ReceiptCommandService.java:67-87 | a receipt submitted, claimed, extracted with a payment method of one control character and corrected: its log, as the transactions write it, does not chain literally |
| CaseFile.CorrectionKeepsChainIff | src/main/java/com/example/receipt/domain/receipt/service/ReceiptCommandService.java:67-87 | a correction leaves the log literal exactly if it was literal and the contents corrected were written without blank text |
| CaseFile.ExtractionIsReadAsWrittenIff | src/main/java/com/example/receipt/domain/receipt/entity/Receipt.java:46-52 | an extraction is read as it was written exactly without blank text, and an automatic approval still has a shop when it is read exactly if the shop name was not blank |
| Guarantees.StatusAlwaysMeansIt | src/main/java/com/example/receipt/domain/receipt/service/ReceiptCommandService.java:121-194 | AUTO_APPROVED: an earlier transaction of the run, a completed extraction or a correction of this receipt, wrote the row as it still is; the contents it wrote failed no rule on the day it ran, the date not in the future included, the rules on file are that verdict, and it holds of the row as it is read exactly if the shop name written was not blank; APPROVED: shop text, date and positive total are there and stay there when read |
| Guarantees.DecisionsAreFinal | src/main/java/com/example/receipt/domain/receipt/service/ReceiptCommandService.java:187-194 | after APPROVED or REJECTED neither status nor contents ever change, a later duplicate mark included |
| Guarantees.ReviewIsIndependent | src/main/java/com/example/receipt/domain/receipt/service/ReceiptCommandService.java:146-179 | every decision event is by someone other than the owner, ownerless receipts never get a human event, an AUTO_APPROVED receipt was last corrected, if ever, by a non-owner, and at most one decision exists |
| Guarantees.CorrectionUsesNamedVersion | src/main/java/com/example/receipt/domain/receipt/service/ReceiptCommandService.java:53-90 | a committed correction was computed from the very row whose version the caller named, wherever in the run that row was seen, and the next version holds what a reader gets of it |
| Guarantees.DecisionUsesNamedVersion | src/main/java/com/example/receipt/domain/receipt/service/ReceiptCommandService.java:92-119 | a committed decision was taken on the very row whose version the reviewer named, and an approval only if that row was approvable |
| Waiting.WaitingIsBounded | src/main/java/com/example/receipt/domain/extraction/repository/ReceiptExtractionJobRepository.java:17-27 | a waiting job whose time has passed is taken within rank / b + 1 claim calls of at least b jobs that find its own row unlocked, whichever other rows are locked and whatever other claims, intakes, retries, recoveries and releases happen meanwhile |
| Waiting.StepShortensQueue | src/main/java/com/example/receipt/domain/extraction/repository/ReceiptExtractionJobRepository.java:17-27 | no step puts a job ahead of it in (available_at, id) order, and a claim that finds it unlocked and leaves it waiting removes a full batch from ahead of it, whatever else is locked |
| Recovery.RecoveryIsBounded | src/main/java/com/example/receipt/domain/extraction/repository/ReceiptExtractionJobRepository.java:29-39 | an expired lease ends, by recovery or by its late owner, within rank / b + 1 recovery calls of at least b jobs that find it unlocked, whatever other rows are locked and whatever else happens |
| Recovery.StepShortensLeases | src/main/java/com/example/receipt/domain/extraction/repository/ReceiptExtractionJobRepository.java:29-39 | no step puts a lease ahead of it in (lease_until, id) order, and a recovery that finds it unlocked and leaves it takes a full batch from ahead of it |
| JobQueries.BatchIsUnique | src/main/java/com/example/receipt/domain/extraction/repository/ReceiptExtractionJobRepository.java:17-39 | filter, order and limit determine the answer of the locking queries: two answers to the same query are equal |
| Invariance.StepKeepsInv | src/main/java/com/example/receipt/domain/extraction/service/ReceiptJobClaimService.java:36-66 | every step of the database keeps all invariants of every receipt's file and loses no event, version, mark, claim, key or image entry |
| Invariance.RunLosesNothing | src/main/java/com/example/receipt/domain/extraction/service/ReceiptExtractionLifecycleService.java:41-134 | the same between any two states of a run |
| Invariance.OwnerHoldsLatestClaim | src/main/java/com/example/receipt/domain/extraction/entity/ReceiptExtractionJob.java:173-177 | getting past the ownership check, which does not look at the lease, means holding the token of the attempt in progress, with the same attempt count |
| CaseFile.SoundKept | src/main/java/com/example/receipt/domain/extraction/service/ReceiptExtractionLifecycleService.java:41-134 | each committed action on a receipt's rows and log keeps them agreeing, replayable, accounted for, correctly marked, meaningful and independently reviewed |
| CaseFile.AlreadyMarkedIsUnreachable | src/main/java/com/example/receipt/domain/receipt/service/ReceiptPersistenceService.java:93-100 | starting from an empty database, the branch of markDuplicate that finds the rule already failed on an unmarked job is never taken |
| CaseFile.ActionGrows | src/main/java/com/example/receipt/domain/extraction/service/ReceiptExtractionLifecycleService.java:41-134 | no action shortens the log, lowers a version, clears a mark, reopens a finished job or changes a decided receipt; an unchanged version means an unchanged row |
| Effects.LiveLeaseIsKept | src/main/java/com/example/receipt/domain/extraction/service/ExpiredJobRecoveryService.java:25-37 | in every run a recovery leaves a processed job whose lease has not ended before now exactly as it was |
| Effects.RecoveryEffect | src/main/java/com/example/receipt/domain/extraction/repository/ReceiptExtractionJobRepository.java:29-39 | a recovery requeues, field by field, unlocked processed jobs whose lease ended before now, earliest first up to the batch size, and touches nothing else |
| Effects.EarlyJobIsNotClaimed | src/main/java/com/example/receipt/domain/extraction/repository/ReceiptExtractionJobRepository.java:17-27 | in every run a claim leaves a job whose time has not come exactly as it was |
| Effects.ClaimEffect | src/main/java/com/example/receipt/domain/extraction/service/ReceiptJobClaimService.java:36-56 | a claim takes, field by field, unlocked waiting jobs whose time has come, oldest first and smaller ids first, up to the batch size, and touches nothing else |
| Effects.ClaimsHandedOut | src/main/java/com/example/receipt/domain/extraction/service/ReceiptJobClaimService.java:68-74 | each claim names its job, receipt, worker, fresh token and lease, and the attempt and version of the row after the flush |
| Effects.OriginalIsTheProposal | src/main/java/com/example/receipt/domain/receipt/entity/Receipt.java:114-122 | after a committed completion original and current contents are the extractor's data as read back, after a rejection or failure there are none, and in every later state the original stays that |
| Effects.OriginalIsInTheLog | src/main/java/com/example/receipt/domain/extraction/service/ReceiptExtractionLifecycleService.java:66-69 | in every state the original contents are the read-back of those in the receipt's one extraction event, or none without one |
| Effects.CommitIsOneAction | src/main/java/com/example/receipt/domain/extraction/service/ReceiptExtractionLifecycleService.java:41-134 | in every run a committed transaction acts on the rows and log of one receipt, and leaves all others as they were |
| Effects.CompletionEffect | src/main/java/com/example/receipt/domain/extraction/service/ReceiptExtractionLifecycleService.java:55-71 | the job completed and its lease gone; contents, rules with the job's own mark, route and both events, as stated on the fields |
| Effects.RejectionEffect | src/main/java/com/example/receipt/domain/extraction/service/ReceiptExtractionLifecycleService.java:41-53 | recapture or unreadable, no contents, no rules, one event; the job completed |
| Effects.FailureEffect | src/main/java/com/example/receipt/domain/extraction/service/ReceiptExtractionLifecycleService.java:95-109 | manual entry, no contents, no rules, one event; the job failed with its error code |
| Effects.RetryEffect | src/main/java/com/example/receipt/domain/extraction/service/ReceiptExtractionLifecycleService.java:73-87 | the receipt untouched, the job waiting until the time asked for or one millisecond from now, its lease gone, the attempt kept |
| Effects.ReleaseEffect | src/main/java/com/example/receipt/domain/extraction/service/ReceiptJobClaimService.java:58-66 | the receipt and the log untouched, the job queued at once, the attempt kept |
| Effects.MarkEffect | src/main/java/com/example/receipt/domain/receipt/service/ReceiptPersistenceService.java:63-121 | nothing when marked; without a status only the mark and a deferred event; with one the rules computed again, decisions kept, the rest routed to manual entry or review |
| Effects.CorrectionEffect | src/main/java/com/example/receipt/domain/receipt/service/ReceiptCommandService.java:53-90 | what a correction stores, that automatic approval needs a reviewer other than the owner, and what it logs; the job and the original contents untouched |
| Effects.DecisionEffect | src/main/java/com/example/receipt/domain/receipt/service/ReceiptCommandService.java:92-119 | only status, time and version change, and who decided is logged |
| Effects.IntakeEffect | src/main/java/com/example/receipt/domain/receipt/service/ReceiptPersistenceService.java:44-61 | one new receipt, one queued job, the key unless blank, one upload event, everything else as it was |
| Effects.RefusedIff | src/main/java/com/example/receipt/domain/receipt/service/ReceiptPersistenceService.java:44-61 | an insert is refused exactly if the company has that image or has used that key, unless the key is blank |
| Job.ReceiptExtractionJob.constructor | src/main/java/com/example/receipt/domain/extraction/entity/ReceiptExtractionJob.java:70-77 | a new job is QUEUED, available at once, unmarked, with no attempt and no lease |
| Job.ReceiptExtractionJob.Claim | src/main/java/com/example/receipt/domain/extraction/entity/ReceiptExtractionJob.java:97-109 | only a waiting job can be claimed; the whole new row, attempt counted |
| Job.ReceiptExtractionJob.Complete | src/main/java/com/example/receipt/domain/extraction/entity/ReceiptExtractionJob.java:111-119 | only the owner; lease fields cleared, attempts kept |
| Job.ReceiptExtractionJob.Fail | src/main/java/com/example/receipt/domain/extraction/entity/ReceiptExtractionJob.java:121-132 | only the owner; lease fields cleared, error code recorded |
| Job.ReceiptExtractionJob.ScheduleRetry | src/main/java/com/example/receipt/domain/extraction/entity/ReceiptExtractionJob.java:134-149 | only the owner and only for a later time; lease fields cleared, the attempt stays counted |
| Job.ReceiptExtractionJob.RecoverExpiredLease | src/main/java/com/example/receipt/domain/extraction/entity/ReceiptExtractionJob.java:151-161 | only a PROCESSING job whose lease ended strictly before now; requeued, the attempt stays counted |
| Job.ReceiptExtractionJob.ReleaseClaim | src/main/java/com/example/receipt/domain/extraction/entity/ReceiptExtractionJob.java:163-171 | only the owner; requeued now, the attempt stays counted |
| Job.ReceiptExtractionJob.MarkDuplicate | src/main/java/com/example/receipt/domain/extraction/entity/ReceiptExtractionJob.java:179-182 | sets the mark and nothing else |
| ReceiptEntity.Receipt.SubmittedBy | src/main/java/com/example/receipt/domain/receipt/entity/Receipt.java:88-92 | an owner can be given once, and only before the receipt is stored |
| ReceiptEntity.Receipt.UpdateData | src/main/java/com/example/receipt/domain/receipt/entity/Receipt.java:107-112 | contents, rules and status change; the original extraction does not |
| ReceiptEntity.Receipt.CompleteExtraction | src/main/java/com/example/receipt/domain/receipt/entity/Receipt.java:114-122 | original and current contents become the same value |
| ReceiptEntity.Receipt.ChangeStatus | src/main/java/com/example/receipt/domain/receipt/entity/Receipt.java:124-127 | only status and time change |
| LifecycleService.CheckRows | src/main/java/com/example/receipt/domain/extraction/service/ReceiptExtractionLifecycleService.java:121-134 | which exception the lookups raise, in order: job missing, ownership lost, receipt missing |
| LifecycleService.CompleteQualityRejection | src/main/java/com/example/receipt/domain/extraction/service/ReceiptExtractionLifecycleService.java:41-53 | the object code computes the transaction the protocol theorems are about: same rows, events and refusals |
| LifecycleService.CompleteExtraction | src/main/java/com/example/receipt/domain/extraction/service/ReceiptExtractionLifecycleService.java:55-71 | likewise; the rules use the job's mark as read now, not the claim's copy |
| LifecycleService.ScheduleRetry | src/main/java/com/example/receipt/domain/extraction/service/ReceiptExtractionLifecycleService.java:73-87 | likewise; a retry time not in the future becomes one millisecond from now |
| LifecycleService.FailExtraction | src/main/java/com/example/receipt/domain/extraction/service/ReceiptExtractionLifecycleService.java:95-109 | likewise; the receipt becomes MANUAL_ENTRY with no contents and no rules |
| Processor.Process | src/main/java/com/example/receipt/domain/extraction/service/ReceiptExtractionProcessor.java:38-59 | the outcome of loading, inspecting and extracting selects exactly one result transaction |
| Transactions.ProcessorRetriesBelowLimit | src/main/java/com/example/receipt/domain/extraction/service/ReceiptExtractionProcessor.java:61-69 | a retry is requested exactly for retryable trouble below three attempts; every other failure is final |
| Protocol.ProcessorMayStart | src/main/java/com/example/receipt/domain/extraction/service/ReceiptExtractionProcessor.java:38-69 | whatever the processor comes to for an issued claim, the transaction it starts is one of the machine's |
| Transactions.ProcessorStarts | src/main/java/com/example/receipt/domain/extraction/service/ReceiptExtractionProcessor.java:38-69 | which transaction each outcome starts and with what: a retry after ten seconds, before the third attempt only |
| Transactions.ResultAcceptedIff | src/main/java/com/example/receipt/domain/extraction/service/ReceiptExtractionLifecycleService.java:121-134 | a result is accepted exactly while the job is processed under this worker, token and receipt; otherwise which error |
| Transactions.ReleaseAcceptedIff | src/main/java/com/example/receipt/domain/extraction/service/ReceiptJobClaimService.java:58-66 | a release likewise, whatever receipt the claim names |
| Transactions.MarkAcceptedIff | src/main/java/com/example/receipt/domain/receipt/service/ReceiptPersistenceService.java:63-72 | marking is accepted for every stored receipt |
| Transactions.CorrectionAcceptedIff | src/main/java/com/example/receipt/domain/receipt/service/ReceiptCommandService.java:53-65 | exactly who may correct what in which status and version, and otherwise which error: argument, not found or conflict |
| Transactions.DecisionAcceptedIff | src/main/java/com/example/receipt/domain/receipt/service/ReceiptCommandService.java:92-105 | exactly who may decide what, what an approval needs to be there, and otherwise which error |
| ClaimService.ClaimAvailable | src/main/java/com/example/receipt/domain/extraction/service/ReceiptJobClaimService.java:36-56 | the loop over the locked rows claims each once, in order, with its own token; the returned claims carry the versions after the flush; invalid arguments change nothing |
| ClaimService.Release | src/main/java/com/example/receipt/domain/extraction/service/ReceiptJobClaimService.java:58-66 | only the holder of the token gives a claim back |
| ClaimService.RecoverExpired | src/main/java/com/example/receipt/domain/extraction/service/ExpiredJobRecoveryService.java:25-37 | the loop requeues each expired row once and logs it; a batch size below one changes nothing |
| PersistenceService.CreateQueued | src/main/java/com/example/receipt/domain/receipt/service/ReceiptPersistenceService.java:44-61 | receipt, job, key and event are stored together, or a unique constraint stops all of them |
| PersistenceService.MarkDuplicate | src/main/java/com/example/receipt/domain/receipt/service/ReceiptPersistenceService.java:63-121 | the object code computes the marking transaction: nothing when marked, deferred without a status, re-validated with one, terminal statuses kept |
| CommandService.CorrectFields | src/main/java/com/example/receipt/domain/receipt/service/ReceiptCommandService.java:53-90 | the object code computes the correction transaction, with its checks in order |
| CommandService.Decide | src/main/java/com/example/receipt/domain/receipt/service/ReceiptCommandService.java:92-119 | the object code computes the decision transaction, with its checks in order |
| Uploads.WorldStaysGood | src/main/java/com/example/receipt/domain/receipt/service/ReceiptUploadService.java:44-140 | every step of any number of uploads, any call throwing, the lock granted, refused or failing, keeps the database invariant and what each upload knows about the receipt it is heading for |
| Uploads.UploadsConverge | src/main/java/com/example/receipt/domain/receipt/service/ReceiptUploadService.java:61-117 | uploads of one image that are no replays all return its one receipt, and at most one of them created it |
| Uploads.ResultsAreTheCallers | src/main/java/com/example/receipt/domain/receipt/service/ReceiptUploadService.java:72-76 | a finished upload returns a receipt of the caller; a replay returns the one the key names; any other reuse left the duplicate mark |
| Uploads.FailedUploadWroteNothing | src/main/java/com/example/receipt/global/lock/RedisDuplicateReceiptLock.java:19-42 | an upload that fails changed no table, unless the release of the lock or a database call failed after the commit; then the caller's own receipt is stored for the image (marked, if that was written), every upload finding its receipt by that image gets this one, and the constraint violation that is rethrown never reaches a caller |
| Uploads.ReleaseCanFailAfterCommit | src/main/java/com/example/receipt/global/lock/RedisDuplicateReceiptLock.java:35-41 | it happens: the rows are in, the release throws, and the caller is told of an error |
| Uploads.RetryReturnsTheReceipt | src/main/java/com/example/receipt/domain/receipt/service/ReceiptUploadService.java:44-70 | in any state where the image has a receipt of the caller, and the key is unused or names it, trying again without a failing call returns that receipt and creates none; it is a replay exactly if the key was used, which changes nothing, and otherwise leaves the receipt marked |
| Uploads.FirstUploadCreates | src/main/java/com/example/receipt/domain/receipt/service/ReceiptUploadService.java:78-105 | the first upload of an image, when no call fails, ends with its receipt created: that one receipt of the caller, one queued job, the key and one event are new, all else is as it was |
| Uploads.LostRaceIsRecovered | src/main/java/com/example/receipt/domain/receipt/service/ReceiptUploadService.java:107-117 | an insert that loses a race for the image returns the receipt that won, marked |
| Uploads.CaughtConflictConverges | src/main/java/com/example/receipt/domain/receipt/service/ReceiptUploadService.java:65-69 | a caught conflict is answered with the caller's processed duplicate if there is one by then, and thrown otherwise |
| Uploads.OnlyConflictsAreCaught | src/main/java/com/example/receipt/domain/receipt/service/ReceiptUploadService.java:61-69 | an exception under the lock is thrown after the release, except a conflict, which is caught |
| Uploads.ForeignReceiptIsRefused | src/main/java/com/example/receipt/domain/receipt/service/ReceiptUploadService.java:72-76 | somebody else's image or key is refused at once and nothing changes |
| Uploads.RefusedLockEndsUpload | src/main/java/com/example/receipt/domain/receipt/service/ReceiptUploadService.java:61-69 | without the lock, and with nobody's receipt for the image, the upload ends with the lock's conflict and nothing changes |
| Uploads.OneReceiptPerImage | src/main/java/com/example/receipt/domain/receipt/service/ReceiptPersistenceService.java:44-61 | one receipt per company and image hash, with exactly one job and one UPLOADED event |
| Worker.RunConserves | src/main/java/com/example/receipt/domain/extraction/service/ReceiptExtractionWorker.java:54-150 | in every interleaving free permits + permits held by threads + queued tasks + tasks dropped at shutdown = concurrency, and every claimed job is in exactly one place |
| Worker.ConcurrencyIsRespected | src/main/java/com/example/receipt/domain/extraction/service/ReceiptExtractionWorker.java:116-138 | at most `concurrency` claimed jobs are unsettled at any time, and none is settled twice |
| Worker.QuiescentHasAllPermits | src/main/java/com/example/receipt/domain/extraction/service/ReceiptExtractionWorker.java:65-150 | a worker at rest has all its permits back and has finished or returned every job it claimed, but for tasks drained at shutdown |
| Worker.NeverRejectsBeforeShutdown | src/main/java/com/example/receipt/domain/extraction/config/ReceiptWorkerConfiguration.java:32-43 | a submission finds at most concurrency - 1 queued tasks, so the configured queue never rejects |
| Worker.RejectionMeansShutdown | src/main/java/com/example/receipt/domain/extraction/service/ReceiptExtractionWorker.java:103-114 | in a run the only rejections come after the executor began to shut down, whether or not polling was stopped first |
| QueueBound.QueueCapacityIsNeeded | src/main/java/com/example/receipt/domain/extraction/config/ReceiptWorkerConfiguration.java:36-38 | for every concurrency some run submits a job with concurrency - 1 tasks queued and all threads created: one place less would reject it |
| Worker.RejectsIff | src/main/java/com/example/receipt/domain/extraction/config/ReceiptWorkerConfiguration.java:34-38 | a submission is refused exactly after shutdown or with all threads created and concurrency tasks queued |
| Worker.PollAsksForFreePermits | src/main/java/com/example/receipt/domain/extraction/service/ReceiptExtractionWorker.java:54-82 | a poll of an open worker asks for as many jobs as there are permits, up to the batch size, and for none does nothing |
| Worker.FailedRecoveryEndsPoll | src/main/java/com/example/receipt/domain/extraction/service/ReceiptExtractionWorker.java:54-62 | a poll whose recovery throws claims nothing |
| Worker.FinishedThreadAsksForOne | src/main/java/com/example/receipt/domain/extraction/service/ReceiptExtractionWorker.java:129-138 | a thread that finished a job asks for one more with the permit it gave back |
| Worker.StoppedWorkerStartsNothing | src/main/java/com/example/receipt/domain/extraction/service/ReceiptExtractionWorker.java:56-81 | once stopped, no thread begins to poll, to claim or to submit |
| Worker.ClaimedJobsAreSubmitted | src/main/java/com/example/receipt/domain/extraction/service/ReceiptExtractionWorker.java:82-92 | the claim's answer is submitted in order, after the unused permits were given back |
| Worker.FailedClaimGivesBack | src/main/java/com/example/receipt/domain/extraction/service/ReceiptExtractionWorker.java:75-88 | a claim that throws gives all its permits back and submits nothing |
| Worker.SubmittingGoesOn | src/main/java/com/example/receipt/domain/extraction/service/ReceiptExtractionWorker.java:90-107 | each job goes to the executor, or back once the worker is stopped |
| Worker.SubmittedJobRunsOrReturns | src/main/java/com/example/receipt/domain/extraction/service/ReceiptExtractionWorker.java:109-113 | a submitted job runs on a new thread while there are any, then queues, and comes back after shutdown |
| Worker.ReturnedJobGivesPermit | src/main/java/com/example/receipt/domain/extraction/service/ReceiptExtractionWorker.java:140-150 | a job given back returns its permit |
| Worker.QueuedTasksRunInOrder | src/main/java/com/example/receipt/domain/extraction/config/ReceiptWorkerConfiguration.java:31-43 | queued tasks run in order; draining at destruction drops them, closing the context keeps them |
| Worker.ReceiptExtractionWorker.AcquireJobPermits | src/main/java/com/example/receipt/domain/extraction/service/ReceiptExtractionWorker.java:95-101 | takes the smaller of what is asked and what is free |
| Worker.ReceiptExtractionWorker.SubmitJob | src/main/java/com/example/receipt/domain/extraction/service/ReceiptExtractionWorker.java:103-114 | an accepted job keeps its permit; a job stopped or rejected is returned with its permit |
| Worker.ReceiptExtractionWorker.ReturnUnstartedJob | src/main/java/com/example/receipt/domain/extraction/service/ReceiptExtractionWorker.java:140-150 | the permit comes back whether or not the release succeeds |
| Worker.ReceiptExtractionWorker.StartNextJobs | src/main/java/com/example/receipt/domain/extraction/service/ReceiptExtractionWorker.java:65-93 | permits not used by the claim come back at once; afterwards exactly the accepted jobs hold one each |
| Worker.ReceiptExtractionWorker.OnJobFinished | src/main/java/com/example/receipt/domain/extraction/service/ReceiptExtractionWorker.java:129-138 | the finished job's permit is free before the next job is asked for; of the refill the accepted jobs hold permits and the others are handed back; a failing claim does not escape |
| Listing.FindReviewQueue | src/main/java/com/example/receipt/domain/receipt/service/ReceiptQueryService.java:63-82 | ids first, rows in any order, re-ordered through a map: the page, total, page count and hasNext are those of filtering, sorting and cutting the receipts themselves; invalid requests are refused |
| Listing.LoadReceiptsInPageOrder | src/main/java/com/example/receipt/domain/receipt/service/ReceiptQueryService.java:84-104 | the rows come back in the order of the ids whatever order they were read in; not found exactly when an id has no row |
| Listing.FindJobStatuses | src/main/java/com/example/receipt/domain/receipt/service/ReceiptQueryService.java:175-193 | every listed receipt gets the status of its own job |
| Listing.CreatePageResponse | src/main/java/com/example/receipt/domain/receipt/service/ReceiptQueryService.java:154-173 | each item joins its receipt with its job status, in order; page count and hasNext follow from the total |
| Listing.SortedIsUnique | src/main/java/com/example/receipt/domain/receipt/dto/ReceiptListRequest.java:50-53 | created-at and id make a total order: two sorted listings of the same receipts are equal |
| Listing.PagesPartitionListing | src/main/java/com/example/receipt/domain/receipt/dto/ReceiptListRequest.java:50-53 | reading all pages in turn gives every matching receipt once, in order |
| Listing.PageTotalsAgree | src/main/java/com/example/receipt/domain/receipt/service/ReceiptQueryService.java:78-81 | the total Spring's page recomputes on its last page is the counted one |
| Listing.QueueListsExactly | src/main/java/com/example/receipt/domain/receipt/repository/ReceiptRepository.java:36-52 | which receipts the queue lists, with and without each filter |
| Listing.PageIsNewestFirst | src/main/java/com/example/receipt/domain/receipt/dto/ReceiptListRequest.java:50-53 | how many receipts a page holds, and that newer ones and, at equal times, larger ids come first |
| Listing.RequestIsAcceptedIff | src/main/java/com/example/receipt/domain/receipt/dto/ReceiptListRequest.java:24-40 | exactly which pages, sizes and dates are accepted, missing page and size standing for 0 and 20 |
| Listing.OpenPeriods | src/main/java/com/example/receipt/domain/receipt/dto/ReceiptListRequest.java:42-48 | a period open at one end is what the period before it leaves |
| Listing.PeriodIsItsDays | src/main/java/com/example/receipt/domain/receipt/dto/ReceiptListRequest.java:42-48 | a [from, to] filter is the union of its single days, for any increasing start of day |
| Listing.DaysAreDisjoint | src/main/java/com/example/receipt/domain/receipt/dto/ReceiptListRequest.java:42-48 | no instant lies on two days |
| Listing.QueueIsWhatReviewerMayReject | src/main/java/com/example/receipt/domain/receipt/repository/ReceiptRepository.java:36-52 | without filters a reviewer's queue is exactly the receipts they may reject now, automatic approvals apart |
| Accounts.PasswordIsWrittenOnce | src/main/java/com/example/receipt/domain/employee/service/EmployeeService.java:56-70 | across all interleavings a password hash, once there, never changes; session version and row version never fall; login id and role stay |
| Accounts.AccountsAreSettled | src/main/java/com/example/receipt/domain/employee/service/EmployeeService.java:40-70 | in every reachable state an account has a password and no token and no expiry after exactly one setup, or no password and exactly its latest token |
| Accounts.SetupSucceedsIff | src/main/java/com/example/receipt/domain/employee/service/EmployeeService.java:56-70 | setting a password succeeds exactly when the token is the last one issued to the employee found, unexpired, unused, the account active and the password acceptable |
| Accounts.TokensNeverCollide | src/main/java/com/example/receipt/domain/employee/service/EmployeeService.java:96-106 | no operation fails on a token already taken: an issue is a duplicate exactly on its login id |
| Accounts.OneSetupPerEmployee | src/main/java/com/example/receipt/domain/employee/service/EmployeeService.java:56-70 | at most one setup succeeds for an employee over a whole run, however lookups, locks and reissues interleave |
| Accounts.ReplacedTokenIsDead | src/main/java/com/example/receipt/domain/employee/service/EmployeeService.java:96-106 | once another token was issued to the same employee, the earlier one is refused for ever |
| Accounts.LookupNamesTokensOwner | src/main/java/com/example/receipt/domain/employee/repository/EmployeeRepository.java:13-14 | a lookup by token, however stale, names the employee the token was issued to |
| Accounts.SetActiveUsesCurrentRow | src/main/java/com/example/receipt/domain/employee/service/EmployeeService.java:72-79 | an activation computed from a stale snapshot either writes nothing or acts on the current row |
| Accounts.SessionVersionRisesIff | src/main/java/com/example/receipt/domain/employee/entity/Employee.java:100-106 | between two states of a run the session version rises exactly if the account was deactivated in between |
| Accounts.PrincipalIsValidIff | src/main/java/com/example/receipt/domain/employee/security/EmployeePrincipal.java:34-40 | a principal read at any moment of a login is valid later exactly while the account is active and was not deactivated in between |
| Accounts.SessionLastsUntilDeactivation | src/main/java/com/example/receipt/domain/employee/security/EmployeePrincipal.java:34-40 | a session of an account enabled at login ends with the first deactivation and with nothing else |
| Accounts.RevocationIsPermanent | src/main/java/com/example/receipt/domain/employee/security/EmployeeUserDetailsService.java:18-26 | a principal captured before a deactivation stays invalid however often the account is reactivated |
| Accounts.DisabledPrincipalRevives | src/main/java/com/example/receipt/domain/employee/security/EmployeeUserDetailsService.java:18-26 | a principal read while the account was inactive becomes valid on reactivation, so login must also check the enabled flag |
| Accounts.SetActiveEffect | src/main/java/com/example/receipt/domain/employee/service/EmployeeService.java:72-79 | exactly which activations take effect, that they set the flag asked for, and that a deactivation, and only that, raises the session version by one; otherwise which refusal, and nothing changes |
| Accounts.DeactivationEndsSessions | src/main/java/com/example/receipt/domain/employee/entity/Employee.java:100-106 | right after a committed deactivation no principal read before it is valid |
| Accounts.IssueEffect | src/main/java/com/example/receipt/domain/employee/service/EmployeeService.java:33-38 | a new account has the login id and role asked for, no password and a token for twenty-four hours; it is refused exactly for a taken login id |
| Accounts.ReissueEffect | src/main/java/com/example/receipt/domain/employee/service/EmployeeService.java:40-54 | a reissue replaces token and expiry of an active account without a password, and is refused otherwise, with which error |
| Accounts.SetPasswordEffect | src/main/java/com/example/receipt/domain/employee/service/EmployeeService.java:56-70 | the password stored is the one sent, encoded; token and expiry go; nothing else changes |
| Accounts.BootstrapEffect | src/main/java/com/example/receipt/domain/employee/service/EmployeeService.java:84-94 | exactly when the first administrator is created, and with what |
| Accounts.PrincipalKeeps | src/main/java/com/example/receipt/domain/employee/security/EmployeePrincipal.java:19-40 | a principal keeps id, session version and the enabled flag, and is checked against id, session version, activity and password |
| EmployeeEntity.EmployeeAccount.Invite | src/main/java/com/example/receipt/domain/employee/entity/Employee.java:89-92 | a new token and expiry replace the old ones, nothing else changes |
| EmployeeEntity.EmployeeAccount.SetPassword | src/main/java/com/example/receipt/domain/employee/entity/Employee.java:94-98 | the password is set and the token with its expiry is gone |
| EmployeeEntity.EmployeeAccount.SetActive | src/main/java/com/example/receipt/domain/employee/entity/Employee.java:100-106 | the session version rises by one on active to inactive and on nothing else |
| EmployeeServices.EmployeeService.Issue | src/main/java/com/example/receipt/domain/employee/service/EmployeeService.java:33-38 | the object code computes the issue transaction the run theorems are about |
| EmployeeServices.EmployeeService.ReissueSetupToken | src/main/java/com/example/receipt/domain/employee/service/EmployeeService.java:40-54 | likewise; refused once a password is set or while inactive |
| EmployeeServices.EmployeeService.SetPassword | src/main/java/com/example/receipt/domain/employee/service/EmployeeService.java:56-70 | likewise, with the recheck of token, state and expiry on the locked row before the password itself is checked |
| EmployeeServices.EmployeeService.Active | src/main/java/com/example/receipt/domain/employee/service/EmployeeService.java:72-79 | likewise; self-deactivation is refused first, an unchanged row is not written, a changed one needs its version |
| EmployeeServices.EmployeeService.Bootstrap | src/main/java/com/example/receipt/domain/employee/service/EmployeeService.java:81-94 | likewise; only on an empty table |
| Validation.AutoApprovedIff | src/main/java/com/example/receipt/domain/receipt/validation/ReceiptStatusRouter.java:12-19 | engine and router together approve exactly clean data that was not submitted twice |
| Validation.RoutedIff | src/main/java/com/example/receipt/domain/receipt/validation/ReceiptStatusRouter.java:12-19 | engine and router together: manual entry exactly with shop, date and total missing, automatic approval exactly for clean data not submitted twice, review for the rest |
| Validation.RulesReport | src/main/java/com/example/receipt/domain/receipt/validation/ValidationEngine.java:22-85 | which rule reports what: pass, fail or not applicable for each of the eight, on the fields it looks at |
| Validation.ItemSumAdds | src/main/java/com/example/receipt/domain/receipt/validation/ValidationEngine.java:72-72 | the item sum is that of the amounts: zero for none, the amount for one, additive over lists |
| Validation.DuplicateIsRecorded | src/main/java/com/example/receipt/domain/receipt/validation/ValidationEngine.java:35-37 | the duplicate flag can be read back from the results |
| Validation.DuplicateIsNeverAutoApproved | src/main/java/com/example/receipt/domain/receipt/validation/ReceiptStatusRouter.java:12-19 | with the duplicate rule failed the route is MANUAL_ENTRY or NEEDS_REVIEW |
| Transactions.AutoApprovedIsApprovableIff | src/main/java/com/example/receipt/domain/receipt/service/ReceiptCommandService.java:121-140 | what the system approves by itself would pass the checks of a manual approval exactly if its shop name is not blank |
| Transactions.ShopTextIsApprovableIff | src/main/java/com/example/receipt/domain/receipt/validation/ValidationEngine.java:41-45 | the same for the raw text a caller sends, as written and as read back: exactly if the trimmed text is not blank |
| Transactions.BlankShopNameCanBeAutoApproved | src/main/java/com/example/receipt/domain/receipt/validation/ValidationEngine.java:41-45 | a shop name of one control character is stored empty and approved automatically, a manual approval would refuse it, and a reader finds no shop |
| Validation.VerdictHoldsAsReadIff | src/main/java/com/example/receipt/domain/receipt/entity/Receipt.java:46-52 | a verdict without failure is one on the contents as they are read back exactly if the shop name is not blank |
| Validation.Validate | src/main/java/com/example/receipt/domain/receipt/validation/ValidationEngine.java:22-39 | appends the eight results of the rules in order |
| Validation.CheckItemTotal | src/main/java/com/example/receipt/domain/receipt/validation/ValidationEngine.java:65-76 | the running sum is the exact sum of the items, and unpriced items make the rule not applicable |
| BusinessNumber.IsValid | src/main/java/com/example/receipt/domain/receipt/validation/BusinessRegistrationNumberValidator.java:9-28 | the loop accepts exactly ten digits, not all equal, whose last is the check digit of the others |
| BusinessNumber.SeparatorsAreIgnored | src/main/java/com/example/receipt/domain/receipt/validation/BusinessRegistrationNumberValidator.java:13-13 | inserting a non-digit anywhere changes nothing |
| BusinessNumber.DigitsAreReadInOrder | src/main/java/com/example/receipt/domain/receipt/validation/BusinessRegistrationNumberValidator.java:13-13 | the digits of two texts are those of the first and then those of the second |
| BusinessNumber.OneCharacterIsOneDigit | src/main/java/com/example/receipt/domain/receipt/validation/BusinessRegistrationNumberValidator.java:13-22 | one character is the digit it shows, or none |
| BusinessNumber.ValidityFormula | src/main/java/com/example/receipt/domain/receipt/validation/BusinessRegistrationNumberValidator.java:7-27 | the whole rule as one formula over the ten digits |
| BusinessNumber.ExactlyOneCheckDigit | src/main/java/com/example/receipt/domain/receipt/validation/BusinessRegistrationNumberValidator.java:20-27 | every nine-digit prefix has exactly one check digit |
| BusinessNumber.SingleChangeIsRejected | src/main/java/com/example/receipt/domain/receipt/validation/BusinessRegistrationNumberValidator.java:20-27 | changing one digit of a valid number, the ninth with its carry and the check digit included, is always noticed |
| BusinessNumber.SwapIsNoticedUnless | src/main/java/com/example/receipt/domain/receipt/validation/BusinessRegistrationNumberValidator.java:20-27 | swapping two different neighbours keeps a valid number valid exactly if they differ by 5 (first seven swaps), agree modulo 4 (eighth and ninth), or are 0 and 9 (ninth and check digit) |
| BusinessNumber.AllSameNeedsItsOwnRule | src/main/java/com/example/receipt/domain/receipt/validation/BusinessRegistrationNumberValidator.java:17-19 | ten equal digits would pass the checksum exactly for 0, 4 and 8 |
| Corrections.ApplyTo | src/main/java/com/example/receipt/domain/receipt/dto/FieldCorrections.java:42-106 | the step-by-step code computes set, keep or clear per field, clear winning over set; the result is normalised |
| Corrections.EachFieldIsCorrected | src/main/java/com/example/receipt/domain/receipt/dto/FieldCorrections.java:42-106 | for each of the six fields: cleared leaves nothing, set leaves the value sent, neither leaves the value there was; text trimmed, blank text nothing, no receipt as an empty one |
| Corrections.ApplyIsIdempotent | src/main/java/com/example/receipt/domain/receipt/dto/FieldCorrections.java:42-106 | applying a correction twice is applying it once |
| Corrections.MergeIsSequence | src/main/java/com/example/receipt/domain/receipt/dto/FieldCorrections.java:42-106 | for any two corrections one merged correction has the effect of both in order, on every receipt and on none |
| Corrections.HistoryIsOneCorrection | src/main/java/com/example/receipt/domain/receipt/dto/FieldCorrections.java:42-106 | any number of corrections is one correction of the extracted data |
| Corrections.EmptyCorrectionIsIdentityIff | src/main/java/com/example/receipt/domain/receipt/model/ReceiptData.java:15-20 | correcting nothing changes nothing exactly on receipts without a blank text field |
| Corrections.EmptyCorrectionCanChange | src/main/java/com/example/receipt/domain/receipt/model/ReceiptData.java:22-27 | a receipt on which it does change something |
| Corrections.EmptyCorrectionIsReadBack | src/main/java/com/example/receipt/domain/receipt/entity/Receipt.java:50-52 | storing and reading a receipt is correcting nothing |
| Corrections.CorrectionIgnoresReadBack | src/main/java/com/example/receipt/domain/receipt/service/ReceiptCommandService.java:67-68 | a correction has the same effect on contents as written and as read |
| ReceiptContent.NormalizeTwice | src/main/java/com/example/receipt/domain/receipt/model/ReceiptData.java:22-27 | isBlank and trim disagree on control characters, so one pass need not be a fixed point; two passes are, and on trimmed text one is |
| ReceiptContent.NormalizeIsIdempotentIff | src/main/java/com/example/receipt/domain/receipt/model/ReceiptData.java:22-27 | a second pass changes nothing exactly unless the text passes isBlank and is blank once trimmed |
| ReceiptContent.TrimIsCore | src/main/java/com/example/receipt/domain/receipt/model/ReceiptData.java:22-27 | trimming cuts off exactly the characters up to U+0020 at both ends |
| ReceiptContent.WhitespaceCodePoints | src/main/java/com/example/receipt/domain/receipt/model/ReceiptData.java:22-27 | which code points make a text blank |
| ReceiptContent.StoredBlankIff | src/main/java/com/example/receipt/domain/receipt/model/ReceiptData.java:22-27 | the constructor stores blank text exactly for text that isBlank passes and trim leaves blank |
| ReceiptContent.ReadBackTwice | src/main/java/com/example/receipt/domain/receipt/entity/Receipt.java:46-52 | reading stored JSON may drop blank text the first time and changes nothing after that |
| ReceiptContent.ReadAsWrittenIff | src/main/java/com/example/receipt/domain/receipt/entity/Receipt.java:46-52 | contents are read as they were written exactly without a blank text field |
| ReceiptContent.ConstructedIffRange | src/main/java/com/example/receipt/domain/receipt/model/ReceiptData.java:15-20 | trimmed text fields describe exactly what the constructor can produce |

## Left out

- Guarantees.CorrectionUsesNamedVersion: what the correcting transaction returns to its own caller is the contents as
  written; the model keeps what every later reader gets.
- Waiting.WaitingIsBounded: counts the claim calls that find the job's own row unlocked; SKIP LOCKED passes over it for as
  long as somebody holds it. Clocks read later than the job's own time from then on.
- Recovery.RecoveryIsBounded: likewise for recovery calls and the end of the lease.
- Uploads.WorldStaysGood: models the upload as a machine of its repository calls, one call a step, and not as an object,
  because the point is what happens between the calls. Duplicate marking is one step that commits on the current state or
  fails on its version.
- Worker.RunConserves: takes TaskRejectedException as the only exception of execute, as the source does; another one would
  lose a permit there too.
- Accounts.SetupSucceedsIff: knows of a password only how many characters and bytes it has.
- Hibernate writes no row it finds unchanged. For employees this is modelled. A correction that changes nothing at the very
  instant of the last update would write no row and keep the version; the model counts it as a change.
- One transaction updates a row once. correctFields flushes before its commit flushes again; if Hibernate then took the JSON
  it wrote for changed, which blank text could cause, the version would rise by two for one event.
- REPEATABLE READ is taken as given: the plain reads of one transaction see one committed state.
- The order of audit events is the order of their commits; the listing by occurrence time is not modelled.
- Column lengths, and with them the constraint violations of over-long names and keys; the database's collation of keys.
- The stored images themselves (only that storing one may fail), image formats, empty files, file names, sizes and content types.
- S3, the OpenAI and fake extractors, image inspection: their outcomes are the inputs of `Processor.Process`.
- SHA-256, BCrypt, UUID and SecureRandom.
- Spring Security, CSRF, Redis sessions, rate limits, controllers and exception mapping; roles arrive as inputs.
- The internals of the Redisson lock and of MySQL row locks beyond version checks, unique constraints and locked batches.
- findMyReceipts and the detail reads, which filter and page the same way without the second query.
- Widths of integers: attempt counts, versions and totals are unbounded. Error messages, rule messages and the times a job
  row was created and updated are not kept.
- Rows made before the upload path existed: every run starts from empty tables.
- The load-test scripts and the browser pages.
