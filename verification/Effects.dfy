/**
 What each committed step did, field by field, and what it left alone. These are the outcomes a caller can see; they
 hold in every run of the optimistic machine.
 */
module Effects {
  import opened Domain
  import opened ReceiptContent
  import Corrections
  import opened Validation
  import opened Job
  import opened ReceiptEntity
  import opened Database
  import opened Transactions
  import opened CaseFile
  import opened JobQueries
  import opened Protocol
  import opened Invariance
  import opened Serial

  lemma StepFacts(states: seq<State>, steps: seq<Step>, i: nat)
    requires OptimisticRun(states, steps) && i < |steps|
    ensures Inv(states[i]) && Inv(states[i + 1]) && Later(states[i], states[i + 1])
    ensures AtomicStep(states[i], steps[i], states[i + 1])
  {
    hide Inv, Later, AtomicStep, OptimisticStep;
    OptimisticRunIsAtomic(states, steps);
    RunLosesNothing(states, steps, i, i + 1);
    assert AtomicStep(states[i], steps[i], states[i + 1]);
  }

  // ---------- Claiming ----------

  predicate WasClaimed(a: JobRow, b: JobRow, workerId: string, token: Token, now: Instant, until: Instant) {
    && (a.status == Queued || a.status == RetryWait) && a.availableAt <= now
    && b.status == Processing && b.lockedBy == Some(workerId) && b.claimToken == Some(token)
    && b.leaseUntil == Some(until) && b.startedAt == Some(now) && b.completedAt == None
    && b.attemptCount == a.attemptCount + 1 && b.version == a.version + 1
    && b.receiptId == a.receiptId && b.duplicateDetected == a.duplicateDetected && b.availableAt == a.availableAt
    && b.lastErrorCode == a.lastErrorCode
  }

  /** Earlier time first, then smaller id. */
  predicate ComesFirst(keyA: Instant, a: JobId, keyB: Instant, b: JobId) {
    keyA < keyB || (keyA == keyB && a < b)
  }

  /** A claim takes the oldest waiting jobs whose time has come, up to the batch size, and nothing else. */
  lemma ClaimEffect(states: seq<State>, steps: seq<Step>, i: nat)
    requires OptimisticRun(states, steps) && i < |steps| && steps[i].ClaimJobs?
    ensures var s, t, c := states[i], states[i + 1], steps[i];
            && |c.ids| <= c.batchSize && |c.tokens| == |c.ids| && t.db.receipts == s.db.receipts
            && (forall j :: j in s.db.jobs && j !in c.ids ==> j in t.db.jobs && t.db.jobs[j] == s.db.jobs[j])
            && (forall m :: 0 <= m < |c.ids| ==>
                  && c.ids[m] in s.db.jobs && c.ids[m] in t.db.jobs && c.ids[m] !in c.locked
                  && WasClaimed(s.db.jobs[c.ids[m]], t.db.jobs[c.ids[m]], c.workerId, c.tokens[m], c.now,
                                c.now + c.leaseDuration))
    ensures var s, c := states[i], steps[i];
            forall y :: y in s.db.jobs && y !in c.ids && y !in c.locked && s.db.jobs[y].availableAt <= c.now
                        && (s.db.jobs[y].status == Queued || s.db.jobs[y].status == RetryWait) ==>
              && |c.ids| == c.batchSize
              && forall m :: 0 <= m < |c.ids| && c.ids[m] in s.db.jobs ==>
                   ComesFirst(s.db.jobs[c.ids[m]].availableAt, c.ids[m], s.db.jobs[y].availableAt, y)
  {
    hide Inv, Later, LockedStep, Run, Committed, WasClaimed, ComesFirst;
    StepFacts(states, steps, i);
    LockedClaimTakes(states[i], steps[i], states[i + 1]);
    LockedClaimIsOldest(states[i], steps[i], states[i + 1]);
  }

  lemma LockedClaimTakes(s: State, c: Step, t: State)
    requires c.ClaimJobs? && LockedStep(s, c, t)
    ensures && |c.ids| <= c.batchSize && |c.tokens| == |c.ids| && t.db.receipts == s.db.receipts
            && (forall j :: j in s.db.jobs && j !in c.ids ==> j in t.db.jobs && t.db.jobs[j] == s.db.jobs[j])
            && (forall m :: 0 <= m < |c.ids| ==>
                  && c.ids[m] in s.db.jobs && c.ids[m] in t.db.jobs && c.ids[m] !in c.locked
                  && WasClaimed(s.db.jobs[c.ids[m]], t.db.jobs[c.ids[m]], c.workerId, c.tokens[m], c.now,
                                c.now + c.leaseDuration))
  {
    hide ClaimAll;
    BatchHasNoRepeats(c.ids, Available(s.db.jobs, c.now, c.locked), c.batchSize);
    ClaimAllFrame(s, c.ids, c.workerId, c.tokens, c.now, c.now + c.leaseDuration);
  }

  lemma LockedClaimIsOldest(s: State, c: Step, t: State)
    requires c.ClaimJobs? && LockedStep(s, c, t)
    ensures forall y :: y in s.db.jobs && y !in c.ids && y !in c.locked && s.db.jobs[y].availableAt <= c.now
                        && (s.db.jobs[y].status == Queued || s.db.jobs[y].status == RetryWait) ==>
              && |c.ids| == c.batchSize
              && forall m :: 0 <= m < |c.ids| && c.ids[m] in s.db.jobs ==>
                   ComesFirst(s.db.jobs[c.ids[m]].availableAt, c.ids[m], s.db.jobs[y].availableAt, y)
  {
    hide ClaimAll;
  }

  /** A job whose time has not come is left as it was. */
  lemma EarlyJobIsNotClaimed(states: seq<State>, steps: seq<Step>, i: nat, j: JobId)
    requires OptimisticRun(states, steps) && i < |steps| && steps[i].ClaimJobs?
    requires j in states[i].db.jobs && states[i].db.jobs[j].availableAt > steps[i].now
    ensures j in states[i + 1].db.jobs && states[i + 1].db.jobs[j] == states[i].db.jobs[j]
  {
    hide OptimisticRun;
    ClaimEffect(states, steps, i);
  }

  /** Each claimed job is handed out once, to this worker, under its own token, with the row's attempt and version. */
  lemma ClaimsHandedOut(states: seq<State>, steps: seq<Step>, i: nat, m: nat)
    requires OptimisticRun(states, steps) && i < |steps| && steps[i].ClaimJobs? && m < |steps[i].ids|
    ensures var t, c := states[i + 1], steps[i];
            && |c.tokens| == |c.ids| && c.tokens[m] in t.issued && c.tokens[m] !in states[i].issued
            && c.ids[m] in t.db.jobs
            && var claim, row := t.issued[c.tokens[m]], t.db.jobs[c.ids[m]];
               && claim.jobId == c.ids[m] && claim.receiptId == row.receiptId && claim.jobVersion == row.version
               && claim.attemptCount == row.attemptCount && claim.workerId == c.workerId && claim.token == c.tokens[m]
               && claim.leaseUntil == c.now + c.leaseDuration && claim.duplicateDetected == row.duplicateDetected
  {
    hide Inv, Later, LockedStep, OptimisticStep, WasClaimed, Run, Committed;
    StepFacts(states, steps, i);
    ClaimEffect(states, steps, i);
    LockedClaimIssues(states[i], steps[i], states[i + 1], m);
  }

  lemma LockedClaimIssues(s: State, c: Step, t: State, m: nat)
    requires c.ClaimJobs? && LockedStep(s, c, t) && m < |c.ids|
    ensures |c.tokens| == |c.ids| && c.tokens[m] in t.issued && c.tokens[m] !in s.issued && c.ids[m] in t.db.jobs
    ensures t.issued[c.tokens[m]]
            == ClaimOf(c.ids[m], t.db.jobs[c.ids[m]], c.workerId, c.tokens[m], c.now + c.leaseDuration)
  {
    hide Available, ClaimAll, ClaimOf;
    BatchHasNoRepeats(c.ids, Available(s.db.jobs, c.now, c.locked), c.batchSize);
    AvailableAreJobs(s.db.jobs, c.now, c.locked);
    ClaimAllIssues(s, c.ids, c.workerId, c.tokens, c.now, c.now + c.leaseDuration, m);
  }

  lemma {:induction false} ClaimAllIssues(s: State, ids: seq<JobId>, workerId: string, tokens: seq<Token>,
                                          now: Instant, until: Instant, m: nat)
    requires |tokens| == |ids| && Distinct(ids) && FreshTokens(s, tokens) && m < |ids|
    requires forall i :: 0 <= i < |ids| ==> ids[i] in s.db.jobs
    ensures var t := ClaimAll(s, ids, workerId, tokens, now, until);
            && tokens[m] in t.issued
            && t.issued[tokens[m]] == ClaimOf(ids[m], t.db.jobs[ids[m]], workerId, tokens[m], until)
    decreases |ids|
  {
    hide JobRow.Claimed, BumpedJob, ClaimOf;
    var n := |ids| - 1;
    ClaimLast(s, ids, workerId, tokens, now, until);
    if m < n {
      assert ids[..n][m] == ids[m] && tokens[..n][m] == tokens[m] != tokens[n];
      ClaimAllIssues(s, ids[..n], workerId, tokens[..n], now, until, m);
    }
  }

  // ---------- Recovering ----------

  predicate WasRequeued(a: JobRow, b: JobRow, now: Instant) {
    && b.status == Queued && b.availableAt == now && b.lockedBy == None && b.leaseUntil == None && b.claimToken == None
    && b.attemptCount == a.attemptCount && b.version == a.version + 1 && b.receiptId == a.receiptId
    && b.duplicateDetected == a.duplicateDetected && b.lastErrorCode == a.lastErrorCode
  }

  /** Recovery takes the processed jobs whose lease ended before now, earliest first, and nothing else. */
  lemma RecoveryEffect(states: seq<State>, steps: seq<Step>, i: nat)
    requires OptimisticRun(states, steps) && i < |steps| && steps[i].RecoverJobs?
    ensures var s, t, c := states[i], states[i + 1], steps[i];
            && |c.ids| <= c.batchSize && t.db.receipts == s.db.receipts && t.issued == s.issued
            && (forall j :: j in s.db.jobs && j !in c.ids ==> j in t.db.jobs && t.db.jobs[j] == s.db.jobs[j])
            && (forall j :: j in c.ids ==>
                  && j in s.db.jobs && j in t.db.jobs && j !in c.locked
                  && s.db.jobs[j].status == Processing && s.db.jobs[j].leaseUntil.Some?
                  && s.db.jobs[j].leaseUntil.value < c.now
                  && WasRequeued(s.db.jobs[j], t.db.jobs[j], c.now))
    ensures var s, c := states[i], steps[i];
            forall y :: y in s.db.jobs && y !in c.ids && y !in c.locked && s.db.jobs[y].status == Processing
                        && s.db.jobs[y].leaseUntil.Some? && s.db.jobs[y].leaseUntil.value < c.now ==>
              && |c.ids| == c.batchSize
              && forall j :: j in c.ids && j in s.db.jobs && s.db.jobs[j].leaseUntil.Some? ==>
                   ComesFirst(s.db.jobs[j].leaseUntil.value, j, s.db.jobs[y].leaseUntil.value, y)
  {
    hide Inv, Later, RecoverAll, Run, Committed;
    StepFacts(states, steps, i);
    var s, c := states[i], steps[i];
    BatchHasNoRepeats(c.ids, Expired(s.db.jobs, c.now, c.locked), c.batchSize);
    RecoverAllRequeues(s, c.ids, c.now);
    forall j | j in c.ids
      ensures exists m :: 0 <= m < |c.ids| && c.ids[m] == j && c.ids[m] in Expired(s.db.jobs, c.now, c.locked)
    {}
  }

  lemma {:induction false} RecoverAllRequeues(s: State, ids: seq<JobId>, now: Instant)
    requires Distinct(ids) && forall i :: 0 <= i < |ids| ==> ids[i] in s.db.jobs
    ensures var t := RecoverAll(s, ids, now);
            && t.db.receipts == s.db.receipts && t.issued == s.issued
            && (forall j :: j in s.db.jobs && j !in ids ==> t.db.jobs[j] == s.db.jobs[j])
            && (forall j :: j in ids ==> WasRequeued(s.db.jobs[j], t.db.jobs[j], now))
  {
    if ids != [] {
      RecoverAllRequeues(s, ids[..|ids| - 1], now);
    }
  }

  /** A lease that has not ended is never taken away. */
  lemma LiveLeaseIsKept(states: seq<State>, steps: seq<Step>, i: nat, j: JobId)
    requires OptimisticRun(states, steps) && i < |steps| && steps[i].RecoverJobs?
    requires j in states[i].db.jobs && states[i].db.jobs[j].status == Processing
    requires states[i].db.jobs[j].leaseUntil.Some? && states[i].db.jobs[j].leaseUntil.value >= steps[i].now
    ensures j in states[i + 1].db.jobs && states[i + 1].db.jobs[j] == states[i].db.jobs[j]
  {
    hide OptimisticRun;
    RecoveryEffect(states, steps, i);
  }

  // ---------- Intake ----------

  /** An accepted upload stores one new receipt, one queued job and, unless it is blank, its key. */
  lemma IntakeEffect(states: seq<State>, steps: seq<Step>, i: nat)
    requires OptimisticRun(states, steps) && i < |steps| && steps[i].Intake?
    ensures var s, t, u := states[i], states[i + 1], steps[i].upload;
            && u.receiptId !in s.db.receipts && u.jobId !in s.db.jobs
            && (forall r :: r in s.db.receipts ==> r in t.db.receipts && t.db.receipts[r] == s.db.receipts[r])
            && (forall j :: j in s.db.jobs ==> j in t.db.jobs && t.db.jobs[j] == s.db.jobs[j])
            && StoresUpload(t.db, u)
  {
    hide Inv, Later, Run, Committed;
    StepFacts(states, steps, i);
  }

  predicate StoresUpload(db: Db, u: NewUpload) {
    && u.receiptId in db.receipts && u.jobId in db.jobs
    && u.receiptId in db.jobIndex && db.jobIndex[u.receiptId] == u.jobId
    && (u.companyId, u.imageSha256) in db.imageIndex && db.imageIndex[(u.companyId, u.imageSha256)] == u.receiptId
    && (u.key.Some? && !IsBlank(u.key.value) ==>
          (u.companyId, u.key.value) in db.keys && db.keys[(u.companyId, u.key.value)] == u.receiptId)
    && IsNewReceipt(db.receipts[u.receiptId], u) && IsNewJob(db.jobs[u.jobId], u)
    && u.receiptId in db.audit && |db.audit[u.receiptId]| == 1
    && db.audit[u.receiptId][0].action == Uploaded && db.audit[u.receiptId][0].at == u.createdAt
    && db.audit[u.receiptId][0].actor == (if u.owner.Some? then Human(u.owner.value) else System)
  }

  predicate IsNewReceipt(row: ReceiptRow, u: NewUpload) {
    && row.owner == u.owner && row.companyId == u.companyId && row.imageSha256 == u.imageSha256
    && row.createdAt == u.createdAt && row.updatedAt == u.createdAt && row.version == 0
    && row.originalData == None && row.currentData == None && row.status == None && row.ruleResults == []
  }

  predicate IsNewJob(job: JobRow, u: NewUpload) {
    && job.receiptId == u.receiptId && job.status == Queued && job.availableAt == u.now && job.attemptCount == 0
    && !job.duplicateDetected && job.lockedBy == None && job.claimToken == None && job.leaseUntil == None
    && job.version == 0
  }

  /** An upload is refused exactly if the company has that image, or has used that key, unless the key is blank. */
  lemma RefusedIff(s: State, companyId: string, imageSha256: string, key: Option<string>)
    requires Inv(s)
    ensures Conflicts(s.db, companyId, imageSha256, key) <==>
              || (exists r :: r in s.db.receipts && s.db.receipts[r].companyId == companyId
                              && s.db.receipts[r].imageSha256 == imageSha256)
              || (key.Some? && !IsBlank(key.value) && (companyId, key.value) in s.db.keys)
  {
    hide JobsIndexed, KeysIndexed, ClaimsSound, Sound;
    if (companyId, imageSha256) in s.db.imageIndex {
      var r := s.db.imageIndex[(companyId, imageSha256)];
      assert ImageKey(s.db.receipts[r]) == (companyId, imageSha256);
    }
    forall r | r in s.db.receipts && ImageKey(s.db.receipts[r]) == (companyId, imageSha256)
      ensures (companyId, imageSha256) in s.db.imageIndex
    {
      assert ImageKey(s.db.receipts[r]) == (companyId, imageSha256);
    }
  }

  // ---------- Transactions: one action on one receipt's file ----------

  /** A committed transaction acts on the file of one receipt, and every other file stays as it was. */
  lemma CommitIsOneAction(states: seq<State>, steps: seq<Step>, i: nat)
    requires OptimisticRun(states, steps) && i < |steps| && steps[i].Transact?
    ensures WellFormed(states[i].db) && WellFormed(states[i + 1].db)
    ensures var s, t, tx := states[i], states[i + 1], steps[i].tx;
            var r := Target(s.db, tx);
            && r in s.db.receipts && t.db.receipts.Keys == s.db.receipts.Keys
            && Sound(FileOf(s, r)) && Enabled(FileOf(s, r), Exec(tx)) && FileOf(t, r) == Act(FileOf(s, r), Exec(tx))
            && (forall q :: q in s.db.receipts && q != r ==> FileOf(t, q) == FileOf(s, q))
  {
    hide Sound, ClaimsSound, Later, Run, Committed, Enabled, Act, ImagesIndexed, KeysIndexed;
    StepFacts(states, steps, i);
    TransactKeepsInv(states[i], steps[i].tx);
  }

  predicate JobEnded(a: JobRow, b: JobRow, status: JobStatus, now: Instant) {
    && a.status == Processing && b.status == status && b.completedAt == Some(now)
    && b.lockedBy == None && b.leaseUntil == None && b.claimToken == None
    && b.attemptCount == a.attemptCount && b.duplicateDetected == a.duplicateDetected
    && b.receiptId == a.receiptId && b.availableAt == a.availableAt && b.version == a.version + 1
  }

  /** What is true of a receipt row after it was written at `now`. */
  predicate WasWritten(a: ReceiptRow, b: ReceiptRow, now: Instant) {
    b.SameIdentity(a) && b.version == a.version + 1 && b.updatedAt == now
  }

  predicate IsEmptyData(d: Option<ReceiptData>) {
    d.None? || (d.value.shopName.None? && d.value.date.None? && d.value.totalAmount.None?)
  }

  /** Where rules and routing send contents: manual entry, automatic approval, or review. */
  predicate IsRouted(status: Option<ReceiptStatus>, d: Option<ReceiptData>, duplicate: bool, today: Date) {
    status == Some(if IsEmptyData(d) then ManualEntry
                   else if IsClean(d.value, today) && !duplicate then AutoApproved else NeedsReview)
  }

  /** The one event at the end of a log. */
  predicate Logs(f: File, g: File, at: Instant, actor: Actor, action: AuditAction, next: Option<ReceiptStatus>) {
    && |g.events| == |f.events| + 1 && g.events[..|f.events|] == f.events
    && g.events[|f.events|].at == at && g.events[|f.events|].actor == actor
    && g.events[|f.events|].action == action && g.events[|f.events|].newStatus == next
  }

  lemma CompletionEffect(f: File, tx: Tx)
    requires tx.CompleteExtraction? && Enabled(f, Exec(tx))
    ensures var g := Act(f, Exec(tx));
            && f.job.lockedBy == Some(tx.claim.workerId) && f.job.claimToken == Some(tx.claim.token)
            && JobEnded(f.job, g.job, Completed, tx.now) && WasWritten(f.receipt, g.receipt, tx.now)
            && g.receipt.originalData == ReadBack(tx.data) && g.receipt.currentData == ReadBack(tx.data)
            && g.receipt.ruleResults == Results(tx.data, f.job.duplicateDetected, tx.today)
            && IsRouted(g.receipt.status, tx.data, f.job.duplicateDetected, tx.today)
            && |g.events| == |f.events| + 2 && g.events[..|f.events|] == f.events
            && g.events[|f.events|].action == ExtractionCompleted && g.events[|f.events|].at == tx.extractedAt
            && g.events[|f.events|].details == Proposed(tx.data)
            && g.events[|f.events| + 1].action == ValidationCompleted && g.events[|f.events| + 1].at == tx.now
            && g.events[|f.events| + 1].newStatus == g.receipt.status
  {
    hide Results, Route, ReadBack, IsClean;
    RoutedIff(tx.data, f.job.duplicateDetected, tx.today);
  }

  lemma RejectionEffect(f: File, tx: Tx)
    requires tx.CompleteQualityRejection? && Enabled(f, Exec(tx))
    ensures var g := Act(f, Exec(tx));
            && f.job.lockedBy == Some(tx.claim.workerId) && f.job.claimToken == Some(tx.claim.token)
            && JobEnded(f.job, g.job, Completed, tx.now) && WasWritten(f.receipt, g.receipt, tx.now)
            && g.receipt.originalData == None && g.receipt.currentData == None && g.receipt.ruleResults == []
            && g.receipt.status == Some(if tx.recapture then NeedsRecapture else Unreadable)
            && Logs(f, g, tx.now, System, QualityRejected, g.receipt.status)
  {}

  lemma FailureEffect(f: File, tx: Tx)
    requires tx.FailExtraction? && Enabled(f, Exec(tx))
    ensures var g := Act(f, Exec(tx));
            && f.job.lockedBy == Some(tx.claim.workerId) && f.job.claimToken == Some(tx.claim.token)
            && JobEnded(f.job, g.job, JobStatus.Failed, tx.now) && g.job.lastErrorCode == Some(tx.errorCode)
            && WasWritten(f.receipt, g.receipt, tx.now)
            && g.receipt.originalData == None && g.receipt.currentData == None && g.receipt.ruleResults == []
            && g.receipt.status == Some(ManualEntry)
            && Logs(f, g, tx.now, System, ExtractionFailed, Some(ManualEntry))
  {}

  /** The retry comes at the time asked for, or one millisecond from now if that is past. */
  lemma RetryEffect(f: File, tx: Tx)
    requires tx.ScheduleRetry? && Enabled(f, Exec(tx))
    ensures var g := Act(f, Exec(tx));
            && f.job.status == Processing
            && f.job.lockedBy == Some(tx.claim.workerId) && f.job.claimToken == Some(tx.claim.token)
            && g.receipt == f.receipt && g.job.status == RetryWait && g.job.lastErrorCode == Some(tx.errorCode)
            && g.job.availableAt == (if tx.requestedRetryAt > tx.now then tx.requestedRetryAt else tx.now + 1_000)
            && g.job.lockedBy == None && g.job.leaseUntil == None && g.job.claimToken == None
            && g.job.attemptCount == f.job.attemptCount && g.job.duplicateDetected == f.job.duplicateDetected
            && Logs(f, g, tx.now, System, RetryScheduled, None)
  {}

  lemma ReleaseEffect(f: File, tx: Tx)
    requires tx.Release? && Enabled(f, Exec(tx))
    ensures var g := Act(f, Exec(tx));
            && f.job.status == Processing
            && f.job.lockedBy == Some(tx.claim.workerId) && f.job.claimToken == Some(tx.claim.token)
            && g.receipt == f.receipt && g.events == f.events && WasRequeued(f.job, g.job, tx.now)
  {
    assert f.events + [] == f.events;
  }

  /** Marking: once only, without a status deferred, on an ended job with the rules computed again, decisions kept. */
  lemma MarkEffect(f: File, tx: Tx)
    requires Sound(f) && tx.MarkDuplicate? && Enabled(f, Exec(tx))
    ensures var g := Act(f, Exec(tx));
            && (f.job.duplicateDetected ==> g == f)
            && (!f.job.duplicateDetected ==>
                  && g.job == f.job.(duplicateDetected := true, version := f.job.version + 1)
                  && (f.receipt.status.None? ==>
                        g.receipt == f.receipt && Logs(f, g, tx.now, System, DuplicateDetected, None))
                  && (f.receipt.status.Some? ==>
                        && WasWritten(f.receipt, g.receipt, tx.now)
                        && g.receipt.originalData == f.receipt.originalData
                        && g.receipt.currentData == f.receipt.currentData
                        && g.receipt.ruleResults == Results(f.receipt.currentData, true, tx.today)
                        && g.receipt.status == (if f.receipt.status in {Some(Approved), Some(Rejected)}
                                                then f.receipt.status
                                                else if IsEmptyData(f.receipt.currentData) then Some(ManualEntry)
                                                else Some(NeedsReview))
                        && Logs(f, g, tx.now, System, DuplicateDetected, g.receipt.status)))
  {
    hide Results, Route, ReadBack, LogTellsReceipt, AttemptsAccounted, StatusMeansIt, ReviewedIndependently,
         OriginalIsLogged, IsClean;
    if !f.job.duplicateDetected {
      AlreadyMarkedIsUnreachable(f);
      RoutedIff(f.receipt.currentData, true, tx.today);
    } else {
      assert f.events + [] == f.events;
    }
  }

  /** A correction: contents corrected, rules and route computed anew, and nobody approves their own automatically. */
  lemma CorrectionEffect(f: File, tx: Tx)
    requires IsAsRead(f.receipt) && tx.CorrectFields? && Enabled(f, Exec(tx))
    ensures var g := Act(f, Exec(tx));
            var written := Corrections.Applied(tx.corrections, f.receipt.currentData);
            var duplicate := Validation.Failed(f.receipt.ruleResults, DuplicateSubmission);
            && g.job == f.job && WasWritten(f.receipt, g.receipt, tx.now) && f.receipt.version == tx.expectedVersion
            && g.receipt.originalData == f.receipt.originalData && g.receipt.currentData == ReadBack(Some(written))
            && g.receipt.ruleResults == Results(Some(written), duplicate, tx.today)
            && g.receipt.status == Some(
                 if IsEmptyData(Some(written)) then ManualEntry
                 else if IsClean(written, tx.today) && !duplicate && tx.employee.role != EmployeeOnly
                         && f.receipt.owner != Some(tx.employee.id) then AutoApproved
                 else NeedsReview)
            && Logs(f, g, tx.now, Human(tx.employee.id), FieldsCorrected, g.receipt.status)
            && g.events[|f.events|].previousStatus == f.receipt.status
            && g.events[|f.events|].details == Correction(f.receipt.currentData, written, g.receipt.ruleResults)
  {
    hide Results, Route, ReadBack, Corrections.Applied, IsClean;
    var written := Corrections.Applied(tx.corrections, f.receipt.currentData);
    RoutedIff(Some(written), Validation.Failed(f.receipt.ruleResults, DuplicateSubmission), tx.today);
  }

  lemma DecisionEffect(f: File, tx: Tx)
    requires IsAsRead(f.receipt) && tx.Decide? && Enabled(f, Exec(tx))
    ensures var g := Act(f, Exec(tx));
            && g.job == f.job && WasWritten(f.receipt, g.receipt, tx.now) && f.receipt.version == tx.expectedVersion
            && g.receipt.originalData == f.receipt.originalData && g.receipt.currentData == f.receipt.currentData
            && g.receipt.ruleResults == f.receipt.ruleResults
            && g.receipt.status == Some(if tx.decision == Approve then Approved else Rejected)
            && Logs(f, g, tx.now, Human(tx.employee.id),
                    if tx.decision == Approve then ReviewApproved else ReviewRejected, g.receipt.status)
            && g.events[|f.events|].previousStatus == f.receipt.status
  {
    hide ReadBack, HasEssentials;
  }

  // ---------- The original contents over a run ----------

  /** A completed extraction stores the extractor's proposal, as it is read, for good. */
  lemma OriginalIsTheProposal(states: seq<State>, steps: seq<Step>, i: nat, k: nat)
    requires OptimisticRun(states, steps) && i < k < |states| && steps[i].Transact? && IsFinal(steps[i].tx)
    ensures var tx := steps[i].tx;
            var r := tx.claim.receiptId;
            && r in states[i + 1].db.receipts && r in states[k].db.receipts
            && states[k].db.receipts[r].originalData == states[i + 1].db.receipts[r].originalData
            && (tx.CompleteExtraction? ==>
                  && states[i + 1].db.receipts[r].originalData == ReadBack(tx.data)
                  && states[i + 1].db.receipts[r].currentData == ReadBack(tx.data))
            && (!tx.CompleteExtraction? ==>
                  states[i + 1].db.receipts[r].originalData == None && states[i + 1].db.receipts[r].currentData == None)
  {
    hide OptimisticStep, AtomicStep, Sound, ClaimsSound, WellFormed, Later, ReadBack;
    FinalSetsOriginal(states, steps, i);
    OptimisticRunIsAtomic(states, steps);
    RunLosesNothing(states, steps, i + 1, k);
    EndedKeepsOriginal(states[i + 1], states[k], steps[i].tx.claim.receiptId);
  }

  lemma FinalSetsOriginal(states: seq<State>, steps: seq<Step>, i: nat)
    requires OptimisticRun(states, steps) && i < |steps| && steps[i].Transact? && IsFinal(steps[i].tx)
    ensures WellFormed(states[i + 1].db)
    ensures var tx := steps[i].tx;
            var r := tx.claim.receiptId;
            && r in states[i + 1].db.receipts && IsFinished(FileOf(states[i + 1], r).job.status)
            && var row := states[i + 1].db.receipts[r];
               && (tx.CompleteExtraction? ==>
                     row.originalData == ReadBack(tx.data) && row.currentData == ReadBack(tx.data))
               && (!tx.CompleteExtraction? ==> row.originalData == None && row.currentData == None)
  {
    hide OptimisticStep, Sound, JobsIndexed, ImagesIndexed, KeysIndexed, Enabled, Act, ReadBack;
    CommitIsOneAction(states, steps, i);
    var r, tx := steps[i].tx.claim.receiptId, steps[i].tx;
    FinalOnFile(FileOf(states[i], r), tx);
    assert FileOf(states[i + 1], r).receipt == states[i + 1].db.receipts[r];
  }

  lemma FinalOnFile(f: File, tx: Tx)
    requires IsFinal(tx) && Enabled(f, Exec(tx))
    ensures var g := Act(f, Exec(tx));
            && IsFinished(g.job.status)
            && (tx.CompleteExtraction? ==>
                  g.receipt.originalData == ReadBack(tx.data) && g.receipt.currentData == ReadBack(tx.data))
            && (!tx.CompleteExtraction? ==> g.receipt.originalData == None && g.receipt.currentData == None)
  {
    hide Enabled, Act, ReadBack, Results, IsRouted;
    if tx.CompleteExtraction? {
      CompletionEffect(f, tx);
    } else if tx.FailExtraction? {
      FailureEffect(f, tx);
    } else {
      RejectionEffect(f, tx);
    }
  }

  lemma EndedKeepsOriginal(s: State, t: State, r: ReceiptId)
    requires WellFormed(s.db) && WellFormed(t.db) && Later(s, t)
    requires r in s.db.receipts && IsFinished(FileOf(s, r).job.status)
    ensures r in t.db.receipts && t.db.receipts[r].originalData == s.db.receipts[r].originalData
  {
    hide JobsIndexed, ImagesIndexed, KeysIndexed;
    assert Grows(FileOf(s, r), FileOf(t, r));
  }

  /** The original contents are always those of the receipt's one extraction event, as they are read, or none. */
  lemma OriginalIsInTheLog(states: seq<State>, steps: seq<Step>, i: nat, r: ReceiptId)
    requires OptimisticRun(states, steps) && i < |states| && r in states[i].db.receipts
    ensures WellFormed(states[i].db)
    ensures var f := FileOf(states[i], r);
            && Count(f.events, ExtractionCompleted) <= 1
            && (forall e :: e in f.events && e.action == ExtractionCompleted ==>
                  e.details.Proposed? && f.receipt.originalData == ReadBack(e.details.data))
            && ((forall e :: e in f.events ==> e.action != ExtractionCompleted) ==> f.receipt.originalData == None)
  {
    hide AtomicStep, OptimisticStep, Inv, Sound, ReadBack;
    OptimisticRunIsAtomic(states, steps);
    RunKeepsInv(states, steps, i);
    FileIsSound(states[i], r);
    OriginalEvents(FileOf(states[i], r));
  }

  lemma FileIsSound(s: State, r: ReceiptId)
    requires Inv(s) && r in s.db.receipts
    ensures WellFormed(s.db) && Sound(FileOf(s, r))
  {}

  lemma OriginalEvents(f: File)
    requires Sound(f)
    ensures Count(f.events, ExtractionCompleted) <= 1
    ensures forall e :: e in f.events && e.action == ExtractionCompleted ==>
              e.details.Proposed? && f.receipt.originalData == ReadBack(e.details.data)
    ensures (forall e :: e in f.events ==> e.action != ExtractionCompleted) ==> f.receipt.originalData == None
  {
    hide RowsAgree, LogTellsReceipt, DuplicateRecorded, StatusMeansIt, ReviewedIndependently, ReadBack;
    if forall e :: e in f.events ==> e.action != ExtractionCompleted {
      AbsentIsUncounted(f.events, ExtractionCompleted);
    }
  }

  lemma {:induction false} AbsentIsUncounted(events: seq<AuditEvent>, action: AuditAction)
    requires forall e :: e in events ==> e.action != action
    ensures Count(events, action) == 0
  {
    if events != [] {
      AbsentIsUncounted(events[..|events| - 1], action);
    }
  }
}
