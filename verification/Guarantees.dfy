/** What the protocol promises about every run of the optimistic machine, by any number of workers and users. */
module Guarantees {
  import opened Domain
  import opened ReceiptContent
  import opened Validation
  import opened Job
  import opened ReceiptEntity
  import opened Database
  import opened Transactions
  import opened CaseFile
  import opened JobQueries
  import opened Protocol
  import opened Invariance
  import opened Serial
  import Corrections

  /** A worker's transaction commits only while its claim is the job's latest, and the job is still in its hands. */
  lemma OnlyLatestClaimCommits(states: seq<State>, steps: seq<Step>, i: nat)
    requires OptimisticRun(states, steps) && i < |steps|
    requires steps[i].Transact? && UsesClaim(steps[i].tx)
    ensures var s, c := states[i], steps[i].tx.claim;
            && c.jobId in s.db.jobs && s.db.jobs[c.jobId].status == Processing
            && s.db.jobs[c.jobId].claimToken == Some(c.token)
            && forall t :: t in s.issued && s.issued[t].jobId == c.jobId ==>
                 && s.issued[t].attemptCount <= c.attemptCount
                 && (s.issued[t].attemptCount == c.attemptCount ==> t == c.token)
  {
    hide Sound, Run, ImagesIndexed, KeysIndexed;
    OptimisticRunIsAtomic(states, steps);
    RunKeepsInv(states, steps, i);
    assert AtomicStep(states[i], steps[i], states[i + 1]);
    OwnerHoldsLatestClaim(states[i], steps[i].tx);
    var s, c := states[i], steps[i].tx.claim;
    forall t | t in s.issued && s.issued[t].jobId == c.jobId && s.issued[t].attemptCount == c.attemptCount
      ensures t == c.token
    {
      assert SameAttempt(s.issued[t], s.issued[c.token]);
    }
  }

  /** A claim that lost its job, to a result, a recovery or a release, never commits again. */
  lemma LostClaimStaysLost(states: seq<State>, steps: seq<Step>, k: nat, i: nat, c: Claim)
    requires OptimisticRun(states, steps) && k <= i < |steps|
    requires c.token in states[k].issued && states[k].issued[c.token] == c
    requires c.jobId in states[k].db.jobs && states[k].db.jobs[c.jobId].claimToken != Some(c.token)
    requires steps[i].Transact? && UsesClaim(steps[i].tx)
    ensures steps[i].tx.claim != c
  {
    hide Sound, Run, ImagesIndexed, KeysIndexed, Later, AtomicStep, OptimisticStep;
    OptimisticRunIsAtomic(states, steps);
    RunLosesNothing(states, steps, k, i);
    OnlyLatestClaimCommits(states, steps, i);
    if steps[i].tx.claim == c {
      LostClaimIsNotHeld(states[k], states[i], c);
    }
  }

  /** The row's attempt count is at least the claim's, and equal while the claim holds the row. */
  lemma ClaimNamesAttempt(s: State, c: Claim)
    requires ClaimsSound(s) && c.token in s.issued && s.issued[c.token] == c
    ensures c.jobId in s.db.jobs && c.attemptCount <= s.db.jobs[c.jobId].attemptCount
    ensures s.db.jobs[c.jobId].claimToken == Some(c.token) ==> s.db.jobs[c.jobId].attemptCount == c.attemptCount
  {
    assert HeldBy(s.issued, c.jobId, s.db.jobs[c.jobId]);
  }

  lemma LostClaimIsNotHeld(s: State, t: State, c: Claim)
    requires Inv(s) && Inv(t) && Later(s, t)
    requires c.token in s.issued && s.issued[c.token] == c
    requires c.jobId in s.db.jobs && s.db.jobs[c.jobId].claimToken != Some(c.token)
    ensures c.jobId in t.db.jobs && t.db.jobs[c.jobId].claimToken != Some(c.token)
  {
    hide Sound, ImagesIndexed, KeysIndexed, ClaimsSound;
    ClaimNamesAttempt(s, c);
    ClaimNamesAttempt(t, c);
    var r := s.db.jobs[c.jobId].receiptId;
    assert FileOf(s, r).job == s.db.jobs[c.jobId] && Grows(FileOf(s, r), FileOf(t, r));
    assert t.db.jobIndex[r] == c.jobId && FileOf(t, r).job == t.db.jobs[c.jobId];
  }

  /** What a final transaction leaves behind. */
  lemma FinalTransactionFinishes(states: seq<State>, steps: seq<Step>, i: nat)
    requires AtomicRun(states, steps) && i < |steps|
    requires steps[i].Transact? && IsFinal(steps[i].tx)
    ensures Inv(states[i]) && Inv(states[i + 1])
    ensures var c := steps[i].tx.claim;
            && c.receiptId in states[i].db.receipts && c.receiptId in states[i + 1].db.receipts
            && states[i].db.jobIndex[c.receiptId] == c.jobId && states[i + 1].db.jobIndex[c.receiptId] == c.jobId
            && FileOf(states[i], c.receiptId).job.status == Processing
            && IsFinished(FileOf(states[i + 1], c.receiptId).job.status)
  {
    hide Sound, Run, ImagesIndexed, KeysIndexed, Later;
    RunKeepsInv(states, steps, i);
    assert AtomicStep(states[i], steps[i], states[i + 1]);
    OwnerHoldsLatestClaim(states[i], steps[i].tx);
    TransactKeepsInv(states[i], steps[i].tx);
    MoveOf(FileOf(states[i], steps[i].tx.claim.receiptId), Exec(steps[i].tx));
  }

  /** Over a whole run, at most one final transaction commits for a job. */
  lemma OneFinalTransactionPerJob(states: seq<State>, steps: seq<Step>, i: nat, k: nat)
    requires OptimisticRun(states, steps) && i <= k < |steps|
    requires steps[i].Transact? && IsFinal(steps[i].tx) && steps[k].Transact? && IsFinal(steps[k].tx)
    requires steps[i].tx.claim.jobId == steps[k].tx.claim.jobId
    ensures i == k
  {
    hide Sound, AtomicStep, OptimisticStep, WellFormed, ClaimsSound, Later, FileOf;
    OptimisticRunIsAtomic(states, steps);
    FinalTransactionFinishes(states, steps, i);
    FinalTransactionFinishes(states, steps, k);
    if i < k {
      RunLosesNothing(states, steps, i + 1, k);
      FinishedStaysFinished(states[i + 1], states[k], steps[i].tx.claim.receiptId, steps[k].tx.claim.receiptId);
    }
  }

  lemma FinishedStaysFinished(s: State, t: State, r: ReceiptId, q: ReceiptId)
    requires WellFormed(s.db) && WellFormed(t.db) && Later(s, t)
    requires r in s.db.receipts && q in t.db.receipts && s.db.jobIndex[r] == t.db.jobIndex[q]
    requires IsFinished(FileOf(s, r).job.status)
    ensures IsFinished(FileOf(t, q).job.status)
  {
    hide ImagesIndexed, KeysIndexed;
    assert Grows(FileOf(s, r), FileOf(t, r));
    assert r == q;
  }

  /** The extraction result is written once: nothing before the job ends, never again after. */
  lemma OriginalDataIsSetOnce(states: seq<State>, steps: seq<Step>, i: nat, k: nat, r: ReceiptId)
    requires OptimisticRun(states, steps) && i <= k < |states| && r in states[i].db.receipts
    ensures Inv(states[i]) && Inv(states[k]) && r in states[k].db.receipts
    ensures !IsFinished(FileOf(states[i], r).job.status) ==> states[i].db.receipts[r].originalData == None
    ensures IsFinished(FileOf(states[i], r).job.status) ==>
              && FileOf(states[k], r).job.status == FileOf(states[i], r).job.status
              && states[k].db.receipts[r].originalData == states[i].db.receipts[r].originalData
  {
    hide AtomicStep, OptimisticStep, ClaimsSound, LogTellsReceipt, AttemptsAccounted, DuplicateRecorded, StatusMeansIt,
         ReviewedIndependently;
    OptimisticRunIsAtomic(states, steps);
    RunLosesNothing(states, steps, i, k);
    assert Sound(FileOf(states[i], r));
  }

  lemma StateIsSound(states: seq<State>, steps: seq<Step>, i: nat, r: ReceiptId)
    requires OptimisticRun(states, steps) && i < |states| && r in states[i].db.receipts
    ensures Inv(states[i]) && Sound(FileOf(states[i], r))
  {
    hide AtomicStep, OptimisticStep, Sound, WellFormed, ClaimsSound;
    OptimisticRunIsAtomic(states, steps);
    RunKeepsInv(states, steps, i);
  }

  /** The business status and the job status always fit, and so do the lease fields. */
  lemma RowsAlwaysAgree(states: seq<State>, steps: seq<Step>, i: nat, r: ReceiptId)
    requires OptimisticRun(states, steps) && i < |states| && r in states[i].db.receipts
    ensures WellFormed(states[i].db)
    ensures var f := FileOf(states[i], r);
            && (f.receipt.status == None <==> f.job.status in {Queued, Processing, RetryWait})
            && (f.job.status == Processing <==> f.job.lockedBy.Some?)
            && (f.job.status == Processing <==> f.job.claimToken.Some?)
            && (f.job.status == Processing <==> f.job.leaseUntil.Some?)
  {
    hide AtomicStep, OptimisticStep, ClaimsSound, LogTellsReceipt, AttemptsAccounted, DuplicateRecorded, StatusMeansIt,
         ReviewedIndependently;
    StateIsSound(states, steps, i, r);
    assert RowsAgree(FileOf(states[i], r));
  }

  /**
   A duplicate mark is never lost and is logged exactly once. A receipt with a status shows it exactly if it was set
   before an extraction completed or after the job had ended; so one that completed shows it exactly when it is set.
   */
  lemma DuplicateIsNeitherLostNorRepeated(states: seq<State>, steps: seq<Step>, i: nat, k: nat, r: ReceiptId)
    requires OptimisticRun(states, steps) && i <= k < |states| && r in states[i].db.receipts
    ensures WellFormed(states[i].db) && WellFormed(states[k].db) && r in states[k].db.receipts
    ensures FileOf(states[i], r).job.duplicateDetected ==> FileOf(states[k], r).job.duplicateDetected
    ensures var f := FileOf(states[k], r);
            && Count(f.events, DuplicateDetected) == (if f.job.duplicateDetected then 1 else 0)
            && (Count(f.events, ExtractionCompleted) > 0 ==>
                  (f.job.duplicateDetected <==> ShowsDuplicate(f.receipt)))
            && (ShowsDuplicate(f.receipt) ==> f.job.duplicateDetected)
            && (f.receipt.status.None? ==> !ShowsDuplicate(f.receipt))
            && (f.receipt.status.Some? ==>
                  (ShowsDuplicate(f.receipt) <==>
                     (f.job.duplicateDetected && Count(f.events, ExtractionCompleted) > 0)
                     || exists e :: e in f.events && e.action == DuplicateDetected && e.newStatus.Some?))
  {
    hide AtomicStep, OptimisticStep, ClaimsSound, LogTellsReceipt, StatusMeansIt, ReviewedIndependently;
    OptimisticRunIsAtomic(states, steps);
    RunLosesNothing(states, steps, i, k);
    StateIsSound(states, steps, k, r);
    var f := FileOf(states[k], r);
    assert DuplicateRecorded(f) && AttemptsAccounted(f) && RowsAgree(f);
    LateMarkIsAnEvent(f.events);
  }

  lemma LateMarkIsAnEvent(events: seq<AuditEvent>)
    ensures MarkedAfterEnd(events) <==> exists e :: e in events && e.action == DuplicateDetected && e.newStatus.Some?
  {
    if MarkedAfterEnd(events) {
      var i :| 0 <= i < |events| && events[i].action == DuplicateDetected && events[i].newStatus.Some?;
      assert events[i] in events;
    }
  }

  /**
   The audit log alone reproduces status and contents, as they are read, and counts the version. Taken literally,
   without the reading in between, its last contents and its chain hold exactly if the contents written had no blank
   text field.
   */
  lemma LogReplaysReceipt(states: seq<State>, steps: seq<Step>, i: nat, r: ReceiptId)
    requires OptimisticRun(states, steps) && i < |states| && r in states[i].db.receipts
    ensures WellFormed(states[i].db)
    ensures var f := FileOf(states[i], r);
            && Replay(f.events).Some?
            && var told := Replay(f.events).value;
               && told.status == f.receipt.status && told.changes == f.receipt.version
               && ReadBack(told.data) == f.receipt.currentData
               && (told.data == f.receipt.currentData <==> HasNoBlankText(told.data))
               && (ChainIsLiteral(f.events) <==> CorrectedContentsHadText(f.events))
  {
    hide AtomicStep, OptimisticStep, ClaimsSound, AttemptsAccounted, DuplicateRecorded, StatusMeansIt,
         ReviewedIndependently, RowsAgree, Replay, ReadBack, HasNoBlankText, ChainIsLiteral, CorrectedContentsHadText,
         ImagesIndexed, KeysIndexed, WritesConstructed;
    StateIsSound(states, steps, i, r);
    LogIsLiteralIff(FileOf(states[i], r));
  }

  /** Every attempt is accounted for, so claims are bounded by the interruptions. */
  lemma AttemptsAreBounded(states: seq<State>, steps: seq<Step>, i: nat, r: ReceiptId)
    requires OptimisticRun(states, steps) && i < |states| && r in states[i].db.receipts
    ensures WellFormed(states[i].db)
    ensures var f := FileOf(states[i], r);
            var retries, recoveries := Count(f.events, RetryScheduled), Count(f.events, JobRecovered);
            && f.job.attemptCount == retries + recoveries + f.releases + (if IsWaiting(f.job.status) then 0 else 1)
            && retries <= MAX_ATTEMPTS - 1
            && Count(f.events, JobClaimed) <= MAX_ATTEMPTS + recoveries + f.releases
            && Count(f.events, QualityRejected) + Count(f.events, ValidationCompleted)
               + Count(f.events, ExtractionFailed)
               == (if IsFinished(f.job.status) then 1 else 0)
  {
    hide AtomicStep, OptimisticStep, ClaimsSound, LogTellsReceipt, DuplicateRecorded, StatusMeansIt,
         ReviewedIndependently, RowsAgree;
    StateIsSound(states, steps, i, r);
    assert AttemptsAccounted(FileOf(states[i], r));
  }

  /** A retry commits only while at most one attempt of the job was retried, recovered or given back before. */
  lemma RetriesNeedQuietJobs(states: seq<State>, steps: seq<Step>, i: nat)
    requires OptimisticRun(states, steps) && i < |steps| && steps[i].Transact? && steps[i].tx.ScheduleRetry?
    ensures WellFormed(states[i].db) && steps[i].tx.claim.receiptId in states[i].db.receipts
    ensures var f := FileOf(states[i], steps[i].tx.claim.receiptId);
            Count(f.events, RetryScheduled) + Count(f.events, JobRecovered) + f.releases <= 1
  {
    hide Sound, Run, ImagesIndexed, KeysIndexed, Later, OptimisticStep, LockedStep, AttemptsAccounted;
    OptimisticRunIsAtomic(states, steps);
    RunKeepsInv(states, steps, i);
    assert AtomicStep(states[i], steps[i], states[i + 1]);
    var r := steps[i].tx.claim.receiptId;
    OwnerHoldsLatestClaim(states[i], steps[i].tx);
    TransactKeepsInv(states[i], steps[i].tx);
    StateIsSound(states, steps, i, r);
    SoundIsAccounted(FileOf(states[i], r));
    RetryNeedsQuietJob(FileOf(states[i], r), steps[i].tx);
  }

  lemma SoundIsAccounted(f: File)
    requires Sound(f)
    ensures AttemptsAccounted(f)
  {}

  /** Step k wrote the row of r that `row` still is, and approved it on the contents and the day it worked with. */
  predicate ApprovedAt(states: seq<State>, steps: seq<Step>, k: nat, r: ReceiptId, row: ReceiptRow) {
    && k < |steps| && k + 1 < |states| && steps[k].Transact?
    && r in states[k].db.receipts && r in states[k + 1].db.receipts && states[k + 1].db.receipts[r] == row
    && Target(states[k].db, steps[k].tx) == r && PassedBy(steps[k].tx, states[k].db.receipts[r], row)
  }

  /** What any step does to a receipt's row: create it without a status, leave it, or run one transaction on it. */
  lemma StepOnReceipt(s: State, step: Step, t: State, r: ReceiptId)
    requires Inv(s) && Inv(t) && AtomicStep(s, step, t) && r in t.db.receipts
    ensures r !in s.db.receipts ==> t.db.receipts[r].status.None?
    ensures r in s.db.receipts && t.db.receipts[r] != s.db.receipts[r] ==>
              && step.Transact? && Target(s.db, step.tx) == r && Enabled(FileOf(s, r), Exec(step.tx))
              && t.db.receipts[r] == Act(FileOf(s, r), Exec(step.tx)).receipt
  {
    hide Sound, ClaimsSound, WellFormed, Later, Run, Committed, Enabled, Act, LockedStep;
    if step.Transact? {
      TransactOnReceipt(s, step.tx, t, r);
    } else {
      LockedStepOnReceipt(s, step, t, r);
    }
  }

  lemma LockedStepOnReceipt(s: State, step: Step, t: State, r: ReceiptId)
    requires LockedStep(s, step, t) && r in t.db.receipts
    ensures if r in s.db.receipts then t.db.receipts[r] == s.db.receipts[r] else t.db.receipts[r].status.None?
  {
    hide Available, Expired, ClaimAll, RecoverAll;
    match step
    case ClaimJobs(workerId, batchSize, leaseDuration, locked, ids, tokens, now) =>
      AvailableAreJobs(s.db.jobs, now, locked);
      ClaimAllKeepsRest(s, ids, workerId, tokens, now, now + leaseDuration);
    case RecoverJobs(batchSize, locked, ids, now) =>
      AvailableAreJobs(s.db.jobs, now, locked);
      RecoverAllKeepsReceipts(s, ids, now);
    case Intake(u) =>
    case Idle =>
    case Transact(_, _) =>
  }

  lemma TransactOnReceipt(s: State, tx: Tx, t: State, r: ReceiptId)
    requires Inv(s) && Inv(t) && MayStart(s, tx) && Run(s.db, tx).Ready? && t == Committed(s, tx, Run(s.db, tx))
    requires r in t.db.receipts
    ensures r in s.db.receipts
    ensures t.db.receipts[r] != s.db.receipts[r] ==>
              && Target(s.db, tx) == r && Enabled(FileOf(s, r), Exec(tx))
              && t.db.receipts[r] == Act(FileOf(s, r), Exec(tx)).receipt
  {
    hide Sound, ClaimsSound, Later, Run, Committed, Enabled, Act, ImagesIndexed, KeysIndexed;
    TransactKeepsInv(s, tx);
    var q := Target(s.db, tx);
    assert ActsOn(s, t, q, Exec(tx));
    if r != q {
      assert FileOf(t, r) == FileOf(s, r);
    }
  }

  lemma {:induction false} RecoverAllKeepsReceipts(s: State, ids: seq<JobId>, now: Instant)
    requires forall i :: 0 <= i < |ids| ==> ids[i] in s.db.jobs
    ensures RecoverAll(s, ids, now).db.receipts == s.db.receipts
  {
    if ids != [] {
      RecoverAllKeepsReceipts(s, ids[..|ids| - 1], now);
    }
  }

  lemma {:induction false} ApprovalHasItsStep(states: seq<State>, steps: seq<Step>, i: nat, r: ReceiptId)
    returns (k: nat)
    requires AtomicRun(states, steps) && i < |states| && r in states[i].db.receipts
    requires states[i].db.receipts[r].status == Some(AutoApproved)
    ensures k < i && ApprovedAt(states, steps, k, r, states[i].db.receipts[r])
    decreases i
  {
    hide Inv, AtomicStep, PassedBy, Act, Enabled, FileOf;
    assert i > 0;
    var s, t := states[i - 1], states[i];
    RunKeepsInv(states, steps, i - 1);
    RunKeepsInv(states, steps, i);
    assert AtomicStep(s, steps[i - 1], t);
    StepOnReceipt(s, steps[i - 1], t, r);
    if t.db.receipts[r] == s.db.receipts[r] {
      k := ApprovalHasItsStep(states, steps, i - 1, r);
    } else {
      k := i - 1;
      RowOfFile(s, r);
      ApprovalIsPassed(FileOf(s, r), steps[k].tx);
    }
  }

  lemma RowOfFile(s: State, r: ReceiptId)
    requires Inv(s) && r in s.db.receipts
    ensures WellFormed(s.db) && FileOf(s, r).receipt == s.db.receipts[r]
  {}

  /**
   Each status means what it says, in every state. An automatic approval was given by one transaction of the run: on its
   day the contents it wrote failed no rule, the date was not in the future, and the rules on file are that verdict. The
   verdict is also one on the row as it is read exactly if the shop name written was not blank.
   */
  lemma StatusAlwaysMeansIt(states: seq<State>, steps: seq<Step>, i: nat, r: ReceiptId)
    requires OptimisticRun(states, steps) && i < |states| && r in states[i].db.receipts
    ensures var row := states[i].db.receipts[r];
            && (row.status == Some(AutoApproved) ==> exists k :: 0 <= k < i && ApprovedAt(states, steps, k, r, row))
            && (row.status == Some(Approved) ==>
                  HasEssentials(row.currentData) && ReadBack(row.currentData) == row.currentData)
  {
    hide AtomicStep, OptimisticStep, ClaimsSound, LogTellsReceipt, AttemptsAccounted, DuplicateRecorded, ApprovedAt,
         ReviewedIndependently, ReadBack, PassedWith, VerdictAsRead, HasEssentials, ImagesIndexed, KeysIndexed;
    StateIsSound(states, steps, i, r);
    var row := states[i].db.receipts[r];
    assert StatusMeansIt(FileOf(states[i], r)) && IsAsRead(row);
    if row.status == Some(AutoApproved) {
      OptimisticRunIsAtomic(states, steps);
      var k := ApprovalHasItsStep(states, steps, i, r);
    }
  }

  /** A decision is final: status and contents stay, whatever comes later. */
  lemma DecisionsAreFinal(states: seq<State>, steps: seq<Step>, i: nat, k: nat, r: ReceiptId)
    requires OptimisticRun(states, steps) && i <= k < |states| && r in states[i].db.receipts
    requires states[i].db.receipts[r].status in {Some(Approved), Some(Rejected)}
    ensures r in states[k].db.receipts
    ensures states[k].db.receipts[r].status == states[i].db.receipts[r].status
    ensures states[k].db.receipts[r].currentData == states[i].db.receipts[r].currentData
  {
    hide AtomicStep, OptimisticStep, ClaimsSound, Sound;
    OptimisticRunIsAtomic(states, steps);
    RunLosesNothing(states, steps, i, k);
    assert Grows(FileOf(states[i], r), FileOf(states[k], r));
  }

  lemma IndependentEvents(f: File)
    requires ReviewedIndependently(f)
    ensures forall e :: e in f.events && IsReview(e.action) ==> ByOther(f.receipt, e.actor)
    ensures f.receipt.owner.None? ==> forall e :: e in f.events ==> e.actor == System
  {}

  /** Nobody approves or rejects their own receipt, nor corrects it into automatic approval. */
  lemma ReviewIsIndependent(states: seq<State>, steps: seq<Step>, i: nat, r: ReceiptId)
    requires OptimisticRun(states, steps) && i < |states| && r in states[i].db.receipts
    ensures WellFormed(states[i].db)
    ensures var f := FileOf(states[i], r);
            && (forall e :: e in f.events && IsReview(e.action) ==> ByOther(f.receipt, e.actor))
            && (f.receipt.owner.None? ==> forall e :: e in f.events ==> e.actor == System)
            && (f.receipt.status == Some(AutoApproved) ==>
                  LastCorrector(f.events).None? || ByOther(f.receipt, LastCorrector(f.events).value))
            && (f.receipt.status == Some(Approved) <==> Count(f.events, ReviewApproved) == 1)
            && Count(f.events, ReviewApproved) + Count(f.events, ReviewRejected) <= 1
  {
    hide AtomicStep, OptimisticStep, ClaimsSound, LogTellsReceipt, AttemptsAccounted, DuplicateRecorded,
         StatusMeansIt, RowsAgree;
    StateIsSound(states, steps, i, r);
    IndependentEvents(FileOf(states[i], r));
  }

  /** A committed correction was computed from the row the caller's version names, wherever that row was seen. */
  lemma CorrectionUsesNamedVersion(states: seq<State>, steps: seq<Step>, i: nat, k: nat)
    requires OptimisticRun(states, steps) && k <= i < |steps|
    requires steps[i].Transact? && steps[i].tx.CorrectFields?
    requires var tx := steps[i].tx;
             tx.receiptId in states[k].db.receipts && states[k].db.receipts[tx.receiptId].version == tx.expectedVersion
    ensures var tx := steps[i].tx;
            var seen := states[k].db.receipts[tx.receiptId];
            && tx.receiptId in states[i].db.receipts && tx.receiptId in states[i + 1].db.receipts
            && states[i].db.receipts[tx.receiptId] == seen
            && states[i + 1].db.receipts[tx.receiptId].currentData
               == ReadBack(Some(Corrections.Applied(tx.corrections, seen.currentData)))
            && states[i + 1].db.receipts[tx.receiptId].version == tx.expectedVersion + 1
  {
    hide LockedStep, OptimisticStep, ClaimsSound, Sound, Results, Route, ImagesIndexed, KeysIndexed, ReadBack;
    OptimisticRunIsAtomic(states, steps);
    RunLosesNothing(states, steps, k, i);
    assert AtomicStep(states[i], steps[i], states[i + 1]);
    var r := steps[i].tx.receiptId;
    assert Grows(FileOf(states[k], r), FileOf(states[i], r));
  }

  /** A committed decision, too, was taken on exactly the row whose version the reviewer named. */
  lemma DecisionUsesNamedVersion(states: seq<State>, steps: seq<Step>, i: nat, k: nat)
    requires OptimisticRun(states, steps) && k <= i < |steps|
    requires steps[i].Transact? && steps[i].tx.Decide?
    requires var tx := steps[i].tx;
             tx.receiptId in states[k].db.receipts && states[k].db.receipts[tx.receiptId].version == tx.expectedVersion
    ensures var tx := steps[i].tx;
            var seen := states[k].db.receipts[tx.receiptId];
            && tx.receiptId in states[i + 1].db.receipts
            && states[i].db.receipts[tx.receiptId] == seen
            && (tx.decision == Approve ==> IsApprovable(seen))
            && states[i + 1].db.receipts[tx.receiptId].currentData == seen.currentData
            && states[i + 1].db.receipts[tx.receiptId].status
               == Some(if tx.decision == Approve then Approved else Rejected)
  {
    hide LockedStep, OptimisticStep, ClaimsSound, Sound, Results, Route, ImagesIndexed, KeysIndexed, ReadBack;
    OptimisticRunIsAtomic(states, steps);
    RunLosesNothing(states, steps, k, i);
    assert AtomicStep(states[i], steps[i], states[i + 1]);
    var r := steps[i].tx.receiptId;
    assert Grows(FileOf(states[k], r), FileOf(states[i], r));
    SoundIsAsRead(FileOf(states[i], r));
  }

  lemma SoundIsAsRead(f: File)
    requires Sound(f)
    ensures IsAsRead(f.receipt)
  {}
}
