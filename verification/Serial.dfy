/** The optimistic machine refines the atomic one: a commit that passes its version checks saw the current rows. */
module Serial {
  import opened Domain
  import opened Validation
  import opened Job
  import opened ReceiptEntity
  import opened Database
  import opened Transactions
  import opened CaseFile
  import opened Protocol
  import opened Invariance

  /** The job id an outcome carries; decisions and corrections touch no job. */
  function NamedJob(tx: Tx, j: JobId): JobId {
    if tx.CorrectFields? || tx.Decide? then 0 else j
  }

  /** Once the rows exist, running the transaction is planning on its file. */
  lemma RunIsPlan(s: State, tx: Tx, r: ReceiptId)
    requires WellFormed(s.db) && r in s.db.receipts && r == Target(s.db, tx)
    requires UsesClaim(tx) ==> tx.claim.jobId == s.db.jobIndex[r]
    ensures Run(s.db, tx)
            == ToOutcome(NamedJob(tx, s.db.jobIndex[r]), r, PlanOn(FileOf(s, r).job, FileOf(s, r).receipt, tx))
  {
    hide Results, Route, ImagesIndexed, KeysIndexed;
  }

  lemma ClaimNamesJob(s: State, tx: Tx)
    requires WellFormed(s.db) && Run(s.db, tx).Ready? && UsesClaim(tx)
    ensures tx.claim.jobId in s.db.jobs
    ensures Target(s.db, tx) in s.db.receipts && tx.claim.jobId == s.db.jobIndex[Target(s.db, tx)]
  {}

  /** The rows a plan writes still carry the versions that were read. */
  lemma PlanKeepsVersions(job: JobRow, receipt: ReceiptRow, tx: Tx)
    requires PlanOn(job, receipt, tx).Planned?
    ensures var c := PlanOn(job, receipt, tx).change;
            && (c.job.Some? ==> c.job.value.version == job.version)
            && (c.receipt.Some? ==> c.receipt.value.version == receipt.version)
  {
    hide Results, Route;
  }

  /** What a transaction read decides its plan, and what it read is protected by the versions it checks. */
  lemma PlanStands(f: File, g: File, tx: Tx)
    requires Sound(f) && Sound(g) && Grows(f, g)
    requires PlanOn(f.job, f.receipt, tx).Planned?
    requires var c := PlanOn(f.job, f.receipt, tx).change;
             && (c.job.Some? ==> g.job.version == c.job.value.version)
             && (c.receipt.Some? ==> g.receipt.version == c.receipt.value.version)
    ensures PlanOn(g.job, g.receipt, tx) == PlanOn(f.job, f.receipt, tx)
  {
    hide Sound;
    PlanKeepsVersions(f.job, f.receipt, tx);
    if tx.MarkDuplicate? {
      MarkStands(f, g, tx);
    } else if UsesClaim(tx) {
      ResultStands(f, g, tx);
    }
  }

  lemma ResultStands(f: File, g: File, tx: Tx)
    requires UsesClaim(tx) && PlanOn(f.job, f.receipt, tx).Planned?
    requires g.job == f.job
    requires PlanOn(f.job, f.receipt, tx).change.receipt.Some? ==> g.receipt == f.receipt
    ensures PlanOn(g.job, g.receipt, tx) == PlanOn(f.job, f.receipt, tx)
  {}

  /** markDuplicate may update only the job; the receipt status it read is still right because of the job's version. */
  lemma MarkStands(f: File, g: File, tx: Tx)
    requires Sound(f) && Sound(g) && Grows(f, g) && tx.MarkDuplicate?
    requires var c := PlanOn(f.job, f.receipt, tx).change;
             && (c.job.Some? ==> g.job.version == f.job.version)
             && (c.receipt.Some? ==> g.receipt.version == f.receipt.version)
    ensures PlanOn(g.job, g.receipt, tx) == PlanOn(f.job, f.receipt, tx)
  {
    hide LogTellsReceipt, AttemptsAccounted, StatusMeansIt, ReviewedIndependently, Results, Route;
    if !f.job.duplicateDetected {
      AlreadyMarkedIsUnreachable(f);
      assert g.job == f.job;
    }
  }

  lemma CommitSawCurrentRows(a: State, b: State, tx: Tx)
    requires Inv(a) && Inv(b) && Later(a, b)
    requires Run(a.db, tx).Ready? && CanCommit(b.db, Run(a.db, tx))
    ensures Run(b.db, tx) == Run(a.db, tx)
  {
    hide Sound, Grows, ClaimsSound, PlanOn, Run, ImagesIndexed, KeysIndexed;
    var o, r := Run(a.db, tx), Target(a.db, tx);
    OutcomeIsPlan(a, tx);
    if UsesClaim(tx) {
      ClaimNamesJob(a, tx);
    }
    RunIsPlan(a, tx, r);
    PlanStands(FileOf(a, r), FileOf(b, r), tx);
    RunIsPlan(b, tx, r);
  }

  /** One step: whichever snapshot a transaction read, committing it is running it now. */
  lemma OptimisticStepIsAtomic(past: seq<State>, step: Step, s': State)
    requires past != [] && Inv(past[|past| - 1])
    requires forall i :: 0 <= i < |past| ==> Inv(past[i]) && Later(past[i], past[|past| - 1])
    requires OptimisticStep(past, step, s')
    ensures AtomicStep(past[|past| - 1], step, s')
  {
    hide Inv, Later, Run, CanCommit, MayStart, LockedStep;
    if step.Transact? {
      CommitSawCurrentRows(past[step.snapshot], past[|past| - 1], step.tx);
    }
  }

  /** Every run of the optimistic machine is a run of the atomic machine. */
  lemma OptimisticRunIsAtomic(states: seq<State>, steps: seq<Step>)
    requires OptimisticRun(states, steps)
    ensures AtomicRun(states, steps)
  {
    PrefixIsAtomic(states, steps, |steps|);
    assert states[..|steps| + 1] == states && steps[..|steps|] == steps;
  }

  lemma {:induction false} PrefixIsAtomic(states: seq<State>, steps: seq<Step>, n: nat)
    requires OptimisticRun(states, steps) && n <= |steps|
    ensures AtomicRun(states[..n + 1], steps[..n])
  {
    hide AtomicStep, OptimisticStep, WellFormed, ClaimsSound, Sound, Later;
    var past := states[..n + 1];
    if n > 0 {
      PrefixIsAtomic(states, steps, n - 1);
      var before := states[..n];
      assert before == states[..n - 1 + 1];
      RunKeepsInv(before, steps[..n - 1], n - 1);
      forall i | 0 <= i < n ensures Inv(before[i]) && Later(before[i], before[n - 1]) {
        RunLosesNothing(before, steps[..n - 1], i, n - 1);
      }
      OptimisticStepIsAtomic(before, steps[n - 1], states[n]);
      assert AtomicStep(past[n - 1], steps[..n][n - 1], past[n]);
      forall i | 0 <= i < n ensures AtomicStep(past[i], steps[..n][i], past[i + 1]) {
        if i < n - 1 {
          assert AtomicStep(before[i], steps[..n - 1][i], before[i + 1]);
        }
      }
    }
  }

  /**
   The snapshot must be one snapshot. If markDuplicate could see the receipt from before a completion and the job from
   after it, it would commit a deferred mark that no rule ever shows.
   */
  lemma MixedReadsLoseTheMark(f: File, tx: Tx, today: Date, now: Instant)
    requires Sound(f) && tx.CompleteExtraction? && Enabled(f, Exec(tx)) && !f.job.duplicateDetected
    ensures var g := Act(f, Exec(tx));
            var mixed := PlanDuplicate(g.job, f.receipt, today, now);
            && mixed.Planned? && mixed.change.receipt.None?
            && mixed.change.job.Some? && mixed.change.job.value.version == g.job.version
            && !DuplicateRecorded(Apply(g, mixed.change))
  {
    var g := Act(f, Exec(tx));
    SoundKept(f, Exec(tx));
    DuplicateMoveOf(f, Exec(tx));
    CountAfter(f, Exec(tx), ExtractionCompleted);
    LateMarkIsLost(f, g, today, now);
  }

  lemma LateMarkIsLost(f: File, g: File, today: Date, now: Instant)
    requires f.receipt.status.None? && !g.job.duplicateDetected && Count(g.events, ExtractionCompleted) > 0
    requires g.receipt.status.Some? && !ShowsDuplicate(g.receipt)
    ensures var mixed := PlanDuplicate(g.job, f.receipt, today, now);
            && mixed.Planned? && mixed.change.receipt.None?
            && mixed.change.job.Some? && mixed.change.job.value.version == g.job.version
            && !DuplicateRecorded(Apply(g, mixed.change))
  {
    var h := Apply(g, PlanDuplicate(g.job, f.receipt, today, now).change);
    AfterOne(g.events, SystemEvent(now, DuplicateDetected, None, None, Deferred));
    assert MarkReachedRules(h);
  }
}
