/** Crashed workers are noticed: an expired lease is never overtaken, so recovery calls until it ends are bounded. */
module Recovery {
  import opened Domain
  import opened Job
  import opened Database
  import opened Transactions
  import opened CaseFile
  import opened JobQueries
  import opened Protocol
  import opened Invariance
  import opened Serial
  import opened Waiting

  predicate IsProcessing(db: Db, j: JobId) {
    j in db.jobs && db.jobs[j].status == Processing && db.jobs[j].leaseUntil.Some?
  }

  /** The processed jobs that (lease_until, id) puts before j. */
  function LeasedBefore(db: Db, j: JobId): set<JobId>
    requires IsProcessing(db, j)
  {
    set k | k in db.jobs && IsProcessing(db, k)
            && Precedes(db.jobs[k].leaseUntil.value, k, db.jobs[j].leaseUntil.value, j)
  }

  /** Every lease of `e` was there in `d`, or ends after `at`. */
  ghost predicate NobodyLeasesIn(d: Db, e: Db, at: Instant) {
    forall k :: IsProcessing(e, k) ==>
      (IsProcessing(d, k) && d.jobs[k].leaseUntil == e.jobs[k].leaseUntil) || e.jobs[k].leaseUntil.value > at
  }

  lemma ExecKeepsLease(f: File, tx: Tx)
    requires Enabled(f, Exec(tx)) && Act(f, Exec(tx)).job.status == Processing
    ensures f.job.status == Processing && Act(f, Exec(tx)).job.leaseUntil == f.job.leaseUntil
  {}

  lemma TransactKeepsLeases(s: State, tx: Tx)
    requires Inv(s) && MayStart(s, tx) && Run(s.db, tx).Ready?
    ensures var e := Committed(s, tx, Run(s.db, tx)).db;
            e.jobs.Keys == s.db.jobs.Keys
            && forall k :: IsProcessing(e, k) ==>
                 IsProcessing(s.db, k) && s.db.jobs[k].leaseUntil == e.jobs[k].leaseUntil
  {
    hide Sound, ClaimsSound, Run, Committed, Enabled, Act, PlanOn, ImagesIndexed, KeysIndexed, Later;
    var r, t := Target(s.db, tx), Committed(s, tx, Run(s.db, tx));
    TransactKeepsInv(s, tx);
    forall k | IsProcessing(t.db, k)
      ensures IsProcessing(s.db, k) && s.db.jobs[k].leaseUntil == t.db.jobs[k].leaseUntil
    {
      var q := t.db.jobs[k].receiptId;
      assert FileOf(t, q).job == t.db.jobs[k] && FileOf(s, q).job == s.db.jobs[k];
      if q == r {
        ExecKeepsLease(FileOf(s, r), tx);
      }
    }
  }

  lemma ClaimLeasesLater(s: State, step: Step, t: State)
    requires step.ClaimJobs? && LockedStep(s, step, t)
    ensures NobodyLeasesIn(s.db, t.db, step.now)
    ensures forall j :: IsProcessing(s.db, j) ==> j in t.db.jobs && t.db.jobs[j] == s.db.jobs[j]
  {
    hide ClaimAll;
    BatchHasNoRepeats(step.ids, Available(s.db.jobs, step.now, step.locked), step.batchSize);
    ClaimAllFrame(s, step.ids, step.workerId, step.tokens, step.now, step.now + step.leaseDuration);
  }

  lemma IntakeKeepsLeases(s: State, step: Step, t: State)
    requires (step.Intake? || step.Idle?) && LockedStep(s, step, t)
    ensures forall k :: IsProcessing(t.db, k) ==> IsProcessing(s.db, k) && s.db.jobs[k] == t.db.jobs[k]
    ensures forall k :: k in s.db.jobs ==> k in t.db.jobs
  {}

  lemma StepLeasesNobodyIn(s: State, step: Step, t: State, at: Instant)
    requires Inv(s) && AtomicStep(s, step, t) && ReadsClockAfter(step, at)
    ensures NobodyLeasesIn(s.db, t.db, at)
    ensures forall j :: j in s.db.jobs ==> j in t.db.jobs
    ensures forall j :: IsProcessing(s.db, j) && IsProcessing(t.db, j) ==>
              s.db.jobs[j].leaseUntil == t.db.jobs[j].leaseUntil
  {
    hide Inv, Run, Committed, LockedStep, MayStart;
    if step.Transact? {
      TransactKeepsLeases(s, step.tx);
    } else if step.ClaimJobs? {
      ClaimLeasesLater(s, step, t);
      ClaimFrame(s, step, t);
    } else if step.RecoverJobs? {
      RecoverFrame(s, step, t);
    } else {
      IntakeKeepsLeases(s, step, t);
    }
  }

  /** A recovery that finds an expired lease unlocked and leaves it took a full batch, all from ahead of it. */
  lemma RecoveryTakesThoseAhead(s: State, step: Step, t: State, j: JobId)
    requires step.RecoverJobs? && j !in step.locked && LockedStep(s, step, t)
    requires IsProcessing(s.db, j) && IsProcessing(t.db, j) && step.now > s.db.jobs[j].leaseUntil.value
    ensures |LeasedBefore(t.db, j)| + step.batchSize <= |LeasedBefore(s.db, j)|
  {
    hide RecoverAll;
    RecoverFrame(s, step, t);
    BatchWasLeasedBefore(s, step, t, j);
    BatchHasNoRepeats(step.ids, Expired(s.db.jobs, step.now, step.locked), step.batchSize);
    var taken := Members(step.ids);
    assert LeasedBefore(t.db, j) <= LeasedBefore(s.db, j) - taken;
    SubsetIsSmaller(LeasedBefore(t.db, j), LeasedBefore(s.db, j) - taken);
  }

  lemma BatchWasLeasedBefore(s: State, step: Step, t: State, j: JobId)
    requires step.RecoverJobs? && j !in step.locked && LockedStep(s, step, t)
    requires IsProcessing(s.db, j) && j !in step.ids && step.now > s.db.jobs[j].leaseUntil.value
    ensures |step.ids| == step.batchSize && Members(step.ids) <= LeasedBefore(s.db, j)
  {
    hide RecoverAll;
    var candidates := Expired(s.db.jobs, step.now, step.locked);
    assert j in candidates;
    forall x | x in step.ids ensures x in LeasedBefore(s.db, j) {
      var i :| 0 <= i < |step.ids| && step.ids[i] == x;
      assert x in candidates;
    }
  }

  /** One step: the leases ahead of j only become fewer; a recovery that passes over it takes a full batch of them. */
  lemma StepShortensLeases(s: State, step: Step, t: State, j: JobId)
    requires Inv(s) && AtomicStep(s, step, t) && IsProcessing(s.db, j) && IsProcessing(t.db, j)
    requires ReadsClockAfter(step, s.db.jobs[j].leaseUntil.value)
    ensures t.db.jobs[j].leaseUntil == s.db.jobs[j].leaseUntil
    ensures LeasedBefore(t.db, j) <= LeasedBefore(s.db, j)
    ensures step.RecoverJobs? && j !in step.locked ==>
              |LeasedBefore(t.db, j)| + step.batchSize <= |LeasedBefore(s.db, j)|
  {
    hide Inv, Run, Committed, LockedStep, MayStart;
    StepLeasesNobodyIn(s, step, t, s.db.jobs[j].leaseUntil.value);
    if step.RecoverJobs? && j !in step.locked {
      RecoveryTakesThoseAhead(s, step, t, j);
    }
  }

  /** A recovery call for at least b jobs that finds j unlocked; it may skip any other row. */
  predicate Reaches(step: Step, j: JobId, b: nat) {
    step.RecoverJobs? && j !in step.locked && step.batchSize >= b
  }

  function RecoveryCalls(steps: seq<Step>, i: nat, k: nat, j: JobId, b: nat): nat
    requires i <= k <= |steps|
    decreases k
  {
    if i == k then 0 else RecoveryCalls(steps, i, k - 1, j, b) + (if Reaches(steps[k - 1], j, b) then 1 else 0)
  }

  lemma {:induction false} HoldingOnCostsRecoveries(states: seq<State>, steps: seq<Step>, i: nat, k: nat, j: JobId,
                                                    b: nat)
    requires AtomicRun(states, steps) && i <= k <= |steps|
    requires forall m :: i <= m <= k ==> IsProcessing(states[m].db, j)
    requires IsProcessing(states[i].db, j) && IsProcessing(states[k].db, j)
    requires ClocksAfter(steps, i, k, states[i].db.jobs[j].leaseUntil.value)
    ensures states[k].db.jobs[j].leaseUntil == states[i].db.jobs[j].leaseUntil
    ensures RecoveryCalls(steps, i, k, j, b) * b + |LeasedBefore(states[k].db, j)| <= |LeasedBefore(states[i].db, j)|
    decreases k
  {
    hide AtomicStep, Inv, LeasedBefore, ReadsClockAfter;
    if i < k {
      assert IsProcessing(states[k - 1].db, j);
      HoldingOnCostsRecoveries(states, steps, i, k - 1, j, b);
      RunKeepsInv(states, steps, k - 1);
      assert AtomicStep(states[k - 1], steps[k - 1], states[k]);
      StepShortensLeases(states[k - 1], steps[k - 1], states[k], j);
      SubsetIsSmaller(LeasedBefore(states[k].db, j), LeasedBefore(states[k - 1].db, j));
    }
  }

  /**
   An expired lease ends, by recovery or by its late owner, within rank / b + 1 recovery calls that find it unlocked,
   whatever rows others hold and whatever else happens in between.
   */
  lemma RecoveryIsBounded(states: seq<State>, steps: seq<Step>, i: nat, k: nat, j: JobId, b: nat)
    requires OptimisticRun(states, steps) && i <= k <= |steps| && b > 0
    requires IsProcessing(states[i].db, j)
    requires ClocksAfter(steps, i, k, states[i].db.jobs[j].leaseUntil.value)
    requires RecoveryCalls(steps, i, k, j, b) >= |LeasedBefore(states[i].db, j)| / b + 1
    ensures exists m :: i < m <= k && j in states[m].db.jobs && states[m].db.jobs[j].status != Processing
  {
    hide AtomicStep, OptimisticStep, LeasedBefore, ClocksAfter, IsProcessing;
    OptimisticRunIsAtomic(states, steps);
    if forall m :: i <= m <= k ==> IsProcessing(states[m].db, j) {
      HoldingOnCostsRecoveries(states, steps, i, k, j, b);
      TooManyClaims(RecoveryCalls(steps, i, k, j, b), b, |LeasedBefore(states[i].db, j)|);
    }
    var m :| i <= m <= k && !IsProcessing(states[m].db, j);
    EndedLease(states, steps, i, m, j);
  }

  lemma EndedLease(states: seq<State>, steps: seq<Step>, i: nat, m: nat, j: JobId)
    requires AtomicRun(states, steps) && i <= m < |states|
    requires IsProcessing(states[i].db, j) && !IsProcessing(states[m].db, j)
    ensures i < m && j in states[m].db.jobs && states[m].db.jobs[j].status != Processing
  {
    hide AtomicStep, ClaimsSound, Sound;
    RunLosesNothing(states, steps, i, m);
    JobsStay(states[i], states[m], j);
    if states[m].db.jobs[j].status == Processing {
      ProcessingHasLease(states[m], j);
    }
  }

  lemma JobsStay(s: State, t: State, j: JobId)
    requires WellFormed(s.db) && WellFormed(t.db) && Later(s, t) && j in s.db.jobs
    ensures j in t.db.jobs
  {
    hide ImagesIndexed, KeysIndexed, Grows;
    var r := s.db.jobs[j].receiptId;
    assert r in t.db.receipts && t.db.jobIndex[r] == j;
  }

  lemma ProcessingHasLease(s: State, j: JobId)
    requires Inv(s) && j in s.db.jobs && s.db.jobs[j].status == Processing
    ensures IsProcessing(s.db, j)
  {
    hide ClaimsSound, ImagesIndexed, KeysIndexed, LogTellsReceipt, AttemptsAccounted, DuplicateRecorded, StatusMeansIt,
         ReviewedIndependently;
    assert RowsAgree(FileOf(s, s.db.jobs[j].receiptId));
  }
}
