/** The queue is fair: a waiting job whose time has passed is never overtaken, so the claims ahead of it are bounded. */
module Waiting {
  import opened Domain
  import opened Job
  import opened Database
  import opened Transactions
  import opened CaseFile
  import opened JobQueries
  import opened Protocol
  import opened Invariance
  import opened Serial

  predicate IsQueued(db: Db, j: JobId) {
    j in db.jobs && IsWaiting(db.jobs[j].status)
  }

  /** The waiting jobs that (available_at, id) puts before j. */
  function Ahead(db: Db, j: JobId): set<JobId>
    requires j in db.jobs
  {
    set k | k in db.jobs && IsWaiting(db.jobs[k].status)
            && Precedes(db.jobs[k].availableAt, k, db.jobs[j].availableAt, j)
  }

  /** The step reads the clock later than `at`. */
  predicate ReadsClockAfter(step: Step, at: Instant) {
    match step
    case Transact(tx, _) => tx.now > at
    case ClaimJobs(_, _, _, _, _, _, now) => now > at
    case RecoverJobs(_, _, _, now) => now > at
    case Intake(u) => u.now > at
    case Idle => true
  }

  /** Every waiting job of `e` was waiting in `d` for the same instant, or waits for one after `at`. */
  predicate NobodyPushesIn(d: Db, e: Db, at: Instant) {
    forall k :: k in e.jobs && IsWaiting(e.jobs[k].status) ==>
      (k in d.jobs && IsWaiting(d.jobs[k].status) && d.jobs[k].availableAt == e.jobs[k].availableAt)
      || e.jobs[k].availableAt > at
  }

  lemma ActionPushesNobodyIn(f: File, act: Action)
    requires Enabled(f, act) && IsWaiting(Act(f, act).job.status)
    ensures (IsWaiting(f.job.status) && Act(f, act).job.availableAt == f.job.availableAt)
            || (act.Exec? && Act(f, act).job.availableAt >= act.tx.now)
            || (act.Recovering? && Act(f, act).job.availableAt == act.now)
  {}

  lemma {:induction false} RecoverAllFrame(s: State, ids: seq<JobId>, now: Instant)
    requires Distinct(ids) && forall i :: 0 <= i < |ids| ==> ids[i] in s.db.jobs
    ensures var t := RecoverAll(s, ids, now);
            && (forall j :: j in s.db.jobs && j !in ids ==> t.db.jobs[j] == s.db.jobs[j])
            && (forall j :: j in s.db.jobs && j in ids ==>
                  t.db.jobs[j].availableAt == now && t.db.jobs[j].status == Queued)
  {
    if ids != [] {
      RecoverAllFrame(s, ids[..|ids| - 1], now);
    }
  }

  lemma ClaimFrame(s: State, step: Step, t: State)
    requires step.ClaimJobs? && LockedStep(s, step, t)
    ensures t.db.jobs.Keys == s.db.jobs.Keys
    ensures forall j :: j in s.db.jobs ==>
              if j in step.ids then t.db.jobs[j].status == Processing else t.db.jobs[j] == s.db.jobs[j]
  {
    hide Available, ClaimAll;
    BatchHasNoRepeats(step.ids, Available(s.db.jobs, step.now, step.locked), step.batchSize);
    assert forall i :: 0 <= i < |step.ids| ==> step.ids[i] in s.db.jobs by {
      AvailableAreJobs(s.db.jobs, step.now, step.locked);
    }
    ClaimAllFrame(s, step.ids, step.workerId, step.tokens, step.now, step.now + step.leaseDuration);
  }

  lemma RecoverFrame(s: State, step: Step, t: State)
    requires step.RecoverJobs? && LockedStep(s, step, t)
    ensures t.db.jobs.Keys == s.db.jobs.Keys
    ensures forall j :: j in s.db.jobs ==>
              if j in step.ids
              then && s.db.jobs[j].status == Processing
                   && t.db.jobs[j].availableAt == step.now && t.db.jobs[j].status == Queued
              else t.db.jobs[j] == s.db.jobs[j]
  {
    hide Expired, RecoverAll;
    BatchHasNoRepeats(step.ids, Expired(s.db.jobs, step.now, step.locked), step.batchSize);
    AvailableAreJobs(s.db.jobs, step.now, step.locked);
    assert forall i :: 0 <= i < |step.ids| ==> step.ids[i] in s.db.jobs;
    RecoverAllFrame(s, step.ids, step.now);
  }

  lemma StepPushesNobodyIn(s: State, step: Step, t: State, at: Instant)
    requires Inv(s) && AtomicStep(s, step, t) && ReadsClockAfter(step, at)
    ensures NobodyPushesIn(s.db, t.db, at)
  {
    hide Sound, ClaimsSound, WellFormed, Run, Committed, LockedStep;
    if step.Transact? {
      TransactPushesNobodyIn(s, step.tx, at);
    } else if step.ClaimJobs? {
      ClaimFrame(s, step, t);
    } else if step.RecoverJobs? {
      RecoverFrame(s, step, t);
    } else {
      IntakePushesNobodyIn(s, step, t, at);
    }
  }

  lemma IntakePushesNobodyIn(s: State, step: Step, t: State, at: Instant)
    requires step.Intake? || step.Idle?
    requires LockedStep(s, step, t) && ReadsClockAfter(step, at)
    ensures NobodyPushesIn(s.db, t.db, at)
  {}

  lemma TransactPushesNobodyIn(s: State, tx: Tx, at: Instant)
    requires Inv(s) && MayStart(s, tx) && Run(s.db, tx).Ready? && tx.now > at
    ensures NobodyPushesIn(s.db, Committed(s, tx, Run(s.db, tx)).db, at)
  {
    hide Sound, ClaimsSound, Run, Committed, Enabled, Act, PlanOn, ImagesIndexed, KeysIndexed, Later;
    var r, t := Target(s.db, tx), Committed(s, tx, Run(s.db, tx));
    TransactKeepsInv(s, tx);
    forall k | k in t.db.jobs && IsWaiting(t.db.jobs[k].status)
      ensures (k in s.db.jobs && IsWaiting(s.db.jobs[k].status) && s.db.jobs[k].availableAt == t.db.jobs[k].availableAt)
              || t.db.jobs[k].availableAt > at
    {
      var q := t.db.jobs[k].receiptId;
      assert FileOf(t, q).job == t.db.jobs[k] && FileOf(s, q).job == s.db.jobs[k];
      if q == r {
        ActionPushesNobodyIn(FileOf(s, r), Exec(tx));
      }
    }
  }

  /**
   One step: the jobs ahead of j only become fewer, and a claim that finds j unlocked and leaves it waiting takes a full
   batch of them, whichever other rows were locked.
   */
  lemma StepShortensQueue(s: State, step: Step, t: State, j: JobId)
    requires Inv(s) && AtomicStep(s, step, t)
    requires IsQueued(s.db, j) && IsQueued(t.db, j)
    requires ReadsClockAfter(step, s.db.jobs[j].availableAt)
    ensures t.db.jobs[j].availableAt == s.db.jobs[j].availableAt
    ensures Ahead(t.db, j) <= Ahead(s.db, j)
    ensures step.ClaimJobs? && j !in step.locked ==> |Ahead(t.db, j)| + step.batchSize <= |Ahead(s.db, j)|
  {
    hide Sound, ClaimsSound, Run, Committed, WellFormed;
    var at := s.db.jobs[j].availableAt;
    StepPushesNobodyIn(s, step, t, at);
    StepKeepsDate(s, step, t, j);
    if step.ClaimJobs? && j !in step.locked {
      ClaimTakesThoseAhead(s, step, t, j);
    }
  }

  lemma StepKeepsDate(s: State, step: Step, t: State, j: JobId)
    requires Inv(s) && AtomicStep(s, step, t) && IsQueued(s.db, j)
    ensures IsQueued(t.db, j) || (j in t.db.jobs && t.db.jobs[j].status == Processing)
    ensures IsQueued(t.db, j) ==> t.db.jobs[j].availableAt == s.db.jobs[j].availableAt
  {
    hide Sound, ClaimsSound, WellFormed, Run, Committed, LockedStep;
    if step.Transact? {
      TransactKeepsDate(s, step.tx, j);
    } else if step.ClaimJobs? {
      ClaimFrame(s, step, t);
    } else if step.RecoverJobs? {
      RecoverFrame(s, step, t);
    } else {
      IntakeKeepsDate(s, step, t, j);
    }
  }

  lemma IntakeKeepsDate(s: State, step: Step, t: State, j: JobId)
    requires step.Intake? || step.Idle?
    requires LockedStep(s, step, t) && j in s.db.jobs
    ensures j in t.db.jobs && t.db.jobs[j] == s.db.jobs[j]
  {}

  lemma TransactKeepsDate(s: State, tx: Tx, j: JobId)
    requires Inv(s) && MayStart(s, tx) && Run(s.db, tx).Ready? && IsQueued(s.db, j)
    ensures IsQueued(Committed(s, tx, Run(s.db, tx)).db, j)
    ensures Committed(s, tx, Run(s.db, tx)).db.jobs[j].availableAt == s.db.jobs[j].availableAt
  {
    hide Sound, ClaimsSound, Run, Committed, Enabled, Act, PlanOn, Later, ImagesIndexed, KeysIndexed;
    var q, r, t := s.db.jobs[j].receiptId, Target(s.db, tx), Committed(s, tx, Run(s.db, tx));
    TransactKeepsInv(s, tx);
    assert FileOf(t, q).job == t.db.jobs[j] && FileOf(s, q).job == s.db.jobs[j];
    if q == r {
      WaitingActionKeepsDate(FileOf(s, r), Exec(tx));
    }
  }

  lemma WaitingActionKeepsDate(f: File, act: Action)
    requires Enabled(f, act) && act.Exec? && IsWaiting(f.job.status)
    ensures Act(f, act).job.status == f.job.status && Act(f, act).job.availableAt == f.job.availableAt
  {}

  lemma ClaimTakesThoseAhead(s: State, step: Step, t: State, j: JobId)
    requires step.ClaimJobs? && j !in step.locked && LockedStep(s, step, t)
    requires IsQueued(s.db, j) && IsQueued(t.db, j) && step.now > s.db.jobs[j].availableAt
    ensures |Ahead(t.db, j)| + step.batchSize <= |Ahead(s.db, j)|
  {
    hide ClaimAll;
    ClaimFrame(s, step, t);
    BatchLiesAhead(s, step, t, j);
    BatchHasNoRepeats(step.ids, Available(s.db.jobs, step.now, step.locked), step.batchSize);
    var taken := Members(step.ids);
    assert Ahead(t.db, j) <= Ahead(s.db, j) - taken;
    SubsetIsSmaller(Ahead(t.db, j), Ahead(s.db, j) - taken);
  }

  /** A claim that leaves an eligible job waiting took a full batch, all from ahead of it. */
  lemma BatchLiesAhead(s: State, step: Step, t: State, j: JobId)
    requires step.ClaimJobs? && j !in step.locked && LockedStep(s, step, t)
    requires IsQueued(s.db, j) && j !in step.ids && step.now > s.db.jobs[j].availableAt
    ensures |step.ids| == step.batchSize && Members(step.ids) <= Ahead(s.db, j)
  {
    hide ClaimAll;
    var candidates := Available(s.db.jobs, step.now, step.locked);
    assert j in candidates;
    forall x | x in step.ids ensures x in Ahead(s.db, j) {
      var i :| 0 <= i < |step.ids| && step.ids[i] == x;
      assert x in candidates;
    }
  }

  lemma {:induction false} SubsetIsSmaller(a: set<JobId>, b: set<JobId>)
    requires a <= b
    ensures |a| <= |b|
  {
    if a != {} {
      var x :| x in a;
      SubsetIsSmaller(a - {x}, b - {x});
    }
  }

  /** A claim call for at least b jobs that finds j unlocked; it may skip any other row. */
  predicate ReachesFor(step: Step, j: JobId, b: nat) {
    step.ClaimJobs? && j !in step.locked && step.batchSize >= b
  }

  /** How many of the steps i to k are such calls. Any other calls may come in between. */
  function ClaimCalls(steps: seq<Step>, i: nat, k: nat, j: JobId, b: nat): nat
    requires i <= k <= |steps|
    decreases k
  {
    if i == k then 0 else ClaimCalls(steps, i, k - 1, j, b) + (if ReachesFor(steps[k - 1], j, b) then 1 else 0)
  }

  /** Between states i and k clocks read later than `at`. */
  predicate ClocksAfter(steps: seq<Step>, i: nat, k: nat, at: Instant)
    requires i <= k <= |steps|
  {
    forall m :: i <= m < k ==> ReadsClockAfter(steps[m], at)
  }

  lemma {:induction false} WaitingCostsClaims(states: seq<State>, steps: seq<Step>, i: nat, k: nat, j: JobId, b: nat)
    requires AtomicRun(states, steps) && i <= k <= |steps|
    requires forall m :: i <= m <= k ==> IsQueued(states[m].db, j)
    requires IsQueued(states[i].db, j) && IsQueued(states[k].db, j)
    requires ClocksAfter(steps, i, k, states[i].db.jobs[j].availableAt)
    ensures states[k].db.jobs[j].availableAt == states[i].db.jobs[j].availableAt
    ensures ClaimCalls(steps, i, k, j, b) * b + |Ahead(states[k].db, j)| <= |Ahead(states[i].db, j)|
    decreases k
  {
    hide AtomicStep, Inv, Ahead, ReadsClockAfter;
    if i < k {
      assert IsQueued(states[k - 1].db, j);
      WaitingCostsClaims(states, steps, i, k - 1, j, b);
      RunKeepsInv(states, steps, k - 1);
      assert AtomicStep(states[k - 1], steps[k - 1], states[k]);
      assert IsQueued(states[k - 1].db, j) && IsQueued(states[k].db, j);
      StepShortensQueue(states[k - 1], steps[k - 1], states[k], j);
      SubsetIsSmaller(Ahead(states[k].db, j), Ahead(states[k - 1].db, j));
    }
  }

  lemma {:induction false} WaitsUntilClaimed(states: seq<State>, steps: seq<Step>, i: nat, k: nat, j: JobId)
    requires AtomicRun(states, steps) && i <= k <= |steps| && IsQueued(states[i].db, j)
    ensures (forall m :: i <= m <= k ==> IsQueued(states[m].db, j))
            || exists m :: i < m <= k && j in states[m].db.jobs && states[m].db.jobs[j].status == Processing
    decreases k
  {
    hide AtomicStep, Inv, IsWaiting;
    if i < k {
      WaitsUntilClaimed(states, steps, i, k - 1, j);
      if forall m :: i <= m <= k - 1 ==> IsQueued(states[m].db, j) {
        RunKeepsInv(states, steps, k - 1);
        assert AtomicStep(states[k - 1], steps[k - 1], states[k]);
        StepKeepsDate(states[k - 1], steps[k - 1], states[k], j);
      }
    }
  }

  /** After rank / b + 1 claim calls that find it unlocked the job has been taken, whatever rows other claimers hold. */
  lemma WaitingIsBounded(states: seq<State>, steps: seq<Step>, i: nat, k: nat, j: JobId, b: nat)
    requires OptimisticRun(states, steps) && i <= k <= |steps| && b > 0
    requires IsQueued(states[i].db, j)
    requires ClocksAfter(steps, i, k, states[i].db.jobs[j].availableAt)
    requires ClaimCalls(steps, i, k, j, b) >= |Ahead(states[i].db, j)| / b + 1
    ensures exists m :: i < m <= k && j in states[m].db.jobs && states[m].db.jobs[j].status == Processing
  {
    hide AtomicStep, OptimisticStep, Ahead, ClocksAfter;
    OptimisticRunIsAtomic(states, steps);
    WaitsUntilClaimed(states, steps, i, k, j);
    if forall m :: i <= m <= k ==> IsQueued(states[m].db, j) {
      WaitingCostsClaims(states, steps, i, k, j, b);
      TooManyClaims(ClaimCalls(steps, i, k, j, b), b, |Ahead(states[i].db, j)|);
    }
  }

  lemma TooManyClaims(calls: nat, b: nat, rank: nat)
    requires b > 0 && calls >= rank / b + 1
    ensures calls * b > rank
  {
    assert rank / b * b + rank % b == rank;
    assert calls * b >= (rank / b + 1) * b;
  }
}
