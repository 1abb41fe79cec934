/**
 The permit scheduler (ReceiptExtractionWorker.java, ReceiptWorkerConfiguration.java). Thread 0 is the scheduled poll,
 threads 1 to concurrency are the pool's. Each step is one action of one thread; any interleaving is a run.
 */
module Worker {
  import opened Domain

  type Job = Token

  /** Where a thread is in the code. */
  datatype Thread =
    | Idle
    | Polling
    | Starting(max: nat)
    | Acquiring(got: nat, max: nat)
    | Checking(permits: nat)
    | Claiming(permits: nat)
    | HandingBack(surplus: nat, jobs: seq<Job>)
    | Submitting(jobs: seq<Job>)
    | Executing(jobs: seq<Job>)
    | Returning(jobs: seq<Job>)
    | Running(job: Job)
    | Finishing

  /** The permits a thread has taken and not yet handed to a task or given back. */
  function Held(t: Thread): nat {
    match t
    case Acquiring(got, _) => got
    case Checking(n) => n
    case Claiming(n) => n
    case HandingBack(surplus, jobs) => surplus + |jobs|
    case Submitting(jobs) => |jobs|
    case Executing(jobs) => |jobs|
    case Returning(jobs) => |jobs|
    case Running(_) => 1
    case Finishing => 1
    case _ => 0
  }

  /** The claimed jobs a thread still has to deal with. */
  function InHand(t: Thread): multiset<Job> {
    match t
    case HandingBack(_, jobs) => multiset(jobs)
    case Submitting(jobs) => multiset(jobs)
    case Executing(jobs) => multiset(jobs)
    case Returning(jobs) => multiset(jobs)
    case Running(job) => multiset{job}
    case _ => multiset{}
  }

  /** The last five fields are ghosts: every job ever claimed, and where it went. */
  datatype Pool = Pool(
    concurrency: nat,
    batchSize: nat,
    permits: nat,
    stopped: bool,
    shutdown: bool,
    threads: seq<Thread>,
    started: nat,
    queue: seq<Job>,
    claimed: multiset<Job>,
    finished: multiset<Job>,
    returned: multiset<Job>,
    dropped: multiset<Job>)

  function Initial(concurrency: nat, batchSize: nat): Pool {
    Pool(concurrency, batchSize, concurrency, false, false, seq(concurrency + 1, _ => Idle), 0, [],
         multiset{}, multiset{}, multiset{}, multiset{})
  }

  /** executor.setQueueCapacity */
  function QueueCapacity(p: Pool): nat {
    p.concurrency
  }

  datatype Event =
    | Poll
    | Recovered(ok: bool)
    | Act(thread: nat)
    | Claimed(thread: nat, result: Option<seq<Job>>)
    | TakeTask(thread: nat)
    | Processed(thread: nat)
    | Stop
    | Shutdown(drain: bool)

  function Put(p: Pool, i: nat, t: Thread): Pool
    requires i < |p.threads|
  {
    p.(threads := p.threads[i := t])
  }

  /** ThreadPoolExecutor.execute: a new thread up to the core size, then the queue, then rejection. */
  predicate Rejects(p: Pool) {
    p.shutdown || (p.started >= p.concurrency && |p.queue| >= QueueCapacity(p))
  }

  function Accept(p: Pool, job: Job): Pool
    requires |p.threads| == p.concurrency + 1
  {
    if p.started < p.concurrency then Put(p, p.started + 1, Running(job)).(started := p.started + 1)
    else p.(queue := p.queue + [job])
  }

  /** The steps of startNextJobs, submitJob, returnUnstartedJob and onJobFinished that need nothing from outside. */
  function ActOf(p: Pool, i: nat): Pool
    requires i < |p.threads| && |p.threads| == p.concurrency + 1
  {
    match p.threads[i]
    case Starting(max) => Put(p, i, if p.stopped then Idle else Acquiring(0, max))
    case Acquiring(got, max) =>
      if got < max && p.permits > 0 then Put(p, i, Acquiring(got + 1, max)).(permits := p.permits - 1)
      else Put(p, i, if got == 0 then Idle else Checking(got))
    case Checking(n) => Put(p, i, if p.stopped then HandingBack(n, []) else Claiming(n))
    case HandingBack(surplus, jobs) => Put(p, i, Submitting(jobs)).(permits := p.permits + surplus)
    case Submitting(jobs) =>
      Put(p, i, if jobs == [] then Idle else if p.stopped then Returning(jobs) else Executing(jobs))
    case Executing(jobs) =>
      if jobs == [] then p
      else if Rejects(p) then Put(p, i, Returning(jobs))
      else Accept(Put(p, i, Submitting(jobs[1..])), jobs[0])
    case Returning(jobs) =>
      if jobs == [] then p
      else Put(p, i, Submitting(jobs[1..])).(permits := p.permits + 1, returned := p.returned + multiset{jobs[0]})
    case Finishing => Put(p, i, Starting(1)).(permits := p.permits + 1)
    case _ => p
  }

  predicate NewJobs(p: Pool, jobs: seq<Job>) {
    && (forall k :: 0 <= k < |jobs| ==> jobs[k] !in p.claimed)
    && (forall k, m :: 0 <= k < m < |jobs| ==> jobs[k] != jobs[m])
  }

  predicate Possible(p: Pool, e: Event)
    requires |p.threads| == p.concurrency + 1
  {
    match e
    case Poll => p.threads[0].Idle?
    case Recovered(_) => p.threads[0].Polling?
    case Act(i) => i < |p.threads|
    case Claimed(i, result) =>
      && i < |p.threads| && p.threads[i].Claiming?
      && (result.Some? ==> |result.value| <= p.threads[i].permits && NewJobs(p, result.value))
    case TakeTask(i) => 0 < i <= p.started && i < |p.threads| && p.threads[i].Idle? && p.queue != []
    case Processed(i) => i < |p.threads| && p.threads[i].Running?
    case Stop => true
    case Shutdown(_) => true
  }

  function Next(p: Pool, e: Event): Pool
    requires |p.threads| == p.concurrency + 1 && Possible(p, e)
  {
    match e
    case Poll => if p.stopped then p else Put(p, 0, Polling)
    case Recovered(ok) => Put(p, 0, if ok then Starting(p.batchSize) else Idle)
    case Act(i) => ActOf(p, i)
    case Claimed(i, result) =>
      var n := p.threads[i].permits;
      if result.None? then Put(p, i, HandingBack(n, []))
      else Put(p, i, HandingBack(n - |result.value|, result.value)).(claimed := p.claimed + multiset(result.value))
    case TakeTask(i) => Put(p, i, Running(p.queue[0])).(queue := p.queue[1..])
    case Processed(i) => Put(p, i, Finishing).(finished := p.finished + multiset{p.threads[i].job})
    case Stop => p.(stopped := true)
    case Shutdown(drain) =>
      // Closing the context refuses new tasks and keeps the queue; destroying the executor drains it.
      if drain then p.(shutdown := true, dropped := p.dropped + multiset(p.queue), queue := [])
      else p.(shutdown := true)
  }

  ghost predicate PoolRun(pools: seq<Pool>, events: seq<Event>, concurrency: nat, batchSize: nat) {
    && |pools| == |events| + 1 && pools[0] == Initial(concurrency, batchSize)
    && forall k :: 0 <= k < |events| ==>
         && |pools[k].threads| == pools[k].concurrency + 1
         && Possible(pools[k], events[k]) && pools[k + 1] == Next(pools[k], events[k])
  }

  // ---------- Conservation ----------

  function TotalHeld(threads: seq<Thread>): nat {
    if threads == [] then 0 else TotalHeld(threads[..|threads| - 1]) + Held(threads[|threads| - 1])
  }

  function TotalInHand(threads: seq<Thread>): multiset<Job> {
    if threads == [] then multiset{} else TotalInHand(threads[..|threads| - 1]) + InHand(threads[|threads| - 1])
  }

  lemma {:induction false} HeldAfterPut(threads: seq<Thread>, i: nat, t: Thread)
    requires i < |threads|
    ensures TotalHeld(threads[i := t]) + Held(threads[i]) == TotalHeld(threads) + Held(t)
    decreases |threads|
  {
    var n, changed := |threads| - 1, threads[i := t];
    if i < n {
      HeldAfterPut(threads[..n], i, t);
      assert changed[..n] == threads[..n][i := t] && changed[n] == threads[n];
    } else {
      assert changed[..n] == threads[..n] && changed[n] == t;
    }
  }

  lemma {:induction false} InHandAfterPut(threads: seq<Thread>, i: nat, t: Thread, j: Job)
    requires i < |threads|
    ensures TotalInHand(threads[i := t])[j] + InHand(threads[i])[j] == TotalInHand(threads)[j] + InHand(t)[j]
    decreases |threads|
  {
    hide InHand;
    var n, changed := |threads| - 1, threads[i := t];
    if i < n {
      InHandAfterPut(threads[..n], i, t, j);
      assert changed[..n] == threads[..n][i := t] && changed[n] == threads[n];
    } else {
      assert changed[..n] == threads[..n] && changed[n] == t;
    }
  }

  /** free permits + permits held by threads + queued tasks + tasks dropped at shutdown = concurrency */
  predicate PermitsConserved(p: Pool) {
    p.permits + TotalHeld(p.threads) + |p.queue| + |p.dropped| == p.concurrency
  }

  /** Every claimed job is in one place: in a thread's hands, queued, finished, given back or dropped at shutdown. */
  predicate JobsConserved(p: Pool) {
    p.claimed == TotalInHand(p.threads) + multiset(p.queue) + p.finished + p.returned + p.dropped
  }

  /** Where thread k can be: unstarted pool threads idle, the scheduler never processing, no empty submission. */
  predicate Fits(started: nat, k: nat, t: Thread) {
    && (k > started ==> t.Idle?)
    && (k == 0 ==> !t.Running? && !t.Finishing?)
    && (t.Executing? || t.Returning? ==> t.jobs != [])
  }

  predicate Shape(p: Pool) {
    && |p.threads| == p.concurrency + 1 && p.started <= p.concurrency
    && (forall k :: 0 <= k < |p.threads| ==> Fits(p.started, k, p.threads[k]))
    && (!p.shutdown ==> p.dropped == multiset{})
  }

  predicate ClaimedOnce(p: Pool) {
    forall j :: j in p.claimed ==> p.claimed[j] == 1
  }

  predicate PoolInv(p: Pool) {
    Shape(p) && PermitsConserved(p) && JobsConserved(p) && ClaimedOnce(p)
  }

  lemma {:induction false} AllIdle(threads: seq<Thread>)
    requires forall k :: 0 <= k < |threads| ==> threads[k].Idle?
    ensures TotalHeld(threads) == 0 && TotalInHand(threads) == multiset{}
  {
    if threads != [] {
      AllIdle(threads[..|threads| - 1]);
    }
  }

  lemma {:induction false} HeldIsAtMostTotal(threads: seq<Thread>, i: nat)
    requires i < |threads|
    ensures Held(threads[i]) <= TotalHeld(threads)
    decreases |threads|
  {
    if i < |threads| - 1 {
      HeldIsAtMostTotal(threads[..|threads| - 1], i);
    }
  }

  lemma InitialIsSound(concurrency: nat, batchSize: nat)
    ensures PoolInv(Initial(concurrency, batchSize))
  {
    AllIdle(Initial(concurrency, batchSize).threads);
  }

  /** Before shutdown no submission is rejected: the queue has room for the job being submitted. */
  lemma NeverRejectsBeforeShutdown(p: Pool, i: nat)
    requires PoolInv(p) && !p.shutdown && i < |p.threads| && p.threads[i].Executing?
    ensures |p.queue| <= p.concurrency - 1
    ensures !Rejects(p)
  {
    HeldIsAtMostTotal(p.threads, i);
  }

  lemma HeadAndTail(jobs: seq<Job>)
    requires jobs != []
    ensures multiset(jobs) == multiset{jobs[0]} + multiset(jobs[1..])
  {
    assert jobs == [jobs[0]] + jobs[1..];
  }

  /** What one thread's step must balance so that nothing is gained or lost. */
  ghost predicate Balanced(p: Pool, q: Pool, before: Thread, after: Thread) {
    && q.permits + Held(after) + |q.queue| + |q.dropped| == p.permits + Held(before) + |p.queue| + |p.dropped|
    && forall j :: q.claimed[j] + Settled(p, before)[j] == p.claimed[j] + Settled(q, after)[j]
  }

  function Settled(p: Pool, t: Thread): multiset<Job> {
    InHand(t) + multiset(p.queue) + p.finished + p.returned + p.dropped
  }

  lemma PutKeepsInv(p: Pool, q: Pool, i: nat, t: Thread)
    requires PoolInv(p) && i < |p.threads|
    requires q.threads == p.threads[i := t] && q.concurrency == p.concurrency && q.started == p.started
    requires Fits(q.started, i, t) && Balanced(p, q, p.threads[i], t) && ClaimedOnce(q)
    requires q.stopped == p.stopped && q.shutdown == p.shutdown && q.dropped == p.dropped
    ensures PoolInv(q)
  {
    hide Held, InHand;
    HeldAfterPut(p.threads, i, t);
    forall j
      ensures q.claimed[j] == (TotalInHand(q.threads) + multiset(q.queue) + q.finished + q.returned + q.dropped)[j]
    {
      InHandAfterPut(p.threads, i, t, j);
      assert p.claimed[j]
             == TotalInHand(p.threads)[j] + multiset(p.queue)[j] + p.finished[j] + p.returned[j] + p.dropped[j];
      assert Settled(p, p.threads[i])[j]
             == InHand(p.threads[i])[j] + multiset(p.queue)[j] + p.finished[j] + p.returned[j] + p.dropped[j];
      assert Settled(q, t)[j] == InHand(t)[j] + multiset(q.queue)[j] + q.finished[j] + q.returned[j] + q.dropped[j];
    }
  }

  /** Handing a job to the executor: the permit goes with it. */
  lemma AcceptKeepsInv(p: Pool, i: nat)
    requires PoolInv(p) && i < |p.threads| && p.threads[i].Executing? && !Rejects(p)
    ensures PoolInv(ActOf(p, i))
  {
    hide PoolInv;
    if p.started < p.concurrency {
      AcceptStartsThread(p, i);
    } else {
      AcceptQueues(p, i);
    }
  }

  lemma AcceptQueues(p: Pool, i: nat)
    requires PoolInv(p) && i < |p.threads| && p.threads[i].Executing? && !Rejects(p) && p.started >= p.concurrency
    ensures PoolInv(ActOf(p, i))
  {
    hide TotalHeld, TotalInHand, PermitsConserved, JobsConserved;
    var jobs := p.threads[i].jobs;
    assert Fits(p.started, i, p.threads[i]);
    HeadAndTail(jobs);
    assert multiset(p.queue + [jobs[0]]) == multiset(p.queue) + multiset{jobs[0]};
    PutKeepsInv(p, ActOf(p, i), i, Submitting(jobs[1..]));
  }

  lemma AcceptStartsThread(p: Pool, i: nat)
    requires PoolInv(p) && i < |p.threads| && p.threads[i].Executing? && !Rejects(p) && p.started < p.concurrency
    ensures PoolInv(ActOf(p, i))
  {
    hide TotalHeld, TotalInHand, PermitsConserved, JobsConserved, ClaimedOnce;
    var jobs, q := p.threads[i].jobs, ActOf(p, i);
    assert Fits(p.started, i, p.threads[i]);
    // As if queued first and taken by the new thread at once.
    var m := Put(p, i, Submitting(jobs[1..])).(queue := [jobs[0]] + p.queue, started := p.started + 1);
    StartThreadKeepsInv(p, i, m);
    assert m.queue[1..] == p.queue;
    TakeKeepsInv(m, p.started + 1);
    assert q == Put(m, p.started + 1, Running(m.queue[0])).(queue := m.queue[1..]);
  }

  lemma StartThreadKeepsInv(p: Pool, i: nat, m: Pool)
    requires PoolInv(p) && i < |p.threads| && p.threads[i].Executing? && p.started < p.concurrency && !p.shutdown
    requires p.threads[i].jobs != []
    requires var jobs := p.threads[i].jobs;
             m == Put(p, i, Submitting(jobs[1..])).(queue := [jobs[0]] + p.queue, started := p.started + 1)
    ensures PoolInv(m) && m.threads[p.started + 1].Idle? && i != p.started + 1
  {
    hide TotalHeld, TotalInHand, PermitsConserved, JobsConserved, ClaimedOnce;
    assert Fits(p.started, p.started + 1, p.threads[p.started + 1]);
    QueueFrontKeepsInv(p, i);
    StartedKeepsInv(m.(started := p.started));
  }

  lemma QueueFrontKeepsInv(p: Pool, i: nat)
    requires PoolInv(p) && i < |p.threads| && p.threads[i].Executing? && p.threads[i].jobs != []
    ensures var jobs := p.threads[i].jobs;
            PoolInv(Put(p, i, Submitting(jobs[1..])).(queue := [jobs[0]] + p.queue))
  {
    hide TotalHeld, TotalInHand, PermitsConserved, JobsConserved, Balanced, Held, InHand;
    var jobs := p.threads[i].jobs;
    QueueFrontBalances(p, i);
    assert Fits(p.started, i, p.threads[i]);
    PutKeepsInv(p, Put(p, i, Submitting(jobs[1..])).(queue := [jobs[0]] + p.queue), i, Submitting(jobs[1..]));
  }

  lemma QueueFrontBalances(p: Pool, i: nat)
    requires i < |p.threads| && p.threads[i].Executing? && p.threads[i].jobs != []
    ensures var jobs := p.threads[i].jobs;
            Balanced(p, Put(p, i, Submitting(jobs[1..])).(queue := [jobs[0]] + p.queue), p.threads[i],
                     Submitting(jobs[1..]))
  {
    HeadAndTail(p.threads[i].jobs);
    assert multiset([p.threads[i].jobs[0]] + p.queue) == multiset{p.threads[i].jobs[0]} + multiset(p.queue);
  }

  lemma StartedKeepsInv(q: Pool)
    requires PoolInv(q) && q.started < q.concurrency
    ensures PoolInv(q.(started := q.started + 1))
  {
    hide TotalHeld, TotalInHand;
    assert forall k :: 0 <= k < |q.threads| ==>
        Fits(q.started, k, q.threads[k]) && Fits(q.started + 1, k, q.threads[k]);
  }

  lemma TakeKeepsInv(p: Pool, i: nat)
    requires PoolInv(p) && 0 < i <= p.started && i < |p.threads| && p.threads[i].Idle? && p.queue != []
    ensures PoolInv(Put(p, i, Running(p.queue[0])).(queue := p.queue[1..]))
  {
    hide TotalHeld, TotalInHand, PermitsConserved, JobsConserved, Balanced, Held, InHand;
    TakeBalances(p, i);
    PutKeepsInv(p, Put(p, i, Running(p.queue[0])).(queue := p.queue[1..]), i, Running(p.queue[0]));
  }

  lemma TakeBalances(p: Pool, i: nat)
    requires i < |p.threads| && p.threads[i].Idle? && p.queue != []
    ensures Balanced(p, Put(p, i, Running(p.queue[0])).(queue := p.queue[1..]), p.threads[i], Running(p.queue[0]))
  {
    HeadAndTail(p.queue);
  }

  lemma ActKeepsInv(p: Pool, i: nat)
    requires PoolInv(p) && i < |p.threads|
    ensures PoolInv(ActOf(p, i)) && ActOf(p, i).concurrency == p.concurrency
  {
    hide TotalHeld, TotalInHand, PermitsConserved, JobsConserved, ClaimedOnce, Fits;
    if p.threads[i].Executing? && !Rejects(p) {
      AcceptKeepsInv(p, i);
    } else {
      PlainActKeepsInv(p, i);
    }
  }

  /** A step that only moves permits between the semaphore and the thread. */
  lemma MoveKeepsInv(p: Pool, i: nat, t: Thread, permits: nat)
    requires PoolInv(p) && i < |p.threads| && Fits(p.started, i, t)
    requires permits + Held(t) == p.permits + Held(p.threads[i]) && InHand(t) == InHand(p.threads[i])
    ensures PoolInv(Put(p, i, t).(permits := permits))
  {
    hide TotalHeld, TotalInHand, PermitsConserved, JobsConserved, Held, InHand, Fits;
    PutKeepsInv(p, Put(p, i, t).(permits := permits), i, t);
  }

  lemma ReturnKeepsInv(p: Pool, i: nat)
    requires PoolInv(p) && i < |p.threads| && p.threads[i].Returning? && p.threads[i].jobs != []
    ensures PoolInv(ActOf(p, i))
  {
    hide TotalHeld, TotalInHand, PermitsConserved, JobsConserved;
    var jobs := p.threads[i].jobs;
    HeadAndTail(jobs);
    assert Fits(p.started, i, p.threads[i]);
    PutKeepsInv(p, ActOf(p, i), i, Submitting(jobs[1..]));
  }

  lemma PlainActKeepsInv(p: Pool, i: nat)
    requires PoolInv(p) && i < |p.threads| && (p.threads[i].Executing? ==> Rejects(p))
    ensures PoolInv(ActOf(p, i))
  {
    hide PoolInv, ActOf, Rejects;
    match p.threads[i]
    case Submitting(jobs) => SubmitKeepsInv(p, i);
    case Executing(jobs) => SubmitKeepsInv(p, i);
    case Returning(jobs) => NonEmptyHands(p, i); ReturnKeepsInv(p, i);
    case HandingBack(surplus, jobs) => GiveBackKeepsInv(p, i);
    case Finishing => GiveBackKeepsInv(p, i);
    case _ => ReserveKeepsInv(p, i);
  }

  lemma NonEmptyHands(p: Pool, i: nat)
    requires PoolInv(p) && i < |p.threads| && (p.threads[i].Executing? || p.threads[i].Returning?)
    ensures p.threads[i].jobs != []
  {
    assert Fits(p.started, i, p.threads[i]);
  }

  lemma GiveBackKeepsInv(p: Pool, i: nat)
    requires PoolInv(p) && i < |p.threads| && (p.threads[i].HandingBack? || p.threads[i].Finishing?)
    ensures PoolInv(ActOf(p, i))
  {
    hide TotalHeld, TotalInHand, PermitsConserved, JobsConserved, ClaimedOnce, Rejects;
    assert Fits(p.started, i, p.threads[i]);
    if p.threads[i].Finishing? {
      MoveKeepsInv(p, i, Starting(1), p.permits + 1);
    } else {
      MoveKeepsInv(p, i, Submitting(p.threads[i].jobs), p.permits + p.threads[i].surplus);
    }
  }

  lemma SubmitKeepsInv(p: Pool, i: nat)
    requires PoolInv(p) && i < |p.threads|
    requires p.threads[i].Submitting? || (p.threads[i].Executing? && Rejects(p))
    ensures PoolInv(ActOf(p, i))
  {
    hide TotalHeld, TotalInHand, PermitsConserved, JobsConserved, ClaimedOnce, Rejects;
    assert Fits(p.started, i, p.threads[i]);
    var jobs := p.threads[i].jobs;
    if p.threads[i].Executing? {
      MoveKeepsInv(p, i, Returning(jobs), p.permits);
    } else {
      var next := if jobs == [] then Idle else if p.stopped then Returning(jobs) else Executing(jobs);
      MoveKeepsInv(p, i, next, p.permits);
    }
  }

  lemma ReserveKeepsInv(p: Pool, i: nat)
    requires PoolInv(p) && i < |p.threads|
    requires var t := p.threads[i]; !t.HandingBack? && !t.Submitting? && !t.Executing? && !t.Returning? && !t.Finishing?
    ensures PoolInv(ActOf(p, i))
  {
    hide TotalHeld, TotalInHand, PermitsConserved, JobsConserved, ClaimedOnce, Rejects;
    assert Fits(p.started, i, p.threads[i]);
    match p.threads[i]
    case Starting(max) => MoveKeepsInv(p, i, if p.stopped then Idle else Acquiring(0, max), p.permits);
    case Acquiring(got, max) =>
      if got < max && p.permits > 0 {
        MoveKeepsInv(p, i, Acquiring(got + 1, max), p.permits - 1);
      } else {
        MoveKeepsInv(p, i, if got == 0 then Idle else Checking(got), p.permits);
      }
    case Checking(n) => MoveKeepsInv(p, i, if p.stopped then HandingBack(n, []) else Claiming(n), p.permits);
    case _ =>
  }

  lemma {:induction false} DistinctCountOne(jobs: seq<Job>)
    requires forall k, m :: 0 <= k < m < |jobs| ==> jobs[k] != jobs[m]
    ensures forall j :: j in multiset(jobs) ==> multiset(jobs)[j] == 1
  {
    if jobs != [] {
      var n := |jobs| - 1;
      DistinctCountOne(jobs[..n]);
      assert jobs == jobs[..n] + [jobs[n]];
      assert jobs[n] !in jobs[..n];
    }
  }

  lemma NextKeepsInv(p: Pool, e: Event)
    requires PoolInv(p) && Possible(p, e)
    ensures PoolInv(Next(p, e)) && Next(p, e).concurrency == p.concurrency
  {
    hide TotalHeld, TotalInHand, PermitsConserved, JobsConserved, ClaimedOnce, ActOf, Rejects;
    var q := Next(p, e);
    match e
    case Poll => if !p.stopped { MoveKeepsInv(p, 0, Polling, p.permits); }
    case Recovered(ok) => MoveKeepsInv(p, 0, if ok then Starting(p.batchSize) else Idle, p.permits);
    case Act(i) => ActKeepsInv(p, i);
    case Claimed(i, result) => ClaimKeepsInv(p, i, result);
    case TakeTask(i) => TakeKeepsInv(p, i);
    case Processed(i) => ProcessedKeepsInv(p, i);
    case Stop => FlagsKeepInv(p, false);
    case Shutdown(drain) => FlagsKeepInv(p, drain);
  }

  lemma FlagsKeepInv(p: Pool, drain: bool)
    requires PoolInv(p)
    ensures PoolInv(Next(p, Stop)) && PoolInv(Next(p, Shutdown(drain)))
  {
    hide TotalHeld, TotalInHand, ActOf;
    var q := p.(shutdown := true);
    assert PoolInv(q) && PoolInv(p.(stopped := true));
    DrainKeepsInv(q);
  }

  lemma DrainKeepsInv(p: Pool)
    requires PoolInv(p) && p.shutdown
    ensures PoolInv(p.(dropped := p.dropped + multiset(p.queue), queue := []))
  {
    hide TotalHeld, TotalInHand, Fits;
  }

  lemma ProcessedKeepsInv(p: Pool, i: nat)
    requires PoolInv(p) && i < |p.threads| && p.threads[i].Running?
    ensures PoolInv(Next(p, Processed(i)))
  {
    hide TotalHeld, TotalInHand, PermitsConserved, JobsConserved, ActOf;
    assert Fits(p.started, i, p.threads[i]);
    PutKeepsInv(p, Next(p, Processed(i)), i, Finishing);
  }

  lemma ClaimKeepsInv(p: Pool, i: nat, result: Option<seq<Job>>)
    requires PoolInv(p) && Possible(p, Claimed(i, result))
    ensures PoolInv(Next(p, Claimed(i, result)))
  {
    hide TotalHeld, TotalInHand, PermitsConserved, JobsConserved, ActOf;
    assert Fits(p.started, i, p.threads[i]);
    var n := p.threads[i].permits;
    if result.None? {
      MoveKeepsInv(p, i, HandingBack(n, []), p.permits);
    } else {
      NewJobsKeepInv(p, i, result.value);
    }
  }

  lemma NewJobsKeepInv(p: Pool, i: nat, jobs: seq<Job>)
    requires PoolInv(p) && i < |p.threads| && p.threads[i].Claiming?
    requires |jobs| <= p.threads[i].permits && NewJobs(p, jobs)
    ensures PoolInv(Next(p, Claimed(i, Some(jobs))))
  {
    hide TotalHeld, TotalInHand, PermitsConserved, JobsConserved, ActOf;
    var q := Next(p, Claimed(i, Some(jobs)));
    assert Fits(p.started, i, p.threads[i]);
    DistinctCountOne(jobs);
    assert ClaimedOnce(q);
    PutKeepsInv(p, q, i, q.threads[i]);
  }

  /** Permits and jobs are conserved in every state of every run. */
  lemma {:induction false} RunConserves(pools: seq<Pool>, events: seq<Event>, concurrency: nat, batchSize: nat, n: nat)
    requires PoolRun(pools, events, concurrency, batchSize) && n < |pools|
    ensures PoolInv(pools[n]) && pools[n].concurrency == concurrency
  {
    hide PermitsConserved, JobsConserved, ClaimedOnce, Possible, Next, Shape;
    if n == 0 {
      InitialIsSound(concurrency, batchSize);
    } else {
      RunConserves(pools, events, concurrency, batchSize, n - 1);
      NextKeepsInv(pools[n - 1], events[n - 1]);
    }
  }

  /** The claimed jobs that are neither finished nor given back. */
  function Unsettled(p: Pool): multiset<Job> {
    p.claimed - p.finished - p.returned
  }

  lemma {:induction false} InHandIsHeld(threads: seq<Thread>)
    ensures |TotalInHand(threads)| <= TotalHeld(threads)
  {
    if threads != [] {
      InHandIsHeld(threads[..|threads| - 1]);
    }
  }

  /** Never more than `concurrency` unsettled jobs, so never more processing calls at once; no job is settled twice. */
  lemma ConcurrencyIsRespected(pools: seq<Pool>, events: seq<Event>, concurrency: nat, batchSize: nat, n: nat)
    requires PoolRun(pools, events, concurrency, batchSize) && n < |pools|
    ensures |Unsettled(pools[n])| <= concurrency
    ensures forall j :: j in pools[n].claimed ==>
              pools[n].finished[j] + pools[n].returned[j] + Unsettled(pools[n])[j] == 1
  {
    RunConserves(pools, events, concurrency, batchSize, n);
    var p := pools[n];
    assert Unsettled(p) == TotalInHand(p.threads) + multiset(p.queue) + p.dropped;
    InHandIsHeld(p.threads);
  }

  /** A worker at rest has all its permits and has settled every job, but for the tasks drained at shutdown. */
  lemma QuiescentHasAllPermits(pools: seq<Pool>, events: seq<Event>, concurrency: nat, batchSize: nat, n: nat)
    requires PoolRun(pools, events, concurrency, batchSize) && n < |pools|
    requires pools[n].queue == []
    requires forall k :: 0 <= k < |pools[n].threads| ==> pools[n].threads[k].Idle?
    ensures pools[n].permits + |pools[n].dropped| == concurrency
    ensures pools[n].claimed == pools[n].finished + pools[n].returned + pools[n].dropped
    ensures !pools[n].shutdown ==> pools[n].permits == concurrency && pools[n].dropped == multiset{}
  {
    RunConserves(pools, events, concurrency, batchSize, n);
    AllIdle(pools[n].threads);
  }

  /** In a run, the only rejections come after shutdown. */
  lemma RejectionMeansShutdown(pools: seq<Pool>, events: seq<Event>, concurrency: nat, batchSize: nat, n: nat, i: nat)
    requires PoolRun(pools, events, concurrency, batchSize) && n < |pools|
    requires i < |pools[n].threads| && pools[n].threads[i].Executing? && Rejects(pools[n])
    ensures pools[n].shutdown
  {
    RunConserves(pools, events, concurrency, batchSize, n);
    if !pools[n].shutdown {
      NeverRejectsBeforeShutdown(pools[n], i);
    }
  }

  // ---------- What the steps lead to ----------

  /** One thread on its own for a number of steps. */
  function Steps(p: Pool, i: nat, n: nat): Pool
    requires i < |p.threads| && |p.threads| == p.concurrency + 1
    decreases n
  {
    if n == 0 then p
    else
      ActKeepsSize(p, i);
      Steps(ActOf(p, i), i, n - 1)
  }

  lemma ActKeepsSize(p: Pool, i: nat)
    requires i < |p.threads| && |p.threads| == p.concurrency + 1
    ensures |ActOf(p, i).threads| == |p.threads| && ActOf(p, i).concurrency == p.concurrency
  {}

  lemma StepsUnroll(p: Pool, i: nat, n: nat)
    requires i < |p.threads| && |p.threads| == p.concurrency + 1 && n > 0
    ensures |ActOf(p, i).threads| == |p.threads| && ActOf(p, i).concurrency == p.concurrency
    ensures Steps(p, i, n) == Steps(ActOf(p, i), i, n - 1) && Steps(p, i, 0) == p
    ensures n == 1 ==> Steps(p, i, n) == ActOf(p, i)
  {
    hide ActOf;
    ActKeepsSize(p, i);
  }

  lemma StartAcquires(p: Pool, i: nat)
    requires |p.threads| == p.concurrency + 1 && i < |p.threads| && p.threads[i].Starting? && !p.stopped
    ensures ActOf(p, i) == Put(p, i, Acquiring(0, p.threads[i].max))
  {}

  lemma AcquireOne(p: Pool, i: nat, got: nat, max: nat)
    requires |p.threads| == p.concurrency + 1 && i < |p.threads| && p.threads[i] == Acquiring(got, max)
    requires got < max && p.permits > 0
    ensures ActOf(p, i) == Put(p, i, Acquiring(got + 1, max)).(permits := p.permits - 1)
  {}

  lemma AcquiredAsks(p: Pool, i: nat, got: nat, max: nat)
    requires |p.threads| == p.concurrency + 1 && i < |p.threads| && p.threads[i] == Acquiring(got, max) && !p.stopped
    requires got == max || p.permits == 0
    ensures got == 0 ==> ActOf(p, i) == Put(p, i, Idle)
    ensures got > 0 ==> Steps(p, i, 2) == Put(p, i, Claiming(got))
  {
    if got > 0 {
      var c := Put(p, i, Checking(got));
      assert ActOf(p, i) == c;
      assert ActOf(c, i).threads == p.threads[i := Claiming(got)];
      assert Steps(p, i, 2) == Steps(c, i, 1) == ActOf(c, i);
    }
  }

  lemma {:induction false} AcquiresUpTo(p: Pool, got: nat, max: nat, m: nat, n: nat)
    requires |p.threads| == p.concurrency + 1 && p.threads[0] == Acquiring(got, max)
    requires got + m <= max && m <= p.permits && n >= m
    ensures Steps(p, 0, n) == Steps(Put(p, 0, Acquiring(got + m, max)).(permits := p.permits - m), 0, n - m)
    decreases m
  {
    hide ActOf, Steps;
    if m == 0 {
      assert p.threads[0 := Acquiring(got, max)] == p.threads;
    } else {
      var q := ActOf(p, 0);
      StepsUnroll(p, 0, n);
      AcquireOne(p, 0, got, max);
      AcquiresUpTo(q, got + 1, max, m - 1, n - 1);
      assert q.threads[0 := Acquiring(got + m, max)] == p.threads[0 := Acquiring(got + m, max)];
    }
  }

  /** A thread that has finished a job asks for one more, with the permit it just gave back. */
  lemma FinishedThreadAsksForOne(p: Pool, i: nat)
    requires |p.threads| == p.concurrency + 1 && i < |p.threads| && p.threads[i].Finishing? && !p.stopped
    ensures Steps(p, i, 5) == Put(p, i, Claiming(1))
  {
    hide ActOf, Steps;
    var a := Put(p, i, Starting(1)).(permits := p.permits + 1);
    FinishedGivesBack(p, i);
    StartAcquires(a, i);
    var b := Put(a, i, Acquiring(0, 1));
    AcquireOne(b, i, 0, 1);
    var c := Put(b, i, Acquiring(1, 1)).(permits := p.permits);
    AcquiredAsks(c, i, 1, 1);
    StepsUnroll(p, i, 5);
    StepsUnroll(a, i, 4);
    StepsUnroll(b, i, 3);
    assert c.threads[i := Claiming(1)] == p.threads[i := Claiming(1)];
  }

  lemma FinishedGivesBack(p: Pool, i: nat)
    requires |p.threads| == p.concurrency + 1 && i < |p.threads| && p.threads[i].Finishing?
    ensures ActOf(p, i) == Put(p, i, Starting(1)).(permits := p.permits + 1)
  {}

  /** A poll asks the claim service for as many jobs as there are permits, up to the batch size; for none it stops. */
  lemma PollAsksForFreePermits(p: Pool)
    requires |p.threads| == p.concurrency + 1 && p.threads[0].Idle? && !p.stopped
    ensures var m := if p.batchSize < p.permits then p.batchSize else p.permits;
            var started := Next(Next(p, Poll), Recovered(true));
            if m == 0 then Steps(started, 0, 2) == p
            else Steps(started, 0, m + 3) == Put(p, 0, Claiming(m)).(permits := p.permits - m)
  {
    hide ActOf, Steps, Rejects;
    var started := Put(p, 0, Starting(p.batchSize));
    assert Next(Next(p, Poll), Recovered(true)).threads == started.threads;
    StartAcquires(started, 0);
    var a := Put(p, 0, Acquiring(0, p.batchSize));
    assert ActOf(started, 0).threads == a.threads;
    assert p.threads[0 := Idle] == p.threads;
    var m := if p.batchSize < p.permits then p.batchSize else p.permits;
    if m == 0 {
      StepsUnroll(started, 0, 2);
      StepsUnroll(a, 0, 1);
      AcquiredAsks(a, 0, 0, p.batchSize);
      assert a.threads[0 := Idle] == p.threads;
    } else {
      StepsUnroll(started, 0, m + 3);
      AcquiresUpTo(a, 0, p.batchSize, m, m + 2);
      var b := Put(a, 0, Acquiring(m, p.batchSize)).(permits := p.permits - m);
      AcquiredAsks(b, 0, m, p.batchSize);
      assert b.threads[0 := Claiming(m)] == p.threads[0 := Claiming(m)];
    }
  }

  /** When recovery throws, the poll ends without claiming. */
  lemma FailedRecoveryEndsPoll(p: Pool)
    requires |p.threads| == p.concurrency + 1 && p.threads[0].Idle? && !p.stopped
    ensures Next(Next(p, Poll), Recovered(false)) == p
  {
    assert p.threads[0 := Idle] == p.threads;
  }

  /** Once stopped, no thread begins to poll, to claim or to submit. */
  lemma StoppedWorkerStartsNothing(p: Pool, e: Event, k: nat)
    requires |p.threads| == p.concurrency + 1 && Possible(p, e) && p.stopped && k < |p.threads|
    ensures |Next(p, e).threads| == |p.threads| && Next(p, e).stopped
    ensures var a, b := p.threads[k], Next(p, e).threads[k];
            (b.Polling? ==> a.Polling?) && (b.Claiming? ==> a.Claiming?) && (b.Executing? ==> a.Executing?)
  {
    hide Rejects, ActOf;
    if e.Act? {
      StoppedActStartsNothing(p, e.thread, k);
    }
  }

  lemma StoppedActStartsNothing(p: Pool, i: nat, k: nat)
    requires |p.threads| == p.concurrency + 1 && p.stopped && k < |p.threads| && i < |p.threads|
    ensures |ActOf(p, i).threads| == |p.threads| && ActOf(p, i).stopped
    ensures var a, b := p.threads[k], ActOf(p, i).threads[k];
            (b.Polling? ==> a.Polling?) && (b.Claiming? ==> a.Claiming?) && (b.Executing? ==> a.Executing?)
  {
    hide Rejects;
  }

  /** The claim's answer is submitted in order, after the unused permits were given back. */
  lemma ClaimedJobsAreSubmitted(p: Pool, i: nat, jobs: seq<Job>)
    requires |p.threads| == p.concurrency + 1 && Possible(p, Event.Claimed(i, Some(jobs)))
    ensures var q := ActOf(Next(p, Event.Claimed(i, Some(jobs))), i);
            && q.threads == p.threads[i := Submitting(jobs)] && q.permits == p.permits + p.threads[i].permits - |jobs|
            && q.stopped == p.stopped && q.concurrency == p.concurrency
  {
    hide Rejects, NewJobs;
  }

  /** Each job goes to the executor, or back to the queue once the worker is stopped; after the last one, rest. */
  lemma SubmittingGoesOn(p: Pool, i: nat)
    requires |p.threads| == p.concurrency + 1 && i < |p.threads| && p.threads[i].Submitting?
    ensures var jobs := p.threads[i].jobs;
            ActOf(p, i).threads[i]
            == if jobs == [] then Idle else if p.stopped then Returning(jobs) else Executing(jobs)
  {
    hide Rejects;
  }

  /** A claim that throws gives all its permits back and submits nothing. */
  lemma FailedClaimGivesBack(p: Pool, i: nat)
    requires |p.threads| == p.concurrency + 1 && Possible(p, Event.Claimed(i, None))
    ensures var r := ActOf(Next(p, Event.Claimed(i, None)), i);
            r.threads == p.threads[i := Submitting([])] && r.permits == p.permits + p.threads[i].permits
  {
    hide Rejects;
  }

  /** A job that is not started is given back with its permit. */
  lemma ReturnedJobGivesPermit(p: Pool, i: nat)
    requires |p.threads| == p.concurrency + 1 && i < |p.threads| && p.threads[i].Returning? && p.threads[i].jobs != []
    ensures var jobs, q := p.threads[i].jobs, ActOf(p, i);
            && q.threads == p.threads[i := Submitting(jobs[1..])] && q.permits == p.permits + 1
            && q.returned == p.returned + multiset{jobs[0]}
  {
    hide Rejects;
  }

  /** Queued tasks run in their order, and a drained queue is dropped, not run; both leave the permits alone. */
  lemma QueuedTasksRunInOrder(p: Pool, i: nat)
    requires |p.threads| == p.concurrency + 1 && Possible(p, TakeTask(i))
    ensures var q := Next(p, TakeTask(i));
            [q.threads[i].job] + q.queue == p.queue && q.permits == p.permits
    ensures var d := Next(p, Shutdown(true));
            d.queue == [] && d.shutdown && d.dropped == p.dropped + multiset(p.queue) && d.permits == p.permits
    ensures Next(p, Shutdown(false)).queue == p.queue && Next(p, Shutdown(false)).shutdown
  {
    hide ActOf;
    assert [p.queue[0]] + p.queue[1..] == p.queue;
  }

  /** A submission is refused exactly after shutdown, or when all threads exist and `concurrency` tasks are queued. */
  lemma RejectsIff(p: Pool)
    ensures Rejects(p) <==> p.shutdown || (p.started >= p.concurrency && |p.queue| >= p.concurrency)
  {}

  /** A job handed to the executor runs on a new thread while there are any, then queues; if refused it comes back. */
  lemma SubmittedJobRunsOrReturns(p: Pool, i: nat)
    requires PoolInv(p) && i < |p.threads| && p.threads[i].Executing?
    ensures p.threads[i].jobs != []
    ensures var jobs, q := p.threads[i].jobs, ActOf(p, i);
            if p.shutdown then q.threads[i] == Returning(jobs) && q.queue == p.queue
            else
              && q.threads[i] == Submitting(jobs[1..]) && q.permits == p.permits
              && if p.started < p.concurrency
                 then q.threads[p.started + 1] == Running(jobs[0]) && q.queue == p.queue
                 else q.queue == p.queue + [jobs[0]]
  {
    hide TotalHeld, TotalInHand, PermitsConserved, JobsConserved, ClaimedOnce;
    NonEmptyHands(p, i);
    assert Fits(p.started, i, p.threads[i]);
    if !p.shutdown {
      NeverRejectsBeforeShutdown(p, i);
    }
  }

  // ---------- The worker's own code, one call at a time ----------

  function Where(jobs: seq<Job>, accepted: seq<bool>, wanted: bool): seq<Job>
    requires |accepted| == |jobs|
  {
    if jobs == [] then []
    else Where(jobs[..|jobs| - 1], accepted[..|jobs| - 1], wanted)
         + (if accepted[|jobs| - 1] == wanted then [jobs[|jobs| - 1]] else [])
  }

  lemma {:induction false} WhereSplits(jobs: seq<Job>, accepted: seq<bool>)
    requires |accepted| == |jobs|
    ensures |Where(jobs, accepted, true)| + |Where(jobs, accepted, false)| == |jobs|
    ensures multiset(Where(jobs, accepted, true)) + multiset(Where(jobs, accepted, false)) == multiset(jobs)
  {
    hide Where;
    if jobs == [] {
      WhereOfNone(jobs, accepted);
    } else {
      var n := |jobs| - 1;
      WhereSplits(jobs[..n], accepted[..n]);
      WhereLast(jobs, accepted, true);
      WhereLast(jobs, accepted, false);
      assert jobs == jobs[..n] + [jobs[n]];
      assert multiset(jobs) == multiset(jobs[..n]) + multiset{jobs[n]};
    }
  }

  lemma WhereOfNone(jobs: seq<Job>, accepted: seq<bool>)
    requires |accepted| == |jobs| == 0
    ensures Where(jobs, accepted, true) == [] && Where(jobs, accepted, false) == []
  {}

  lemma WhereLast(jobs: seq<Job>, accepted: seq<bool>, wanted: bool)
    requires |accepted| == |jobs| > 0
    ensures var n := |jobs| - 1;
            var before, last := Where(jobs[..n], accepted[..n], wanted), accepted[n] == wanted;
            && |Where(jobs, accepted, wanted)| == |before| + (if last then 1 else 0)
            && multiset(Where(jobs, accepted, wanted))
               == multiset(before) + (if last then multiset{jobs[n]} else multiset{})
  {}

  /** The component, between interruptions. What the executor accepts and the claim returns are inputs. */
  class ReceiptExtractionWorker {
    var jobPermits: nat
    var stopped: bool
    var submitted: seq<Job>
    var returned: seq<Job>

    constructor (concurrency: nat)
      ensures jobPermits == concurrency && !stopped && submitted == [] && returned == []
    {
      jobPermits, stopped, submitted, returned := concurrency, false, [], [];
    }

    method AcquireJobPermits(maxJobs: nat) returns (acquired: nat)
      modifies this`jobPermits
      ensures acquired == (if maxJobs < old(jobPermits) then maxJobs else old(jobPermits))
      ensures jobPermits == old(jobPermits) - acquired
    {
      acquired := 0;
      while acquired < maxJobs && jobPermits > 0
        invariant acquired <= maxJobs && jobPermits == old(jobPermits) - acquired
      {
        jobPermits := jobPermits - 1;
        acquired := acquired + 1;
      }
    }

    method SubmitJob(job: Job, accepted: bool)
      modifies this
      ensures stopped == old(stopped)
      ensures if !stopped && accepted
              then submitted == old(submitted) + [job] && returned == old(returned) && jobPermits == old(jobPermits)
              else submitted == old(submitted) && returned == old(returned) + [job] && jobPermits == old(jobPermits) + 1
    {
      if stopped {
        ReturnUnstartedJob(job);
        return;
      }
      if accepted {
        submitted := submitted + [job];
      } else {
        ReturnUnstartedJob(job);
      }
    }

    /** The permit comes back whether or not giving the claim back succeeded. */
    method ReturnUnstartedJob(job: Job)
      modifies this
      ensures returned == old(returned) + [job] && jobPermits == old(jobPermits) + 1
      ensures submitted == old(submitted) && stopped == old(stopped)
    {
      returned := returned + [job];
      jobPermits := jobPermits + 1;
    }

    /** `claim` is the claim service's answer to the permits asked for, None if it throws. */
    method StartNextJobs(maxJobs: nat, claim: Option<seq<Job>>, accepted: seq<bool>) returns (threw: bool)
      requires claim.Some? ==> |claim.value| <= maxJobs && |claim.value| <= jobPermits && |accepted| == |claim.value|
      modifies this
      ensures stopped == old(stopped)
      ensures threw <==> !stopped && maxJobs > 0 && old(jobPermits) > 0 && claim.None?
      ensures if stopped || maxJobs == 0 || old(jobPermits) == 0 || claim.None?
              then jobPermits == old(jobPermits) && submitted == old(submitted) && returned == old(returned)
              else && submitted == old(submitted) + Where(claim.value, accepted, true)
                   && returned == old(returned) + Where(claim.value, accepted, false)
                   && jobPermits + |Where(claim.value, accepted, true)| == old(jobPermits)
    {
      if stopped {
        return false;
      }
      var permitCount := AcquireJobPermits(maxJobs);
      if permitCount == 0 {
        return false;
      }
      if claim.None? {
        jobPermits := jobPermits + permitCount;
        return true;
      }
      var jobs := claim.value;
      jobPermits := jobPermits + (permitCount - |jobs|);
      for i := 0 to |jobs|
        invariant !stopped
        invariant submitted == old(submitted) + Where(jobs[..i], accepted[..i], true)
        invariant returned == old(returned) + Where(jobs[..i], accepted[..i], false)
        invariant jobPermits + |Where(jobs[..i], accepted[..i], true)| + (|jobs| - i) == old(jobPermits)
      {
        SubmitJob(jobs[i], accepted[i]);
        assert jobs[..i + 1][..i] == jobs[..i] && accepted[..i + 1][..i] == accepted[..i];
      }
      assert jobs[..|jobs|] == jobs && accepted[..|jobs|] == accepted;
      threw := false;
    }

    /** The finished job's permit is free before the next job is asked for. */
    method OnJobFinished(claim: Option<seq<Job>>, accepted: seq<bool>)
      requires claim.Some? ==> |claim.value| <= 1 && |accepted| == |claim.value|
      modifies this
      ensures stopped == old(stopped)
      ensures if stopped || claim.None?
              then jobPermits == old(jobPermits) + 1 && submitted == old(submitted) && returned == old(returned)
              else && submitted == old(submitted) + Where(claim.value, accepted, true)
                   && returned == old(returned) + Where(claim.value, accepted, false)
                   && jobPermits + |Where(claim.value, accepted, true)| == old(jobPermits) + 1
    {
      jobPermits := jobPermits + 1;
      var threw := StartNextJobs(1, claim, accepted);
    }

    method StopPolling()
      modifies this`stopped
      ensures stopped
    {
      stopped := true;
    }
  }
}
