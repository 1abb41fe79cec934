/** The queue capacity of ReceiptWorkerConfiguration is also needed: with one place less some run would be rejected. */
module QueueBound {
  import opened Domain
  import opened Worker

  ghost predicate EndsIn(pools: seq<Pool>, events: seq<Event>, p: Pool) {
    PoolRun(pools, events, p.concurrency, p.batchSize) && pools[|events|] == p
  }

  /** Some run of a worker with this concurrency and batch size gets to `p`, which still accepts work. */
  ghost predicate Reachable(p: Pool) {
    && |p.threads| == p.concurrency + 1 && !p.stopped && !p.shutdown
    && exists pools, events :: EndsIn(pools, events, p)
  }

  lemma Extend(p: Pool, e: Event) returns (q: Pool)
    requires Reachable(p) && Possible(p, e) && !e.Stop? && !e.Shutdown?
    ensures q == Next(p, e) && Reachable(q)
  {
    hide Possible, Next;
    q := Next(p, e);
    StaysOpen(p, e);
    var pools, events :| EndsIn(pools, events, p);
    var longer := pools + [q];
    forall k | 0 <= k < |events + [e]|
      ensures && |longer[k].threads| == longer[k].concurrency + 1
              && Possible(longer[k], (events + [e])[k]) && longer[k + 1] == Next(longer[k], (events + [e])[k])
    {
      if k < |events| {
        assert longer[k] == pools[k] && longer[k + 1] == pools[k + 1] && (events + [e])[k] == events[k];
      }
    }
    assert EndsIn(longer, events + [e], q);
  }

  /** The settings stay, and only Stop and Shutdown close the worker. */
  predicate SameSetup(p: Pool, q: Pool) {
    && q.stopped == p.stopped && q.shutdown == p.shutdown && |q.threads| == |p.threads|
    && q.concurrency == p.concurrency && q.batchSize == p.batchSize
  }

  lemma ActKeepsSetup(p: Pool, i: nat)
    requires |p.threads| == p.concurrency + 1 && i < |p.threads|
    ensures SameSetup(p, ActOf(p, i))
  {}

  lemma StaysOpen(p: Pool, e: Event)
    requires |p.threads| == p.concurrency + 1 && Possible(p, e) && !e.Stop? && !e.Shutdown?
    ensures SameSetup(p, Next(p, e))
  {
    hide ActOf;
    if e.Act? {
      ActKeepsSetup(p, e.thread);
    }
  }

  lemma InitialIsReachable(concurrency: nat)
    ensures Reachable(Initial(concurrency, concurrency))
  {
    assert EndsIn([Initial(concurrency, concurrency)], [], Initial(concurrency, concurrency));
  }

  /** The scheduler takes every free permit. */
  lemma {:induction false} AcquireAll(p: Pool, got: nat, max: nat) returns (q: Pool)
    requires Reachable(p) && p.threads[0] == Acquiring(got, max) && got + p.permits == max
    ensures q == Put(p, 0, Acquiring(max, max)).(permits := 0) && Reachable(q)
    decreases p.permits
  {
    hide Reachable;
    StaysOpenIfReachable(p);
    if p.permits == 0 {
      q := p;
      assert q.threads == Put(p, 0, Acquiring(max, max)).threads;
    } else {
      q := Extend(p, Act(0));
      StaysOpenIfReachable(q);
      q := AcquireAll(q, got + 1, max);
      assert q.threads == Put(p, 0, Acquiring(max, max)).threads;
    }
  }

  lemma StaysOpenIfReachable(p: Pool)
    requires Reachable(p)
    ensures |p.threads| == p.concurrency + 1 && !p.stopped && !p.shutdown
  {}

  /** One scheduled poll that finds as many jobs as there are permits, up to the first submission. */
  lemma PollClaims(p: Pool, jobs: seq<Job>) returns (q: Pool)
    requires Reachable(p) && p.threads[0].Idle? && p.permits == p.batchSize == |jobs| > 0 && NewJobs(p, jobs)
    ensures Reachable(q) && SameSetup(p, q) && q.started == p.started && q.queue == p.queue && q.permits == 0
    ensures q.claimed == p.claimed + multiset(jobs)
    ensures q.threads == p.threads[0 := Submitting(jobs)]
  {
    hide Reachable;
    StaysOpenIfReachable(p);
    q := Extend(p, Poll);
    q := Extend(q, Recovered(true));
    q := Extend(q, Act(0));
    q := AcquireAll(q, 0, p.batchSize);
    q := Extend(q, Act(0));
    q := Extend(q, Act(0));
    q := Extend(q, Event.Claimed(0, Some(jobs)));
    q := Extend(q, Act(0));
  }

  /** With threads still to be created, every submission starts one. */
  lemma {:induction false} StartAll(p: Pool, jobs: seq<Job>) returns (q: Pool)
    requires Reachable(p) && p.threads[0] == Submitting(jobs) && p.started + |jobs| == p.concurrency
    requires forall k :: 0 < k <= p.started ==> p.threads[k].Running?
    ensures Reachable(q) && SameSetup(p, q) && q.started == q.concurrency
    ensures q.queue == p.queue && q.permits == p.permits
    ensures q.claimed == p.claimed && q.threads[0].Idle?
    ensures forall k :: 0 < k <= q.concurrency ==> q.threads[k].Running?
    decreases |jobs|
  {
    hide Reachable;
    StaysOpenIfReachable(p);
    q := Extend(p, Act(0));
    if jobs != [] {
      q := Extend(q, Act(0));
      q := StartAll(q, jobs[1..]);
    }
  }

  /** Processing ends in threads 1 to m; each gives its permit back and is about to look for another job. */
  lemma {:induction false} FinishAll(p: Pool, m: nat) returns (q: Pool)
    requires Reachable(p) && m <= p.concurrency && forall k :: 0 < k <= m ==> p.threads[k].Running?
    ensures Reachable(q) && SameSetup(p, q) && q.started == p.started && q.queue == p.queue
    ensures q.permits == p.permits + m && q.claimed == p.claimed && q.threads[0] == p.threads[0]
    decreases m
  {
    hide Reachable;
    StaysOpenIfReachable(p);
    q := p;
    if m > 0 {
      q := Extend(q, Processed(m));
      q := Extend(q, Act(m));
      q := FinishAll(q, m - 1);
    }
  }

  /** With all threads created and busy, submissions queue up. */
  lemma {:induction false} QueueAllButOne(p: Pool, jobs: seq<Job>) returns (q: Pool)
    requires Reachable(p) && p.threads[0] == Submitting(jobs) && jobs != [] && p.started == p.concurrency
    requires |p.queue| + |jobs| <= p.concurrency
    ensures Reachable(q) && SameSetup(p, q) && q.started == p.started && q.threads[0].Executing?
    ensures |q.queue| == |p.queue| + |jobs| - 1
    decreases |jobs|
  {
    hide Reachable;
    StaysOpenIfReachable(p);
    q := Extend(p, Act(0));
    if |jobs| > 1 {
      q := Extend(q, Act(0));
      q := QueueAllButOne(q, jobs[1..]);
    }
  }

  function Numbered(first: nat, n: nat): (jobs: seq<Job>)
    ensures |jobs| == n && forall i :: 0 <= i < n ==> jobs[i] == first + i
  {
    seq(n, i => first + i)
  }

  /**
   For every concurrency some run submits a job while all threads exist and concurrency - 1 tasks are queued: a queue
   with one place less would reject it although the worker was never stopped.
   */
  lemma QueueCapacityIsNeeded(concurrency: nat) returns (p: Pool)
    requires concurrency > 0
    ensures Reachable(p) && p.concurrency == concurrency && p.threads[0].Executing?
    ensures p.started == concurrency && |p.queue| == concurrency - 1
  {
    hide Reachable;
    InitialIsReachable(concurrency);
    var first, second := Numbered(0, concurrency), Numbered(concurrency, concurrency);
    p := PollClaims(Initial(concurrency, concurrency), first);
    p := StartAll(p, first);
    p := FinishAll(p, concurrency);
    assert NewJobs(p, second);
    p := PollClaims(p, second);
    StaysOpenIfReachable(p);
    p := QueueAllButOne(p, second);
  }
}
