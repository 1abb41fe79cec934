/**
 The two locking queries that hand out work: filter, order, limit, skip locked rows
 (ReceiptExtractionJobRepository.java).
 */
module JobQueries {
  import opened Domain
  import opened Job

  /** Rows a claim may take, with their first sort key. */
  function Available(jobs: map<JobId, JobRow>, now: Instant, locked: set<JobId>): map<JobId, Instant> {
    map j | j in jobs && j !in locked && jobs[j].IsAvailable(now) :: jobs[j].availableAt
  }

  /** Rows a recovery may take, with their first sort key. */
  function Expired(jobs: map<JobId, JobRow>, now: Instant, locked: set<JobId>): map<JobId, Instant> {
    map j | j in jobs && j !in locked && jobs[j].IsExpired(now) :: jobs[j].leaseUntil.value
  }

  lemma AvailableAreJobs(jobs: map<JobId, JobRow>, now: Instant, locked: set<JobId>)
    ensures forall j :: j in Available(jobs, now, locked) ==> j in jobs
    ensures forall j :: j in Expired(jobs, now, locked) ==> j in jobs && jobs[j].status == Processing
  {}

  /** ORDER BY key, id */
  predicate Precedes(keyA: Instant, a: JobId, keyB: Instant, b: JobId) {
    keyA < keyB || (keyA == keyB && a < b)
  }

  /** What the query returns: a sorted prefix of the candidates, cut only by the limit. */
  ghost predicate IsBatch(ids: seq<JobId>, candidates: map<JobId, Instant>, limit: int) {
    && |ids| <= limit
    && (forall i :: 0 <= i < |ids| ==> ids[i] in candidates)
    && (forall i, k :: 0 <= i < k < |ids| ==> Precedes(candidates[ids[i]], ids[i], candidates[ids[k]], ids[k]))
    && (forall j :: j in candidates && j !in ids ==>
          |ids| == limit && forall i :: 0 <= i < |ids| ==> Precedes(candidates[ids[i]], ids[i], candidates[j], j))
  }

  function Members(ids: seq<JobId>): set<JobId> {
    set j | j in ids
  }

  lemma BatchHasNoRepeats(ids: seq<JobId>, candidates: map<JobId, Instant>, limit: int)
    requires IsBatch(ids, candidates, limit)
    ensures forall i, k :: 0 <= i < k < |ids| ==> ids[i] != ids[k]
    ensures |Members(ids)| == |ids|
  {
    SetOfDistinct(ids);
  }

  lemma {:induction false} SetOfDistinct(ids: seq<JobId>)
    requires forall i, k :: 0 <= i < k < |ids| ==> ids[i] != ids[k]
    ensures |Members(ids)| == |ids|
  {
    if ids == [] {
      assert Members(ids) == {};
    } else {
      var n := |ids| - 1;
      SetOfDistinct(ids[..n]);
      assert ids == ids[..n] + [ids[n]];
      assert Members(ids) == Members(ids[..n]) + {ids[n]};
    }
  }

  /** The clauses of the query leave no choice: two answers to it are the same. */
  lemma BatchIsUnique(a: seq<JobId>, b: seq<JobId>, candidates: map<JobId, Instant>, limit: int)
    requires IsBatch(a, candidates, limit) && IsBatch(b, candidates, limit)
    ensures a == b
  {
    BatchPrefix(a, b, candidates, limit, |a|);
    BatchPrefix(b, a, candidates, limit, |b|);
  }

  lemma {:induction false} BatchPrefix(a: seq<JobId>, b: seq<JobId>, candidates: map<JobId, Instant>, limit: int,
                                       n: nat)
    requires IsBatch(a, candidates, limit) && IsBatch(b, candidates, limit)
    requires n <= |a|
    ensures n <= |b| && forall i :: 0 <= i < n ==> a[i] == b[i]
  {
    if n > 0 {
      BatchPrefix(a, b, candidates, limit, n - 1);
      // Were the next elements different, each would have to come before the other.
      var x := a[n - 1];
      assert x !in b ==> |b| == limit;
      if n - 1 < |b| && b[n - 1] != x {
        assert false;
      }
    }
  }
}
