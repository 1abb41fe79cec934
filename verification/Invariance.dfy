/** Every step of the atomic machine keeps the invariant and loses nothing. */
module Invariance {
  import opened Domain
  import opened Job
  import opened ReceiptEntity
  import opened Database
  import opened Transactions
  import opened CaseFile
  import opened JobQueries
  import opened Protocol

  // ---------- Transactions ----------

  /** The receipt a transaction is about. */
  function Target(db: Db, tx: Tx): ReceiptId {
    match tx
    case Release(claim, _) => if claim.jobId in db.jobs then db.jobs[claim.jobId].receiptId else 0
    case MarkDuplicate(receiptId, _, _) => receiptId
    case CorrectFields(receiptId, _, _, _, _, _) => receiptId
    case Decide(receiptId, _, _, _, _) => receiptId
    case _ => tx.claim.receiptId
  }

  /** Whatever rows the transaction looked up, they were those of its target's file. */
  lemma OutcomeIsPlan(s: State, tx: Tx)
    requires WellFormed(s.db) && Run(s.db, tx).Ready?
    ensures var o, r := Run(s.db, tx), Target(s.db, tx);
            && r in s.db.receipts && o.receiptId == r
            && PlanOn(FileOf(s, r).job, FileOf(s, r).receipt, tx) == Planned(o.change)
            && (o.change.job.Some? || tx.Release? ==> o.jobId == s.db.jobIndex[r])
  {
    if tx.CorrectFields? || tx.Decide? {
      HumanOutcomeIsPlan(s, tx);
    } else {
      JobOutcomeIsPlan(s, tx);
    }
  }

  lemma HumanOutcomeIsPlan(s: State, tx: Tx)
    requires WellFormed(s.db) && Run(s.db, tx).Ready? && (tx.CorrectFields? || tx.Decide?)
    ensures var o, r := Run(s.db, tx), Target(s.db, tx);
            && r in s.db.receipts && o.receiptId == r
            && PlanOn(FileOf(s, r).job, FileOf(s, r).receipt, tx) == Planned(o.change) && o.change.job.None?
  {
    hide PlanDuplicate, PlanExtraction, ImagesIndexed, KeysIndexed;
  }

  lemma JobOutcomeIsPlan(s: State, tx: Tx)
    requires WellFormed(s.db) && Run(s.db, tx).Ready? && !tx.CorrectFields? && !tx.Decide?
    ensures var o, r := Run(s.db, tx), Target(s.db, tx);
            && r in s.db.receipts && o.receiptId == r && o.jobId == s.db.jobIndex[r]
            && PlanOn(FileOf(s, r).job, FileOf(s, r).receipt, tx) == Planned(o.change)
  {
    hide PlanQualityRejection, PlanExtraction, PlanRetry, PlanFailure, PlanRelease, PlanDuplicate, ImagesIndexed,
         KeysIndexed;
  }

  /** A claim transaction that gets past the ownership check holds the claim of the attempt in progress. */
  lemma OwnerHoldsLatestClaim(s: State, tx: Tx)
    requires WellFormed(s.db) && ClaimsSound(s) && HoldsClaim(s, tx) && UsesClaim(tx) && Run(s.db, tx).Ready?
    ensures var r := Target(s.db, tx);
            && r in s.db.receipts && r == tx.claim.receiptId && tx.claim.jobId == s.db.jobIndex[r]
            && FileOf(s, r).job.status == Processing
            && FileOf(s, r).job.claimToken == Some(tx.claim.token)
            && FileOf(s, r).job.attemptCount == tx.claim.attemptCount
  {
    OutcomeIsPlan(s, tx);
  }

  /** What a transaction leaves of the job's identity and claim. */
  lemma ExecKeepsClaim(f: File, tx: Tx)
    requires Enabled(f, Exec(tx))
    ensures var g := Act(f, Exec(tx));
            && g.job.receiptId == f.job.receiptId && g.receipt.SameIdentity(f.receipt)
            && g.job.attemptCount == f.job.attemptCount
            && (g.job.claimToken == f.job.claimToken || g.job.claimToken.None?)
  {}

  // ---------- Putting one file back ----------

  function PutFile(db: Db, j: JobId, r: ReceiptId, g: File): Db {
    db.(jobs := db.jobs[j := g.job], receipts := db.receipts[r := g.receipt], audit := db.audit[r := g.events])
  }

  lemma PutFileIsWellFormed(db: Db, j: JobId, r: ReceiptId, g: File)
    requires WellFormed(db) && r in db.receipts && j == db.jobIndex[r]
    requires g.job.receiptId == r && g.receipt.SameIdentity(db.receipts[r])
    ensures WellFormed(PutFile(db, j, r, g))
  {
    PutJobIsIndexed(db, j, r, g);
    PutReceiptIsIndexed(db, j, r, g);
  }

  lemma PutJobIsIndexed(db: Db, j: JobId, r: ReceiptId, g: File)
    requires JobsIndexed(db) && r in db.receipts && j == db.jobIndex[r] && g.job.receiptId == r
    ensures JobsIndexed(PutFile(db, j, r, g))
  {
    var e := PutFile(db, j, r, g);
    assert e.receipts.Keys == db.receipts.Keys && e.audit.Keys == db.audit.Keys && e.jobs.Keys == db.jobs.Keys;
    assert forall k :: k in db.jobs ==> e.jobs[k].receiptId == db.jobs[k].receiptId;
  }

  lemma PutReceiptIsIndexed(db: Db, j: JobId, r: ReceiptId, g: File)
    requires ImagesIndexed(db) && KeysIndexed(db) && r in db.receipts && g.receipt.SameIdentity(db.receipts[r])
    ensures ImagesIndexed(PutFile(db, j, r, g)) && KeysIndexed(PutFile(db, j, r, g))
  {
    var e := PutFile(db, j, r, g);
    assert e.receipts.Keys == db.receipts.Keys;
    assert forall q :: q in db.receipts ==> ImageKey(e.receipts[q]) == ImageKey(db.receipts[q]);
  }

  lemma PutFileActsOn(s: State, t: State, r: ReceiptId, act: Action)
    requires WellFormed(s.db) && r in s.db.receipts && Enabled(FileOf(s, r), act)
    requires var g, j := Act(FileOf(s, r), act), s.db.jobIndex[r];
             && t.db == PutFile(s.db, j, r, g)
             && g.job.receiptId == r && g.receipt.SameIdentity(s.db.receipts[r])
             && t.releases == s.releases[j := g.releases]
    ensures ActsOn(s, t, r, act)
  {
    hide Enabled, Act, ImagesIndexed, KeysIndexed;
    var g, j := Act(FileOf(s, r), act), s.db.jobIndex[r];
    PutFileIsWellFormed(s.db, j, r, g);
    assert t.db.receipts.Keys == s.db.receipts.Keys && t.db.jobs.Keys == s.db.jobs.Keys;
    forall q | q in s.db.receipts && q != r ensures FileOf(t, q) == FileOf(s, q) {
      assert s.db.jobIndex[q] != j;
    }
  }

  lemma CommitActsOn(s: State, tx: Tx, r: ReceiptId, o: Outcome)
    requires WellFormed(s.db) && r in s.db.receipts
    requires Enabled(FileOf(s, r), Exec(tx))
    requires o.Ready? && o.receiptId == r && PlanOn(FileOf(s, r).job, FileOf(s, r).receipt, tx) == Planned(o.change)
    requires o.change.job.Some? || tx.Release? ==> o.jobId == s.db.jobIndex[r]
    ensures ActsOn(s, Committed(s, tx, o), r, Exec(tx))
    ensures Committed(s, tx, o).db.jobs == s.db.jobs[s.db.jobIndex[r] := Act(FileOf(s, r), Exec(tx)).job]
  {
    var t, j, f := Committed(s, tx, o), s.db.jobIndex[r], FileOf(s, r);
    var g := Act(f, Exec(tx));
    ExecKeepsClaim(f, tx);
    CommitIsPutFile(s, tx, r, o);
    PutFileActsOn(s, t, r, Exec(tx));
  }

  lemma CommitIsPutFile(s: State, tx: Tx, r: ReceiptId, o: Outcome)
    requires WellFormed(s.db) && r in s.db.receipts
    requires Enabled(FileOf(s, r), Exec(tx))
    requires o.Ready? && o.receiptId == r && PlanOn(FileOf(s, r).job, FileOf(s, r).receipt, tx) == Planned(o.change)
    requires o.change.job.Some? || tx.Release? ==> o.jobId == s.db.jobIndex[r]
    ensures var t, g, j := Committed(s, tx, o), Act(FileOf(s, r), Exec(tx)), s.db.jobIndex[r];
            t.db == PutFile(s.db, j, r, g) && t.releases == s.releases[j := g.releases]
  {
    hide PlanOn, Enabled, ImagesIndexed, KeysIndexed;
    var t, j, f := Committed(s, tx, o), s.db.jobIndex[r], FileOf(s, r);
    var g := Act(f, Exec(tx));
    assert f.events + [] == f.events;
    assert t.db.jobs == s.db.jobs[j := g.job];
    assert t.db.receipts == s.db.receipts[r := g.receipt];
    assert t.db.audit == s.db.audit[r := g.events];
  }

  lemma TransactKeepsInv(s: State, tx: Tx)
    requires Inv(s) && MayStart(s, tx) && Run(s.db, tx).Ready?
    ensures var r, t := Target(s.db, tx), Committed(s, tx, Run(s.db, tx));
            && r in s.db.receipts && ActsOn(s, t, r, Exec(tx)) && Inv(t) && Later(s, t)
  {
    hide PlanOn, ImagesIndexed, KeysIndexed, Sound, Grows, Later, ClaimsSound, ActsOn, Act;
    var o, r := Run(s.db, tx), Target(s.db, tx);
    var t := Committed(s, tx, o);
    OutcomeIsPlan(s, tx);
    if tx.ScheduleRetry? {
      OwnerHoldsLatestClaim(s, tx);
    }
    CommitActsOn(s, tx, r, o);
    ExecKeepsClaim(FileOf(s, r), tx);
    ReleasesStayKnown(s, tx, r, o);
    ClaimsSoundAfter(s, t, s.db.jobIndex[r], Act(FileOf(s, r), Exec(tx)).job);
    ActionKeepsFiles(s, t, r, Exec(tx));
  }

  lemma ReleasesStayKnown(s: State, tx: Tx, r: ReceiptId, o: Outcome)
    requires WellFormed(s.db) && ClaimsSound(s) && r in s.db.receipts && o.Ready?
    requires tx.Release? ==> o.jobId == s.db.jobIndex[r]
    ensures s.db.jobIndex[r] in s.db.jobs
    ensures forall j :: j in Committed(s, tx, o).releases ==> j in s.db.jobs
    ensures FileOf(s, r).job == s.db.jobs[s.db.jobIndex[r]]
  {}

  lemma ClaimsSoundAfter(s: State, t: State, j: JobId, row: JobRow)
    requires ClaimsSound(s) && j in s.db.jobs
    requires t.issued == s.issued && t.db.jobs == s.db.jobs[j := row]
    requires forall k :: k in t.releases ==> k in s.db.jobs
    requires row.receiptId == s.db.jobs[j].receiptId && row.attemptCount == s.db.jobs[j].attemptCount
    requires row.claimToken == s.db.jobs[j].claimToken || row.claimToken.None?
    ensures ClaimsSound(t)
  {}

  // ---------- Claiming and recovering ----------

  lemma ClaimOneKeepsInv(s: State, id: JobId, workerId: string, token: Token, now: Instant, until: Instant)
    requires Inv(s) && id in s.db.jobs && IsWaiting(s.db.jobs[id].status) && token !in s.issued
    ensures var r, t := s.db.jobs[id].receiptId, ClaimOne(s, id, workerId, token, now, until);
            ActsOn(s, t, r, Claiming(workerId, token, now, until)) && Inv(t) && Later(s, t)
  {
    hide Sound, Grows, Later, ClaimsSound, ActsOn, ImagesIndexed, KeysIndexed;
    var r, t := s.db.jobs[id].receiptId, ClaimOne(s, id, workerId, token, now, until);
    var act := Claiming(workerId, token, now, until);
    assert t.db == PutFile(s.db, id, r, Act(FileOf(s, r), act)) by {
      assert s.db.receipts == s.db.receipts[r := s.db.receipts[r]];
    }
    PutFileActsOn(s, t, r, act);
    NewClaimIsSound(s, id, workerId, token, now, until);
    ActionKeepsFiles(s, t, r, act);
  }

  lemma NewClaimIsSound(s: State, id: JobId, workerId: string, token: Token, now: Instant, until: Instant)
    requires ClaimsSound(s) && id in s.db.jobs && token !in s.issued
    ensures ClaimsSound(ClaimOne(s, id, workerId, token, now, until))
  {}

  lemma RecoverOneKeepsInv(s: State, id: JobId, now: Instant)
    requires Inv(s) && id in s.db.jobs && s.db.jobs[id].IsExpired(now)
    ensures var r, t := s.db.jobs[id].receiptId, RecoverOne(s, id, now);
            ActsOn(s, t, r, Recovering(now)) && Inv(t) && Later(s, t)
  {
    hide Sound, Grows, Later, ActsOn, ImagesIndexed, KeysIndexed;
    var r, t := s.db.jobs[id].receiptId, RecoverOne(s, id, now);
    assert t.db == PutFile(s.db, id, r, Act(FileOf(s, r), Recovering(now))) by {
      assert s.db.receipts == s.db.receipts[r := s.db.receipts[r]];
    }
    PutFileActsOn(s, t, r, Recovering(now));
    ClaimsSoundAfter(s, t, id, t.db.jobs[id]);
    ActionKeepsFiles(s, t, r, Recovering(now));
  }

  predicate Distinct(ids: seq<JobId>) {
    forall i, k :: 0 <= i < k < |ids| ==> ids[i] != ids[k]
  }

  /** Which rows and claims a batch touches. */
  lemma ClaimAllFrame(s: State, ids: seq<JobId>, workerId: string, tokens: seq<Token>, now: Instant, until: Instant)
    requires |tokens| == |ids| && Distinct(ids)
    requires forall i :: 0 <= i < |ids| ==> ids[i] in s.db.jobs
    ensures var t := ClaimAll(s, ids, workerId, tokens, now, until);
            && (forall j :: j in s.db.jobs && j !in ids ==> t.db.jobs[j] == s.db.jobs[j])
            && (forall i :: 0 <= i < |ids| ==>
                  t.db.jobs[ids[i]] == BumpedJob(s.db.jobs[ids[i]].Claimed(workerId, tokens[i], now, until)))
            && (forall c :: c in t.issued ==> c in s.issued || c in tokens)
            && t.db.receipts == s.db.receipts && t.db.jobIndex == s.db.jobIndex && t.releases == s.releases
  {
    hide ClaimAll, BumpedJob, JobRow.Claimed;
    ClaimAllKeepsRest(s, ids, workerId, tokens, now, until);
    forall i | 0 <= i < |ids|
      ensures ClaimAll(s, ids, workerId, tokens, now, until).db.jobs[ids[i]]
              == BumpedJob(s.db.jobs[ids[i]].Claimed(workerId, tokens[i], now, until))
    {
      ClaimAllClaims(s, ids, workerId, tokens, now, until, i);
    }
  }

  lemma {:induction false} ClaimAllClaims(s: State, ids: seq<JobId>, workerId: string, tokens: seq<Token>,
                                          now: Instant, until: Instant, i: nat)
    requires |tokens| == |ids| && Distinct(ids) && i < |ids|
    requires forall i :: 0 <= i < |ids| ==> ids[i] in s.db.jobs
    ensures ClaimAll(s, ids, workerId, tokens, now, until).db.jobs[ids[i]]
            == BumpedJob(s.db.jobs[ids[i]].Claimed(workerId, tokens[i], now, until))
    decreases |ids|
  {
    hide ClaimAll, BumpedJob, JobRow.Claimed;
    var n := |ids| - 1;
    ClaimLast(s, ids, workerId, tokens, now, until);
    if i < n {
      assert ids[..n][i] == ids[i] && tokens[..n][i] == tokens[i];
      ClaimAllClaims(s, ids[..n], workerId, tokens[..n], now, until, i);
    }
  }

  /** The last claim of a batch changes the last row and leaves the others as the earlier claims left them. */
  lemma ClaimLast(s: State, ids: seq<JobId>, workerId: string, tokens: seq<Token>, now: Instant, until: Instant)
    requires |tokens| == |ids| > 0 && Distinct(ids)
    requires forall i :: 0 <= i < |ids| ==> ids[i] in s.db.jobs
    ensures var n := |ids| - 1;
            var t, u := ClaimAll(s, ids[..n], workerId, tokens[..n], now, until),
                        ClaimAll(s, ids, workerId, tokens, now, until);
            && u.db.jobs[ids[n]] == BumpedJob(s.db.jobs[ids[n]].Claimed(workerId, tokens[n], now, until))
            && forall i :: 0 <= i < n ==> u.db.jobs[ids[i]] == t.db.jobs[ids[i]]
  {
    hide ClaimOne, BumpedJob, JobRow.Claimed;
    var n := |ids| - 1;
    ClaimAllKeepsRest(s, ids[..n], workerId, tokens[..n], now, until);
    ClaimOneFrame(ClaimAll(s, ids[..n], workerId, tokens[..n], now, until), ids[n], workerId, tokens[n], now, until);
  }

  lemma {:induction false} ClaimAllKeepsRest(s: State, ids: seq<JobId>, workerId: string, tokens: seq<Token>,
                                             now: Instant, until: Instant)
    requires |tokens| == |ids| && forall i :: 0 <= i < |ids| ==> ids[i] in s.db.jobs
    ensures var t := ClaimAll(s, ids, workerId, tokens, now, until);
            && (forall j :: j in s.db.jobs && j !in ids ==> t.db.jobs[j] == s.db.jobs[j])
            && (forall c :: c in t.issued ==> c in s.issued || c in tokens)
            && t.db.receipts == s.db.receipts && t.db.jobIndex == s.db.jobIndex && t.releases == s.releases
  {
    hide ClaimOne, BumpedJob, JobRow.Claimed;
    if ids != [] {
      var n := |ids| - 1;
      ClaimAllKeepsRest(s, ids[..n], workerId, tokens[..n], now, until);
      ClaimOneFrame(ClaimAll(s, ids[..n], workerId, tokens[..n], now, until), ids[n], workerId, tokens[n], now, until);
    }
  }

  lemma ClaimOneFrame(s: State, id: JobId, workerId: string, token: Token, now: Instant, until: Instant)
    requires id in s.db.jobs
    ensures var t := ClaimOne(s, id, workerId, token, now, until);
            && t.db.jobs == s.db.jobs[id := BumpedJob(s.db.jobs[id].Claimed(workerId, token, now, until))]
            && t.issued.Keys == s.issued.Keys + {token}
            && t.db.receipts == s.db.receipts && t.db.jobIndex == s.db.jobIndex && t.releases == s.releases
  {}

  lemma {:induction false} ClaimAllKeepsInv(s: State, ids: seq<JobId>, workerId: string, tokens: seq<Token>,
                                            now: Instant, until: Instant)
    requires Inv(s) && |tokens| == |ids| && Distinct(ids) && FreshTokens(s, tokens)
    requires forall i :: 0 <= i < |ids| ==> ids[i] in s.db.jobs && IsWaiting(s.db.jobs[ids[i]].status)
    ensures Inv(ClaimAll(s, ids, workerId, tokens, now, until))
    ensures Later(s, ClaimAll(s, ids, workerId, tokens, now, until))
  {
    hide WellFormed, ClaimsSound, Sound, Later, ClaimOne;
    if ids == [] {
      LaterReflexive(s);
    } else {
      var n := |ids| - 1;
      ClaimAllKeepsInv(s, ids[..n], workerId, tokens[..n], now, until);
      ClaimAllKeepsRest(s, ids[..n], workerId, tokens[..n], now, until);
      var m := ClaimAll(s, ids[..n], workerId, tokens[..n], now, until);
      ClaimOneKeepsInv(m, ids[n], workerId, tokens[n], now, until);
      LaterTransitive(s, m, ClaimOne(m, ids[n], workerId, tokens[n], now, until));
    }
  }

  lemma {:induction false} RecoverAllKeepsInv(s: State, ids: seq<JobId>, now: Instant)
    requires Inv(s) && Distinct(ids)
    requires forall i :: 0 <= i < |ids| ==> ids[i] in s.db.jobs && s.db.jobs[ids[i]].IsExpired(now)
    ensures var t := RecoverAll(s, ids, now);
            && Inv(t) && Later(s, t)
            && (forall j :: j in s.db.jobs && j !in ids ==> t.db.jobs[j] == s.db.jobs[j])
  {
    hide WellFormed, ClaimsSound, Sound, Later;
    if ids == [] {
      LaterReflexive(s);
    } else {
      var n := |ids| - 1;
      RecoverAllKeepsInv(s, ids[..n], now);
      var m := RecoverAll(s, ids[..n], now);
      assert m.db.jobs[ids[n]] == s.db.jobs[ids[n]];
      RecoverOneKeepsInv(m, ids[n], now);
      LaterTransitive(s, m, RecoverOne(m, ids[n], now));
    }
  }

  // ---------- Intake ----------

  predicate MayInsert(db: Db, u: NewUpload) {
    u.receiptId !in db.receipts && u.jobId !in db.jobs && !Conflicts(db, u.companyId, u.imageSha256, u.key)
  }

  lemma InsertedIsWellFormed(db: Db, u: NewUpload)
    requires WellFormed(db) && MayInsert(db, u)
    ensures WellFormed(Inserted(db, u))
  {
    InsertedJobIsIndexed(db, u);
    InsertedImageIsIndexed(db, u);
    InsertedKeyIsIndexed(db, u);
  }

  lemma InsertedJobIsIndexed(db: Db, u: NewUpload)
    requires JobsIndexed(db) && MayInsert(db, u)
    ensures JobsIndexed(Inserted(db, u))
  {}

  lemma InsertedImageIsIndexed(db: Db, u: NewUpload)
    requires ImagesIndexed(db) && MayInsert(db, u)
    ensures ImagesIndexed(Inserted(db, u))
  {
    var e := Inserted(db, u);
    assert forall q :: q in db.receipts ==> e.receipts[q] == db.receipts[q];
  }

  lemma InsertedKeyIsIndexed(db: Db, u: NewUpload)
    requires KeysIndexed(db) && MayInsert(db, u)
    ensures KeysIndexed(Inserted(db, u))
  {}

  lemma InsertedClaimsSound(s: State, t: State, j: JobId, row: JobRow)
    requires ClaimsSound(s) && j !in s.db.jobs && row.claimToken.None?
    requires t.db.jobs == s.db.jobs[j := row] && t.issued == s.issued && t.releases == s.releases
    ensures ClaimsSound(t)
  {}

  lemma InsertedFiles(s: State, u: NewUpload)
    requires WellFormed(s.db) && ClaimsSound(s) && MayInsert(s.db, u)
    requires WellFormed(Inserted(s.db, u))
    ensures var t := s.(db := Inserted(s.db, u));
            && FileOf(t, u.receiptId) == NewFile(u.receiptId, t.db.receipts[u.receiptId], u.now)
            && (forall q :: q in s.db.receipts ==>
                  q in s.db.jobIndex && q in t.db.jobIndex && t.db.jobIndex[q] == s.db.jobIndex[q]
                  && FileOf(t, q) == FileOf(s, q))
            && t.db.receipts.Keys == s.db.receipts.Keys + {u.receiptId}
  {
    hide ImagesIndexed, KeysIndexed;
  }

  lemma IntakeKeepsInv(s: State, u: NewUpload)
    requires Inv(s) && MayInsert(s.db, u)
    ensures var t := s.(db := Inserted(s.db, u)); Inv(t) && Later(s, t)
  {
    hide Sound, WellFormed, ClaimsSound, FileOf;
    var t := s.(db := Inserted(s.db, u));
    InsertedIsWellFormed(s.db, u);
    InsertedClaimsSound(s, t, u.jobId, NewJob(u.receiptId, u.now));
    InsertedFiles(s, u);
    NewFileIsSound(u.receiptId, t.db.receipts[u.receiptId], u.now);
    forall q | q in s.db.receipts ensures Grows(FileOf(s, q), FileOf(t, q)) {}
  }

  // ---------- Steps and runs ----------

  lemma StepKeepsInv(s: State, step: Step, t: State)
    requires Inv(s) && AtomicStep(s, step, t)
    ensures Inv(t) && Later(s, t)
  {
    hide WellFormed, ClaimsSound, Sound, Later, Run, LockedStep;
    if step.Transact? {
      TransactKeepsInv(s, step.tx);
    } else {
      LockedStepKeepsInv(s, step, t);
    }
  }

  lemma LockedStepKeepsInv(s: State, step: Step, t: State)
    requires Inv(s) && LockedStep(s, step, t)
    ensures Inv(t) && Later(s, t)
  {
    hide WellFormed, ClaimsSound, Sound, Later, Conflicts, Inserted;
    match step
    case ClaimJobs(workerId, batchSize, leaseDuration, locked, ids, tokens, now) =>
      BatchHasNoRepeats(ids, Available(s.db.jobs, now, locked), batchSize);
      ClaimAllKeepsInv(s, ids, workerId, tokens, now, now + leaseDuration);
    case RecoverJobs(batchSize, locked, ids, now) =>
      BatchHasNoRepeats(ids, Expired(s.db.jobs, now, locked), batchSize);
      RecoverAllKeepsInv(s, ids, now);
    case Intake(u) => IntakeKeepsInv(s, u);
    case Idle => LaterReflexive(s);
    case Transact(_, _) =>
  }

  /** In every state of an atomic run every file is sound. */
  lemma {:induction false} RunKeepsInv(states: seq<State>, steps: seq<Step>, n: nat)
    requires AtomicRun(states, steps) && n < |states|
    ensures Inv(states[n])
  {
    hide Inv, AtomicStep;
    if n == 0 {
      InitialStateIsSound();
    } else {
      RunKeepsInv(states, steps, n - 1);
      StepKeepsInv(states[n - 1], steps[n - 1], states[n]);
    }
  }

  lemma InitialStateIsSound()
    ensures Inv(INITIAL)
  {}

  /** From any state of a run to any later one nothing is lost. */
  lemma {:induction false} RunLosesNothing(states: seq<State>, steps: seq<Step>, i: nat, n: nat)
    requires AtomicRun(states, steps) && i <= n < |states|
    ensures Inv(states[i]) && Inv(states[n]) && Later(states[i], states[n])
    decreases n - i
  {
    hide WellFormed, ClaimsSound, Sound, Later, AtomicStep;
    RunKeepsInv(states, steps, i);
    RunKeepsInv(states, steps, n);
    if i == n {
      LaterReflexive(states[i]);
    } else {
      RunLosesNothing(states, steps, i, n - 1);
      StepKeepsInv(states[n - 1], steps[n - 1], states[n]);
      LaterTransitive(states[i], states[n - 1], states[n]);
    }
  }
}
