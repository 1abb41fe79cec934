/**
 The whole database as a state machine. One committed transaction is one step. The optimistic machine lets a
 transaction read any earlier state and checks versions when it commits; the atomic machine runs it at once.
 */
module Protocol {
  import opened Domain
  import opened ReceiptContent
  import opened Job
  import opened ReceiptEntity
  import opened Database
  import opened Transactions
  import opened CaseFile
  import opened JobQueries

  /** The tables, every claim ever handed out, and the claims given back per job. */
  datatype State = State(db: Db, issued: map<Token, Claim>, releases: multiset<JobId>)

  const INITIAL := State(EMPTY_DB, map[], multiset{})

  /** The rows createQueued inserts, with the ids the database generates. */
  datatype NewUpload = NewUpload(
    receiptId: ReceiptId,
    jobId: JobId,
    owner: Option<EmployeeId>,
    companyId: string,
    imageSha256: string,
    key: Option<string>,
    createdAt: Instant,
    now: Instant)

  datatype Step =
    | Transact(tx: Tx, snapshot: nat)
    | ClaimJobs(workerId: string, batchSize: int, leaseDuration: int, locked: set<JobId>,
                ids: seq<JobId>, tokens: seq<Token>, now: Instant)
    | RecoverJobs(batchSize: int, locked: set<JobId>, ids: seq<JobId>, now: Instant)
    | Intake(upload: NewUpload)
    | Idle

  // ---------- Claiming and recovering, one row after the other ----------

  function ClaimOf(id: JobId, row: JobRow, workerId: string, token: Token, until: Instant): Claim {
    Claim(id, row.receiptId, row.version, row.attemptCount, workerId, token, until, row.duplicateDetected)
  }

  function ClaimOne(s: State, id: JobId, workerId: string, token: Token, now: Instant, until: Instant): State
    requires id in s.db.jobs
  {
    var was := s.db.jobs[id];
    var row := BumpedJob(was.Claimed(workerId, token, now, until));
    s.(db := s.db.(jobs := s.db.jobs[id := row],
                   audit := s.db.audit[was.receiptId := Log(s.db, was.receiptId) + [ClaimEvent(now)]]),
       issued := s.issued[token := ClaimOf(id, row, workerId, token, until)])
  }

  function ClaimAll(s: State, ids: seq<JobId>, workerId: string, tokens: seq<Token>, now: Instant, until: Instant)
    : (t: State)
    requires |tokens| == |ids| && forall i :: 0 <= i < |ids| ==> ids[i] in s.db.jobs
    ensures t.db.jobs.Keys == s.db.jobs.Keys
  {
    if ids == [] then s
    else
      var n := |ids| - 1;
      ClaimOne(ClaimAll(s, ids[..n], workerId, tokens[..n], now, until), ids[n], workerId, tokens[n], now, until)
  }

  function RecoverOne(s: State, id: JobId, now: Instant): State
    requires id in s.db.jobs
  {
    var was := s.db.jobs[id];
    s.(db := s.db.(jobs := s.db.jobs[id := BumpedJob(was.Requeued(now))],
                   audit := s.db.audit[was.receiptId := Log(s.db, was.receiptId) + [RecoveryEvent(now)]]))
  }

  function RecoverAll(s: State, ids: seq<JobId>, now: Instant): (t: State)
    requires forall i :: 0 <= i < |ids| ==> ids[i] in s.db.jobs
    ensures t.db.jobs.Keys == s.db.jobs.Keys
  {
    if ids == [] then s
    else RecoverOne(RecoverAll(s, ids[..|ids| - 1], now), ids[|ids| - 1], now)
  }

  // ---------- Intake ----------

  /** isBlank keys are not recorded. */
  function RecordedKey(key: Option<string>): Option<string> {
    if key.Some? && !IsBlank(key.value) then key else None
  }

  /** The unique constraints createQueued can violate. */
  predicate Conflicts(db: Db, companyId: string, imageSha256: string, key: Option<string>) {
    || (companyId, imageSha256) in db.imageIndex
    || (RecordedKey(key).Some? && (companyId, key.value) in db.keys)
  }

  function Inserted(db: Db, u: NewUpload): Db {
    var receipt := NewReceipt(u.owner, u.companyId, u.imageSha256, u.createdAt);
    Db(db.receipts[u.receiptId := receipt],
       db.jobs[u.jobId := NewJob(u.receiptId, u.now)],
       db.jobIndex[u.receiptId := u.jobId],
       db.imageIndex[(u.companyId, u.imageSha256) := u.receiptId],
       if RecordedKey(u.key).Some? then db.keys[(u.companyId, u.key.value) := u.receiptId] else db.keys,
       db.audit[u.receiptId := [UploadEvent(u.owner, u.createdAt)]])
  }

  // ---------- Steps ----------

  predicate HoldsClaim(s: State, tx: Tx) {
    UsesClaim(tx) ==> tx.claim.token in s.issued && s.issued[tx.claim.token] == tx.claim
  }

  /** A worker holds an issued claim and retries only below the limit; it looks at the claim, not at the row. */
  predicate MayStart(s: State, tx: Tx) {
    HoldsClaim(s, tx) && BringsConstructed(tx) && (tx.ScheduleRetry? ==> tx.claim.attemptCount < MAX_ATTEMPTS)
  }

  /** Whatever the processor comes to, the transaction it starts is one of the machine's. */
  lemma ProcessorMayStart(s: State, claim: Claim, result: Processing, at: Instant, today: Date, now: Instant)
    requires claim.token in s.issued && s.issued[claim.token] == claim
    requires result.Extraction? ==> HoldsConstructed(result.data)
    ensures MayStart(s, ProcessorTx(claim, result, at, today, now))
  {
    hide IsConstructed;
    ProcessorRetriesBelowLimit(claim, result, at, today, now);
  }

  function Committed(s: State, tx: Tx, o: Outcome): State
    requires o.Ready?
  {
    s.(db := Commit(s.db, o), releases := if tx.Release? then s.releases + multiset{o.jobId} else s.releases)
  }

  predicate FreshTokens(s: State, tokens: seq<Token>) {
    && (forall i :: 0 <= i < |tokens| ==> tokens[i] !in s.issued)
    && (forall i, k :: 0 <= i < k < |tokens| ==> tokens[i] != tokens[k])
  }

  predicate ValidClaimRequest(workerId: string, batchSize: int, leaseDuration: int) {
    !IsBlank(workerId) && |workerId| <= 100 && batchSize > 0 && leaseDuration > 0
  }

  /** The steps that read under row locks or only insert; they see the current state in both machines. */
  ghost predicate LockedStep(s: State, step: Step, s': State) {
    match step
    case ClaimJobs(workerId, batchSize, leaseDuration, locked, ids, tokens, now) =>
      && ValidClaimRequest(workerId, batchSize, leaseDuration)
      && IsBatch(ids, Available(s.db.jobs, now, locked), batchSize)
      && |tokens| == |ids| && FreshTokens(s, tokens)
      && s' == ClaimAll(s, ids, workerId, tokens, now, now + leaseDuration)
    case RecoverJobs(batchSize, locked, ids, now) =>
      && batchSize > 0
      && IsBatch(ids, Expired(s.db.jobs, now, locked), batchSize)
      && s' == RecoverAll(s, ids, now)
    case Intake(u) =>
      && u.receiptId !in s.db.receipts && u.jobId !in s.db.jobs
      && !Conflicts(s.db, u.companyId, u.imageSha256, u.key)
      && s' == s.(db := Inserted(s.db, u))
    case Idle => s' == s
    case Transact(_, _) => false
  }

  /** A transaction runs on the current state and commits at once. */
  ghost predicate AtomicStep(s: State, step: Step, s': State) {
    if step.Transact? then
      var o := Run(s.db, step.tx);
      MayStart(s, step.tx) && o.Ready? && s' == Committed(s, step.tx, o)
    else LockedStep(s, step, s')
  }

  /** A transaction read the state `snapshot`; its writes go through if every row it updates kept its version. */
  ghost predicate OptimisticStep(past: seq<State>, step: Step, s': State)
    requires past != []
  {
    var s := past[|past| - 1];
    if step.Transact? then
      && step.snapshot < |past|
      && var o := Run(past[step.snapshot].db, step.tx);
         MayStart(s, step.tx) && o.Ready? && CanCommit(s.db, o) && s' == Committed(s, step.tx, o)
    else LockedStep(s, step, s')
  }

  ghost predicate AtomicRun(states: seq<State>, steps: seq<Step>) {
    && |states| == |steps| + 1 && states[0] == INITIAL
    && forall i :: 0 <= i < |steps| ==> AtomicStep(states[i], steps[i], states[i + 1])
  }

  ghost predicate OptimisticRun(states: seq<State>, steps: seq<Step>) {
    && |states| == |steps| + 1 && states[0] == INITIAL
    && forall i :: 0 <= i < |steps| ==> OptimisticStep(states[..i + 1], steps[i], states[i + 1])
  }

  // ---------- Invariants ----------

  /** uk_receipt_extraction_jobs_receipt: one job per receipt, and a log for each. */
  predicate JobsIndexed(db: Db) {
    && db.jobIndex.Keys == db.receipts.Keys == db.audit.Keys
    && (forall r :: r in db.jobIndex ==> db.jobIndex[r] in db.jobs && db.jobs[db.jobIndex[r]].receiptId == r)
    && (forall j :: j in db.jobs ==> db.jobs[j].receiptId in db.jobIndex && db.jobIndex[db.jobs[j].receiptId] == j)
  }

  function ImageKey(row: ReceiptRow): (string, string) {
    (row.companyId, row.imageSha256)
  }

  /** uk_receipts_company_image_hash: one receipt per company and image. */
  predicate ImagesIndexed(db: Db) {
    && (forall r :: r in db.receipts ==>
          ImageKey(db.receipts[r]) in db.imageIndex && db.imageIndex[ImageKey(db.receipts[r])] == r)
    && (forall k :: k in db.imageIndex ==>
          db.imageIndex[k] in db.receipts && ImageKey(db.receipts[db.imageIndex[k]]) == k)
  }

  /** uk_idempotency_company_key: a key names a receipt of its company. */
  predicate KeysIndexed(db: Db) {
    forall k :: k in db.keys ==> db.keys[k] in db.receipts && db.receipts[db.keys[k]].companyId == k.0
  }

  predicate WellFormed(db: Db) {
    JobsIndexed(db) && ImagesIndexed(db) && KeysIndexed(db)
  }

  function FileOf(s: State, r: ReceiptId): File
    requires WellFormed(s.db) && r in s.db.receipts
  {
    var j := s.db.jobIndex[r];
    File(s.db.jobs[j], s.db.receipts[r], s.db.audit[r], s.releases[j])
  }

  predicate SameAttempt(c: Claim, d: Claim) {
    c.jobId == d.jobId && c.attemptCount == d.attemptCount
  }

  /** Every claim ever issued is for an attempt its job has made. */
  predicate ClaimsRefer(s: State) {
    forall t :: t in s.issued ==>
      && s.issued[t].token == t && s.issued[t].jobId in s.db.jobs
      && s.db.jobs[s.issued[t].jobId].receiptId == s.issued[t].receiptId
      && 1 <= s.issued[t].attemptCount <= s.db.jobs[s.issued[t].jobId].attemptCount
  }

  /** No two claims are for the same attempt. */
  predicate AttemptsNamed(issued: map<Token, Claim>) {
    forall t, t' :: t in issued && t' in issued && SameAttempt(issued[t], issued[t']) ==> t == t'
  }

  /** The row's token is the claim of its latest attempt. */
  predicate HeldBy(issued: map<Token, Claim>, j: JobId, row: JobRow) {
    row.claimToken.Some? ==>
      && row.claimToken.value in issued
      && issued[row.claimToken.value].jobId == j
      && issued[row.claimToken.value].attemptCount == row.attemptCount
  }

  predicate ClaimsSound(s: State) {
    && ClaimsRefer(s) && AttemptsNamed(s.issued)
    && (forall j :: j in s.db.jobs ==> HeldBy(s.issued, j, s.db.jobs[j]))
    && (forall j :: j in s.releases ==> j in s.db.jobs)
  }

  ghost predicate Inv(s: State) {
    && WellFormed(s.db) && ClaimsSound(s)
    && forall r :: r in s.db.receipts ==> Sound(FileOf(s, r))
  }

  /** Between two states of a run nothing is lost. */
  ghost predicate Later(s: State, t: State)
    requires WellFormed(s.db) && WellFormed(t.db)
  {
    && (forall r :: r in s.db.receipts ==>
          r in t.db.receipts && t.db.jobIndex[r] == s.db.jobIndex[r] && Grows(FileOf(s, r), FileOf(t, r)))
    && (forall k :: k in s.db.imageIndex ==> k in t.db.imageIndex && t.db.imageIndex[k] == s.db.imageIndex[k])
    && (forall k :: k in s.db.keys ==> k in t.db.keys && t.db.keys[k] == s.db.keys[k])
    && (forall c :: c in s.issued ==> c in t.issued && t.issued[c] == s.issued[c])
  }

  // ---------- One action on one file ----------

  /** `t` is `s` after `act` on the file of `r`, with every other file, index and claim as it was. */
  ghost predicate ActsOn(s: State, t: State, r: ReceiptId, act: Action) {
    && WellFormed(s.db) && WellFormed(t.db) && r in s.db.receipts
    && t.db.receipts.Keys == s.db.receipts.Keys && t.db.jobs.Keys == s.db.jobs.Keys
    && t.db.jobIndex == s.db.jobIndex && t.db.imageIndex == s.db.imageIndex && t.db.keys == s.db.keys
    && Enabled(FileOf(s, r), act) && FileOf(t, r) == Act(FileOf(s, r), act)
    && forall q :: q in s.db.receipts && q != r ==> FileOf(t, q) == FileOf(s, q)
  }

  lemma ActionKeepsFiles(s: State, t: State, r: ReceiptId, act: Action)
    requires Inv(s) && ActsOn(s, t, r, act)
    requires ClaimsSound(t) && forall c :: c in s.issued ==> c in t.issued && t.issued[c] == s.issued[c]
    ensures Inv(t) && Later(s, t)
  {
    SoundKept(FileOf(s, r), act);
    forall q | q in s.db.receipts ensures Sound(FileOf(t, q)) && Grows(FileOf(s, q), FileOf(t, q)) {
      if q == r {
        ActionGrows(FileOf(s, r), act);
      }
    }
  }

  lemma LaterReflexive(s: State)
    requires WellFormed(s.db)
    ensures Later(s, s)
  {}

  lemma LaterTransitive(s: State, t: State, u: State)
    requires WellFormed(s.db) && WellFormed(t.db) && WellFormed(u.db)
    requires Later(s, t) && Later(t, u)
    ensures Later(s, u)
  {
    forall r | r in s.db.receipts ensures Grows(FileOf(s, r), FileOf(u, r)) {
      GrowsTransitive(FileOf(s, r), FileOf(t, r), FileOf(u, r));
    }
  }
}
