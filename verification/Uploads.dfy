/**
 Uploads as they interleave (ReceiptUploadService.java, RedisDuplicateReceiptLock.java): every repository and lock call
 is one step on the state of that moment, any call may throw, the Redis lock may or may not be granted and excludes
 nobody, and any other transactions run in between.
 */
module Uploads {
  import opened Domain
  import opened ReceiptContent
  import opened Validation
  import opened Job
  import opened ReceiptEntity
  import opened Database
  import opened Transactions
  import opened CaseFile
  import opened Protocol
  import opened Invariance
  import Effects

  /** The request after normalisation; the image is known by its hash. */
  datatype Request = Request(companyId: string, key: Option<string>, imageSha256: string, owner: Option<EmployeeId>)

  datatype UploadError =
    | OwnerConflict | LockTimeout | LockFailure | UnlockFailure | StorageFailure | DatabaseFailure
    | IntegrityViolation | StaleVersion | Internal

  /** Where findIdempotentReplay is called from. */
  datatype Site = Outer | Locked | Recovery

  /** How the work under the lock ended, before the lock is released. */
  datatype Result = Returns(receiptId: ReceiptId, created: bool, replay: bool) | Throws(error: UploadError)

  /** The next repository or lock call, or how the upload ended. */
  datatype Pc =
    | LookupKey(site: Site)
    | LoadReplay(site: Site, receiptId: ReceiptId)
    | LoadReplayJob(site: Site, receiptId: ReceiptId)
    | LookupProcessed(last: Option<UploadError>)
    | LoadProcessedJob(last: Option<UploadError>, receiptId: ReceiptId)
    | AwaitLock
    | LookupImage
    | Insert
    | RecoverImage
    | Mark(receiptId: ReceiptId)
    | LoadMarkedJob(receiptId: ReceiptId)
    | Unlock(result: Result)
    | Done(receiptId: ReceiptId, created: bool, replay: bool)
    | Gone(error: UploadError)

  /** What an upload has changed in the tables. */
  datatype Effect = Nothing | Created | Marked

  /** `wrote` is a ghost. */
  datatype Upload = Upload(request: Request, pc: Pc, wrote: Effect)

  function ImageOf(q: Request): (string, string) {
    (q.companyId, q.imageSha256)
  }

  /** What is thrown or returned under the lock waits for the release; outside it ends the upload. */
  function Leave(site: Site, result: Result): Pc {
    if site != Outer then Unlock(result)
    else match result
      case Returns(r, created, replay) => Done(r, created, replay)
      case Throws(error) => Gone(error)
  }

  /**
   The lock is released in a finally block: if that throws, its exception replaces whatever was on its way. A conflict
   is caught outside, where the processed duplicate is tried once more.
   */
  function AfterUnlock(result: Result, released: bool): Pc {
    if !released then Gone(UnlockFailure)
    else match result
      case Returns(r, created, replay) => Done(r, created, replay)
      case Throws(error) => if error == OwnerConflict then LookupProcessed(Some(OwnerConflict)) else Gone(error)
  }

  function AfterNoReplay(site: Site): Pc {
    match site
    case Outer => LookupProcessed(None)
    case Locked => LookupImage
    case Recovery => RecoverImage
  }

  /** No processed duplicate: on to the lock, or the caught exception is thrown after all. */
  function AfterNoDuplicate(last: Option<UploadError>): Pc {
    if last.None? then AwaitLock else Gone(last.value)
  }

  function JobOf(db: Db, r: ReceiptId): Option<JobRow> {
    if r in db.jobIndex && db.jobIndex[r] in db.jobs then Some(db.jobs[db.jobIndex[r]]) else None
  }

  predicate OwnedByCaller(db: Db, q: Request, r: ReceiptId) {
    r in db.receipts && db.receipts[r].owner == q.owner
  }

  /** The calls that only read. */
  function ReadNext(db: Db, q: Request, pc: Pc): Pc {
    match pc
    case LookupKey(site) =>
      if q.key.Some? && (q.companyId, q.key.value) in db.keys then LoadReplay(site, db.keys[(q.companyId, q.key.value)])
      else AfterNoReplay(site)
    case LoadReplay(site, r) =>
      if r !in db.receipts then Leave(site, Throws(Internal))
      else if !OwnedByCaller(db, q, r) then Leave(site, Throws(OwnerConflict))
      else LoadReplayJob(site, r)
    case LoadReplayJob(site, r) =>
      Leave(site, if JobOf(db, r).None? then Throws(Internal) else Returns(r, false, true))
    case LookupProcessed(last) =>
      if ImageOf(q) !in db.imageIndex then AfterNoDuplicate(last)
      else if !OwnedByCaller(db, q, db.imageIndex[ImageOf(q)]) then Gone(OwnerConflict)
      else LoadProcessedJob(last, db.imageIndex[ImageOf(q)])
    case LoadProcessedJob(last, r) =>
      if JobOf(db, r).Some? && JobOf(db, r).value.duplicateDetected then Done(r, false, false)
      else AfterNoDuplicate(last)
    case LookupImage =>
      if ImageOf(q) !in db.imageIndex then Insert
      else if !OwnedByCaller(db, q, db.imageIndex[ImageOf(q)]) then Unlock(Throws(OwnerConflict))
      else Mark(db.imageIndex[ImageOf(q)])
    case RecoverImage =>
      if ImageOf(q) !in db.imageIndex then Unlock(Throws(IntegrityViolation))
      else if !OwnedByCaller(db, q, db.imageIndex[ImageOf(q)]) then Unlock(Throws(OwnerConflict))
      else Mark(db.imageIndex[ImageOf(q)])
    case LoadMarkedJob(r) => Unlock(if JobOf(db, r).None? then Throws(Internal) else Returns(r, false, false))
    case _ => pc
  }

  /** Whether an exception now still has the lock to release. */
  function SiteOf(pc: Pc): Site {
    match pc
    case LookupKey(site) => site
    case LoadReplay(site, _) => site
    case LoadReplayJob(site, _) => site
    case LookupProcessed(_) => Outer
    case LoadProcessedJob(_, _) => Outer
    case _ => Locked
  }

  datatype LockAnswer = Granted | Refused | Broken

  /**
   What the surroundings decide: the lock and its release, the image store, the generated ids, the clock, a version
   conflict, and the database: a call may throw, and a commit may go through although its caller is told otherwise.
   */
  datatype Choice = Choice(lock: LockAnswer, released: bool, imageStored: bool, throws: bool, commitLost: bool,
                           stale: bool, receiptId: ReceiptId, jobId: JobId, createdAt: Instant, now: Instant,
                           today: Date)

  function Row(q: Request, c: Choice): NewUpload {
    NewUpload(c.receiptId, c.jobId, q.owner, q.companyId, q.imageSha256, q.key, c.createdAt, c.now)
  }

  predicate HasEnded(pc: Pc) {
    pc.Done? || pc.Gone?
  }

  predicate CanAdvance(s: State, u: Upload, c: Choice) {
    && !HasEnded(u.pc)
    && (u.pc.Insert? ==> c.receiptId !in s.db.receipts && c.jobId !in s.db.jobs)
  }

  /** The image is stored first; rows are written only once it is there. */
  function InsertNext(s: State, q: Request, c: Choice): (State, Pc) {
    if !c.imageStored then (s, Unlock(Throws(StorageFailure)))
    else if c.throws then (s, Unlock(Throws(DatabaseFailure)))
    else if Conflicts(s.db, q.companyId, q.imageSha256, q.key) then (s, LookupKey(Recovery))
    else
      var result := if c.commitLost then Throws(DatabaseFailure) else Returns(c.receiptId, true, false);
      (s.(db := Inserted(s.db, Row(q, c))), Unlock(result))
  }

  function MarkNext(s: State, r: ReceiptId, c: Choice): (State, Pc) {
    var tx := MarkDuplicate(r, c.today, c.now);
    var o := Run(s.db, tx);
    if c.throws then (s, Unlock(Throws(DatabaseFailure)))
    else if c.stale then (s, Unlock(Throws(StaleVersion)))
    else if o.Aborted? then (s, Unlock(Throws(Internal)))
    else (Committed(s, tx, o), if c.commitLost then Unlock(Throws(DatabaseFailure)) else LoadMarkedJob(r))
  }

  /** One step of one upload: the tables and its next call. */
  function Advance(s: State, u: Upload, c: Choice): (State, Pc) {
    match u.pc
    case AwaitLock =>
      (s, match c.lock
          case Granted => LookupKey(Locked)
          case Refused => LookupProcessed(Some(LockTimeout))
          case Broken => Gone(LockFailure))
    case Unlock(result) => (s, AfterUnlock(result, c.released))
    case Insert => InsertNext(s, u.request, c)
    case Mark(r) => MarkNext(s, r, c)
    case _ =>
      (s, if c.throws then Leave(SiteOf(u.pc), Throws(DatabaseFailure)) else ReadNext(s.db, u.request, u.pc))
  }

  /** The upload after that step, with what it changed. */
  function Advanced(s: State, u: Upload, c: Choice): Upload {
    var (base, pc) := Advance(s, u, c);
    Upload(u.request, pc, if base == s then u.wrote else if u.pc.Insert? then Created else Marked)
  }

  function Start(q: Request): Upload {
    Upload(q, LookupKey(Outer), Nothing)
  }

  datatype World = World(base: State, uploads: map<nat, Upload>)

  const EMPTY_WORLD := World(INITIAL, map[])

  datatype Move =
    | Begin(thread: nat, request: Request)
    | Continue(thread: nat, choice: Choice)
    | Elsewhere(step: Step)

  ghost predicate Moves(w: World, move: Move, w': World) {
    match move
    case Begin(t, q) => t !in w.uploads && w' == w.(uploads := w.uploads[t := Start(q)])
    case Continue(t, c) =>
      && t in w.uploads && CanAdvance(w.base, w.uploads[t], c)
      && var u := w.uploads[t];
         w' == World(Advance(w.base, u, c).0, w.uploads[t := Advanced(w.base, u, c)])
    case Elsewhere(step) => AtomicStep(w.base, step, w'.base) && w'.uploads == w.uploads
  }

  ghost predicate UploadRun(worlds: seq<World>, moves: seq<Move>) {
    && |worlds| == |moves| + 1 && worlds[0] == EMPTY_WORLD
    && forall i :: 0 <= i < |moves| ==> Moves(worlds[i], moves[i], worlds[i + 1])
  }

  // ---------- What an upload knows at each call ----------

  predicate HoldsImage(db: Db, q: Request, r: ReceiptId) {
    ImageOf(q) in db.imageIndex && db.imageIndex[ImageOf(q)] == r && OwnedByCaller(db, q, r)
  }

  predicate HoldsKey(db: Db, q: Request, r: ReceiptId) {
    q.key.Some? && (q.companyId, q.key.value) in db.keys && db.keys[(q.companyId, q.key.value)] == r && r in db.receipts
  }

  predicate IsMarked(db: Db, r: ReceiptId) {
    JobOf(db, r).Some? && JobOf(db, r).value.duplicateDetected
  }

  /** What may be returned: the caller's own receipt, found by its key or its image, marked unless new. */
  predicate MayReturn(db: Db, q: Request, r: ReceiptId, created: bool, replay: bool) {
    && OwnedByCaller(db, q, r) && !(created && replay)
    && (replay ==> HoldsKey(db, q, r))
    && (!replay ==> HoldsImage(db, q, r))
    && (!replay && !created ==> IsMarked(db, r))
    && (created && RecordedKey(q.key).Some? ==> HoldsKey(db, q, r))
  }

  const CAUGHT: set<Option<UploadError>> := {None, Some(OwnerConflict), Some(LockTimeout)}

  predicate Knows(db: Db, q: Request, pc: Pc) {
    match pc
    case LookupKey(site) => site == Recovery ==> Conflicts(db, q.companyId, q.imageSha256, q.key)
    case LoadReplay(_, r) => HoldsKey(db, q, r)
    case LoadReplayJob(_, r) => HoldsKey(db, q, r) && OwnedByCaller(db, q, r)
    case LookupProcessed(last) => last in CAUGHT
    case LoadProcessedJob(last, r) => last in CAUGHT && HoldsImage(db, q, r)
    case RecoverImage => ImageOf(q) in db.imageIndex
    case Mark(r) => HoldsImage(db, q, r)
    case LoadMarkedJob(r) => HoldsImage(db, q, r) && IsMarked(db, r)
    case Unlock(result) =>
      (match result
       case Returns(r, created, replay) => MayReturn(db, q, r, created, replay)
       case Throws(error) => error in {OwnerConflict, StorageFailure, DatabaseFailure, StaleVersion})
    case Done(r, created, replay) => MayReturn(db, q, r, created, replay)
    case Gone(error) =>
      error in {OwnerConflict, LockTimeout, LockFailure, UnlockFailure, StorageFailure, DatabaseFailure, StaleVersion}
    case _ => true
  }

  /** Once something was written there is only the way out: a result, a lost call, or a release that fails. */
  predicate IsLeaving(pc: Pc) {
    match pc
    case LoadMarkedJob(_) => true
    case Unlock(result) => result == Throws(DatabaseFailure) || (result.Returns? && !result.replay)
    case Done(_, _, replay) => !replay
    case Gone(error) => error in {UnlockFailure, DatabaseFailure}
    case _ => false
  }

  predicate ReturnsCreated(pc: Pc) {
    (pc.Done? && pc.created) || (pc.Unlock? && pc.result.Returns? && pc.result.created)
  }

  /** The receipt of the request's image is the caller's own, and marked if that is what was written. */
  predicate WroteOwn(db: Db, q: Request, wrote: Effect) {
    && ImageOf(q) in db.imageIndex && HoldsImage(db, q, db.imageIndex[ImageOf(q)])
    && (wrote == Marked ==> IsMarked(db, db.imageIndex[ImageOf(q)]))
    && (wrote == Created && RecordedKey(q.key).Some? ==> HoldsKey(db, q, db.imageIndex[ImageOf(q)]))
  }

  predicate Good(db: Db, u: Upload) {
    && Knows(db, u.request, u.pc)
    && (u.wrote != Nothing ==> IsLeaving(u.pc) && WroteOwn(db, u.request, u.wrote))
    && (ReturnsCreated(u.pc) ==> u.wrote == Created)
  }

  /** Nobody creates a receipt for an image that has one. */
  predicate CreatedOnce(uploads: map<nat, Upload>) {
    forall t, t' :: t in uploads && t' in uploads && CreatedSame(uploads[t], uploads[t']) ==> t == t'
  }

  predicate CreatedSame(u: Upload, v: Upload) {
    u.wrote == Created && v.wrote == Created && ImageOf(u.request) == ImageOf(v.request)
  }

  ghost predicate WorldInv(w: World) {
    && Inv(w.base)
    && (forall t :: t in w.uploads ==> Good(w.base.db, w.uploads[t]))
    && CreatedOnce(w.uploads)
  }

  /** What an upload knows stays true whatever others commit. */
  lemma KnowsLater(s: State, t: State, u: Upload)
    requires WellFormed(s.db) && WellFormed(t.db) && Later(s, t) && Good(s.db, u)
    ensures Good(t.db, u)
  {
    hide JobsIndexed, ImagesIndexed, KeysIndexed;
    ReceiptsLater(s, t);
  }

  lemma ReceiptsLater(s: State, t: State)
    requires WellFormed(s.db) && WellFormed(t.db) && Later(s, t)
    ensures forall r :: r in s.db.receipts ==> r in t.db.receipts && t.db.receipts[r].owner == s.db.receipts[r].owner
    ensures forall r :: r in s.db.receipts && IsMarked(s.db, r) ==> IsMarked(t.db, r)
  {
    forall r | r in s.db.receipts
      ensures r in t.db.receipts && t.db.receipts[r].owner == s.db.receipts[r].owner
      ensures IsMarked(s.db, r) ==> IsMarked(t.db, r)
    {
      assert Grows(FileOf(s, r), FileOf(t, r));
    }
  }

  lemma WorldLater(w: World, base: State)
    requires WorldInv(w) && Inv(base) && Later(w.base, base)
    ensures WorldInv(World(base, w.uploads))
  {
    hide WellFormed, ClaimsSound, Sound, Later, Good;
    forall t | t in w.uploads ensures Good(base.db, w.uploads[t]) {
      KnowsLater(w.base, base, w.uploads[t]);
    }
  }

  // ---------- Every step keeps it ----------

  lemma HasJob(db: Db, r: ReceiptId)
    requires WellFormed(db) && r in db.receipts
    ensures JobOf(db, r).Some?
  {}

  lemma KeyIsHeld(db: Db, q: Request)
    requires WellFormed(db) && q.key.Some? && (q.companyId, q.key.value) in db.keys
    ensures HoldsKey(db, q, db.keys[(q.companyId, q.key.value)])
  {}

  /** A reading call, whether it answers or throws. */
  lemma ReadIsGood(s: State, u: Upload, c: Choice)
    requires WellFormed(s.db) && Good(s.db, u) && CanAdvance(s, u, c)
    requires !u.pc.AwaitLock? && !u.pc.Unlock? && !u.pc.Insert? && !u.pc.Mark?
    ensures Advance(s, u, c).0 == s && Good(s.db, Advanced(s, u, c))
  {
    hide WellFormed, JobOf;
    var q := u.request;
    match u.pc
    case LookupKey(site) =>
      if q.key.Some? && (q.companyId, q.key.value) in s.db.keys {
        KeyIsHeld(s.db, q);
      }
    case LoadReplayJob(_, r) => HasJob(s.db, r);
    case LoadMarkedJob(r) => HasJob(s.db, r);
    case _ =>
  }

  lemma LockIsGood(s: State, u: Upload, c: Choice)
    requires Good(s.db, u) && (u.pc.AwaitLock? || u.pc.Unlock?)
    ensures Advance(s, u, c).0 == s && Good(s.db, Advanced(s, u, c))
  {
    hide HoldsImage, HoldsKey, IsMarked, Conflicts;
  }

  lemma InsertIsGood(s: State, u: Upload, c: Choice)
    requires Inv(s) && Good(s.db, u) && u.pc.Insert? && CanAdvance(s, u, c)
    ensures var t := Advance(s, u, c).0;
            && Inv(t) && Later(s, t) && Good(t.db, Advanced(s, u, c))
            && (t != s ==> ImageOf(u.request) !in s.db.imageIndex)
  {
    hide Sound, WellFormed, ClaimsSound, Later;
    if !c.imageStored || c.throws || Conflicts(s.db, u.request.companyId, u.request.imageSha256, u.request.key) {
      LaterReflexive(s);
    } else {
      IntakeKeepsInv(s, Row(u.request, c));
      assert c.receiptId in Advance(s, u, c).0.db.receipts;
    }
  }

  lemma MarkIsGood(s: State, u: Upload, c: Choice)
    requires Inv(s) && Good(s.db, u) && u.pc.Mark?
    ensures var t := Advance(s, u, c).0; Inv(t) && Later(s, t) && Good(t.db, Advanced(s, u, c))
  {
    hide Sound, ClaimsSound, WellFormed, Later, Run, Committed, Good, Advanced, HoldsImage;
    LaterReflexive(s);
    var tx := MarkDuplicate(u.pc.receiptId, c.today, c.now);
    assert Knows(s.db, u.request, u.pc) by { GoodKnows(s.db, u); }
    MarkFindsRows(s, tx, u.request);
    TransactKeepsInv(s, tx);
    MarkSetsFlag(s, tx);
    var t := Committed(s, tx, Run(s.db, tx));
    KnowsLater(s, t, u);
    MarkLeaves(s, t, u, c);
  }

  lemma GoodKnows(db: Db, u: Upload)
    requires Good(db, u)
    ensures Knows(db, u.request, u.pc)
  {}

  lemma MarkLeaves(s: State, t: State, u: Upload, c: Choice)
    requires Good(s.db, u) && Good(t.db, u) && u.pc.Mark? && IsMarked(t.db, u.pc.receiptId)
    requires var tx := MarkDuplicate(u.pc.receiptId, c.today, c.now);
             Run(s.db, tx).Ready? && t == Committed(s, tx, Run(s.db, tx))
    ensures Good(Advance(s, u, c).0.db, Advanced(s, u, c))
  {
    hide Run, Committed, HoldsKey, IsMarked, Conflicts, OwnedByCaller;
  }

  /** markDuplicate finds its rows, so it does not throw. */
  lemma MarkFindsRows(s: State, tx: Tx, q: Request)
    requires WellFormed(s.db) && tx.MarkDuplicate? && Knows(s.db, q, Mark(tx.receiptId))
    ensures Run(s.db, tx).Ready?
  {}

  lemma MarkSetsFlag(s: State, tx: Tx)
    requires WellFormed(s.db) && tx.MarkDuplicate? && Run(s.db, tx).Ready?
    ensures IsMarked(Committed(s, tx, Run(s.db, tx)).db, tx.receiptId)
  {
    hide Results, Route, ImagesIndexed, KeysIndexed;
  }

  /** All the cases of one step together. */
  lemma AdvanceIsGood(s: State, u: Upload, c: Choice)
    requires Inv(s) && Good(s.db, u) && CanAdvance(s, u, c)
    ensures var t := Advance(s, u, c).0;
            && Inv(t) && Later(s, t) && Good(t.db, Advanced(s, u, c))
            && (t != s && u.pc.Insert? ==> ImageOf(u.request) !in s.db.imageIndex)
  {
    hide Sound, WellFormed, ClaimsSound, Later, Good, Advance, Advanced;
    match u.pc
    case AwaitLock =>
      LaterReflexive(s);
      LockIsGood(s, u, c);
    case Unlock(_) =>
      LaterReflexive(s);
      LockIsGood(s, u, c);
    case Insert => InsertIsGood(s, u, c);
    case Mark(r) => MarkIsGood(s, u, c);
    case _ =>
      LaterReflexive(s);
      ReadIsGood(s, u, c);
  }

  lemma ContinueKeepsInv(w: World, t: nat, c: Choice)
    requires WorldInv(w) && t in w.uploads && CanAdvance(w.base, w.uploads[t], c)
    ensures var u := w.uploads[t];
            var base := Advance(w.base, u, c).0;
            WorldInv(World(base, w.uploads[t := Advanced(w.base, u, c)])) && Inv(base) && Later(w.base, base)
  {
    hide Sound, WellFormed, ClaimsSound, Later, Knows, Advance;
    var u := w.uploads[t];
    AdvanceIsGood(w.base, u, c);
    WorldLater(w, Advance(w.base, u, c).0);
    assert forall t' :: t' in w.uploads && w.uploads[t'].wrote == Created ==>
        ImageOf(w.uploads[t'].request) in w.base.db.imageIndex;
    InsertingIsNotWritten(w.base.db, u);
  }

  lemma InsertingIsNotWritten(db: Db, u: Upload)
    requires Good(db, u) && !HasEnded(u.pc)
    ensures u.pc.Insert? ==> u.wrote == Nothing
  {}

  lemma EmptyWorldIsGood()
    ensures WorldInv(EMPTY_WORLD)
  {}

  lemma {:induction false} WorldStaysGood(worlds: seq<World>, moves: seq<Move>, n: nat)
    requires UploadRun(worlds, moves) && n < |worlds|
    ensures WorldInv(worlds[n])
  {
    hide Sound, WellFormed, ClaimsSound, Later, Knows, Advance, AtomicStep;
    if n == 0 {
      EmptyWorldIsGood();
    } else {
      WorldStaysGood(worlds, moves, n - 1);
      var w := worlds[n - 1];
      assert Moves(w, moves[n - 1], worlds[n]);
      match moves[n - 1]
      case Begin(t, q) => BeginKnows(w.base.db, q);
      case Continue(t, c) => ContinueKeepsInv(w, t, c);
      case Elsewhere(step) =>
        StepKeepsInv(w.base, step, worlds[n].base);
        WorldLater(w, worlds[n].base);
    }
  }

  lemma BeginKnows(db: Db, q: Request)
    ensures Good(db, Start(q))
  {}

  // ---------- What uploads may rely on ----------

  /** Uploads of one image that were not replays all return the one receipt there is for it. */
  lemma UploadsConverge(worlds: seq<World>, moves: seq<Move>, n: nat, t: nat, t': nat)
    requires UploadRun(worlds, moves) && n < |worlds|
    requires t in worlds[n].uploads && t' in worlds[n].uploads
    requires var a, b := worlds[n].uploads[t], worlds[n].uploads[t'];
             a.pc.Done? && b.pc.Done? && !a.pc.replay && !b.pc.replay && ImageOf(a.request) == ImageOf(b.request)
    ensures worlds[n].uploads[t].pc.receiptId == worlds[n].uploads[t'].pc.receiptId
    ensures worlds[n].uploads[t].pc.created && worlds[n].uploads[t'].pc.created ==> t == t'
  {
    hide Sound, WellFormed, ClaimsSound, Moves;
    WorldStaysGood(worlds, moves, n);
    assert Good(worlds[n].base.db, worlds[n].uploads[t]) && Good(worlds[n].base.db, worlds[n].uploads[t']);
  }

  /** A finished upload returns a receipt of the caller's own; a reuse that is no replay left the duplicate mark. */
  lemma ResultsAreTheCallers(worlds: seq<World>, moves: seq<Move>, n: nat, t: nat)
    requires UploadRun(worlds, moves) && n < |worlds| && t in worlds[n].uploads && worlds[n].uploads[t].pc.Done?
    ensures var db, q, pc := worlds[n].base.db, worlds[n].uploads[t].request, worlds[n].uploads[t].pc;
            && WellFormed(db) && pc.receiptId in db.receipts
            && db.receipts[pc.receiptId].owner == q.owner && db.receipts[pc.receiptId].companyId == q.companyId
            && (!pc.replay ==> db.receipts[pc.receiptId].imageSha256 == q.imageSha256)
            && (pc.replay ==> HoldsKey(db, q, pc.receiptId))
            && (!pc.created && !pc.replay ==> FileOf(worlds[n].base, pc.receiptId).job.duplicateDetected)
  {
    hide Sound, ClaimsSound, Moves;
    WorldStaysGood(worlds, moves, n);
    assert Good(worlds[n].base.db, worlds[n].uploads[t]);
  }

  /**
   An upload that fails has changed no table, unless the lock's release or a database call failed after its commit. Then
   the caller's own receipt is stored for the image, and whoever gets a receipt for that image by its image gets this
   one.
   */
  lemma FailedUploadWroteNothing(worlds: seq<World>, moves: seq<Move>, n: nat, t: nat)
    requires UploadRun(worlds, moves) && n < |worlds| && t in worlds[n].uploads && worlds[n].uploads[t].pc.Gone?
    ensures var u, db := worlds[n].uploads[t], worlds[n].base.db;
            && u.pc.error in {OwnerConflict, LockTimeout, LockFailure, UnlockFailure, StorageFailure, DatabaseFailure,
                              StaleVersion}
            && (u.wrote != Nothing ==> u.pc.error in {UnlockFailure, DatabaseFailure})
            && (u.wrote != Nothing ==> WroteOwn(db, u.request, u.wrote) && OthersFind(worlds[n].uploads, db, u))
  {
    hide Inv, Moves, Knows, WroteOwn, HoldsImage;
    WorldStaysGood(worlds, moves, n);
    var u, db := worlds[n].uploads[t], worlds[n].base.db;
    assert Good(db, u);
    GoneIsKnown(db, u.request, u.pc);
    if u.wrote != Nothing {
      WrittenIsIndexed(db, u);
      forall t' | t' in worlds[n].uploads && FoundByImage(worlds[n].uploads[t'], u.request)
        ensures worlds[n].uploads[t'].pc.receiptId == db.imageIndex[ImageOf(u.request)]
        ensures u.wrote == Created ==> !worlds[n].uploads[t'].pc.created
      {
        var v := worlds[n].uploads[t'];
        assert Good(db, v);
        ReturnedIsIndexed(db, v);
        assert u.wrote == Created && v.pc.created ==> CreatedSame(u, v);
      }
    }
  }

  /** Every upload of this image that finds its receipt by the image finds the one stored and creates no other. */
  predicate OthersFind(uploads: map<nat, Upload>, db: Db, u: Upload)
    requires ImageOf(u.request) in db.imageIndex
  {
    forall t' :: t' in uploads && FoundByImage(uploads[t'], u.request) ==>
      && uploads[t'].pc.receiptId == db.imageIndex[ImageOf(u.request)]
      && (u.wrote == Created ==> !uploads[t'].pc.created)
  }

  predicate FoundByImage(v: Upload, q: Request) {
    v.pc.Done? && !v.pc.replay && ImageOf(v.request) == ImageOf(q)
  }

  lemma ReturnedIsIndexed(db: Db, v: Upload)
    requires Knows(db, v.request, v.pc) && v.pc.Done? && !v.pc.replay
    ensures ImageOf(v.request) in db.imageIndex && v.pc.receiptId == db.imageIndex[ImageOf(v.request)]
  {}

  lemma GoneIsKnown(db: Db, q: Request, pc: Pc)
    requires Knows(db, q, pc) && pc.Gone?
    ensures pc.error in {OwnerConflict, LockTimeout, LockFailure, UnlockFailure, StorageFailure, DatabaseFailure,
                         StaleVersion}
  {}

  lemma WrittenIsIndexed(db: Db, u: Upload)
    requires WroteOwn(db, u.request, u.wrote)
    ensures ImageOf(u.request) in db.imageIndex
  {}

  /** Such failures exist: the rows are in, then the release throws, and the caller is told of an error. */
  lemma ReleaseCanFailAfterCommit(s: State, u: Upload, c: Choice, d: Choice)
    requires u.pc.Insert? && CanAdvance(s, u, c) && c.imageStored && !c.throws && !d.released
    requires !Conflicts(s.db, u.request.companyId, u.request.imageSha256, u.request.key)
    ensures var t, v := Advance(s, u, c).0, Advanced(s, u, c);
            && t.db.imageIndex[ImageOf(u.request)] == c.receiptId && c.receiptId !in s.db.receipts
            && Advance(t, v, d).0 == t && Advanced(t, v, d).pc == Gone(UnlockFailure)
            && Advanced(t, v, d).wrote == Created
  {
    var t := Advance(s, u, c).0;
    assert c.receiptId in t.db.receipts && t != s;
  }

  // ---------- Trying again ----------

  /** An upload that runs on its own, `n` calls at most, the same answers each time. */
  function Alone(s: State, u: Upload, n: nat, c: Choice): (State, Upload)
    decreases n
  {
    if n == 0 || HasEnded(u.pc) then (s, u) else Alone(Advance(s, u, c).0, Advanced(s, u, c), n - 1, c)
  }

  predicate Undisturbed(c: Choice) {
    c.lock == Granted && c.released && !c.throws && !c.commitLost && !c.stale
  }

  predicate KeyFits(db: Db, q: Request, r: ReceiptId) {
    q.key.Some? && (q.companyId, q.key.value) in db.keys ==> db.keys[(q.companyId, q.key.value)] == r
  }

  predicate KeyIsUsed(db: Db, q: Request) {
    q.key.Some? && (q.companyId, q.key.value) in db.keys
  }

  /**
   Trying again, when no call fails, returns the caller's receipt and creates none. It is a replay exactly if the key
   was used, and a replay changes nothing; otherwise the receipt is marked as submitted twice.
   */
  lemma RetryReturnsTheReceipt(s: State, q: Request, r: ReceiptId, c: Choice)
    requires Inv(s) && HoldsImage(s.db, q, r) && KeyFits(s.db, q, r) && Undisturbed(c)
    ensures var (t, u) := Alone(s, Start(q), 10, c);
            && u.pc == Done(r, false, KeyIsUsed(s.db, q))
            && (KeyIsUsed(s.db, q) || IsMarked(s.db, r) ==> t == s)
            && (!KeyIsUsed(s.db, q) ==> IsMarked(t.db, r))
  {
    hide Sound, ClaimsSound, ImagesIndexed, KeysIndexed, Advance, Advanced;
    HasJob(s.db, r);
    var u := Start(q);
    Reads(s, u, c);
    var v := Advanced(s, u, c);
    assert Alone(s, u, 10, c) == Alone(s, v, 9, c);
    if KeyIsUsed(s.db, q) {
      ReplayReturns(s, v, r, c, 9);
    } else {
      ImageReturns(s, v, r, c);
    }
  }

  /** The first upload of an image, when no call fails, stores it: one receipt, one queued job, the key, and no more. */
  lemma FirstUploadCreates(s: State, q: Request, c: Choice)
    requires Inv(s) && Undisturbed(c) && c.imageStored && c.receiptId !in s.db.receipts && c.jobId !in s.db.jobs
    requires (forall r :: r in s.db.receipts ==>
                s.db.receipts[r].companyId != q.companyId || s.db.receipts[r].imageSha256 != q.imageSha256)
    requires !KeyIsUsed(s.db, q)
    ensures var (t, u) := Alone(s, Start(q), 7, c);
            && u.pc == Done(c.receiptId, true, false) && u.wrote == Created
            && Effects.StoresUpload(t.db, Row(q, c)) && Row(q, c).owner == q.owner
            && (forall r :: r in t.db.receipts <==> r == c.receiptId || r in s.db.receipts)
            && (forall r :: r in s.db.receipts ==> t.db.receipts[r] == s.db.receipts[r])
            && (forall j :: j in t.db.jobs <==> j == c.jobId || j in s.db.jobs)
            && (forall j :: j in s.db.jobs ==> t.db.jobs[j] == s.db.jobs[j])
  {
    hide Sound, ClaimsSound, JobsIndexed, KeysIndexed, Advance, Advanced;
    NewImageIsNotIndexed(s, q);
    var u0 := Start(q);
    Reads(s, u0, c);
    var u1 := Upload(q, LookupProcessed(None), Nothing);
    Reads(s, u1, c);
    var u2 := Upload(q, AwaitLock, Nothing);
    LockAnswers(s, u2, c);
    assert Advanced(s, u2, c) == Upload(q, LookupKey(Locked), Nothing) by { LockAdvances(s, u2, c); }
    var u3 := Upload(q, LookupKey(Locked), Nothing);
    Reads(s, u3, c);
    var u4 := Upload(q, LookupImage, Nothing);
    Reads(s, u4, c);
    var u5 := Upload(q, Insert, Nothing);
    assert Alone(s, u0, 7, c) == Alone(s, u1, 6, c) == Alone(s, u2, 5, c) == Alone(s, u3, 4, c);
    assert Alone(s, u3, 4, c) == Alone(s, u4, 3, c) == Alone(s, u5, 2, c);
    InsertReturns(s, u5, c);
  }

  lemma NewImageIsNotIndexed(s: State, q: Request)
    requires Inv(s)
    requires (forall r :: r in s.db.receipts ==>
                s.db.receipts[r].companyId != q.companyId || s.db.receipts[r].imageSha256 != q.imageSha256)
    ensures ImageOf(q) !in s.db.imageIndex
  {
    hide Inv;
    Effects.RefusedIff(s, q.companyId, q.imageSha256, None);
  }

  lemma LockAdvances(s: State, u: Upload, c: Choice)
    requires Undisturbed(c) && u.pc.AwaitLock?
    ensures Advanced(s, u, c) == Upload(u.request, LookupKey(Locked), u.wrote)
  {}

  lemma InsertReturns(s: State, u: Upload, c: Choice)
    requires Undisturbed(c) && c.imageStored && u.pc.Insert? && u.wrote == Nothing
    requires c.receiptId !in s.db.receipts && c.jobId !in s.db.jobs
    requires ImageOf(u.request) !in s.db.imageIndex && !KeyIsUsed(s.db, u.request)
    ensures var t := s.(db := Inserted(s.db, Row(u.request, c)));
            Alone(s, u, 2, c) == (t, Upload(u.request, Done(c.receiptId, true, false), Created))
    ensures Effects.StoresUpload(Inserted(s.db, Row(u.request, c)), Row(u.request, c))
  {
    var t := s.(db := Inserted(s.db, Row(u.request, c)));
    assert c.receiptId in t.db.receipts && t != s;
    var v := Upload(u.request, Unlock(Returns(c.receiptId, true, false)), Created);
    assert Advance(s, u, c) == (t, v.pc);
    assert Alone(s, u, 2, c) == Alone(t, v, 1, c);
  }

  /** Somebody else's image, or key, is refused at once, and nothing changes. */
  lemma ForeignReceiptIsRefused(s: State, q: Request, c: Choice)
    requires Inv(s) && Undisturbed(c)
    requires if KeyIsUsed(s.db, q) then s.db.receipts[s.db.keys[(q.companyId, q.key.value)]].owner != q.owner
             else ImageOf(q) in s.db.imageIndex && s.db.receipts[s.db.imageIndex[ImageOf(q)]].owner != q.owner
    ensures Alone(s, Start(q), 2, c) == (s, Upload(q, Gone(OwnerConflict), Nothing))
  {
    hide Inv, Advance, Advanced;
    var u := Start(q);
    Reads(s, u, c);
    var v := Advanced(s, u, c);
    IndexedIsStored(s, q);
    Reads(s, v, c);
    assert Alone(s, u, 2, c) == Alone(s, v, 1, c) == Alone(s, Advanced(s, v, c), 0, c);
  }

  lemma IndexedIsStored(s: State, q: Request)
    requires Inv(s)
    ensures KeyIsUsed(s.db, q) ==> s.db.keys[(q.companyId, q.key.value)] in s.db.receipts
    ensures ImageOf(q) in s.db.imageIndex ==> s.db.imageIndex[ImageOf(q)] in s.db.receipts
  {
    hide Sound, ClaimsSound, JobsIndexed;
  }

  /** An insert that loses a race for the image converges on the receipt that won, and marks it. */
  lemma LostRaceIsRecovered(s: State, u: Upload, r: ReceiptId, c: Choice)
    requires Inv(s) && u.pc.Insert? && HoldsImage(s.db, u.request, r) && !KeyIsUsed(s.db, u.request)
    requires Undisturbed(c) && c.imageStored
    ensures Alone(s, u, 7, c).1.pc == Done(r, false, false) && IsMarked(Alone(s, u, 7, c).0.db, r)
  {
    hide Inv, Advance, Advanced;
    var q := u.request;
    var v := Upload(q, LookupKey(Recovery), u.wrote);
    LostInsert(s, u, c);
    Reads(s, v, c);
    var w := Upload(q, RecoverImage, u.wrote);
    Reads(s, w, c);
    var x := Upload(q, Mark(r), u.wrote);
    assert Alone(s, u, 7, c) == Alone(s, v, 6, c) == Alone(s, w, 5, c) == Alone(s, x, 4, c);
    MarkReturns(s, x, r, c);
  }

  lemma LostInsert(s: State, u: Upload, c: Choice)
    requires u.pc.Insert? && Undisturbed(c) && c.imageStored && ImageOf(u.request) in s.db.imageIndex
    ensures Advance(s, u, c) == (s, LookupKey(Recovery))
    ensures Advanced(s, u, c) == Upload(u.request, LookupKey(Recovery), u.wrote)
  {}

  /** A caught conflict is answered with the caller's processed duplicate if there is one by then, else thrown. */
  lemma CaughtConflictConverges(s: State, u: Upload, last: UploadError, r: ReceiptId, c: Choice)
    requires u.pc == LookupProcessed(Some(last)) && HoldsImage(s.db, u.request, r) && Undisturbed(c)
    ensures Alone(s, u, 2, c).0 == s
    ensures Alone(s, u, 2, c).1.pc == if IsMarked(s.db, r) then Done(r, false, false) else Gone(last)
  {
    var v := Upload(u.request, LoadProcessedJob(Some(last), r), u.wrote);
    assert Advanced(s, u, c) == v;
    assert Alone(s, u, 2, c) == Alone(s, v, 1, c);
  }

  /** A conflict under the lock is caught once the lock is released; other exceptions are not. */
  lemma OnlyConflictsAreCaught(s: State, u: Upload, c: Choice)
    requires u.pc.Unlock? && u.pc.result.Throws?
    ensures Advanced(s, u, c).pc == if !c.released then Gone(UnlockFailure)
                                    else if u.pc.result.error == OwnerConflict then LookupProcessed(Some(OwnerConflict))
                                    else Gone(u.pc.result.error)
    ensures Advance(s, u, c).0 == s
  {}

  /** When the lock is not granted and nobody has stored the image, the upload ends without it. */
  lemma RefusedLockEndsUpload(s: State, q: Request, c: Choice)
    requires c.lock == LockAnswer.Refused && !c.throws && ImageOf(q) !in s.db.imageIndex && !KeyIsUsed(s.db, q)
    ensures Alone(s, Start(q), 4, c) == (s, Upload(q, Gone(LockTimeout), Nothing))
  {
    var u1 := Upload(q, LookupProcessed(None), Nothing);
    var u2 := Upload(q, AwaitLock, Nothing);
    var u3 := Upload(q, LookupProcessed(Some(LockTimeout)), Nothing);
    assert Advanced(s, Start(q), c) == u1 && Advanced(s, u1, c) == u2 && Advanced(s, u2, c) == u3;
    assert Alone(s, Start(q), 4, c) == Alone(s, u1, 3, c) == Alone(s, u2, 2, c) == Alone(s, u3, 1, c);
  }

  lemma Reads(s: State, u: Upload, c: Choice)
    requires Undisturbed(c) && !HasEnded(u.pc)
    requires !u.pc.AwaitLock? && !u.pc.Unlock? && !u.pc.Insert? && !u.pc.Mark?
    ensures Advance(s, u, c) == (s, ReadNext(s.db, u.request, u.pc))
    ensures Advanced(s, u, c) == Upload(u.request, ReadNext(s.db, u.request, u.pc), u.wrote)
  {}

  lemma ReplayReturns(s: State, u: Upload, r: ReceiptId, c: Choice, n: nat)
    requires u.pc == LoadReplay(Outer, r) && OwnedByCaller(s.db, u.request, r) && JobOf(s.db, r).Some?
    requires Undisturbed(c) && n >= 2
    ensures Alone(s, u, n, c).0 == s && Alone(s, u, n, c).1.pc == Done(r, false, true)
  {
    hide Advance, Advanced, JobOf;
    Reads(s, u, c);
    var v := Advanced(s, u, c);
    Reads(s, v, c);
    assert Alone(s, u, n, c) == Alone(s, v, n - 1, c) == Alone(s, Advanced(s, v, c), n - 2, c);
  }

  lemma ImageReturns(s: State, u: Upload, r: ReceiptId, c: Choice)
    requires Inv(s) && u.pc == LookupProcessed(None) && HoldsImage(s.db, u.request, r) && JobOf(s.db, r).Some?
    requires !(u.request.key.Some? && (u.request.companyId, u.request.key.value) in s.db.keys) && Undisturbed(c)
    ensures var (t, v) := Alone(s, u, 9, c);
            v.pc == Done(r, false, false) && IsMarked(t.db, r) && (IsMarked(s.db, r) ==> t == s)
  {
    hide Inv, Advance, Advanced, JobOf;
    Reads(s, u, c);
    var v := Advanced(s, u, c);
    Reads(s, v, c);
    var w := Advanced(s, v, c);
    assert Alone(s, u, 9, c) == Alone(s, v, 8, c) == Alone(s, w, 7, c);
    if !JobOf(s.db, r).value.duplicateDetected {
      LockedReturns(s, w, r, c);
    }
  }

  lemma LockedReturns(s: State, u: Upload, r: ReceiptId, c: Choice)
    requires Inv(s) && u.pc == AwaitLock && HoldsImage(s.db, u.request, r)
    requires !(u.request.key.Some? && (u.request.companyId, u.request.key.value) in s.db.keys) && Undisturbed(c)
    ensures Alone(s, u, 7, c).1.pc == Done(r, false, false) && IsMarked(Alone(s, u, 7, c).0.db, r)
  {
    hide Inv, Advance, JobOf, Run, Committed;
    var q := u.request;
    var v := Upload(q, LookupKey(Locked), u.wrote);
    assert Advance(s, u, c) == (s, v.pc) by { LockAnswers(s, u, c); }
    Reads(s, v, c);
    var w := Upload(q, LookupImage, u.wrote);
    Reads(s, w, c);
    var x := Upload(q, Mark(r), u.wrote);
    assert Alone(s, u, 7, c) == Alone(s, v, 6, c) == Alone(s, w, 5, c) == Alone(s, x, 4, c);
    MarkReturns(s, x, r, c);
  }

  lemma LockAnswers(s: State, u: Upload, c: Choice)
    requires Undisturbed(c)
    ensures u.pc.AwaitLock? ==> Advance(s, u, c) == (s, LookupKey(Locked))
    ensures u.pc.Unlock? ==> Advance(s, u, c) == (s, AfterUnlock(u.pc.result, true))
  {}

  lemma MarkReturns(s: State, u: Upload, r: ReceiptId, c: Choice)
    requires Inv(s) && u.pc == Mark(r) && HoldsImage(s.db, u.request, r) && Undisturbed(c)
    ensures Alone(s, u, 4, c).1.pc == Done(r, false, false) && IsMarked(Alone(s, u, 4, c).0.db, r)
  {
    hide Sound, ClaimsSound, Run, Committed, WellFormed, Later, Advance;
    var tx := MarkDuplicate(r, c.today, c.now);
    MarkFindsRows(s, tx, u.request);
    TransactKeepsInv(s, tx);
    MarkSetsFlag(s, tx);
    var t := Committed(s, tx, Run(s.db, tx));
    assert Advance(s, u, c) == (t, LoadMarkedJob(r)) by { MarkAnswers(s, u, r, c); }
    var v := Advanced(s, u, c);
    Reads(t, v, c);
    var w := Advanced(t, v, c);
    LockAnswers(t, w, c);
    assert Alone(s, u, 4, c) == Alone(t, v, 3, c) == Alone(t, w, 2, c) == Alone(t, Advanced(t, w, c), 1, c);
  }

  lemma MarkAnswers(s: State, u: Upload, r: ReceiptId, c: Choice)
    requires u.pc == Mark(r) && Undisturbed(c) && Run(s.db, MarkDuplicate(r, c.today, c.now)).Ready?
    ensures var tx := MarkDuplicate(r, c.today, c.now);
            Advance(s, u, c) == (Committed(s, tx, Run(s.db, tx)), LoadMarkedJob(r))
  {}

  /** One receipt per company and image, and with it exactly one job and one UPLOADED event. */
  lemma OneReceiptPerImage(worlds: seq<World>, moves: seq<Move>, n: nat, r: ReceiptId, r': ReceiptId)
    requires UploadRun(worlds, moves) && n < |worlds|
    requires r in worlds[n].base.db.receipts && r' in worlds[n].base.db.receipts
    ensures WellFormed(worlds[n].base.db)
    ensures ImageKey(worlds[n].base.db.receipts[r]) == ImageKey(worlds[n].base.db.receipts[r']) ==> r == r'
    ensures exists j :: j in worlds[n].base.db.jobs && worlds[n].base.db.jobs[j].receiptId == r
    ensures forall j :: j in worlds[n].base.db.jobs && worlds[n].base.db.jobs[j].receiptId == r ==>
                          j == worlds[n].base.db.jobIndex[r]
    ensures Count(worlds[n].base.db.audit[r], Uploaded) == 1
  {
    hide Moves, ClaimsSound, RowsAgree, LogTellsReceipt, DuplicateRecorded, StatusMeansIt, ReviewedIndependently;
    WorldStaysGood(worlds, moves, n);
    var db := worlds[n].base.db;
    assert db.jobs[db.jobIndex[r]].receiptId == r;
    assert AttemptsAccounted(FileOf(worlds[n].base, r));
  }
}
