/**
 One receipt's file: its receipt row, its job row, its audit events and, as a ghost count, the claims given back.
 Every committed transaction is one action on one file; the invariants below hold of a file after any actions.
 */
module CaseFile {
  import opened Domain
  import opened ReceiptContent
  import Corrections
  import opened Validation
  import opened Job
  import opened ReceiptEntity
  import opened Database
  import opened Transactions

  datatype File = File(job: JobRow, receipt: ReceiptRow, events: seq<AuditEvent>, releases: nat)

  datatype Action =
    | Exec(tx: Tx)
    | Claiming(workerId: string, token: Token, now: Instant, until: Instant)
    | Recovering(now: Instant)

  function ClaimEvent(now: Instant): AuditEvent {
    SystemEvent(now, JobClaimed, None, None, NoDetails)
  }

  function RecoveryEvent(now: Instant): AuditEvent {
    SystemEvent(now, JobRecovered, None, None, NoDetails)
  }

  function UploadEvent(owner: Option<EmployeeId>, at: Instant): AuditEvent {
    AuditEvent(at, if owner.Some? then Human(owner.value) else System, Uploaded, None, None, NoDetails)
  }

  function NewFile(id: ReceiptId, receipt: ReceiptRow, now: Instant): File {
    File(NewJob(id, now), receipt, [UploadEvent(receipt.owner, receipt.createdAt)], 0)
  }

  predicate Enabled(f: File, act: Action) {
    match act
    case Exec(tx) =>
      && PlanOn(f.job, f.receipt, tx).Planned? && BringsConstructed(tx)
      && (tx.ScheduleRetry? ==> f.job.attemptCount < MAX_ATTEMPTS)
    case Claiming(_, _, _, _) => IsWaiting(f.job.status)
    case Recovering(now) => f.job.IsExpired(now)
  }

  function Apply(f: File, change: Change): File {
    f.(job := if change.job.Some? then BumpedJob(change.job.value) else f.job,
       receipt := if change.receipt.Some? then StoredReceipt(change.receipt.value) else f.receipt,
       events := f.events + change.events)
  }

  function Act(f: File, act: Action): File
    requires Enabled(f, act)
  {
    match act
    case Exec(tx) =>
      var g := Apply(f, PlanOn(f.job, f.receipt, tx).change);
      if tx.Release? then g.(releases := f.releases + 1) else g
    case Claiming(workerId, token, now, until) =>
      f.(job := BumpedJob(f.job.Claimed(workerId, token, now, until)), events := f.events + [ClaimEvent(now)])
    case Recovering(now) =>
      f.(job := BumpedJob(f.job.Requeued(now)), events := f.events + [RecoveryEvent(now)])
  }

  // ---------- Reading the audit log ----------

  function Count(events: seq<AuditEvent>, action: AuditAction): nat {
    if events == [] then 0
    else Count(events[..|events| - 1], action) + (if events[|events| - 1].action == action then 1 else 0)
  }

  /** The receipt as the log tells it: status, contents as they were last written, and number of changes. */
  datatype Story = Story(status: Option<ReceiptStatus>, data: Option<ReceiptData>, changes: nat)

  /** An event continues the story if it starts from the status, and from what a reader sees of the contents, so far. */
  function Continue(s: Option<Story>, e: AuditEvent): Option<Story> {
    if s.None? then None
    else if e.details.Correction? && e.details.before != ReadBack(s.value.data) then None
    else
      var data := match e.details
        case Proposed(d) => d
        case Correction(_, after, _) => Some(after)
        case _ => s.value.data;
      if e.newStatus.None? then Some(s.value.(data := data))
      else if e.previousStatus != s.value.status then None
      else Some(Story(e.newStatus, data, s.value.changes + 1))
  }

  function Replay(events: seq<AuditEvent>): Option<Story> {
    if events == [] then Some(Story(None, None, 0))
    else Continue(Replay(events[..|events| - 1]), events[|events| - 1])
  }

  /** Who made the last correction, if any was made. */
  function LastCorrector(events: seq<AuditEvent>): Option<Actor> {
    if events == [] then None
    else if events[|events| - 1].action == FieldsCorrected then Some(events[|events| - 1].actor)
    else LastCorrector(events[..|events| - 1])
  }

  /** The three readings of a log after one more event. */
  lemma AfterOne(events: seq<AuditEvent>, e: AuditEvent)
    ensures forall a :: Count(events + [e], a) == Count(events, a) + (if e.action == a then 1 else 0)
    ensures Replay(events + [e]) == Continue(Replay(events), e)
    ensures LastCorrector(events + [e]) == if e.action == FieldsCorrected then Some(e.actor) else LastCorrector(events)
  {
    assert (events + [e])[..|events|] == events;
  }

  // ---------- Invariants of a file ----------

  /** The receipt has a business status exactly when its job is finished; the lease fields match the job status. */
  predicate RowsAgree(f: File) {
    && (f.receipt.status.None? <==> !IsFinished(f.job.status))
    && LeaseMatchesStatus(f.job)
    && (f.receipt.status.None? ==>
          f.receipt.originalData.None? && f.receipt.currentData.None? && f.receipt.ruleResults == [])
    && IsAsRead(f.receipt)
  }

  /** A row holds its contents as they are read; reading them once more changes nothing. */
  predicate IsAsRead(r: ReceiptRow) {
    ReadBack(r.originalData) == r.originalData && ReadBack(r.currentData) == r.currentData
  }

  /** Replaying the log reproduces the receipt, its version included; the contents once they are read. */
  predicate LogTellsReceipt(f: File) {
    && (forall i :: 0 <= i < |f.events| ==> WritesConstructed(f.events[i]))
    && Replay(f.events).Some? && Tells(Replay(f.events).value, f.receipt)
  }

  predicate Tells(s: Story, r: ReceiptRow) {
    s.status == r.status && s.changes == r.version && ReadBack(s.data) == r.currentData
  }

  predicate WritesConstructed(e: AuditEvent) {
    match e.details
    case Proposed(d) => HoldsConstructed(d)
    case Correction(_, after, _) => IsConstructed(after)
    case _ => true
  }

  /** The original contents are those of the one completed extraction, as they are read; without one there are none. */
  predicate OriginalIsLogged(f: File) {
    && (forall i :: 0 <= i < |f.events| && f.events[i].action == ExtractionCompleted ==>
          f.events[i].details.Proposed? && ReadBack(f.events[i].details.data) == f.receipt.originalData)
    && (Count(f.events, ExtractionCompleted) == 0 ==> f.receipt.originalData == None)
  }

  /** The attempts that did not end in a result or a failure, or have not ended yet. */
  function Busy(status: JobStatus): nat {
    if IsWaiting(status) then 0 else 1
  }

  /** Where every attempt went, and how many of each final event there can be. */
  predicate AttemptsAccounted(f: File) {
    && f.job.attemptCount
       == Count(f.events, RetryScheduled) + Count(f.events, JobRecovered) + f.releases + Busy(f.job.status)
    && f.job.attemptCount == Count(f.events, JobClaimed)
    && Count(f.events, RetryScheduled) <= MAX_ATTEMPTS - 1
    && Count(f.events, QualityRejected) + Count(f.events, ValidationCompleted) + Count(f.events, ExtractionFailed)
       == (if IsFinished(f.job.status) then 1 else 0)
    && Count(f.events, ExtractionCompleted) == Count(f.events, ValidationCompleted)
    && Count(f.events, ExtractionFailed) == (if f.job.status == JobStatus.Failed then 1 else 0)
    && Count(f.events, Uploaded) == 1
  }

  /** The duplicate mark came in time for the rules: before an extraction that completed, or after the job ended. */
  predicate MarkReachedRules(f: File) {
    || (f.job.duplicateDetected && Count(f.events, ExtractionCompleted) > 0)
    || MarkedAfterEnd(f.events)
  }

  predicate MarkedAfterEnd(events: seq<AuditEvent>) {
    exists i :: 0 <= i < |events| && events[i].action == DuplicateDetected && events[i].newStatus.Some?
  }

  /** The duplicate mark is recorded once, and the rules show it exactly when it reached them. */
  predicate DuplicateRecorded(f: File) {
    && Count(f.events, DuplicateDetected) == (if f.job.duplicateDetected then 1 else 0)
    && (f.receipt.status.None? ==> !MarkedAfterEnd(f.events))
    && (f.receipt.status.Some? ==>
          (Validation.Failed(f.receipt.ruleResults, DuplicateSubmission) <==> MarkReachedRules(f)))
    && (MarkedAfterEnd(f.events) ==> f.job.duplicateDetected)
  }

  /** The rules on file are a verdict on the contents as they were written, and nothing in it failed. */
  ghost predicate PassedAllRules(r: ReceiptRow) {
    exists written: ReceiptData, today: Date :: PassedWith(r, written, today)
  }

  predicate PassedWith(r: ReceiptRow, written: ReceiptData, today: Date) {
    && IsConstructed(written) && r.currentData == ReadBack(Some(written))
    && r.ruleResults == Results(Some(written), false, today) && IsClean(written, today)
  }

  ghost predicate StatusMeansIt(f: File) {
    && (f.receipt.status == Some(AutoApproved) ==> PassedAllRules(f.receipt))
    && (f.receipt.status == Some(Approved) ==> HasEssentials(f.receipt.currentData))
  }

  /** Whether the verdict is also one on the row as it is read: exactly if the shop name written was not blank. */
  predicate VerdictAsRead(r: ReceiptRow, written: ReceiptData, today: Date) {
    && r.currentData.Some? && written.shopName.Some?
    && (r.currentData.value.shopName.Some? <==> !IsBlank(written.shopName.value))
    && (IsClean(r.currentData.value, today) <==> !IsBlank(written.shopName.value))
    && (r.ruleResults == Results(r.currentData, false, today) <==> !IsBlank(written.shopName.value))
  }

  lemma PassedAsReadIff(r: ReceiptRow, written: ReceiptData, today: Date)
    requires PassedWith(r, written, today)
    ensures VerdictAsRead(r, written, today)
  {
    hide Results, IsBlank, IsConstructed;
    VerdictHoldsAsReadIff(written, today);
  }

  predicate ByOther(r: ReceiptRow, actor: Actor) {
    actor.Human? && r.owner.Some? && actor.id != r.owner.value
  }

  predicate IsReview(action: AuditAction) {
    action == ReviewApproved || action == ReviewRejected
  }

  predicate IsHumanAction(action: AuditAction) {
    IsReview(action) || action == FieldsCorrected
  }

  /** Nobody decides on their own receipt, and ownerless receipts are left alone. */
  predicate ReviewedIndependently(f: File) {
    && (forall i :: 0 <= i < |f.events| && IsReview(f.events[i].action) ==> ByOther(f.receipt, f.events[i].actor))
    && (forall i :: 0 <= i < |f.events| && IsHumanAction(f.events[i].action) ==> f.receipt.owner.Some?)
    && (forall i :: 0 <= i < |f.events| ==>
          (f.events[i].actor.Human? <==>
             IsHumanAction(f.events[i].action) || (f.events[i].action == Uploaded && f.receipt.owner.Some?)))
    && (f.receipt.status.None? ==> LastCorrector(f.events).None?)
    && (f.receipt.status == Some(AutoApproved) ==>
          LastCorrector(f.events).None? || ByOther(f.receipt, LastCorrector(f.events).value))
    && (f.receipt.status == Some(Approved) <==> Count(f.events, ReviewApproved) == 1)
    && (f.receipt.status == Some(Rejected) <==> Count(f.events, ReviewRejected) == 1)
    && Count(f.events, ReviewApproved) + Count(f.events, ReviewRejected) <= 1
  }

  ghost predicate Sound(f: File) {
    && RowsAgree(f) && LogTellsReceipt(f) && AttemptsAccounted(f) && DuplicateRecorded(f)
    && StatusMeansIt(f) && ReviewedIndependently(f) && OriginalIsLogged(f)
  }

  // ---------- They hold at first and after every action ----------

  lemma NewFileIsSound(id: ReceiptId, receipt: ReceiptRow, now: Instant)
    requires receipt == NewReceipt(receipt.owner, receipt.companyId, receipt.imageSha256, receipt.createdAt)
    ensures Sound(NewFile(id, receipt, now))
  {
    var e := UploadEvent(receipt.owner, receipt.createdAt);
    var f := NewFile(id, receipt, now);
    FirstEvent(e);
    assert f.events == [e];
    assert LogTellsReceipt(f);
    assert AttemptsAccounted(f);
    assert DuplicateRecorded(f) by { assert !MarkedAfterEnd([e]); }
    assert ReviewedIndependently(f);
    assert OriginalIsLogged(f);
  }

  lemma FirstEvent(e: AuditEvent)
    ensures forall a :: Count([e], a) == (if e.action == a then 1 else 0)
    ensures Replay([e]) == Continue(Some(Story(None, None, 0)), e)
    ensures e.action != FieldsCorrected ==> LastCorrector([e]) == None
  {
    assert [] + [e] == [e];
    AfterOne([], e);
  }

  /** The events an action adds: none, one or two. */
  function Added(f: File, act: Action): seq<AuditEvent>
    requires Enabled(f, act)
  {
    match act
    case Exec(tx) => PlanOn(f.job, f.receipt, tx).change.events
    case Claiming(_, _, now, _) => [ClaimEvent(now)]
    case Recovering(now) => [RecoveryEvent(now)]
  }

  function CountIn(added: seq<AuditEvent>, action: AuditAction): nat {
    (if |added| > 0 && added[0].action == action then 1 else 0)
    + (if |added| > 1 && added[1].action == action then 1 else 0)
  }

  lemma ActionAppends(f: File, act: Action)
    requires Enabled(f, act)
    ensures |Added(f, act)| <= 2
    ensures Act(f, act).events == f.events + Added(f, act)
  {
    hide Results, Route, Corrections.Applied, ReadBack;
  }

  lemma AfterAction(f: File, act: Action)
    requires Enabled(f, act)
    ensures |Added(f, act)| <= 2
    ensures Act(f, act).events == f.events + Added(f, act)
    ensures var g, added := Act(f, act), Added(f, act);
            && (forall a :: Count(g.events, a) == Count(f.events, a) + CountIn(added, a))
            && Replay(g.events) == ContinueAll(Replay(f.events), added)
  {
    hide Act, Added, Enabled;
    var g, added := Act(f, act), Added(f, act);
    ActionAppends(f, act);
    if added == [] {
      assert f.events + added == f.events;
    } else if |added| == 1 {
      assert added == [added[0]];
      AfterOne(f.events, added[0]);
    } else {
      assert f.events + added == f.events + [added[0]] + [added[1]];
      AfterOne(f.events, added[0]);
      AfterOne(f.events + [added[0]], added[1]);
    }
  }

  lemma RowsAgreeKept(f: File, act: Action)
    requires RowsAgree(f) && Enabled(f, act)
    ensures RowsAgree(Act(f, act))
  {
    hide IsAsRead, Results, Route, Corrections.Applied, HasEssentials, IsClean, ReadBack;
    IsAsReadKept(f, act);
    if act.Exec? && UsesClaim(act.tx) {
      ResultRowsAgree(f, act);
    } else if act.Exec? {
      PeopleRowsAgree(f, act);
    }
  }

  /** The part of the agreement that looks at statuses and leases. */
  predicate StatusesAgree(f: File) {
    && (f.receipt.status.None? <==> !IsFinished(f.job.status)) && LeaseMatchesStatus(f.job)
    && (f.receipt.status.None? ==>
          f.receipt.originalData.None? && f.receipt.currentData.None? && f.receipt.ruleResults == [])
  }

  lemma ResultRowsAgree(f: File, act: Action)
    requires StatusesAgree(f) && Enabled(f, act) && act.Exec? && UsesClaim(act.tx)
    ensures StatusesAgree(Act(f, act))
  {
    hide Results, Route;
  }

  lemma PeopleRowsAgree(f: File, act: Action)
    requires StatusesAgree(f) && Enabled(f, act) && act.Exec? && !UsesClaim(act.tx)
    ensures StatusesAgree(Act(f, act))
  {
    hide Results, Route, Corrections.Applied, HasEssentials;
  }

  /** Whatever is written was made by the constructor or had been read before, so the stored row reads as it is. */
  lemma IsAsReadKept(f: File, act: Action)
    requires IsAsRead(f.receipt) && Enabled(f, act)
    ensures IsAsRead(Act(f, act).receipt)
  {
    hide Results, Route, Corrections.Applied, ReadBack, IsConstructed, HasEssentials, IsClean;
    if act.Exec? && act.tx.CompleteExtraction? {
      ReadBackTwice(act.tx.data);
    } else if act.Exec? && act.tx.CorrectFields? {
      var after := Corrections.Applied(act.tx.corrections, f.receipt.currentData);
      Corrections.AppliedIsConstructed(act.tx.corrections, f.receipt.currentData);
      ReadBackTwice(Some(after));
    } else {
      ReadBackTwice(None);
    }
  }

  function Actions(events: seq<AuditEvent>): seq<AuditAction>
    requires |events| <= 2
  {
    if |events| == 0 then [] else if |events| == 1 then [events[0].action] else [events[0].action, events[1].action]
  }

  /** An action as the attempt count sees it: the job status before and after, and what it logs. */
  predicate Moves(f: File, g: File, from: bool, to: JobStatus, logged: seq<AuditAction>) {
    && (from ==> f.job.status == Processing)
    && g.job.status == to
    && g.job.attemptCount == f.job.attemptCount
    && g.releases == f.releases
    && |g.events| == |f.events| + |logged|
  }

  /** How each action moves the job. */
  predicate JobMove(f: File, g: File, act: Action, logged: seq<AuditAction>) {
    match act
    case Claiming(_, _, _, _) =>
      IsWaiting(f.job.status) && g.job.status == Processing && g.job.attemptCount == f.job.attemptCount + 1
      && g.releases == f.releases && logged == [JobClaimed]
    case Recovering(_) => Moves(f, g, true, Queued, logged) && logged == [JobRecovered]
    case Exec(tx) =>
      match tx
      case CompleteQualityRejection(_, _, _) => Moves(f, g, true, Completed, logged) && logged == [QualityRejected]
      case CompleteExtraction(_, _, _, _, _) =>
        Moves(f, g, true, Completed, logged) && logged == [ExtractionCompleted, ValidationCompleted]
      case ScheduleRetry(_, _, _, _) =>
        Moves(f, g, true, RetryWait, logged) && logged == [RetryScheduled] && f.job.attemptCount < MAX_ATTEMPTS
      case FailExtraction(_, _, _) => Moves(f, g, true, JobStatus.Failed, logged) && logged == [ExtractionFailed]
      case Release(_, _) =>
        f.job.status == Processing && g.job.status == Queued && g.job.attemptCount == f.job.attemptCount
        && g.releases == f.releases + 1 && logged == []
      case MarkDuplicate(_, _, _) =>
        Moves(f, g, false, f.job.status, logged) && (logged == [] || logged == [DuplicateDetected])
      case CorrectFields(_, _, _, _, _, _) => Moves(f, g, false, f.job.status, logged) && logged == [FieldsCorrected]
      case Decide(_, _, decision, _, _) =>
        Moves(f, g, false, f.job.status, logged)
        && logged == [if decision == Approve then ReviewApproved else ReviewRejected]
  }

  lemma MoveOf(f: File, act: Action)
    requires Enabled(f, act)
    ensures |Added(f, act)| <= 2 && JobMove(f, Act(f, act), act, Actions(Added(f, act)))
  {}

  function CountActions(logged: seq<AuditAction>, action: AuditAction): nat {
    (if |logged| > 0 && logged[0] == action then 1 else 0) + (if |logged| > 1 && logged[1] == action then 1 else 0)
  }

  lemma CountAfter(f: File, act: Action, action: AuditAction)
    requires Enabled(f, act)
    ensures |Added(f, act)| <= 2
    ensures Count(Act(f, act).events, action) == Count(f.events, action) + CountActions(Actions(Added(f, act)), action)
  {
    hide Enabled, Act, Added, Count, Replay;
    AfterAction(f, act);
  }

  lemma AttemptsAccountedKept(f: File, act: Action)
    requires AttemptsAccounted(f) && Enabled(f, act)
    ensures AttemptsAccounted(Act(f, act))
  {
    MoveOf(f, act);
    CountAfter(f, act, RetryScheduled);
    CountAfter(f, act, JobRecovered);
    CountAfter(f, act, JobClaimed);
    CountAfter(f, act, QualityRejected);
    CountAfter(f, act, ValidationCompleted);
    CountAfter(f, act, ExtractionFailed);
    CountAfter(f, act, ExtractionCompleted);
    CountAfter(f, act, Uploaded);
    AccountsBalance(f, Act(f, act), act, Actions(Added(f, act)));
  }

  /** A retry is scheduled only while at most one attempt was retried, recovered or given back. */
  lemma RetryNeedsQuietJob(f: File, tx: Tx)
    requires AttemptsAccounted(f) && Enabled(f, Exec(tx)) && tx.ScheduleRetry?
    ensures Count(f.events, RetryScheduled) + Count(f.events, JobRecovered) + f.releases <= MAX_ATTEMPTS - 2
  {}

  lemma AccountsBalance(f: File, g: File, act: Action, logged: seq<AuditAction>)
    requires AttemptsAccounted(f) && JobMove(f, g, act, logged)
    requires forall a | a in {RetryScheduled, JobRecovered, JobClaimed, QualityRejected, ValidationCompleted,
                              ExtractionFailed, ExtractionCompleted, Uploaded} ::
               Count(g.events, a) == Count(f.events, a) + CountActions(logged, a)
    ensures AttemptsAccounted(g)
  {
    var watched := {RetryScheduled, JobRecovered, JobClaimed, QualityRejected, ValidationCompleted,
                    ExtractionFailed, ExtractionCompleted, Uploaded};
    assert RetryScheduled in watched && JobRecovered in watched && JobClaimed in watched && QualityRejected in watched
        && ValidationCompleted in watched && ExtractionFailed in watched && ExtractionCompleted in watched
        && Uploaded in watched;
  }

  function ContinueAll(s: Option<Story>, added: seq<AuditEvent>): Option<Story>
    requires |added| <= 2
  {
    if |added| == 0 then s
    else if |added| == 1 then Continue(s, added[0])
    else Continue(Continue(s, added[0]), added[1])
  }

  /** The added events tell exactly what the action did to the receipt row. */
  lemma StoryStep(f: File, act: Action, s: Story)
    requires RowsAgree(f) && Enabled(f, act) && Tells(s, f.receipt)
    ensures |Added(f, act)| <= 2
    ensures ContinueAll(Some(s), Added(f, act)).Some?
    ensures Tells(ContinueAll(Some(s), Added(f, act)).value, Act(f, act).receipt)
  {
    if act.Exec? && act.tx.MarkDuplicate? {
      DuplicateStory(f, act, s);
    } else if act.Exec? && UsesClaim(act.tx) {
      ResultStory(f, act, s);
    } else if act.Exec? {
      HumanStory(f, act, s);
    }
  }

  lemma DuplicateStory(f: File, act: Action, s: Story)
    requires Enabled(f, act) && act.Exec? && act.tx.MarkDuplicate? && IsAsRead(f.receipt) && Tells(s, f.receipt)
    ensures |Added(f, act)| <= 2
    ensures ContinueAll(Some(s), Added(f, act)).Some?
    ensures Tells(ContinueAll(Some(s), Added(f, act)).value, Act(f, act).receipt)
  {
    hide ReadBack, Results, Route;
  }

  lemma ResultStory(f: File, act: Action, s: Story)
    requires RowsAgree(f) && Enabled(f, act) && act.Exec? && UsesClaim(act.tx) && Tells(s, f.receipt)
    ensures |Added(f, act)| <= 2
    ensures ContinueAll(Some(s), Added(f, act)).Some?
    ensures Tells(ContinueAll(Some(s), Added(f, act)).value, Act(f, act).receipt)
  {
    hide Results, Route;
  }

  lemma HumanStory(f: File, act: Action, s: Story)
    requires Enabled(f, act) && act.Exec? && (act.tx.CorrectFields? || act.tx.Decide?)
    requires IsAsRead(f.receipt) && Tells(s, f.receipt)
    ensures |Added(f, act)| <= 2
    ensures ContinueAll(Some(s), Added(f, act)).Some?
    ensures Tells(ContinueAll(Some(s), Added(f, act)).value, Act(f, act).receipt)
  {
    hide ReadBack, Results, Route, Corrections.Applied;
  }

  lemma AddedIsConstructed(f: File, act: Action)
    requires Enabled(f, act)
    ensures forall i :: 0 <= i < |Added(f, act)| ==> WritesConstructed(Added(f, act)[i])
  {
    hide Results, Route, IsConstructed, Corrections.Applied;
    if act.Exec? && act.tx.CorrectFields? {
      Corrections.AppliedIsConstructed(act.tx.corrections, f.receipt.currentData);
    }
  }

  lemma LogTellsReceiptKept(f: File, act: Action)
    requires RowsAgree(f) && LogTellsReceipt(f) && Enabled(f, act)
    ensures LogTellsReceipt(Act(f, act))
  {
    hide Enabled, Act, Added, WritesConstructed, RowsAgree, Tells;
    AfterAction(f, act);
    StoryStep(f, act, Replay(f.events).value);
    AddedIsConstructed(f, act);
    forall i | 0 <= i < |Act(f, act).events|
      ensures WritesConstructed(Act(f, act).events[i])
    {
      if i >= |f.events| {
        assert Act(f, act).events[i] == Added(f, act)[i - |f.events|];
      }
    }
  }

  // ---------- The log taken literally ----------

  /** Every correction starts from exactly the contents the log wrote before it. */
  predicate ChainIsLiteral(events: seq<AuditEvent>) {
    forall i :: 0 <= i < |events| && events[i].details.Correction? ==>
      && Replay(events[..i]).Some?
      && events[i].details.before == Replay(events[..i]).value.data
  }

  /** No contents that were corrected later had been written with a blank text field. */
  predicate CorrectedContentsHadText(events: seq<AuditEvent>) {
    forall i :: 0 <= i < |events| && events[i].details.Correction? ==>
      Replay(events[..i]).Some? && HasNoBlankText(Replay(events[..i]).value.data)
  }

  lemma {:induction false} ReplayIsConstructed(events: seq<AuditEvent>)
    requires (forall i :: 0 <= i < |events| ==> WritesConstructed(events[i])) && Replay(events).Some?
    ensures HoldsConstructed(Replay(events).value.data)
  {
    if events != [] {
      var n := |events| - 1;
      assert WritesConstructed(events[n]);
      ReplayIsConstructed(events[..n]);
    }
  }

  lemma {:induction false} PrefixReplays(events: seq<AuditEvent>, i: nat)
    requires Replay(events).Some? && i <= |events|
    ensures Replay(events[..i]).Some?
    ensures i < |events| && events[i].details.Correction? ==>
              events[i].details.before == ReadBack(Replay(events[..i]).value.data)
    decreases |events|
  {
    var n := |events| - 1;
    if i == |events| {
      assert events[..i] == events;
    } else if i < n {
      PrefixReplays(events[..n], i);
      assert events[..n][..i] == events[..i] && events[..n][i] == events[i];
    }
  }

  /** Without the read-back, last contents and chain still agree exactly if no contents written had blank text. */
  lemma LogIsLiteralIff(f: File)
    requires LogTellsReceipt(f)
    ensures Replay(f.events).value.data == f.receipt.currentData <==> HasNoBlankText(Replay(f.events).value.data)
    ensures ChainIsLiteral(f.events) <==> CorrectedContentsHadText(f.events)
  {
    hide Replay, HasNoBlankText, ReadBack, HoldsConstructed, WritesConstructed;
    ReplayIsConstructed(f.events);
    ReadAsWrittenIff(Replay(f.events).value.data);
    forall i | 0 <= i < |f.events| && f.events[i].details.Correction?
      ensures Replay(f.events[..i]).Some?
      ensures f.events[i].details.before == Replay(f.events[..i]).value.data
              <==> HasNoBlankText(Replay(f.events[..i]).value.data)
    {
      PrefixReplays(f.events, i);
      ReplayIsConstructed(f.events[..i]);
      ReadAsWrittenIff(Replay(f.events[..i]).value.data);
    }
  }

  lemma MarkedAfterEndAppend(events: seq<AuditEvent>, added: seq<AuditEvent>)
    ensures MarkedAfterEnd(events + added) <==> MarkedAfterEnd(events) || MarkedAfterEnd(added)
  {
    var all := events + added;
    if MarkedAfterEnd(events) {
      var i :| 0 <= i < |events| && events[i].action == DuplicateDetected && events[i].newStatus.Some?;
      assert all[i] == events[i];
    }
    if MarkedAfterEnd(added) {
      var i :| 0 <= i < |added| && added[i].action == DuplicateDetected && added[i].newStatus.Some?;
      assert all[|events| + i] == added[i];
    }
  }

  predicate ShowsDuplicate(r: ReceiptRow) {
    Validation.Failed(r.ruleResults, DuplicateSubmission)
  }

  /** What an action does to the duplicate mark, its event and the duplicate rule. */
  predicate DuplicateMove(f: File, g: File, act: Action, added: seq<AuditEvent>) {
    if act.Exec? && act.tx.MarkDuplicate? then
      && g.job.duplicateDetected
      && if f.job.duplicateDetected then added == [] && g.receipt == f.receipt
         else if f.receipt.status.Some? && ShowsDuplicate(f.receipt) then added == [] && g.receipt == f.receipt
         else
           && |added| == 1 && added[0].action == DuplicateDetected
           && (added[0].newStatus.Some? <==> f.receipt.status.Some?)
           && (f.receipt.status.None? ==> g.receipt == f.receipt)
           && (f.receipt.status.Some? ==> g.receipt.status.Some? && ShowsDuplicate(g.receipt))
    else
      && g.job.duplicateDetected == f.job.duplicateDetected
      && !MarkedAfterEnd(added)
      && CountIn(added, DuplicateDetected) == 0
      && if act.Exec? && IsFinal(act.tx) then
           && f.job.status == Processing && g.receipt.status.Some?
           && (ShowsDuplicate(g.receipt) <==> act.tx.CompleteExtraction? && f.job.duplicateDetected)
           && CountIn(added, ExtractionCompleted) == (if act.tx.CompleteExtraction? then 1 else 0)
         else
           && g.receipt.status.Some? == f.receipt.status.Some?
           && (ShowsDuplicate(g.receipt) <==> ShowsDuplicate(f.receipt))
           && CountIn(added, ExtractionCompleted) == 0
  }

  lemma DuplicateMoveOf(f: File, act: Action)
    requires Enabled(f, act)
    ensures |Added(f, act)| <= 2 && DuplicateMove(f, Act(f, act), act, Added(f, act))
  {
    if act.Exec? && act.tx.CompleteExtraction? {
      DuplicateIsRecorded(act.tx.data, f.job.duplicateDetected, act.tx.today);
    } else if act.Exec? && act.tx.MarkDuplicate? {
      DuplicateMoveOfMark(f, act);
    } else if act.Exec? && act.tx.CorrectFields? {
      DuplicateMoveOfCorrection(f, act);
    }
  }

  lemma DuplicateMoveOfMark(f: File, act: Action)
    requires Enabled(f, act) && act.Exec? && act.tx.MarkDuplicate?
    ensures |Added(f, act)| <= 2 && DuplicateMove(f, Act(f, act), act, Added(f, act))
  {
    DuplicateIsRecorded(f.receipt.currentData, true, act.tx.today);
  }

  lemma DuplicateMoveOfCorrection(f: File, act: Action)
    requires Enabled(f, act) && act.Exec? && act.tx.CorrectFields?
    ensures |Added(f, act)| <= 2 && DuplicateMove(f, Act(f, act), act, Added(f, act))
  {
    var after := Corrections.Applied(act.tx.corrections, f.receipt.currentData);
    DuplicateIsRecorded(Some(after), ShowsDuplicate(f.receipt), act.tx.today);
  }

  /** From an empty table the branch of markDuplicate that finds the rule already failed is never taken. */
  lemma AlreadyMarkedIsUnreachable(f: File)
    requires RowsAgree(f) && DuplicateRecorded(f) && !f.job.duplicateDetected
    ensures !ShowsDuplicate(f.receipt)
  {}

  /** A quality rejection or a failure resets the rules, so a marked receipt then does not show the mark. */
  lemma RejectionHidesMark(f: File, tx: Tx)
    requires Enabled(f, Exec(tx)) && (tx.CompleteQualityRejection? || tx.FailExtraction?) && f.job.duplicateDetected
    ensures var g := Act(f, Exec(tx)); g.job.duplicateDetected && g.receipt.status.Some? && !ShowsDuplicate(g.receipt)
  {}

  lemma DuplicateRecordedKept(f: File, act: Action)
    requires RowsAgree(f) && AttemptsAccounted(f) && DuplicateRecorded(f) && Enabled(f, act)
    ensures DuplicateRecorded(Act(f, act))
    ensures f.job.duplicateDetected ==> Act(f, act).job.duplicateDetected
  {
    var g, added := Act(f, act), Added(f, act);
    DuplicateMoveOf(f, act);
    AfterAction(f, act);
    MarkedAfterEndAppend(f.events, added);
    DuplicateStaysRecorded(f, g, act, added);
  }

  lemma DuplicateStaysRecorded(f: File, g: File, act: Action, added: seq<AuditEvent>)
    requires RowsAgree(f) && AttemptsAccounted(f) && DuplicateRecorded(f)
    requires |added| <= 2 && DuplicateMove(f, g, act, added)
    requires Count(g.events, DuplicateDetected)
             == Count(f.events, DuplicateDetected) + CountIn(added, DuplicateDetected)
    requires Count(g.events, ExtractionCompleted)
             == Count(f.events, ExtractionCompleted) + CountIn(added, ExtractionCompleted)
    requires MarkedAfterEnd(g.events) <==> MarkedAfterEnd(f.events) || MarkedAfterEnd(added)
    ensures DuplicateRecorded(g)
  {
    if act.Exec? && act.tx.MarkDuplicate? && !f.job.duplicateDetected {
      AlreadyMarkedIsUnreachable(f);
      assert MarkedAfterEnd(added) <==> added[0].newStatus.Some?;
    }
  }

  lemma StatusMeansItKept(f: File, act: Action)
    requires RowsAgree(f) && StatusMeansIt(f) && Enabled(f, act)
    ensures StatusMeansIt(Act(f, act))
  {
    hide IsClean, IsConstructed, ReadBack, HasEssentials, Results;
    if act.Exec? && act.tx.CompleteExtraction? {
      CompletedStatusMeansIt(f, act);
    } else if act.Exec? && act.tx.MarkDuplicate? {
      AutoApprovedIff(f.receipt.currentData, true, act.tx.today);
    } else if act.Exec? && act.tx.CorrectFields? {
      CorrectedStatusMeansIt(f, act);
    }
  }

  lemma CompletedStatusMeansIt(f: File, act: Action)
    requires Enabled(f, act) && act.Exec? && act.tx.CompleteExtraction?
    ensures StatusMeansIt(Act(f, act))
  {
    hide IsClean, IsConstructed, ReadBack, HasEssentials, Results;
    AutoApprovedIff(act.tx.data, f.job.duplicateDetected, act.tx.today);
    var g := Act(f, act);
    if g.receipt.status == Some(AutoApproved) {
      assert PassedWith(g.receipt, act.tx.data.value, act.tx.today);
    }
  }

  /** When an extraction is read as it was written, and when an automatic approval still has a shop once it is read. */
  lemma ExtractionIsReadAsWrittenIff(f: File, tx: Tx)
    requires Enabled(f, Exec(tx)) && tx.CompleteExtraction?
    ensures var r := Act(f, Exec(tx)).receipt;
            && (r.currentData == tx.data <==> HasNoBlankText(tx.data))
            && (r.status == Some(AutoApproved) ==>
                  && tx.data.Some? && tx.data.value.shopName.Some? && r.currentData.Some?
                  && (r.currentData.value.shopName.Some? <==> !IsBlank(tx.data.value.shopName.value)))
  {
    hide IsConstructed, HasNoBlankText, HasEssentials, Results;
    ReadAsWrittenIff(tx.data);
    AutoApprovedIff(tx.data, f.job.duplicateDetected, tx.today);
    if Act(f, Exec(tx)).receipt.status == Some(AutoApproved) {
      VerdictHoldsAsReadIff(tx.data.value, tx.today);
    }
  }

  /** The contents a transaction writes, and the day its rules were computed on. */
  predicate PassedBy(tx: Tx, before: ReceiptRow, after: ReceiptRow) {
    match tx
    case CompleteExtraction(_, data, _, today, _) =>
      data.Some? && PassedWith(after, data.value, today) && VerdictAsRead(after, data.value, today)
    case CorrectFields(_, _, corrections, _, today, _) =>
      var written := Corrections.Applied(corrections, before.currentData);
      PassedWith(after, written, today) && VerdictAsRead(after, written, today)
    case _ => false
  }

  /** Only a completed extraction or a correction approves automatically, and only what passed on that day. */
  lemma ApprovalIsPassed(f: File, tx: Tx)
    requires Enabled(f, Exec(tx)) && Act(f, Exec(tx)).receipt.status == Some(AutoApproved)
    ensures Act(f, Exec(tx)).receipt == f.receipt || PassedBy(tx, f.receipt, Act(f, Exec(tx)).receipt)
  {
    hide IsClean, IsConstructed, ReadBack, HasEssentials, Results, VerdictAsRead, Corrections.Applied;
    var g := Act(f, Exec(tx));
    match tx
    case CompleteExtraction(_, data, _, today, _) =>
      AutoApprovedIff(data, f.job.duplicateDetected, today);
      PassedAsReadIff(g.receipt, data.value, today);
    case CorrectFields(_, _, corrections, _, today, _) =>
      var written := Corrections.Applied(corrections, f.receipt.currentData);
      Corrections.AppliedIsConstructed(corrections, f.receipt.currentData);
      AutoApprovedIff(Some(written), ShowsDuplicate(f.receipt), today);
      PassedAsReadIff(g.receipt, written, today);
    case MarkDuplicate(_, today, _) => AutoApprovedIff(f.receipt.currentData, true, today);
    case _ =>
  }

  lemma CorrectedStatusMeansIt(f: File, act: Action)
    requires Enabled(f, act) && act.Exec? && act.tx.CorrectFields?
    ensures StatusMeansIt(Act(f, act))
  {
    hide IsClean, IsConstructed, ReadBack, HasEssentials, Results, Corrections.Applied;
    var after := Corrections.Applied(act.tx.corrections, f.receipt.currentData);
    Corrections.AppliedIsConstructed(act.tx.corrections, f.receipt.currentData);
    AutoApprovedIff(Some(after), ShowsDuplicate(f.receipt), act.tx.today);
    var g := Act(f, act);
    if g.receipt.status == Some(AutoApproved) {
      assert PassedWith(g.receipt, after, act.tx.today);
    }
  }

  /** What an action means for the review history. */
  predicate ReviewMove(f: File, g: File, act: Action, added: seq<AuditEvent>) {
    && g.receipt.owner == f.receipt.owner
    && if act.Exec? && act.tx.CorrectFields? then
         && f.receipt.status.Some? && f.receipt.owner.Some?
         && |added| == 1 && added[0].action == FieldsCorrected && added[0].actor == Human(act.tx.employee.id)
         && g.receipt.status.Some? && !IsTerminal(g.receipt.status.value) && !IsTerminal(f.receipt.status.value)
         && (g.receipt.status == Some(AutoApproved) ==> ByOther(f.receipt, added[0].actor))
       else if act.Exec? && act.tx.Decide? then
         && f.receipt.status.Some? && !IsTerminal(f.receipt.status.value)
         && |added| == 1 && ByOther(f.receipt, added[0].actor)
         && added[0].action == (if act.tx.decision == Approve then ReviewApproved else ReviewRejected)
         && g.receipt.status == Some(if act.tx.decision == Approve then Approved else Rejected)
       else
         && (forall i :: 0 <= i < |added| ==> added[i].actor == System && !IsHumanAction(added[i].action)
                                              && added[i].action != Uploaded)
         && (g.receipt.status == f.receipt.status
             || (f.receipt.status.None? && g.receipt.status.Some? && !IsTerminal(g.receipt.status.value))
             || (f.receipt.status.Some? && g.receipt.status.Some? && !IsTerminal(f.receipt.status.value)
                 && g.receipt.status.value in {ManualEntry, NeedsReview}))
  }

  lemma ReviewMoveOf(f: File, act: Action)
    requires RowsAgree(f) && Enabled(f, act)
    ensures |Added(f, act)| <= 2 && ReviewMove(f, Act(f, act), act, Added(f, act))
  {
    if act.Exec? && act.tx.MarkDuplicate? {
      DuplicateReviewMove(f, act);
    } else if act.Exec? && act.tx.CorrectFields? {
      CorrectionReviewMove(f, act);
    } else if act.Exec? && UsesClaim(act.tx) {
      ResultReviewMove(f, act);
    }
  }

  lemma DuplicateReviewMove(f: File, act: Action)
    requires Enabled(f, act) && act.Exec? && act.tx.MarkDuplicate?
    ensures |Added(f, act)| <= 2 && ReviewMove(f, Act(f, act), act, Added(f, act))
  {
    DuplicateIsRecorded(f.receipt.currentData, true, act.tx.today);
  }

  lemma CorrectionReviewMove(f: File, act: Action)
    requires Enabled(f, act) && act.Exec? && act.tx.CorrectFields?
    ensures |Added(f, act)| <= 2 && ReviewMove(f, Act(f, act), act, Added(f, act))
  {}

  lemma ResultReviewMove(f: File, act: Action)
    requires RowsAgree(f) && Enabled(f, act) && act.Exec? && UsesClaim(act.tx)
    ensures |Added(f, act)| <= 2 && ReviewMove(f, Act(f, act), act, Added(f, act))
  {}

  lemma ReviewedIndependentlyKept(f: File, act: Action)
    requires RowsAgree(f) && ReviewedIndependently(f) && Enabled(f, act)
    ensures ReviewedIndependently(Act(f, act))
  {
    var g, added := Act(f, act), Added(f, act);
    ReviewMoveOf(f, act);
    AfterAction(f, act);
    LastCorrectorAfter(f.events, added);
    ReviewsStayIndependent(f, g, act, added);
  }

  lemma LastCorrectorAfter(events: seq<AuditEvent>, added: seq<AuditEvent>)
    requires |added| <= 2
    requires |added| == 2 ==> added[0].action != FieldsCorrected
    ensures LastCorrector(events + added)
            == if added != [] && added[|added| - 1].action == FieldsCorrected then Some(added[|added| - 1].actor)
               else LastCorrector(events)
  {
    if added == [] {
      assert events + added == events;
    } else if |added| == 1 {
      assert added == [added[0]];
      AfterOne(events, added[0]);
    } else {
      assert events + added == events + [added[0]] + [added[1]];
      AfterOne(events, added[0]);
      AfterOne(events + [added[0]], added[1]);
    }
  }

  lemma ReviewsStayIndependent(f: File, g: File, act: Action, added: seq<AuditEvent>)
    requires ReviewedIndependently(f)
    requires |added| <= 2 && ReviewMove(f, g, act, added)
    requires g.events == f.events + added
    requires forall a :: Count(g.events, a) == Count(f.events, a) + CountIn(added, a)
    requires LastCorrector(g.events)
             == if added != [] && added[|added| - 1].action == FieldsCorrected then Some(added[|added| - 1].actor)
                else LastCorrector(f.events)
    ensures ReviewedIndependently(g)
  {
    ActorsStayIndependent(f, g, act, added);
    assert CountIn(added, ReviewApproved) + CountIn(added, ReviewRejected) <= 1;
  }

  lemma ActorsStayIndependent(f: File, g: File, act: Action, added: seq<AuditEvent>)
    requires ReviewedIndependently(f)
    requires |added| <= 2 && ReviewMove(f, g, act, added) && g.events == f.events + added
    ensures forall i :: 0 <= i < |g.events| && IsReview(g.events[i].action) ==> ByOther(g.receipt, g.events[i].actor)
    ensures forall i :: 0 <= i < |g.events| && IsHumanAction(g.events[i].action) ==> g.receipt.owner.Some?
    ensures forall i :: 0 <= i < |g.events| ==>
              (g.events[i].actor.Human? <==>
                 IsHumanAction(g.events[i].action) || (g.events[i].action == Uploaded && g.receipt.owner.Some?))
  {
    forall i | 0 <= i < |g.events|
      ensures IsReview(g.events[i].action) ==> ByOther(g.receipt, g.events[i].actor)
      ensures IsHumanAction(g.events[i].action) ==> g.receipt.owner.Some?
      ensures g.events[i].actor.Human? <==>
              IsHumanAction(g.events[i].action) || (g.events[i].action == Uploaded && g.receipt.owner.Some?)
    {
      if i < |f.events| {
        assert g.events[i] == f.events[i];
      } else {
        assert g.events[i] == added[i - |f.events|];
      }
    }
  }

  /** What an action does to the original contents. */
  predicate OriginalMove(f: File, g: File, act: Action, added: seq<AuditEvent>) {
    if act.Exec? && act.tx.CompleteExtraction? then
      && f.job.status == Processing && g.receipt.originalData == ReadBack(act.tx.data)
      && |added| == 2 && added[0].action == ExtractionCompleted && added[0].details == Proposed(act.tx.data)
      && added[1].action == ValidationCompleted
    else
      && (forall i :: 0 <= i < |added| ==> added[i].action != ExtractionCompleted)
      && if act.Exec? && IsFinal(act.tx) then f.job.status == Processing && g.receipt.originalData == None
         else g.receipt.originalData == f.receipt.originalData
  }

  lemma OriginalMoveOf(f: File, act: Action)
    requires IsAsRead(f.receipt) && Enabled(f, act)
    ensures |Added(f, act)| <= 2 && OriginalMove(f, Act(f, act), act, Added(f, act))
  {
    hide Results, Route, Corrections.Applied;
    if act.Exec? && act.tx.MarkDuplicate? {
      MarkKeepsOriginal(f, act);
    } else if act.Exec? && UsesClaim(act.tx) {
      ResultMovesOriginal(f, act);
    }
  }

  lemma MarkKeepsOriginal(f: File, act: Action)
    requires IsAsRead(f.receipt) && Enabled(f, act) && act.Exec? && act.tx.MarkDuplicate?
    ensures |Added(f, act)| <= 2 && OriginalMove(f, Act(f, act), act, Added(f, act))
  {
    hide Results, Route, ReadBack;
  }

  lemma ResultMovesOriginal(f: File, act: Action)
    requires Enabled(f, act) && act.Exec? && UsesClaim(act.tx)
    ensures |Added(f, act)| <= 2 && OriginalMove(f, Act(f, act), act, Added(f, act))
  {
    hide Results, Route;
  }

  lemma {:induction false} UncountedIsAbsent(events: seq<AuditEvent>, action: AuditAction)
    requires Count(events, action) == 0
    ensures forall i :: 0 <= i < |events| ==> events[i].action != action
  {
    if events != [] {
      UncountedIsAbsent(events[..|events| - 1], action);
      assert forall i :: 0 <= i < |events| - 1 ==> events[i] == events[..|events| - 1][i];
    }
  }

  lemma OriginalIsLoggedKept(f: File, act: Action)
    requires RowsAgree(f) && AttemptsAccounted(f) && OriginalIsLogged(f) && Enabled(f, act)
    ensures OriginalIsLogged(Act(f, act))
  {
    hide Act, Added, Enabled, ReadBack;
    var g, added := Act(f, act), Added(f, act);
    OriginalMoveOf(f, act);
    AfterAction(f, act);
    OriginalStaysLogged(f, g, act, added);
  }

  lemma OriginalStaysLogged(f: File, g: File, act: Action, added: seq<AuditEvent>)
    requires AttemptsAccounted(f) && OriginalIsLogged(f) && |added| <= 2 && OriginalMove(f, g, act, added)
    requires g.events == f.events + added
    requires forall a :: Count(g.events, a) == Count(f.events, a) + CountIn(added, a)
    ensures OriginalIsLogged(g)
  {
    hide ReadBack;
    if f.job.status == Processing {
      UncountedIsAbsent(f.events, ExtractionCompleted);
    }
    forall i | 0 <= i < |g.events| && g.events[i].action == ExtractionCompleted
      ensures g.events[i].details.Proposed? && ReadBack(g.events[i].details.data) == g.receipt.originalData
    {
      if i >= |f.events| {
        assert g.events[i] == added[i - |f.events|];
      }
    }
  }

  /** Every action on a sound file leaves it sound. */
  lemma SoundKept(f: File, act: Action)
    requires Sound(f) && Enabled(f, act)
    ensures Sound(Act(f, act))
  {
    RowsAgreeKept(f, act);
    LogTellsReceiptKept(f, act);
    AttemptsAccountedKept(f, act);
    DuplicateRecordedKept(f, act);
    StatusMeansItKept(f, act);
    ReviewedIndependentlyKept(f, act);
    OriginalIsLoggedKept(f, act);
  }

  /** What one action can never undo, and what it changes only once. */
  ghost predicate Grows(f: File, g: File) {
    && f.events <= g.events
    && f.receipt.SameIdentity(g.receipt) && f.job.receiptId == g.job.receiptId
    && f.receipt.version <= g.receipt.version && f.job.version <= g.job.version
    && (f.receipt.version == g.receipt.version ==> f.receipt == g.receipt)
    && (f.job.version == g.job.version ==> f.job == g.job)
    && (f.job.duplicateDetected ==> g.job.duplicateDetected)
    && (IsFinished(f.job.status) ==> g.job.status == f.job.status && g.receipt.originalData == f.receipt.originalData)
    && (f.receipt.status.Some? && IsTerminal(f.receipt.status.value) ==>
          g.receipt.status == f.receipt.status && g.receipt.currentData == f.receipt.currentData)
    && f.releases <= g.releases
    && f.job.attemptCount <= g.job.attemptCount
    && (f.job.attemptCount == g.job.attemptCount ==>
          g.job.claimToken == f.job.claimToken || g.job.claimToken.None?)
  }

  lemma ActionGrows(f: File, act: Action)
    requires RowsAgree(f) && Enabled(f, act)
    ensures Grows(f, Act(f, act))
  {
    var g := Act(f, act);
    assert g.events == f.events + Added(f, act);
    RowsGrow(f, act);
  }

  lemma RowsGrow(f: File, act: Action)
    requires RowsAgree(f) && Enabled(f, act)
    ensures Grows(f, Act(f, act).(events := f.events))
  {
    if act.Exec? && act.tx.MarkDuplicate? {
      DuplicateRowsGrow(f, act);
    } else if act.Exec? && UsesClaim(act.tx) {
      ResultRowsGrow(f, act);
    }
  }

  lemma DuplicateRowsGrow(f: File, act: Action)
    requires IsAsRead(f.receipt) && Enabled(f, act) && act.Exec? && act.tx.MarkDuplicate?
    ensures Grows(f, Act(f, act).(events := f.events))
  {}

  lemma ResultRowsGrow(f: File, act: Action)
    requires RowsAgree(f) && Enabled(f, act) && act.Exec? && UsesClaim(act.tx)
    ensures Grows(f, Act(f, act).(events := f.events))
  {}

  lemma GrowsTransitive(f: File, g: File, h: File)
    requires Grows(f, g) && Grows(g, h)
    ensures Grows(f, h)
  {}

  // ---------- A log that does not chain literally ----------

  /** After a correction the log is literal exactly if it was and the corrected contents had no blank text. */
  lemma CorrectionKeepsChainIff(f: File, tx: Tx)
    requires Sound(f) && tx.CorrectFields? && Enabled(f, Exec(tx))
    ensures Replay(f.events).Some?
    ensures ChainIsLiteral(Act(f, Exec(tx)).events)
            <==> ChainIsLiteral(f.events) && HasNoBlankText(Replay(f.events).value.data)
  {
    hide RowsAgree, AttemptsAccounted, DuplicateRecorded, StatusMeansIt, ReviewedIndependently, WritesConstructed, Act,
         Enabled, Replay, HasNoBlankText, ChainIsLiteral, Tells;
    var g := Act(f, Exec(tx));
    SoundKept(f, Exec(tx));
    LogIsLiteralIff(f);
    LogIsLiteralIff(g);
    CorrectionIsLogged(f, tx);
    OneMoreCorrection(f.events, g.events[|f.events|]);
  }

  lemma CorrectionIsLogged(f: File, tx: Tx)
    requires tx.CorrectFields? && Enabled(f, Exec(tx))
    ensures var g := Act(f, Exec(tx));
            && |g.events| == |f.events| + 1 && g.events == f.events + [g.events[|f.events|]]
            && g.events[|f.events|].details.Correction?
  {
    hide Results, Route, Corrections.Applied;
  }

  lemma OneMoreCorrection(events: seq<AuditEvent>, e: AuditEvent)
    requires Replay(events).Some? && e.details.Correction?
    ensures CorrectedContentsHadText(events + [e])
            <==> CorrectedContentsHadText(events) && HasNoBlankText(Replay(events).value.data)
  {
    hide Replay, HasNoBlankText;
    var all := events + [e];
    assert all[..|events|] == events && all[|events|] == e;
    assert forall i :: 0 <= i < |events| ==> all[..i] == events[..i] && all[i] == events[i];
  }

  const BLANK_PAYMENT := Some(Construct(None, None, None, None, Some("\U{0001}"), None))
  const SUBMITTED := NewFile(1, NewReceipt(Some(1), "company", "hash", 0), 0)
  const CLAIMED := Claiming("worker", 7, 1, 2)
  const COMPLETED :=
    Exec(CompleteExtraction(Claim(1, 1, 1, 1, "worker", 7, 2, false), BLANK_PAYMENT, 3, 0, 3))
  const CORRECTED := Exec(CorrectFields(1, 1, Corrections.NO_CORRECTION, Employee(2, Reviewer), 0, 4))

  /**
   Such contents are written: a receipt is submitted, claimed, extracted with a payment method of one control character,
   and corrected by a reviewer. Its log then does not chain literally.
   */
  lemma LiteralChainCanBreak()
    ensures Enabled(SUBMITTED, CLAIMED)
    ensures var claimed := Act(SUBMITTED, CLAIMED);
            && Enabled(claimed, COMPLETED)
            && var completed := Act(claimed, COMPLETED);
               && Enabled(completed, CORRECTED)
               && Sound(Act(completed, CORRECTED)) && !ChainIsLiteral(Act(completed, CORRECTED).events)
  {
    hide Sound, ChainIsLiteral, Act, Enabled, HasNoBlankText;
    BlankPaymentIsReached();
    NewFileIsSound(1, SUBMITTED.receipt, 0);
    SoundKept(SUBMITTED, CLAIMED);
    var claimed := Act(SUBMITTED, CLAIMED);
    SoundKept(claimed, COMPLETED);
    var completed := Act(claimed, COMPLETED);
    SoundKept(completed, CORRECTED);
    LastWrittenIsBlank(claimed);
    CorrectionKeepsChainIff(completed, CORRECTED.tx);
  }

  lemma BlankPaymentIsReached()
    ensures !HasNoBlankText(BLANK_PAYMENT)
    ensures Enabled(SUBMITTED, CLAIMED)
    ensures var claimed := Act(SUBMITTED, CLAIMED);
            Enabled(claimed, COMPLETED) && Enabled(Act(claimed, COMPLETED), CORRECTED)
  {
    assert !IsWhitespace("\U{0001}"[0]);
    assert BLANK_PAYMENT.value.paymentMethod == Some("");
    NormalizeTwice(Some("\U{0001}"));
    var claimed := Act(SUBMITTED, CLAIMED);
    assert Enabled(claimed, COMPLETED);
    var completed := Act(claimed, COMPLETED);
    assert completed.receipt.status == Some(ManualEntry) && completed.receipt.version == 1;
  }

  lemma LastWrittenIsBlank(f: File)
    requires Sound(f) && Enabled(f, COMPLETED)
    ensures Replay(Act(f, COMPLETED).events).Some?
    ensures Replay(Act(f, COMPLETED).events).value.data == BLANK_PAYMENT
  {
    hide RowsAgree, AttemptsAccounted, DuplicateRecorded, StatusMeansIt, ReviewedIndependently, Results, Route, Replay;
    AfterAction(f, COMPLETED);
    SoundKept(f, COMPLETED);
  }
}
