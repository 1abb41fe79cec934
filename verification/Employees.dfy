/** The employee row, the JPA entity and the principal kept in a session (Employee.java, EmployeePrincipal.java). */
module EmployeeEntity {
  import opened Domain

  /** A digest: SHA-256 of a setup token, or an encoded password. */
  type Hash = nat

  datatype EmployeeRow = EmployeeRow(
    version: nat,
    sessionVersion: nat,
    loginId: string,
    role: EmployeeRole,
    active: bool,
    passwordHash: Option<Hash>,
    setupTokenHash: Option<Hash>,
    setupExpiresAt: Option<Instant>)
  {
    predicate HasSetupToken(hash: Hash) {
      setupTokenHash == Some(hash)
    }

    function Invited(hash: Hash, expires: Instant): EmployeeRow {
      this.(setupTokenHash := Some(hash), setupExpiresAt := Some(expires))
    }

    function WithPassword(hash: Hash): EmployeeRow {
      this.(passwordHash := Some(hash), setupTokenHash := None, setupExpiresAt := None)
    }

    function WithActive(on: bool): EmployeeRow {
      this.(active := on, sessionVersion := if active && !on then sessionVersion + 1 else sessionVersion)
    }
  }

  function NewRow(loginId: string, role: EmployeeRole): EmployeeRow {
    EmployeeRow(0, 0, loginId, role, true, None, None, None)
  }

  /** The JPA entity; `Row` is what a flush would write. */
  class EmployeeAccount {
    const version: nat
    var sessionVersion: nat
    const loginId: string
    const role: EmployeeRole
    var active: bool
    var passwordHash: Option<Hash>
    var setupTokenHash: Option<Hash>
    var setupExpiresAt: Option<Instant>

    function Row(): EmployeeRow
      reads this
    {
      EmployeeRow(version, sessionVersion, loginId, role, active, passwordHash, setupTokenHash, setupExpiresAt)
    }

    constructor (loginId: string, role: EmployeeRole)
      ensures Row() == NewRow(loginId, role)
      ensures this.loginId == loginId && this.role == role && active && sessionVersion == 0 && version == 0
      ensures passwordHash.None? && setupTokenHash.None? && setupExpiresAt.None?
    {
      this.version, this.sessionVersion, this.loginId, this.role, active := 0, 0, loginId, role, true;
      passwordHash, setupTokenHash, setupExpiresAt := None, None, None;
    }

    constructor Load(row: EmployeeRow)
      ensures Row() == row
    {
      version, sessionVersion, loginId, role, active :=
        row.version, row.sessionVersion, row.loginId, row.role, row.active;
      passwordHash, setupTokenHash, setupExpiresAt := row.passwordHash, row.setupTokenHash, row.setupExpiresAt;
    }

    predicate HasSetupToken(hash: Hash)
      reads this
    {
      setupTokenHash.Some? && setupTokenHash.value == hash
    }

    method Invite(hash: Hash, expires: Instant)
      modifies this
      ensures Row() == old(Row()).Invited(hash, expires)
      ensures setupTokenHash == Some(hash) && setupExpiresAt == Some(expires)
      ensures passwordHash == old(passwordHash) && active == old(active) && sessionVersion == old(sessionVersion)
    {
      setupTokenHash := Some(hash);
      setupExpiresAt := Some(expires);
    }

    method SetPassword(hash: Hash)
      modifies this
      ensures Row() == old(Row()).WithPassword(hash)
      ensures passwordHash == Some(hash) && setupTokenHash.None? && setupExpiresAt.None?
      ensures active == old(active) && sessionVersion == old(sessionVersion)
    {
      passwordHash := Some(hash);
      setupTokenHash := None;
      setupExpiresAt := None;
    }

    method SetActive(on: bool)
      modifies this
      ensures Row() == old(Row()).WithActive(on)
      ensures active == on
      ensures sessionVersion == old(sessionVersion) + (if old(active) && !on then 1 else 0)
      ensures passwordHash == old(passwordHash)
      ensures setupTokenHash == old(setupTokenHash) && setupExpiresAt == old(setupExpiresAt)
    {
      if active && !on {
        sessionVersion := sessionVersion + 1;
      }
      active := on;
    }
  }

  /** What a session remembers of the employee who logged in. */
  datatype EmployeePrincipal = EmployeePrincipal(employeeId: EmployeeId, sessionVersion: nat, enabled: bool) {
    predicate IsValidFor(id: EmployeeId, row: EmployeeRow) {
      employeeId == id && sessionVersion == row.sessionVersion && row.active && row.passwordHash.Some?
    }
  }

  function PrincipalOf(id: EmployeeId, row: EmployeeRow): EmployeePrincipal {
    EmployeePrincipal(id, row.sessionVersion, row.active)
  }
}

/** Every transaction on the employees table, over any interleaving (EmployeeService.java). */
module Accounts {
  import opened Domain
  import opened EmployeeEntity

  type Table = map<EmployeeId, EmployeeRow>

  /** What was done to whom, for stating guarantees; the program keeps no such log. */
  datatype Event =
    | Issued(id: EmployeeId, token: Hash, expires: Instant)
    | PasswordSet(id: EmployeeId)

  datatype State = State(table: Table, log: seq<Event>)

  const EMPTY: State := State(map[], [])

  /** Twenty-four hours in microseconds. */
  const SETUP_LIFETIME := 86_400_000_000

  /** A submitted password: how many chars it has and how many UTF-8 bytes. */
  datatype Password = Password(chars: nat, bytes: nat)

  predicate IsAcceptable(password: Option<Password>) {
    password.Some? && password.value.chars >= 12 && password.value.bytes <= 72
  }

  datatype Result =
    | Done | NotFound | SetupConflict | InvalidToken | InvalidPassword | SelfDeactivation | TableNotEmpty
    | InvalidLoginId | Duplicate | StaleRow

  datatype Effect = Effect(after: State, result: Result)

  function Refuse(s: State, why: Result): Effect {
    Effect(s, why)
  }

  /** An UPDATE or INSERT of one row. */
  function Write(s: State, id: EmployeeId, row: EmployeeRow, events: seq<Event>): Effect {
    Effect(State(s.table[id := row], s.log + events), Done)
  }

  function Next(row: EmployeeRow): EmployeeRow {
    row.(version := row.version + 1)
  }

  predicate LoginIdTaken(table: Table, loginId: string) {
    exists r :: r in table && table[r].loginId == loginId
  }

  predicate TokenTaken(table: Table, hash: Hash) {
    exists r :: r in table && table[r].HasSetupToken(hash)
  }

  /** `id` is the number the database assigns, `hash` the digest of the token just drawn. */
  function Issue(s: State, id: EmployeeId, loginId: string, role: EmployeeRole, hash: Hash, now: Instant): Effect {
    if LoginIdTaken(s.table, loginId) || TokenTaken(s.table, hash) then Refuse(s, Duplicate)
    else
      var expires := now + SETUP_LIFETIME;
      Write(s, id, NewRow(loginId, role).Invited(hash, expires), [Issued(id, hash, expires)])
  }

  /** The row is locked from the read on, so it is the current one. */
  function Reissue(s: State, id: EmployeeId, hash: Hash, now: Instant): Effect {
    if id !in s.table then Refuse(s, NotFound)
    else if s.table[id].passwordHash.Some? || !s.table[id].active then Refuse(s, SetupConflict)
    else if TokenTaken(s.table, hash) then Refuse(s, Duplicate)
    else
      var expires := now + SETUP_LIFETIME;
      Write(s, id, Next(s.table[id].Invited(hash, expires)), [Issued(id, hash, expires)])
  }

  /** `found` is what the lookup by token hash returned, possibly some time before the row could be locked. */
  function SetPassword(s: State, hash: Hash, found: Option<EmployeeId>, password: Option<Password>, encoded: Hash,
                       now: Instant): Effect
  {
    if found.None? || found.value !in s.table then Refuse(s, InvalidToken)
    else
      var row := s.table[found.value];
      if !row.HasSetupToken(hash) || !row.active || row.passwordHash.Some?
         || row.setupExpiresAt.None? || row.setupExpiresAt.value <= now
      then Refuse(s, InvalidToken)
      else if !IsAcceptable(password) then Refuse(s, InvalidPassword)
      else Write(s, found.value, Next(row.WithPassword(encoded)), [PasswordSet(found.value)])
  }

  /** The row comes from `seen` unlocked; a changed row is written only where its version still stands. */
  function SetActive(s: State, seen: Table, id: EmployeeId, on: bool, actor: EmployeeId): Effect {
    if id == actor && !on then Refuse(s, SelfDeactivation)
    else if id !in seen then Refuse(s, NotFound)
    else
      var row := seen[id].WithActive(on);
      if row == seen[id] then Effect(s, Done)
      else if id !in s.table || s.table[id].version != row.version then Refuse(s, StaleRow)
      else Write(s, id, Next(row), [])
  }

  function Bootstrap(s: State, id: EmployeeId, loginId: string, wellFormed: bool, password: Option<Password>,
                     encoded: Hash): Effect
  {
    if s.table != map[] then Refuse(s, TableNotEmpty)
    else if !wellFormed then Refuse(s, InvalidLoginId)
    else if !IsAcceptable(password) then Refuse(s, InvalidPassword)
    else Write(s, id, NewRow(loginId, Admin).WithPassword(encoded), [PasswordSet(id)])
  }

  datatype Op =
    | OpIssue(id: EmployeeId, loginId: string, role: EmployeeRole, hash: Hash, now: Instant)
    | OpReissue(id: EmployeeId, hash: Hash, now: Instant)
    | OpSetPassword(hash: Hash, seen: nat, found: Option<EmployeeId>, password: Option<Password>, encoded: Hash,
                    now: Instant)
    | OpSetActive(id: EmployeeId, on: bool, actor: EmployeeId, seen: nat)
    | OpBootstrap(id: EmployeeId, loginId: string, wellFormed: bool, password: Option<Password>, encoded: Hash)

  /** `seen` counts states; a transaction may have read any state up to the present. */
  function Perform(history: seq<State>, op: Op): Effect
    requires history != []
    requires (op.OpSetPassword? || op.OpSetActive?) ==> op.seen < |history|
  {
    var s := history[|history| - 1];
    match op
    case OpIssue(id, loginId, role, hash, now) => Issue(s, id, loginId, role, hash, now)
    case OpReissue(id, hash, now) => Reissue(s, id, hash, now)
    case OpSetPassword(hash, seen, found, password, encoded, now) => SetPassword(s, hash, found, password, encoded, now)
    case OpSetActive(id, on, actor, seen) => SetActive(s, history[seen].table, id, on, actor)
    case OpBootstrap(id, loginId, wellFormed, password, encoded) =>
      Bootstrap(s, id, loginId, wellFormed, password, encoded)
  }

  // ---------- Runs ----------

  predicate IsFreshToken(log: seq<Event>, hash: Hash) {
    forall e :: e in log && e.Issued? ==> e.token != hash
  }

  predicate AnswersLookup(found: Option<EmployeeId>, table: Table, hash: Hash) {
    if found.Some? then found.value in table && table[found.value].HasSetupToken(hash) else !TokenTaken(table, hash)
  }

  /** Ids and tokens are new, lookups answer from a state there was. Nothing else is assumed of a caller. */
  predicate CanHappen(history: seq<State>, op: Op)
    requires history != []
  {
    var s := history[|history| - 1];
    match op
    case OpIssue(id, loginId, role, hash, now) => id !in s.table && IsFreshToken(s.log, hash)
    case OpReissue(id, hash, now) => IsFreshToken(s.log, hash)
    case OpSetPassword(hash, seen, found, password, encoded, now) =>
      seen < |history| && AnswersLookup(found, history[seen].table, hash)
    case OpSetActive(id, on, actor, seen) => seen < |history|
    case OpBootstrap(id, loginId, wellFormed, password, encoded) => true
  }

  datatype Run = Run(states: seq<State>, ops: seq<Op>)

  predicate Follows(run: Run, k: nat)
    requires |run.states| == |run.ops| + 1 && k < |run.ops|
  {
    var history := run.states[..k + 1];
    CanHappen(history, run.ops[k]) && run.states[k + 1] == Perform(history, run.ops[k]).after
  }

  predicate IsRun(run: Run) {
    && |run.states| == |run.ops| + 1 && run.states[0] == EMPTY
    && forall k :: 0 <= k < |run.ops| ==> Follows(run, k)
  }

  function ResultOf(run: Run, k: nat): Result
    requires IsRun(run) && k < |run.ops|
  {
    assert Follows(run, k);
    Perform(run.states[..k + 1], run.ops[k]).result
  }

  // ---------- What every state satisfies ----------

  /** The most recent issue for this employee. */
  function LatestIssue(log: seq<Event>, id: EmployeeId): Option<Event> {
    if log == [] then None
    else
      var last := log[|log| - 1];
      if last.Issued? && last.id == id then Some(last) else LatestIssue(log[..|log| - 1], id)
  }

  function Setups(log: seq<Event>, id: EmployeeId): nat {
    if log == [] then 0
    else Setups(log[..|log| - 1], id) + (if log[|log| - 1] == PasswordSet(id) then 1 else 0)
  }

  /** An account waits for its password with exactly its latest token, or has a password and no token. */
  predicate IsSettled(id: EmployeeId, row: EmployeeRow, log: seq<Event>) {
    if row.passwordHash.Some?
    then row.setupTokenHash.None? && row.setupExpiresAt.None? && Setups(log, id) == 1
    else
      && row.setupTokenHash.Some? && row.setupExpiresAt.Some? && Setups(log, id) == 0
      && LatestIssue(log, id) == Some(Issued(id, row.setupTokenHash.value, row.setupExpiresAt.value))
  }

  ghost predicate TokensAreDistinct(table: Table) {
    forall a, b, h :: a in table && b in table && table[a].HasSetupToken(h) && table[b].HasSetupToken(h) ==> a == b
  }

  ghost predicate LoginIdsAreDistinct(table: Table) {
    forall a, b :: a in table && b in table && table[a].loginId == table[b].loginId ==> a == b
  }

  /** No two issues draw the same token. */
  ghost predicate IssuesAreDistinct(log: seq<Event>) {
    forall a, b :: 0 <= a < b < |log| && log[a].Issued? && log[b].Issued? ==> log[a].token != log[b].token
  }

  ghost predicate Inv(s: State) {
    && IssuesAreDistinct(s.log)
    && (forall id :: id in s.table ==> IsSettled(id, s.table[id], s.log))
    && (forall e :: e in s.log ==> e.id in s.table)
    && TokensAreDistinct(s.table) && LoginIdsAreDistinct(s.table)
  }

  lemma {:induction false} LatestIssueIsLogged(log: seq<Event>, id: EmployeeId) returns (at: nat)
    requires LatestIssue(log, id).Some?
    ensures at < |log| && log[at] == LatestIssue(log, id).value && log[at].Issued? && log[at].id == id
    ensures forall b :: at < b < |log| ==> !(log[b].Issued? && log[b].id == id)
  {
    at := |log| - 1;
    if !(log[at].Issued? && log[at].id == id) {
      at := LatestIssueIsLogged(log[..|log| - 1], id);
    }
  }

  lemma {:induction false} UnloggedHasNoSetups(log: seq<Event>, id: EmployeeId)
    requires forall e :: e in log ==> e.id != id
    ensures Setups(log, id) == 0
  {
    if log != [] {
      assert log[|log| - 1] in log;
      UnloggedHasNoSetups(log[..|log| - 1], id);
    }
  }

  lemma LogStep(log: seq<Event>, e: Event, id: EmployeeId)
    ensures Setups(log + [e], id) == Setups(log, id) + (if e == PasswordSet(id) then 1 else 0)
    ensures LatestIssue(log + [e], id) == if e.Issued? && e.id == id then Some(e) else LatestIssue(log, id)
  {
    assert (log + [e])[..|log|] == log;
  }

  // ---------- How rows age ----------

  /** What a later row of the same employee still shares with an earlier one; the version tells different rows apart. */
  predicate RowAged(a: EmployeeRow, b: EmployeeRow) {
    && (a.passwordHash.Some? ==> b.passwordHash == a.passwordHash)
    && a.sessionVersion <= b.sessionVersion && a.version <= b.version
    && (a.version == b.version ==> a == b)
    && a.loginId == b.loginId && a.role == b.role
  }

  ghost predicate Aged(s: State, t: State) {
    s.log <= t.log && forall id :: id in s.table ==> id in t.table && RowAged(s.table[id], t.table[id])
  }

  ghost predicate OpensOrCloses(s: State, t: State) {
    forall id :: id in s.table && id in t.table ==>
      t.table[id].sessionVersion
      == s.table[id].sessionVersion + (if s.table[id].active && !t.table[id].active then 1 else 0)
  }

  ghost predicate HistoryAged(history: seq<State>) {
    history != [] && forall i :: 0 <= i < |history| ==> Aged(history[i], history[|history| - 1])
  }

  ghost predicate GoodStep(s: State, t: State) {
    Inv(t) && Aged(s, t) && OpensOrCloses(s, t)
  }

  /** One row and at most one log entry: everything that can happen to a table. */
  lemma WriteIsGood(s: State, id: EmployeeId, row: EmployeeRow, e: Event)
    requires Inv(s) && e.id == id && (e.Issued? ==> IsFreshToken(s.log, e.token))
    requires IsSettled(id, row, s.log + [e])
    requires forall h :: row.HasSetupToken(h) ==> forall r :: r in s.table && r != id ==> !s.table[r].HasSetupToken(h)
    requires forall r :: r in s.table && r != id ==> s.table[r].loginId != row.loginId
    requires id in s.table ==>
               RowAged(s.table[id], row) && row.sessionVersion == s.table[id].sessionVersion && row.active
    ensures GoodStep(s, Write(s, id, row, [e]).after)
  {
    hide IsSettled, RowAged, IssuesAreDistinct, TokensAreDistinct, LoginIdsAreDistinct;
    var after := Write(s, id, row, [e]).after;
    forall r | r in after.table
      ensures IsSettled(r, after.table[r], after.log)
    {
      if r != id {
        OthersStaySettled(s.log, e, r, s.table[r]);
      }
    }
    UniqueAfterWrite(s, id, row, e);
    AgedAfterWrite(s, id, row, e);
  }

  lemma OthersStaySettled(log: seq<Event>, e: Event, r: EmployeeId, row: EmployeeRow)
    requires IsSettled(r, row, log) && e.id != r
    ensures IsSettled(r, row, log + [e])
  {
    LogStep(log, e, r);
  }

  lemma UniqueAfterWrite(s: State, id: EmployeeId, row: EmployeeRow, e: Event)
    requires IssuesAreDistinct(s.log) && TokensAreDistinct(s.table) && LoginIdsAreDistinct(s.table)
    requires e.Issued? ==> IsFreshToken(s.log, e.token)
    requires forall h :: row.HasSetupToken(h) ==> forall r :: r in s.table && r != id ==> !s.table[r].HasSetupToken(h)
    requires forall r :: r in s.table && r != id ==> s.table[r].loginId != row.loginId
    ensures IssuesAreDistinct(s.log + [e])
    ensures TokensAreDistinct(s.table[id := row]) && LoginIdsAreDistinct(s.table[id := row])
  {}

  lemma AgedAfterWrite(s: State, id: EmployeeId, row: EmployeeRow, e: Event)
    requires id in s.table ==>
               RowAged(s.table[id], row) && row.sessionVersion == s.table[id].sessionVersion && row.active
    ensures Aged(s, Write(s, id, row, [e]).after) && OpensOrCloses(s, Write(s, id, row, [e]).after)
  {}

  lemma FreshTokenIsNotLive(s: State, hash: Hash)
    requires Inv(s) && IsFreshToken(s.log, hash)
    ensures !TokenTaken(s.table, hash)
  {
    forall r | r in s.table
      ensures !s.table[r].HasSetupToken(hash)
    {
      if s.table[r].setupTokenHash.Some? {
        var at := LatestIssueIsLogged(s.log, r);
      }
    }
  }

  /** A fresh token never collides, so an issue fails exactly on a taken login id and a reissue never as a duplicate. */
  lemma DuplicateMeansLoginId(s: State, id: EmployeeId, loginId: string, role: EmployeeRole, hash: Hash, now: Instant)
    requires Inv(s) && IsFreshToken(s.log, hash)
    ensures Issue(s, id, loginId, role, hash, now).result == Duplicate <==> LoginIdTaken(s.table, loginId)
    ensures Reissue(s, id, hash, now).result != Duplicate
  {
    FreshTokenIsNotLive(s, hash);
  }

  lemma IssueIsGood(s: State, id: EmployeeId, loginId: string, role: EmployeeRole, hash: Hash, now: Instant)
    requires Inv(s) && id !in s.table && IsFreshToken(s.log, hash)
    ensures GoodStep(s, Issue(s, id, loginId, role, hash, now).after)
  {
    if Issue(s, id, loginId, role, hash, now).result == Done {
      var expires := now + SETUP_LIFETIME;
      UnloggedHasNoSetups(s.log, id);
      LogStep(s.log, Issued(id, hash, expires), id);
      WriteIsGood(s, id, NewRow(loginId, role).Invited(hash, expires), Issued(id, hash, expires));
    }
  }

  lemma ReissueIsGood(s: State, id: EmployeeId, hash: Hash, now: Instant)
    requires Inv(s) && IsFreshToken(s.log, hash)
    ensures GoodStep(s, Reissue(s, id, hash, now).after)
  {
    if Reissue(s, id, hash, now).result == Done {
      var expires := now + SETUP_LIFETIME;
      LogStep(s.log, Issued(id, hash, expires), id);
      WriteIsGood(s, id, Next(s.table[id].Invited(hash, expires)), Issued(id, hash, expires));
    }
  }

  lemma SetPasswordIsGood(s: State, hash: Hash, found: Option<EmployeeId>, password: Option<Password>, encoded: Hash,
                            now: Instant)
    requires Inv(s)
    ensures GoodStep(s, SetPassword(s, hash, found, password, encoded, now).after)
  {
    if SetPassword(s, hash, found, password, encoded, now).result == Done {
      var id := found.value;
      LogStep(s.log, PasswordSet(id), id);
      WriteIsGood(s, id, Next(s.table[id].WithPassword(encoded)), PasswordSet(id));
    }
  }

  lemma BootstrapIsGood(s: State, id: EmployeeId, loginId: string, wellFormed: bool, password: Option<Password>,
                          encoded: Hash)
    requires Inv(s)
    ensures GoodStep(s, Bootstrap(s, id, loginId, wellFormed, password, encoded).after)
  {
    if Bootstrap(s, id, loginId, wellFormed, password, encoded).result == Done {
      UnloggedHasNoSetups(s.log, id);
      LogStep(s.log, PasswordSet(id), id);
      WriteIsGood(s, id, NewRow(loginId, Admin).WithPassword(encoded), PasswordSet(id));
    }
  }

  lemma SetActiveUsesCurrentRow(s: State, seen: State, id: EmployeeId, on: bool, actor: EmployeeId)
    requires Aged(seen, s)
    ensures var e := SetActive(s, seen.table, id, on, actor);
            || e.after == s
            || (id in s.table && e == SetActive(s, s.table, id, on, actor) && seen.table[id] == s.table[id])
  {}

  lemma SetActiveIsGood(s: State, id: EmployeeId, on: bool, actor: EmployeeId)
    requires Inv(s)
    ensures GoodStep(s, SetActive(s, s.table, id, on, actor).after)
  {
    hide IssuesAreDistinct, TokensAreDistinct, LoginIdsAreDistinct;
    var t := SetActive(s, s.table, id, on, actor).after;
    assert t.log == s.log;
    if t != s {
      var row := t.table[id];
      assert IsSettled(id, row, s.log);
      ActiveKeepsUnique(s.table, id, row);
    }
  }

  lemma ActiveKeepsUnique(table: Table, id: EmployeeId, row: EmployeeRow)
    requires TokensAreDistinct(table) && LoginIdsAreDistinct(table) && id in table
    requires row.loginId == table[id].loginId && row.setupTokenHash == table[id].setupTokenHash
    ensures TokensAreDistinct(table[id := row]) && LoginIdsAreDistinct(table[id := row])
  {}

  lemma NoStepIsGood(s: State)
    requires Inv(s)
    ensures GoodStep(s, s)
  {}

  lemma StepIsGood(history: seq<State>, op: Op)
    requires HistoryAged(history) && CanHappen(history, op) && Inv(history[|history| - 1])
    ensures GoodStep(history[|history| - 1], Perform(history, op).after)
  {
    hide Inv, Aged, OpensOrCloses, GoodStep, Issue, Reissue, SetPassword, SetActive, Bootstrap;
    var s := history[|history| - 1];
    match op
    case OpIssue(id, loginId, role, hash, now) => IssueIsGood(s, id, loginId, role, hash, now);
    case OpReissue(id, hash, now) => ReissueIsGood(s, id, hash, now);
    case OpSetPassword(hash, seen, found, password, encoded, now) =>
      SetPasswordIsGood(s, hash, found, password, encoded, now);
    case OpSetActive(id, on, actor, seen) =>
      SetActiveUsesCurrentRow(s, history[seen], id, on, actor);
      SetActiveIsGood(s, id, on, actor);
      NoStepIsGood(s);
    case OpBootstrap(id, loginId, wellFormed, password, encoded) =>
      BootstrapIsGood(s, id, loginId, wellFormed, password, encoded);
  }

  lemma {:induction false} AgedIsTransitive(s: State, t: State, u: State)
    requires Aged(s, t) && Aged(t, u)
    ensures Aged(s, u)
  {
    forall id | id in s.table
      ensures id in u.table && RowAged(s.table[id], u.table[id])
    {
      assert id in t.table && RowAged(s.table[id], t.table[id]) && RowAged(t.table[id], u.table[id]);
    }
  }

  lemma {:induction false} RunKeepsInv(run: Run, k: nat)
    requires IsRun(run) && k < |run.states|
    ensures Inv(run.states[k]) && HistoryAged(run.states[..k + 1])
    decreases k
  {
    hide IsSettled, OpensOrCloses, Perform, CanHappen;
    if k > 0 {
      RunKeepsInv(run, k - 1);
      assert Follows(run, k - 1);
      StepIsGood(run.states[..k], run.ops[k - 1]);
      forall i | 0 <= i < k
        ensures Aged(run.states[i], run.states[k])
      {
        assert Aged(run.states[..k][i], run.states[k - 1]);
        AgedIsTransitive(run.states[i], run.states[k - 1], run.states[k]);
      }
    }
  }

  // ---------- Guarantees over whole runs ----------

  /** A password hash is written once; who an employee is never changes. */
  lemma PasswordIsWrittenOnce(run: Run, i: nat, j: nat, id: EmployeeId)
    requires IsRun(run) && i <= j < |run.states| && id in run.states[i].table
    ensures id in run.states[j].table && RowAged(run.states[i].table[id], run.states[j].table[id])
  {
    RunKeepsInv(run, j);
    assert Aged(run.states[..j + 1][i], run.states[j]);
  }

  /** In every reachable state an account has a password and no token, or its latest token and no password. */
  lemma AccountsAreSettled(run: Run, k: nat, id: EmployeeId)
    requires IsRun(run) && k < |run.states| && id in run.states[k].table
    ensures IsSettled(id, run.states[k].table[id], run.states[k].log)
  {
    RunKeepsInv(run, k);
  }

  /**
   Exactly when setting a password succeeds, in terms of what happened before: the token is the last one issued to the
   employee found, still valid, nobody used it, and the account is active.
   */
  lemma SetupSucceedsIff(run: Run, k: nat)
    requires IsRun(run) && k < |run.ops| && run.ops[k].OpSetPassword?
    ensures var op, s := run.ops[k], run.states[k];
            ResultOf(run, k) == Done
            <==> op.found.Some? && op.found.value in s.table
                 && op.password.Some? && op.password.value.chars >= 12 && op.password.value.bytes <= 72
                 && s.table[op.found.value].active && Setups(s.log, op.found.value) == 0
                 && (var issue := LatestIssue(s.log, op.found.value);
                     issue.Some? && issue.value.Issued? && issue.value.token == op.hash && op.now < issue.value.expires)
  {
    RunKeepsInv(run, k);
  }

  /** No operation ever fails on a token that was taken: an issue is a duplicate exactly on its login id. */
  lemma TokensNeverCollide(run: Run, k: nat)
    requires IsRun(run) && k < |run.ops|
    ensures run.ops[k].OpIssue? ==>
              (ResultOf(run, k) == Duplicate <==> LoginIdTaken(run.states[k].table, run.ops[k].loginId))
    ensures !run.ops[k].OpIssue? ==> ResultOf(run, k) != Duplicate
  {
    hide Inv;
    RunKeepsInv(run, k);
    assert Follows(run, k);
    match run.ops[k]
    case OpIssue(id, loginId, role, hash, now) => DuplicateMeansLoginId(run.states[k], id, loginId, role, hash, now);
    case OpReissue(id, hash, now) => DuplicateMeansLoginId(run.states[k], id, "", Admin, hash, now);
    case _ =>
  }

  /** Whatever the lookup read, it named the employee the token was issued to. */
  lemma LookupNamesTokensOwner(run: Run, k: nat)
    requires IsRun(run) && k < |run.ops| && run.ops[k].OpSetPassword? && run.ops[k].found.Some?
    ensures run.ops[k].found.value in run.states[k].table
    ensures exists expires :: Issued(run.ops[k].found.value, run.ops[k].hash, expires) in run.states[k].log
  {
    assert Follows(run, k);
    RunKeepsInv(run, k);
    var id, seen := run.ops[k].found.value, run.ops[k].seen;
    RunKeepsInv(run, seen);
    assert run.states[..k + 1][seen] == run.states[seen] && Aged(run.states[seen], run.states[k]);
    var at := LatestIssueIsLogged(run.states[seen].log, id);
    assert run.states[k].log[at] == run.states[seen].log[at];
    assert Issued(id, run.ops[k].hash, run.states[k].log[at].expires) in run.states[k].log;
  }

  /** However reissues, activations and setups interleave, one setup succeeds for an employee. */
  lemma OneSetupPerEmployee(run: Run, k: nat, l: nat)
    requires IsRun(run) && k < |run.ops| && l < |run.ops|
    requires run.ops[k].OpSetPassword? && ResultOf(run, k) == Done
    requires run.ops[l].OpSetPassword? && ResultOf(run, l) == Done
    requires run.ops[k].found == run.ops[l].found
    ensures k == l
  {
    if k < l {
      SetupIsFinal(run, k, l);
    } else if l < k {
      SetupIsFinal(run, l, k);
    }
  }

  lemma SetupIsFinal(run: Run, k: nat, l: nat)
    requires IsRun(run) && k < l < |run.ops|
    requires run.ops[k].OpSetPassword? && ResultOf(run, k) == Done
    requires run.ops[l].OpSetPassword? && run.ops[l].found == run.ops[k].found
    ensures ResultOf(run, l) == InvalidToken
  {
    assert Follows(run, k);
    PasswordIsWrittenOnce(run, k + 1, l, run.ops[k].found.value);
  }

  /** A replaced token is dead: once another was issued to the same employee, it never works again. */
  lemma ReplacedTokenIsDead(run: Run, k: nat, first: nat, second: nat)
    requires IsRun(run) && k < |run.ops| && run.ops[k].OpSetPassword?
    requires var log := run.states[k].log;
             && first < second < |log| && log[first].Issued? && log[second].Issued?
             && log[first].id == log[second].id && log[first].token == run.ops[k].hash
    ensures ResultOf(run, k) == InvalidToken
  {
    var log, hash := run.states[k].log, run.ops[k].hash;
    RunKeepsInv(run, k);
    assert Follows(run, k);
    var found := run.ops[k].found;
    if found.Some? && found.value in run.states[k].table && run.states[k].table[found.value].HasSetupToken(hash) {
      var at := LatestIssueIsLogged(log, found.value);
    }
  }

  ghost predicate DeactivatedBetween(run: Run, id: EmployeeId, i: nat, m: nat) {
    exists k :: i <= k < m < |run.states| && WasDeactivated(run, id, k)
  }

  predicate WasDeactivated(run: Run, id: EmployeeId, k: nat) {
    && k + 1 < |run.states| && id in run.states[k].table && id in run.states[k + 1].table
    && run.states[k].table[id].active && !run.states[k + 1].table[id].active
  }

  lemma StepOpensOrCloses(run: Run, id: EmployeeId, k: nat)
    requires IsRun(run) && k < |run.ops| && id in run.states[k].table
    ensures id in run.states[k + 1].table
    ensures run.states[k + 1].table[id].sessionVersion
            == run.states[k].table[id].sessionVersion + (if WasDeactivated(run, id, k) then 1 else 0)
  {
    RunKeepsInv(run, k);
    assert Follows(run, k);
    StepIsGood(run.states[..k + 1], run.ops[k]);
  }

  /** The session version counts deactivations: it rises when there is one and at no other time. */
  lemma {:induction false} SessionVersionRisesIff(run: Run, id: EmployeeId, i: nat, m: nat)
    requires IsRun(run) && i <= m < |run.states| && id in run.states[i].table
    ensures id in run.states[m].table
    ensures run.states[i].table[id].sessionVersion <= run.states[m].table[id].sessionVersion
    ensures run.states[i].table[id].sessionVersion < run.states[m].table[id].sessionVersion
            <==> DeactivatedBetween(run, id, i, m)
    decreases m - i
  {
    if i < m {
      hide IsRun, Inv;
      SessionVersionRisesIff(run, id, i, m - 1);
      StepOpensOrCloses(run, id, m - 1);
      if WasDeactivated(run, id, m - 1) {
        assert DeactivatedBetween(run, id, i, m);
      } else {
        forall k | i <= k < m && WasDeactivated(run, id, k)
          ensures DeactivatedBetween(run, id, i, m - 1)
        {
          assert k < m - 1;
        }
      }
    }
  }

  lemma {:induction false} ActiveUnlessDeactivated(run: Run, id: EmployeeId, i: nat, m: nat)
    requires IsRun(run) && i <= m < |run.states| && id in run.states[i].table && run.states[i].table[id].active
    requires !DeactivatedBetween(run, id, i, m)
    ensures id in run.states[m].table && run.states[m].table[id].active
    decreases m - i
  {
    if i < m {
      assert forall k :: i <= k < m - 1 && WasDeactivated(run, id, k) ==> DeactivatedBetween(run, id, i, m);
      ActiveUnlessDeactivated(run, id, i, m - 1);
      PasswordIsWrittenOnce(run, m - 1, m, id);
      assert !WasDeactivated(run, id, m - 1);
    }
  }

  /**
   A principal read from an account with a password, at any point of a login, is valid later exactly while the account
   is active and was not deactivated in between.
   */
  lemma PrincipalIsValidIff(run: Run, id: EmployeeId, i: nat, m: nat)
    requires IsRun(run) && i <= m < |run.states| && id in run.states[i].table
    requires run.states[i].table[id].passwordHash.Some?
    ensures id in run.states[m].table
    ensures PrincipalOf(id, run.states[i].table[id]).IsValidFor(id, run.states[m].table[id])
            <==> run.states[m].table[id].active && !DeactivatedBetween(run, id, i, m)
  {
    SessionVersionRisesIff(run, id, i, m);
    PasswordIsWrittenOnce(run, i, m, id);
  }

  /** A session of an account that was enabled at login ends with the first deactivation, and with nothing else. */
  lemma SessionLastsUntilDeactivation(run: Run, id: EmployeeId, i: nat, m: nat)
    requires IsRun(run) && i <= m < |run.states| && id in run.states[i].table
    requires run.states[i].table[id].passwordHash.Some? && PrincipalOf(id, run.states[i].table[id]).enabled
    ensures id in run.states[m].table
    ensures PrincipalOf(id, run.states[i].table[id]).IsValidFor(id, run.states[m].table[id])
            <==> !DeactivatedBetween(run, id, i, m)
  {
    PrincipalIsValidIff(run, id, i, m);
    if !DeactivatedBetween(run, id, i, m) {
      ActiveUnlessDeactivated(run, id, i, m);
    }
  }

  /** Revocation is permanent: no reactivation brings an old session back. */
  lemma RevocationIsPermanent(run: Run, id: EmployeeId, i: nat, k: nat, m: nat)
    requires IsRun(run) && i <= k < m < |run.states| && id in run.states[i].table && WasDeactivated(run, id, k)
    ensures id in run.states[m].table
    ensures !PrincipalOf(id, run.states[i].table[id]).IsValidFor(id, run.states[m].table[id])
  {
    assert DeactivatedBetween(run, id, i, m);
    SessionVersionRisesIff(run, id, i, m);
  }

  /**
   A principal read while the account was inactive becomes valid when the account is reactivated, so a login must also
   look at `enabled`.
   */
  lemma DisabledPrincipalRevives(run: Run, id: EmployeeId, i: nat)
    requires IsRun(run) && i + 1 < |run.states| && id in run.states[i].table
    requires run.states[i].table[id].passwordHash.Some? && !run.states[i].table[id].active
    requires run.ops[i].OpSetActive? && run.ops[i].id == id && run.ops[i].on && run.ops[i].seen == i
    ensures id in run.states[i + 1].table
    ensures PrincipalOf(id, run.states[i].table[id]).IsValidFor(id, run.states[i + 1].table[id])
  {
    assert Follows(run, i);
  }

  // ---------- What each operation did ----------

  predicate OthersStay(s: State, t: State, id: EmployeeId) {
    forall r :: r in s.table && r != id ==> r in t.table && t.table[r] == s.table[r]
  }

  lemma StepOf(run: Run, k: nat)
    requires IsRun(run) && k < |run.ops|
    ensures CanHappen(run.states[..k + 1], run.ops[k])
    ensures Perform(run.states[..k + 1], run.ops[k]) == Effect(run.states[k + 1], ResultOf(run, k))
    ensures Inv(run.states[k])
  {
    assert Follows(run, k);
    RunKeepsInv(run, k);
  }

  /** A new account: the login id and role asked for, active, no password, and a token for twenty-four hours. */
  lemma IssueEffect(run: Run, k: nat)
    requires IsRun(run) && k < |run.ops| && run.ops[k].OpIssue?
    ensures var op, s, t := run.ops[k], run.states[k], run.states[k + 1];
            && (ResultOf(run, k) == Done <==> forall r :: r in s.table ==> s.table[r].loginId != op.loginId)
            && (ResultOf(run, k) != Done ==> t == s)
            && (ResultOf(run, k) == Done ==>
                  && op.id !in s.table && op.id in t.table && OthersStay(s, t, op.id)
                  && var row := t.table[op.id];
                     && row.loginId == op.loginId && row.role == op.role && row.active
                     && row.version == 0 && row.sessionVersion == 0 && row.passwordHash == None
                     && row.setupTokenHash == Some(op.hash) && row.setupExpiresAt == Some(op.now + 86_400_000_000))
  {
    hide Inv;
    StepOf(run, k);
    TokensNeverCollide(run, k);
  }

  /** A new token for an active account without a password; the old one and its expiry are replaced. */
  lemma ReissueEffect(run: Run, k: nat)
    requires IsRun(run) && k < |run.ops| && run.ops[k].OpReissue?
    ensures var op, s, t := run.ops[k], run.states[k], run.states[k + 1];
            && (op.id !in s.table ==> ResultOf(run, k) == NotFound)
            && (op.id in s.table ==>
                  ResultOf(run, k) == if s.table[op.id].passwordHash == None && s.table[op.id].active then Done
                                      else SetupConflict)
            && (ResultOf(run, k) != Done ==> t == s)
            && (ResultOf(run, k) == Done ==>
                  && op.id in s.table && op.id in t.table && OthersStay(s, t, op.id)
                  && var a, b := s.table[op.id], t.table[op.id];
                     && b.setupTokenHash == Some(op.hash) && b.setupExpiresAt == Some(op.now + 86_400_000_000)
                     && b.passwordHash == None && b.active && b.loginId == a.loginId && b.role == a.role
                     && b.sessionVersion == a.sessionVersion && b.version == a.version + 1)
  {
    hide Inv;
    StepOf(run, k);
    TokensNeverCollide(run, k);
  }

  /** The password stored is the one sent, encoded; the token is gone; nothing else of the account changes. */
  lemma SetPasswordEffect(run: Run, k: nat)
    requires IsRun(run) && k < |run.ops| && run.ops[k].OpSetPassword?
    ensures var op, s, t := run.ops[k], run.states[k], run.states[k + 1];
            && (ResultOf(run, k) != Done ==> t == s && ResultOf(run, k) in {InvalidToken, InvalidPassword})
            && (ResultOf(run, k) == Done ==>
                  && op.found.Some? && op.found.value in s.table && op.found.value in t.table
                  && OthersStay(s, t, op.found.value)
                  && var a, b := s.table[op.found.value], t.table[op.found.value];
                     && b.passwordHash == Some(op.encoded) && b.setupTokenHash == None && b.setupExpiresAt == None
                     && b.active == a.active && b.loginId == a.loginId && b.role == a.role
                     && b.sessionVersion == a.sessionVersion && b.version == a.version + 1)
  {
    hide Inv;
    StepOf(run, k);
  }

  /** Activation and deactivation take effect on the row that was read; a deactivation raises the session version. */
  lemma SetActiveEffect(run: Run, k: nat)
    requires IsRun(run) && k < |run.ops| && run.ops[k].OpSetActive?
    ensures run.ops[k].seen < |run.states|
    ensures var op, s, t := run.ops[k], run.states[k], run.states[k + 1];
            var seen := run.states[op.seen].table;
            if op.id == op.actor && !op.on then ResultOf(run, k) == SelfDeactivation && t == s
            else if op.id !in seen then ResultOf(run, k) == NotFound && t == s
            else if seen[op.id].active == op.on then ResultOf(run, k) == Done && t == s
            else if op.id !in s.table || s.table[op.id].version != seen[op.id].version
            then ResultOf(run, k) == StaleRow && t == s
            else
              && ResultOf(run, k) == Done && op.id in t.table && OthersStay(s, t, op.id)
              && s.table[op.id] == seen[op.id]
              && var a, b := s.table[op.id], t.table[op.id];
                 && b.active == op.on && b.sessionVersion == a.sessionVersion + (if op.on then 0 else 1)
                 && b.passwordHash == a.passwordHash && b.setupTokenHash == a.setupTokenHash
                 && b.setupExpiresAt == a.setupExpiresAt && b.loginId == a.loginId && b.role == a.role
                 && b.version == a.version + 1
  {
    hide Inv, RowAged;
    StepOf(run, k);
    var op := run.ops[k];
    if op.id in run.states[op.seen].table {
      PasswordIsWrittenOnce(run, op.seen, k, op.id);
      SameVersionSameRow(run.states[op.seen].table[op.id], run.states[k].table[op.id]);
    }
  }

  lemma SameVersionSameRow(a: EmployeeRow, b: EmployeeRow)
    requires RowAged(a, b)
    ensures a.version == b.version ==> a == b
  {}

  /** Right after a deactivation no principal read before it is valid. */
  lemma DeactivationEndsSessions(run: Run, k: nat, j: nat)
    requires IsRun(run) && k < |run.ops| && run.ops[k].OpSetActive? && !run.ops[k].on
    requires run.ops[k].seen < |run.states|
    requires ResultOf(run, k) == Done && run.ops[k].id in run.states[run.ops[k].seen].table
    requires run.states[run.ops[k].seen].table[run.ops[k].id].active
    requires j <= k && run.ops[k].id in run.states[j].table
    ensures var id := run.ops[k].id;
            && id in run.states[k + 1].table && !run.states[k + 1].table[id].active
            && !PrincipalOf(id, run.states[j].table[id]).IsValidFor(id, run.states[k + 1].table[id])
            && run.states[j].table[id].sessionVersion < run.states[k + 1].table[id].sessionVersion
  {
    hide Follows, Inv;
    SetActiveEffect(run, k);
    VersionsGrow(run, j, k, run.ops[k].id);
  }

  lemma VersionsGrow(run: Run, j: nat, k: nat, id: EmployeeId)
    requires IsRun(run) && j <= k < |run.states| && id in run.states[j].table
    ensures id in run.states[k].table
    ensures run.states[j].table[id].sessionVersion <= run.states[k].table[id].sessionVersion
  {
    PasswordIsWrittenOnce(run, j, k, id);
  }

  /** The first account: an administrator with the password given, on an empty table only. */
  lemma BootstrapEffect(run: Run, k: nat)
    requires IsRun(run) && k < |run.ops| && run.ops[k].OpBootstrap?
    ensures var op, s, t := run.ops[k], run.states[k], run.states[k + 1];
            && (ResultOf(run, k) == Done
                <==> s.table == map[] && op.wellFormed
                     && op.password.Some? && op.password.value.chars >= 12 && op.password.value.bytes <= 72)
            && (ResultOf(run, k) != Done ==> t == s)
            && (ResultOf(run, k) == Done ==>
                  && t.table.Keys == {op.id}
                  && var row := t.table[op.id];
                     && row.loginId == op.loginId && row.role == Admin && row.active && row.sessionVersion == 0
                     && row.passwordHash == Some(op.encoded)
                     && row.setupTokenHash == None && row.setupExpiresAt == None)
  {
    hide Inv;
    StepOf(run, k);
  }

  /** What a principal keeps, and what the session check compares. */
  lemma PrincipalKeeps(id: EmployeeId, row: EmployeeRow, other: EmployeeId, now: EmployeeRow)
    ensures var p := PrincipalOf(id, row);
            && p.employeeId == id && p.sessionVersion == row.sessionVersion && (p.enabled <==> row.active)
            && (p.IsValidFor(other, now)
                <==> other == id && now.sessionVersion == row.sessionVersion && now.active && now.passwordHash.Some?)
  {}
}

/** The service itself; each method is one transaction on the table (EmployeeService.java). */
module EmployeeServices {
  import opened Domain
  import opened EmployeeEntity
  import opened Accounts

  class EmployeeService {
    var table: Table
    ghost var log: seq<Event>

    ghost function Current(): State
      reads this
    {
      State(table, log)
    }

    constructor ()
      ensures Current() == EMPTY
    {
      table, log := map[], [];
    }

    /** INSERT, or UPDATE of a row whose version still stands; unique columns are checked first. */
    method Save(id: EmployeeId, row: EmployeeRow, ghost event: seq<Event>)
      modifies this
      ensures Current() == Write(old(Current()), id, row, event).after
    {
      table := table[id := row];
      log := log + event;
    }

    /** The tail shared by issue and reissue: a fresh token replaces whatever was there. */
    method IssueSetupToken(id: EmployeeId, employee: EmployeeAccount, isNew: bool, hash: Hash, now: Instant)
      returns (result: Result)
      modifies this, employee
      ensures var expires, row := now + SETUP_LIFETIME, old(employee.Row());
              var taken := (isNew && LoginIdTaken(old(table), row.loginId)) || TokenTaken(old(table), hash);
              var invited := row.Invited(hash, expires);
              Effect(Current(), result)
              == if taken then Refuse(old(Current()), Duplicate)
                 else Write(old(Current()), id, if isNew then invited else Next(invited), [Issued(id, hash, expires)])
    {
      var expires := now + SETUP_LIFETIME;
      employee.Invite(hash, expires);
      if (isNew && LoginIdTaken(table, employee.loginId)) || TokenTaken(table, hash) {
        return Duplicate;
      }
      var row := employee.Row();
      Save(id, if isNew then row else Next(row), [Issued(id, hash, expires)]);
      result := Done;
    }

    method Issue(id: EmployeeId, loginId: string, role: EmployeeRole, hash: Hash, now: Instant) returns (result: Result)
      modifies this
      ensures Effect(Current(), result) == Accounts.Issue(old(Current()), id, loginId, role, hash, now)
    {
      var employee := new EmployeeAccount(loginId, role);
      result := IssueSetupToken(id, employee, true, hash, now);
    }

    method ReissueSetupToken(id: EmployeeId, hash: Hash, now: Instant) returns (result: Result)
      modifies this
      ensures Effect(Current(), result) == Accounts.Reissue(old(Current()), id, hash, now)
    {
      if id !in table {
        return NotFound;
      }
      var employee := new EmployeeAccount.Load(table[id]);
      if employee.passwordHash.Some? {
        return SetupConflict;
      }
      if !employee.active {
        return SetupConflict;
      }
      result := IssueSetupToken(id, employee, false, hash, now);
    }

    method SetPassword(hash: Hash, found: Option<EmployeeId>, password: Option<Password>, encoded: Hash, now: Instant)
      returns (result: Result)
      modifies this
      ensures Effect(Current(), result) == Accounts.SetPassword(old(Current()), hash, found, password, encoded, now)
    {
      if found.None? || found.value !in table {
        return InvalidToken;
      }
      var employee := new EmployeeAccount.Load(table[found.value]);
      if !employee.HasSetupToken(hash) || !employee.active || employee.passwordHash.Some?
         || employee.setupExpiresAt.None? || !(employee.setupExpiresAt.value > now) {
        return InvalidToken;
      }
      if !IsAcceptable(password) {
        return InvalidPassword;
      }
      employee.SetPassword(encoded);
      Save(found.value, Next(employee.Row()), [PasswordSet(found.value)]);
      result := Done;
    }

    /** `seen` is the snapshot the row was read from; an unchanged row is not written at all. */
    method Active(seen: Table, id: EmployeeId, on: bool, actor: EmployeeId) returns (result: Result)
      modifies this
      ensures Effect(Current(), result) == Accounts.SetActive(old(Current()), seen, id, on, actor)
    {
      if id == actor && !on {
        return SelfDeactivation;
      }
      if id !in seen {
        return NotFound;
      }
      var employee := new EmployeeAccount.Load(seen[id]);
      employee.SetActive(on);
      var row := employee.Row();
      if row != seen[id] {
        if id !in table || table[id].version != employee.version {
          return StaleRow;
        }
        Save(id, Next(row), []);
      }
      result := Done;
    }

    method Bootstrap(id: EmployeeId, loginId: string, wellFormed: bool, password: Option<Password>, encoded: Hash)
      returns (result: Result)
      modifies this
      ensures Effect(Current(), result)
              == Accounts.Bootstrap(old(Current()), id, loginId, wellFormed, password, encoded)
    {
      if table != map[] {
        return TableNotEmpty;
      }
      if !wellFormed {
        return InvalidLoginId;
      }
      if !IsAcceptable(password) {
        return InvalidPassword;
      }
      var employee := new EmployeeAccount(loginId, Admin);
      employee.SetPassword(encoded);
      Save(id, employee.Row(), [PasswordSet(id)]);
      result := Done;
    }
  }
}
