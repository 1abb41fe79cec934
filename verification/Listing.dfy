/**
 The review queue: ids first, then the rows, then their job statuses (ReceiptQueryService.java, ReceiptRepository.java,
 ReceiptListRequest.java), against filtering, sorting and slicing the receipts directly.
 */
module Listing {
  import opened Domain
  import opened ReceiptEntity
  import opened Database
  import opened Transactions

  const MAX_INT: int := 0x7fff_ffff

  /** 1000-01-01 and 9999-12-31, in days since 1970-01-01. */
  const FIRST_DATE: Date := -354285
  const LAST_DATE: Date := 2932896

  predicate IsSupported(date: Option<Date>) {
    date.Some? ==> FIRST_DATE <= date.value <= LAST_DATE
  }

  /** A day filter includes both ends. Missing page and size mean 0 and 20. */
  datatype ListRequest = ListRequest(status: Option<ReceiptStatus>, from: Option<Date>, to: Option<Date>,
                                     page: int, size: int)

  function MakeRequest(status: Option<ReceiptStatus>, from: Option<Date>, to: Option<Date>,
                       page: Option<int>, size: Option<int>): ListRequest
  {
    ListRequest(status, from, to, if page.Some? then page.value else 0, if size.Some? then size.value else 20)
  }

  predicate IsValid(q: ListRequest) {
    && q.page >= 0 && 1 <= q.size <= 100 && q.page * q.size <= MAX_INT
    && (q.from.Some? && q.to.Some? ==> q.from.value <= q.to.value)
    && IsSupported(q.from) && IsSupported(q.to)
  }

  /** The start of each business day as an instant; it only has to increase. */
  ghost predicate IsCalendar(startOfDay: Date -> Instant) {
    forall d, e :: d < e ==> startOfDay(d) < startOfDay(e)
  }

  predicate InPeriod(at: Instant, from: Option<Date>, to: Option<Date>, startOfDay: Date -> Instant) {
    && (from.Some? ==> startOfDay(from.value) <= at)
    && (to.Some? ==> at < startOfDay(to.value + 1))
  }

  const REVIEW_PENDING_STATUSES: set<ReceiptStatus> := {NeedsReview, ManualEntry, NeedsRecapture, Unreadable}

  type Table = map<ReceiptId, ReceiptRow>

  predicate InReviewQueue(row: ReceiptRow, reviewer: EmployeeId, q: ListRequest, startOfDay: Date -> Instant) {
    && row.owner.Some? && row.owner.value != reviewer
    && row.status.Some? && row.status.value in REVIEW_PENDING_STATUSES
    && (q.status.Some? ==> row.status == q.status)
    && InPeriod(row.createdAt, q.from, q.to, startOfDay)
  }

  function QueueIds(rows: Table, reviewer: EmployeeId, q: ListRequest, startOfDay: Date -> Instant): set<ReceiptId> {
    set r | r in rows && InReviewQueue(rows[r], reviewer, q, startOfDay)
  }

  // ---------- ORDER BY created_at DESC, id DESC ----------

  predicate Newer(rows: Table, a: ReceiptId, b: ReceiptId)
    requires a in rows && b in rows
  {
    rows[a].createdAt > rows[b].createdAt || (rows[a].createdAt == rows[b].createdAt && a > b)
  }

  predicate IsSorted(rows: Table, ids: seq<ReceiptId>) {
    && (forall i :: 0 <= i < |ids| ==> ids[i] in rows)
    && (forall i, k :: 0 <= i < k < |ids| ==> Newer(rows, ids[i], ids[k]))
  }

  ghost predicate IsNewest(rows: Table, ids: set<ReceiptId>, m: ReceiptId)
    requires ids <= rows.Keys
  {
    m in ids && forall x :: x in ids && x != m ==> Newer(rows, m, x)
  }

  lemma {:induction false} Newest(rows: Table, ids: set<ReceiptId>) returns (m: ReceiptId)
    requires ids != {} && ids <= rows.Keys
    ensures IsNewest(rows, ids, m)
    decreases ids
  {
    var y :| y in ids;
    var rest := ids - {y};
    if rest == {} {
      assert ids == {y};
      m := y;
    } else {
      m := Newest(rows, rest);
      if Newer(rows, y, m) {
        assert forall x :: x in rest && x != m ==> Newer(rows, m, x);
        m := y;
      }
      assert forall x :: x in ids && x != m ==> x == y || x in rest;
    }
  }

  /** The ids in listing order. */
  ghost function Ordered(rows: Table, ids: set<ReceiptId>): (s: seq<ReceiptId>)
    requires ids <= rows.Keys
    ensures |s| == |ids| && forall r :: r in s <==> r in ids
    ensures IsSorted(rows, s)
    decreases ids
  {
    if exists m :: IsNewest(rows, ids, m) then
      var m :| IsNewest(rows, ids, m);
      [m] + Ordered(rows, ids - {m})
    else
      NoNewestMeansEmpty(rows, ids);
      []
  }

  lemma NoNewestMeansEmpty(rows: Table, ids: set<ReceiptId>)
    requires ids <= rows.Keys && !exists m :: IsNewest(rows, ids, m)
    ensures ids == {}
  {
    if ids != {} {
      var m := Newest(rows, ids);
      assert false;
    }
  }

  lemma SharedElementMeansNonEmpty(a: seq<ReceiptId>, b: seq<ReceiptId>)
    requires a != [] && forall r :: r in a ==> r in b
    ensures b != []
  {
    assert a[0] in b;
  }

  /** The order is total, so sorted lists of the same receipts are the same list. */
  lemma {:induction false} SortedIsUnique(rows: Table, a: seq<ReceiptId>, b: seq<ReceiptId>)
    requires IsSorted(rows, a) && IsSorted(rows, b)
    requires forall r :: r in a <==> r in b
    ensures a == b
  {
    if a != [] {
      SharedElementMeansNonEmpty(a, b);
    }
    if b != [] {
      SharedElementMeansNonEmpty(b, a);
    }
    if a != [] {
      assert a[0] in a && a[0] in b && b[0] in b && b[0] in a;
      assert a[0] == b[0];
      forall r ensures r in a[1..] <==> r in b[1..] {
        if r in a[1..] {
          assert r in a && r != a[0];
        }
        if r in b[1..] {
          assert r in b && r != b[0];
        }
      }
      SortedIsUnique(rows, a[1..], b[1..]);
    }
  }

  // ---------- Pages ----------

  function Min(a: int, b: int): int {
    if a < b then a else b
  }

  /** OFFSET page * size LIMIT size */
  function PageOf<T>(all: seq<T>, page: nat, size: nat): seq<T> {
    all[Min(page * size, |all|)..Min((page + 1) * size, |all|)]
  }

  function PageCount(total: nat, size: nat): nat
    requires size > 0
  {
    (total + size - 1) / size
  }

  function FirstPages<T>(all: seq<T>, size: nat, n: nat): seq<T> {
    if n == 0 then [] else FirstPages(all, size, n - 1) + PageOf(all, n - 1, size)
  }

  lemma {:induction false} FirstPagesArePrefix<T>(all: seq<T>, size: nat, n: nat)
    ensures FirstPages(all, size, n) == all[..Min(n * size, |all|)]
  {
    if n > 0 {
      FirstPagesArePrefix(all, size, n - 1);
      assert n * size == (n - 1) * size + size;
    }
  }

  lemma PageCountCovers(total: nat, size: nat, page: nat)
    requires size > 0
    ensures PageCount(total, size) * size >= total
    ensures page + 1 < PageCount(total, size) <==> (page + 1) * size < total
  {
    var count := PageCount(total, size);
    assert count * size + (total + size - 1) % size == total + size - 1;
    if page + 1 < count {
      assert (page + 2) * size <= count * size;
    } else {
      assert count * size <= (page + 1) * size;
    }
  }

  /** Reading every page in turn reads every matching receipt once, in order. */
  lemma PagesPartitionListing<T>(all: seq<T>, size: nat)
    requires size > 0
    ensures FirstPages(all, size, PageCount(|all|, size)) == all
  {
    FirstPagesArePrefix(all, size, PageCount(|all|, size));
    PageCountCovers(|all|, size, 0);
  }

  // ---------- The service ----------

  datatype ListItem = ListItem(receiptId: ReceiptId, row: ReceiptRow, jobStatus: Option<JobStatus>)

  datatype PageResponse = PageResponse(content: seq<ListItem>, page: nat, size: nat, totalElements: nat,
                                       totalPages: nat, hasNext: bool)

  /** `found` answers the IN query: the stored rows of these ids, in any order. */
  ghost predicate AnswersIn(found: seq<(ReceiptId, ReceiptRow)>, rows: Table, ids: seq<ReceiptId>) {
    && (forall f :: f in found ==> f.0 in rows && f.1 == rows[f.0] && f.0 in ids)
    && (forall r :: r in ids && r in rows ==> (r, rows[r]) in found)
  }

  /** None is ReceiptNotFoundException. */
  method LoadReceiptsInPageOrder(ghost rows: Table, ids: seq<ReceiptId>, found: seq<(ReceiptId, ReceiptRow)>)
    returns (ordered: Option<seq<(ReceiptId, ReceiptRow)>>)
    requires AnswersIn(found, rows, ids)
    ensures ordered.Some? <==> forall r :: r in ids ==> r in rows
    ensures ordered.Some? ==> |ordered.value| == |ids|
    ensures ordered.Some? ==>
              forall i :: 0 <= i < |ids| ==> ids[i] in rows && ordered.value[i] == (ids[i], rows[ids[i]])
  {
    if ids == [] {
      return Some([]);
    }
    var receiptById: Table := map[];
    for i := 0 to |found|
      invariant forall r :: r in receiptById ==> r in rows && receiptById[r] == rows[r]
      invariant forall k :: 0 <= k < i ==> found[k].0 in receiptById
    {
      assert found[i] in found;
      receiptById := receiptById[found[i].0 := found[i].1];
    }
    assert forall r :: r in ids && r in rows ==> r in receiptById;
    var list: seq<(ReceiptId, ReceiptRow)> := [];
    for i := 0 to |ids|
      invariant |list| == i
      invariant forall k :: 0 <= k < i ==> ids[k] in rows && list[k] == (ids[k], rows[ids[k]])
    {
      assert ids[i] in ids;
      if ids[i] !in receiptById {
        return None;
      }
      list := list + [(ids[i], receiptById[ids[i]])];
    }
    ordered := Some(list);
  }

  /** `jobs` answers the status query for these receipts, in any order. */
  ghost predicate AnswersStatuses(jobs: seq<(ReceiptId, JobStatus)>, statuses: map<ReceiptId, JobStatus>,
                                  receipts: seq<(ReceiptId, ReceiptRow)>) {
    && (forall j :: j in jobs ==> j.0 in statuses && j.1 == statuses[j.0])
    && (forall f :: f in receipts && f.0 in statuses ==> (f.0, statuses[f.0]) in jobs)
  }

  ghost predicate TellsStatus(found: map<ReceiptId, JobStatus>, statuses: map<ReceiptId, JobStatus>, r: ReceiptId) {
    (r in found <==> r in statuses) && (r in found ==> found[r] == statuses[r])
  }

  method FindJobStatuses(ghost statuses: map<ReceiptId, JobStatus>, receipts: seq<(ReceiptId, ReceiptRow)>,
                         jobs: seq<(ReceiptId, JobStatus)>) returns (statusById: map<ReceiptId, JobStatus>)
    requires AnswersStatuses(jobs, statuses, receipts)
    ensures forall f :: f in receipts ==> TellsStatus(statusById, statuses, f.0)
  {
    statusById := map[];
    if receipts == [] {
      return;
    }
    for i := 0 to |jobs|
      invariant forall k :: 0 <= k < i ==> jobs[k].0 in statusById
      invariant forall r :: r in statusById ==> r in statuses && statusById[r] == statuses[r]
    {
      assert jobs[i] in jobs;
      statusById := statusById[jobs[i].0 := jobs[i].1];
    }
  }

  /** Spring's PageImpl replaces the counted total on what it takes for the last page. */
  function PageImplTotal(content: nat, page: nat, size: nat, counted: nat): nat {
    if content > 0 && page * size + size > counted then page * size + content else counted
  }

  /** What the listing shows of one receipt. */
  ghost function ItemOf(receipt: (ReceiptId, ReceiptRow), statuses: map<ReceiptId, JobStatus>): ListItem {
    ListItem(receipt.0, receipt.1, if receipt.0 in statuses then Some(statuses[receipt.0]) else None)
  }

  /** On what it takes for the last page Spring counts the rows it got; a page with no rows keeps the counted total. */
  lemma PageImplCounts(content: nat, page: nat, size: nat, counted: nat)
    ensures content == 0 || page * size + size <= counted ==> PageImplTotal(content, page, size, counted) == counted
    ensures content > 0 && page * size + size > counted ==>
              PageImplTotal(content, page, size, counted) == page * size + content
  {}

  method CreatePageResponse(ghost statuses: map<ReceiptId, JobStatus>, receipts: seq<(ReceiptId, ReceiptRow)>,
                            page: nat, size: nat, counted: nat, jobs: seq<(ReceiptId, JobStatus)>)
    returns (response: PageResponse)
    requires size > 0
    requires AnswersStatuses(jobs, statuses, receipts)
    ensures response.page == page && response.size == size
    ensures response.totalElements == PageImplTotal(|receipts|, page, size, counted)
    ensures response.totalPages == PageCount(response.totalElements, size)
    ensures response.hasNext <==> page + 1 < response.totalPages
    ensures |response.content| == |receipts|
    ensures forall i :: 0 <= i < |receipts| ==> response.content[i] == ItemOf(receipts[i], statuses)
  {
    var statusById := FindJobStatuses(statuses, receipts, jobs);
    var content: seq<ListItem> := [];
    for i := 0 to |receipts|
      invariant |content| == i
      invariant forall k :: 0 <= k < i ==> content[k] == ItemOf(receipts[k], statuses)
    {
      assert receipts[i] in receipts;
      var r := receipts[i].0;
      var jobStatus := if r in statusById then Some(statusById[r]) else None;
      content := content + [ListItem(r, receipts[i].1, jobStatus)];
    }
    var total := PageImplTotal(|receipts|, page, size, counted);
    var pages := PageCount(total, size);
    response := PageResponse(content, page, size, total, pages, page + 1 < pages);
  }

  ghost function RowsOf(rows: Table, ids: seq<ReceiptId>): (s: seq<(ReceiptId, ReceiptRow)>)
    requires forall r :: r in ids ==> r in rows
    ensures |s| == |ids| && forall i :: 0 <= i < |ids| ==> s[i] == (ids[i], rows[ids[i]])
  {
    seq(|ids|, i requires 0 <= i < |ids| => (ids[i], rows[ids[i]]))
  }

  /** The direct query: the receipts themselves, filtered, sorted and cut. */
  ghost function DirectPage(rows: Table, reviewer: EmployeeId, q: ListRequest, startOfDay: Date -> Instant)
    : seq<(ReceiptId, ReceiptRow)>
    requires IsValid(q)
  {
    PageOf(RowsOf(rows, Ordered(rows, QueueIds(rows, reviewer, q, startOfDay))), q.page, q.size)
  }

  /** Cutting ids and then loading is loading and then cutting. */
  lemma LoadingCommutesWithPaging(rows: Table, ids: seq<ReceiptId>, page: nat, size: nat)
    requires forall r :: r in ids ==> r in rows
    ensures forall r :: r in PageOf(ids, page, size) ==> r in ids
    ensures PageOf(RowsOf(rows, ids), page, size) == RowsOf(rows, PageOf(ids, page, size))
  {
    assert (page + 1) * size == page * size + size;
  }

  /** What the id query and the count query return, on the same snapshot. */
  ghost predicate AnswersQueue(pageIds: seq<ReceiptId>, counted: nat, rows: Table, reviewer: EmployeeId, q: ListRequest,
                               startOfDay: Date -> Instant)
    requires IsValid(q)
  {
    var matching := QueueIds(rows, reviewer, q, startOfDay);
    pageIds == PageOf(Ordered(rows, matching), q.page, q.size) && counted == |matching|
  }

  ghost predicate IsQueuePage(response: PageResponse, rows: Table, statuses: map<ReceiptId, JobStatus>,
                              reviewer: EmployeeId, q: ListRequest, startOfDay: Date -> Instant)
    requires IsValid(q)
  {
    var direct := DirectPage(rows, reviewer, q, startOfDay);
    var total := |QueueIds(rows, reviewer, q, startOfDay)|;
    && |response.content| == |direct|
    && (forall i :: 0 <= i < |direct| ==> response.content[i] == ItemOf(direct[i], statuses))
    && response.page == q.page && response.size == q.size
    && response.totalElements == total && response.totalPages == PageCount(total, q.size)
    && (response.hasNext <==> (q.page + 1) * q.size < total)
  }

  /**
   Ids first, rows in whatever order they come, re-ordered through a map: the page is that of the direct query, the
   total is the number of matches, and hasNext says whether more follow. The queries see one snapshot, `rows` and
   `statuses`.
   */
  method FindReviewQueue(ghost rows: Table, ghost statuses: map<ReceiptId, JobStatus>, reviewer: EmployeeId,
                         q: ListRequest, ghost startOfDay: Date -> Instant, pageIds: seq<ReceiptId>, counted: nat,
                         found: seq<(ReceiptId, ReceiptRow)>, jobs: seq<(ReceiptId, JobStatus)>)
    returns (response: Option<PageResponse>)
    requires IsValid(q) ==>
               && AnswersQueue(pageIds, counted, rows, reviewer, q, startOfDay) && AnswersIn(found, rows, pageIds)
               && AnswersStatuses(jobs, statuses, DirectPage(rows, reviewer, q, startOfDay))
    ensures response.Some? <==> IsValid(q)
    ensures response.Some? ==> IsQueuePage(response.value, rows, statuses, reviewer, q, startOfDay)
  {
    if !IsValid(q) {
      return None;
    }
    ghost var ids := Ordered(rows, QueueIds(rows, reviewer, q, startOfDay));
    LoadingCommutesWithPaging(rows, ids, q.page, q.size);
    PageTotalsAgree(ids, q.page, q.size);
    PageCountCovers(|ids|, q.size, q.page);
    var loaded := LoadReceiptsInPageOrder(rows, pageIds, found);
    assert loaded.value == RowsOf(rows, pageIds);
    var page := CreatePageResponse(statuses, loaded.value, q.page, q.size, counted, jobs);
    response := Some(page);
  }

  /** The correction in PageImpl never changes a total read in the same snapshot. */
  lemma PageTotalsAgree<T>(all: seq<T>, page: nat, size: nat)
    requires size > 0
    ensures PageImplTotal(|PageOf(all, page, size)|, page, size, |all|) == |all|
  {
    assert (page + 1) * size == page * size + size;
  }

  // ---------- What the listing shows ----------

  /** Which receipts a reviewer's queue lists. */
  lemma QueueListsExactly(rows: Table, reviewer: EmployeeId, q: ListRequest, startOfDay: Date -> Instant, r: ReceiptId)
    ensures r in QueueIds(rows, reviewer, q, startOfDay) <==>
              && r in rows && rows[r].owner.Some? && rows[r].owner != Some(reviewer)
              && (rows[r].status == Some(NeedsReview) || rows[r].status == Some(ManualEntry)
                  || rows[r].status == Some(NeedsRecapture) || rows[r].status == Some(Unreadable))
              && (q.status.Some? ==> rows[r].status == q.status)
              && (q.from.Some? ==> rows[r].createdAt >= startOfDay(q.from.value))
              && (q.to.Some? ==> rows[r].createdAt < startOfDay(q.to.value + 1))
  {}

  /** Pages are cut at multiples of the size; on each the newer receipt comes first, the larger id at equal times. */
  lemma PageIsNewestFirst(rows: Table, reviewer: EmployeeId, q: ListRequest, startOfDay: Date -> Instant)
    requires IsValid(q)
    ensures var page := DirectPage(rows, reviewer, q, startOfDay);
            var total := |QueueIds(rows, reviewer, q, startOfDay)|;
            && |page| == (if q.page * q.size >= total then 0 else if (q.page + 1) * q.size <= total then q.size
                          else total - q.page * q.size)
            && (forall i :: 0 <= i < |page| ==>
                  page[i].0 in QueueIds(rows, reviewer, q, startOfDay) && page[i].1 == rows[page[i].0])
            && (forall i, k :: 0 <= i < k < |page| ==>
                  page[i].1.createdAt > page[k].1.createdAt
                  || (page[i].1.createdAt == page[k].1.createdAt && page[i].0 > page[k].0))
  {
    hide InReviewQueue, PageOf;
    SortedPage(rows, Ordered(rows, QueueIds(rows, reviewer, q, startOfDay)), q.page, q.size);
  }

  lemma SortedPage(rows: Table, ids: seq<ReceiptId>, page: nat, size: nat)
    requires IsSorted(rows, ids) && forall r :: r in ids ==> r in rows
    ensures var p := PageOf(RowsOf(rows, ids), page, size);
            && |p| == (if page * size >= |ids| then 0 else if (page + 1) * size <= |ids| then size
                       else |ids| - page * size)
            && (forall i :: 0 <= i < |p| ==> p[i].0 in ids && p[i].0 in rows && p[i].1 == rows[p[i].0])
            && (forall i, k :: 0 <= i < k < |p| ==>
                  p[i].1.createdAt > p[k].1.createdAt || (p[i].1.createdAt == p[k].1.createdAt && p[i].0 > p[k].0))
  {
    hide PageOf;
    PageLies(RowsOf(rows, ids), page, size);
    var p := PageOf(RowsOf(rows, ids), page, size);
    forall i, k | 0 <= i < k < |p|
      ensures p[i].0 in rows && p[k].0 in rows && Newer(rows, p[i].0, p[k].0)
    {
      assert Newer(rows, ids[page * size + i], ids[page * size + k]);
    }
  }

  /** Element i of a page is element page * size + i of the listing. */
  lemma PageLies<T>(all: seq<T>, page: nat, size: nat)
    ensures |PageOf(all, page, size)|
            == if page * size >= |all| then 0 else if (page + 1) * size <= |all| then size else |all| - page * size
    ensures forall i :: 0 <= i < |PageOf(all, page, size)| ==>
              page * size + i < |all| && PageOf(all, page, size)[i] == all[page * size + i]
  {
    assert (page + 1) * size == page * size + size;
  }

  /** Which requests are accepted, and what stands in for a page or size that is not given. */
  lemma RequestIsAcceptedIff(status: Option<ReceiptStatus>, from: Option<Date>, to: Option<Date>,
                             page: Option<int>, size: Option<int>)
    ensures var p := if page.Some? then page.value else 0;
            var z := if size.Some? then size.value else 20;
            IsValid(MakeRequest(status, from, to, page, size)) <==>
              && 0 <= p && 1 <= z <= 100 && p * z <= 2_147_483_647
              && !(from.Some? && to.Some? && from.value > to.value)
              && (from.Some? ==> FIRST_DATE <= from.value <= LAST_DATE)
              && (to.Some? ==> FIRST_DATE <= to.value <= LAST_DATE)
  {}

  /** A period open at one end is what remains after, or before, the days outside it. */
  lemma OpenPeriods(at: Instant, d: Date, startOfDay: Date -> Instant)
    ensures InPeriod(at, Some(d), None, startOfDay) <==> !InPeriod(at, None, Some(d - 1), startOfDay)
    ensures InPeriod(at, None, None, startOfDay)
  {
    assert d - 1 + 1 == d;
  }

  // ---------- What the filters mean ----------

  predicate IsOnDay(at: Instant, d: Date, startOfDay: Date -> Instant) {
    InPeriod(at, Some(d), Some(d), startOfDay)
  }

  /** A period of days is the union of its days ... */
  lemma PeriodIsItsDays(at: Instant, from: Date, to: Date, startOfDay: Date -> Instant)
    requires IsCalendar(startOfDay) && from <= to
    ensures InPeriod(at, Some(from), Some(to), startOfDay)
            <==> exists d :: from <= d <= to && IsOnDay(at, d, startOfDay)
  {
    if InPeriod(at, Some(from), Some(to), startOfDay) {
      SomeDayHolds(at, from, to, startOfDay);
    }
    forall d | from <= d <= to && IsOnDay(at, d, startOfDay)
      ensures InPeriod(at, Some(from), Some(to), startOfDay)
    {
      DayIsWithinPeriod(d, from, to, startOfDay);
    }
  }

  /** ... and the days do not overlap. */
  lemma DaysAreDisjoint(at: Instant, d: Date, e: Date, startOfDay: Date -> Instant)
    requires IsCalendar(startOfDay) && IsOnDay(at, d, startOfDay) && IsOnDay(at, e, startOfDay)
    ensures d == e
  {
    DayIsWithinPeriod(d, d, e, startOfDay);
    DayIsWithinPeriod(e, e, d, startOfDay);
  }

  lemma DayIsWithinPeriod(d: Date, from: Date, to: Date, startOfDay: Date -> Instant)
    requires IsCalendar(startOfDay)
    ensures from <= d ==> startOfDay(from) <= startOfDay(d)
    ensures d <= to ==> startOfDay(d + 1) <= startOfDay(to + 1)
    ensures to < d ==> startOfDay(to + 1) <= startOfDay(d)
  {}

  lemma {:induction false} SomeDayHolds(at: Instant, from: Date, to: Date, startOfDay: Date -> Instant)
    requires from <= to && InPeriod(at, Some(from), Some(to), startOfDay)
    ensures exists d :: from <= d <= to && IsOnDay(at, d, startOfDay)
    decreases (to - from)
  {
    if from == to || at < startOfDay(from + 1) {
      assert IsOnDay(at, from, startOfDay);
    } else {
      SomeDayHolds(at, from + 1, to, startOfDay);
    }
  }

  const NO_FILTER := MakeRequest(None, None, None, None, None)

  /** The queue shows a reviewer exactly the receipts they may reject now, automatic approvals apart. */
  lemma QueueIsWhatReviewerMayReject(row: ReceiptRow, reviewer: Employee, startOfDay: Date -> Instant, now: Instant)
    requires reviewer.role != EmployeeOnly
    ensures PlanDecision(row, row.version, ReviewDecision.Reject, reviewer, now).Planned?
            <==> InReviewQueue(row, reviewer.id, NO_FILTER, startOfDay)
                 || (row.status == Some(AutoApproved) && row.owner.Some? && row.owner.value != reviewer.id)
  {}
}
