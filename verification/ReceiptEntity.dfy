/** The receipt row and its entity (Receipt.java). */
module ReceiptEntity {
  import opened Domain
  import opened ReceiptContent
  import opened Validation

  datatype ReceiptRow = ReceiptRow(
    version: nat,
    owner: Option<EmployeeId>,
    companyId: string,
    imageSha256: string,
    originalData: Option<ReceiptData>,
    currentData: Option<ReceiptData>,
    status: Option<ReceiptStatus>,
    ruleResults: seq<RuleResult>,
    createdAt: Instant,
    updatedAt: Instant)
  {
    function Updated(data: Option<ReceiptData>, results: seq<RuleResult>, next: ReceiptStatus, at: Instant)
      : ReceiptRow
    {
      this.(currentData := data, ruleResults := results, status := Some(next), updatedAt := at)
    }

    function Extracted(data: Option<ReceiptData>, results: seq<RuleResult>, next: ReceiptStatus, at: Instant)
      : ReceiptRow
    {
      Updated(data, results, next, at).(originalData := data)
    }

    function WithStatus(next: ReceiptStatus, at: Instant): ReceiptRow {
      this.(status := Some(next), updatedAt := at)
    }

    predicate SameIdentity(other: ReceiptRow) {
      owner == other.owner && companyId == other.companyId && imageSha256 == other.imageSha256
      && createdAt == other.createdAt
    }
  }

  function NewReceipt(owner: Option<EmployeeId>, companyId: string, imageSha256: string, at: Instant): ReceiptRow {
    ReceiptRow(0, owner, companyId, imageSha256, None, None, None, [], at, at)
  }

  /** The JPA entity. */
  class Receipt {
    const version: nat
    const companyId: string
    const imageSha256: string
    const createdAt: Instant
    /** False for a receipt the program has just built, which has no id yet. */
    const persistent: bool
    var owner: Option<EmployeeId>
    var originalData: Option<ReceiptData>
    var currentData: Option<ReceiptData>
    var status: Option<ReceiptStatus>
    var ruleResults: seq<RuleResult>
    var updatedAt: Instant

    function Row(): ReceiptRow
      reads this
    {
      ReceiptRow(version, owner, companyId, imageSha256, originalData, currentData, status, ruleResults,
                 createdAt, updatedAt)
    }

    constructor (companyId: string, imageSha256: string, createdAt: Instant)
      ensures !persistent && Row() == NewReceipt(None, companyId, imageSha256, createdAt)
      ensures this.companyId == companyId && this.imageSha256 == imageSha256 && this.createdAt == createdAt
      ensures owner.None? && originalData.None? && currentData.None? && status.None? && ruleResults == []
      ensures version == 0 && updatedAt == createdAt
    {
      version, persistent := 0, false;
      this.companyId, this.imageSha256, this.createdAt := companyId, imageSha256, createdAt;
      owner, originalData, currentData, status := None, None, None, None;
      ruleResults, updatedAt := [], createdAt;
    }

    constructor FromRow(row: ReceiptRow)
      ensures persistent && Row() == row
    {
      version, persistent := row.version, true;
      companyId, imageSha256, createdAt := row.companyId, row.imageSha256, row.createdAt;
      owner, originalData, currentData, status := row.owner, row.originalData, row.currentData, row.status;
      ruleResults, updatedAt := row.ruleResults, row.updatedAt;
    }

    /** Ownership is given once, before the receipt is stored. */
    method SubmittedBy(employeeId: Option<EmployeeId>) returns (ok: bool)
      modifies this
      ensures ok == (!persistent && old(owner).None?)
      ensures Row() == if ok then old(Row()).(owner := employeeId) else old(Row())
      ensures owner == if ok then employeeId else old(owner)
    {
      if persistent || owner.Some? {
        return false;
      }
      owner := employeeId;
      ok := true;
    }

    method UpdateData(data: Option<ReceiptData>, results: seq<RuleResult>, next: ReceiptStatus, at: Instant)
      modifies this
      ensures Row() == old(Row()).Updated(data, results, next, at)
      ensures currentData == data && ruleResults == results && status == Some(next) && updatedAt == at
      ensures originalData == old(originalData) && owner == old(owner)
    {
      currentData := data;
      ruleResults := results;
      status := Some(next);
      updatedAt := at;
    }

    method CompleteExtraction(data: Option<ReceiptData>, results: seq<RuleResult>, next: ReceiptStatus, at: Instant)
      modifies this
      ensures Row() == old(Row()).Extracted(data, results, next, at)
      ensures originalData == data && currentData == data
      ensures ruleResults == results && status == Some(next) && updatedAt == at && owner == old(owner)
    {
      originalData := data;
      currentData := data;
      ruleResults := results;
      status := Some(next);
      updatedAt := at;
    }

    method ChangeStatus(next: ReceiptStatus, at: Instant)
      modifies this
      ensures Row() == old(Row()).WithStatus(next, at)
      ensures status == Some(next) && updatedAt == at
      ensures originalData == old(originalData) && currentData == old(currentData) && ruleResults == old(ruleResults)
      ensures owner == old(owner)
    {
      status := Some(next);
      updatedAt := at;
    }
  }
}
