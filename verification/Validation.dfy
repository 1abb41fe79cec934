/** The deterministic rules and the routing they decide (ValidationEngine.java, ReceiptStatusRouter.java). */
module Validation {
  import opened Domain
  import opened ReceiptContent
  import BusinessNumber

  datatype RuleCode =
    | ShopNameRequired | DateRequired | TotalAmountRequired | DateNotFuture
    | TotalAmountPositive | ItemTotalMatch | BusinessNumberChecksum | DuplicateSubmission

  datatype RuleOutcome = Pass | Fail | NotApplicable

  datatype RuleResult = RuleResult(code: RuleCode, outcome: RuleOutcome)

  function Verdict(code: RuleCode, ok: bool): RuleResult {
    RuleResult(code, if ok then Pass else Fail)
  }

  function ItemSum(items: seq<LineItem>): real
    requires forall i :: 0 <= i < |items| ==> items[i].amount.Some?
  {
    if items == [] then 0.0 else ItemSum(items[..|items| - 1]) + items[|items| - 1].amount.value
  }

  predicate AllPriced(items: seq<LineItem>) {
    forall i :: 0 <= i < |items| ==> items[i].amount.Some?
  }

  function DateRule(date: Option<Date>, today: Date): RuleResult {
    if date.None? then RuleResult(DateNotFuture, NotApplicable) else Verdict(DateNotFuture, date.value <= today)
  }

  function AmountRule(amount: Option<real>): RuleResult {
    if amount.None? then RuleResult(TotalAmountPositive, NotApplicable)
    else Verdict(TotalAmountPositive, amount.value > 0.0)
  }

  function ItemTotalRule(data: ReceiptData): RuleResult {
    if data.lineItems == [] || data.totalAmount.None? || !AllPriced(data.lineItems)
    then RuleResult(ItemTotalMatch, NotApplicable)
    else Verdict(ItemTotalMatch, ItemSum(data.lineItems) == data.totalAmount.value)
  }

  function BusinessNumberRule(number: Option<string>): RuleResult {
    if number.None? then RuleResult(BusinessNumberChecksum, NotApplicable)
    else Verdict(BusinessNumberChecksum, BusinessNumber.IsValidNumber(BusinessNumber.DigitsOf(number.value)))
  }

  function OrEmpty(data: Option<ReceiptData>): ReceiptData {
    if data.Some? then data.value else EMPTY_RECEIPT
  }

  /** The eight results, in the order the engine appends them. `today` is what its clock reads. */
  function Results(data: Option<ReceiptData>, duplicate: bool, today: Date): seq<RuleResult> {
    var d := OrEmpty(data);
    [ Verdict(ShopNameRequired, d.shopName.Some?),
      Verdict(DateRequired, d.date.Some?),
      Verdict(TotalAmountRequired, d.totalAmount.Some?),
      DateRule(d.date, today),
      AmountRule(d.totalAmount),
      ItemTotalRule(d),
      BusinessNumberRule(d.businessRegistrationNumber),
      Verdict(DuplicateSubmission, !duplicate) ]
  }

  method Validate(data: Option<ReceiptData>, duplicate: bool, today: Date) returns (results: seq<RuleResult>)
    ensures results == Results(data, duplicate, today)
  {
    var d := EMPTY_RECEIPT;
    if data.Some? {
      d := data.value;
    }
    results := [Verdict(ShopNameRequired, d.shopName.Some?)];
    results := results + [Verdict(DateRequired, d.date.Some?)];
    results := results + [Verdict(TotalAmountRequired, d.totalAmount.Some?)];
    results := results + [DateRule(d.date, today)];
    results := results + [AmountRule(d.totalAmount)];
    var itemRule := CheckItemTotal(d);
    results := results + [itemRule];
    var numberRule := RuleResult(BusinessNumberChecksum, NotApplicable);
    if d.businessRegistrationNumber.Some? {
      var valid := BusinessNumber.IsValid(d.businessRegistrationNumber);
      numberRule := Verdict(BusinessNumberChecksum, valid);
    }
    results := results + [numberRule];
    results := results + [Verdict(DuplicateSubmission, !duplicate)];
  }

  method CheckItemTotal(data: ReceiptData) returns (result: RuleResult)
    ensures result == ItemTotalRule(data)
  {
    var items := data.lineItems;
    if items == [] || data.totalAmount.None? || exists i :: 0 <= i < |items| && items[i].amount.None? {
      return RuleResult(ItemTotalMatch, NotApplicable);
    }
    var sum := 0.0;
    for i := 0 to |items|
      invariant sum == ItemSum(items[..i])
    {
      assert items[..i + 1][..i] == items[..i];
      sum := sum + items[i].amount.value;
    }
    assert items[..|items|] == items;
    result := Verdict(ItemTotalMatch, sum == data.totalAmount.value);
  }

  /** The sum is that of the amounts: of none zero, of one item its amount, of two lists both sums. */
  lemma {:induction false} ItemSumAdds(a: seq<LineItem>, b: seq<LineItem>)
    requires AllPriced(a) && AllPriced(b)
    ensures AllPriced(a + b) && ItemSum(a + b) == ItemSum(a) + ItemSum(b)
    ensures ItemSum([]) == 0.0 && (|a| == 1 ==> ItemSum(a) == a[0].amount.value)
    decreases |b|
  {
    if b == [] {
      assert a + b == a;
    } else {
      var n := |b| - 1;
      ItemSumAdds(a, b[..n]);
      assert (a + b)[..|a| + n] == a + b[..n];
    }
  }

  /** What each rule reports, on the receipt it looks at; no data counts as an empty receipt. */
  lemma RulesReport(data: Option<ReceiptData>, duplicate: bool, today: Date)
    ensures var rs := Results(data, duplicate, today);
            && |rs| == 8
            && rs[0].code == ShopNameRequired && rs[1].code == DateRequired && rs[2].code == TotalAmountRequired
            && rs[3].code == DateNotFuture && rs[4].code == TotalAmountPositive && rs[5].code == ItemTotalMatch
            && rs[6].code == BusinessNumberChecksum && rs[7].code == DuplicateSubmission
            && rs[7].outcome == (if duplicate then Fail else Pass)
    ensures data.None? ==>
              var rs := Results(data, duplicate, today);
              && rs[0].outcome == Fail && rs[1].outcome == Fail && rs[2].outcome == Fail
              && rs[3].outcome == NotApplicable && rs[4].outcome == NotApplicable
              && rs[5].outcome == NotApplicable && rs[6].outcome == NotApplicable
    ensures data.Some? ==>
              var rs, d := Results(data, duplicate, today), data.value;
              && rs[0].outcome == (if d.shopName.Some? then Pass else Fail)
              && rs[1].outcome == (if d.date.Some? then Pass else Fail)
              && rs[2].outcome == (if d.totalAmount.Some? then Pass else Fail)
              && rs[3].outcome == (if d.date.None? then NotApplicable else if d.date.value > today then Fail else Pass)
              && rs[4].outcome == (if d.totalAmount.None? then NotApplicable
                                   else if d.totalAmount.value <= 0.0 then Fail else Pass)
              && (rs[5].outcome == NotApplicable
                  <==> d.lineItems == [] || d.totalAmount.None?
                       || exists item :: item in d.lineItems && item.amount.None?)
              && (rs[5].outcome == Pass ==> AllPriced(d.lineItems) && ItemSum(d.lineItems) == d.totalAmount.value)
              && (rs[5].outcome == Fail ==> AllPriced(d.lineItems) && ItemSum(d.lineItems) != d.totalAmount.value)
              && (rs[6].outcome == NotApplicable <==> d.businessRegistrationNumber.None?)
              && (rs[6].outcome == Pass ==>
                    BusinessNumber.IsValidNumber(BusinessNumber.DigitsOf(d.businessRegistrationNumber.value)))
              && (rs[6].outcome == Fail ==>
                    !BusinessNumber.IsValidNumber(BusinessNumber.DigitsOf(d.businessRegistrationNumber.value)))
  {
    if data.Some? {
      UnpricedItem(data.value.lineItems);
    }
  }

  lemma UnpricedItem(items: seq<LineItem>)
    ensures AllPriced(items) <==> !exists item :: item in items && item.amount.None?
  {
    if !AllPriced(items) {
      var i :| 0 <= i < |items| && items[i].amount.None?;
      assert items[i] in items;
    }
  }

  predicate Failed(results: seq<RuleResult>, code: RuleCode) {
    RuleResult(code, Fail) in results
  }

  predicate AnyFailed(results: seq<RuleResult>) {
    exists i :: 0 <= i < |results| && results[i].outcome == Fail
  }

  function Route(data: Option<ReceiptData>, results: seq<RuleResult>): ReceiptStatus {
    if data.None? || (data.value.shopName.None? && data.value.date.None? && data.value.totalAmount.None?)
    then ManualEntry
    else if AnyFailed(results) then NeedsReview else AutoApproved
  }

  /** What a receipt must look like for the system to approve it by itself. */
  predicate IsClean(d: ReceiptData, today: Date) {
    && d.shopName.Some? && d.date.Some? && d.date.value <= today
    && d.totalAmount.Some? && d.totalAmount.value > 0.0
    && (d.lineItems != [] && AllPriced(d.lineItems) ==> ItemSum(d.lineItems) == d.totalAmount.value)
    && (d.businessRegistrationNumber.Some? ==>
          BusinessNumber.IsValidNumber(BusinessNumber.DigitsOf(d.businessRegistrationNumber.value)))
  }

  /** The engine and the router together approve exactly the clean receipts not submitted twice. */
  lemma AutoApprovedIff(data: Option<ReceiptData>, duplicate: bool, today: Date)
    ensures Route(data, Results(data, duplicate, today)) == AutoApproved
            <==> data.Some? && IsClean(data.value, today) && !duplicate
  {
    var rs := Results(data, duplicate, today);
    assert AnyFailed(rs) <==> (rs[0].outcome == Fail || rs[1].outcome == Fail || rs[2].outcome == Fail
      || rs[3].outcome == Fail || rs[4].outcome == Fail || rs[5].outcome == Fail || rs[6].outcome == Fail
      || rs[7].outcome == Fail);
  }

  /** Where the engine and the router together send a receipt. */
  lemma RoutedIff(data: Option<ReceiptData>, duplicate: bool, today: Date)
    ensures var status := Route(data, Results(data, duplicate, today));
            var empty := data.None?
              || (data.value.shopName.None? && data.value.date.None? && data.value.totalAmount.None?);
            && (status == ManualEntry <==> empty)
            && (status == AutoApproved <==> data.Some? && IsClean(data.value, today) && !duplicate)
            && (status == NeedsReview <==> !empty && !(IsClean(data.value, today) && !duplicate))
  {
    AutoApprovedIff(data, duplicate, today);
  }

  /** The duplicate flag goes into the results and can be read back from them. */
  lemma DuplicateIsRecorded(data: Option<ReceiptData>, duplicate: bool, today: Date)
    ensures Failed(Results(data, duplicate, today), DuplicateSubmission) <==> duplicate
  {
    var rs := Results(data, duplicate, today);
    assert rs[7] == Verdict(DuplicateSubmission, !duplicate);
  }

  lemma DuplicateIsNeverAutoApproved(data: Option<ReceiptData>, results: seq<RuleResult>)
    requires Failed(results, DuplicateSubmission)
    ensures Route(data, results) in {ManualEntry, NeedsReview}
  {}

  lemma {:induction false} BlankHasNoDigits(s: string)
    requires IsBlank(s)
    ensures BusinessNumber.DigitsOf(s) == []
  {
    if s != [] {
      assert IsWhitespace(s[0]);
      assert forall i :: 0 <= i < |s[1..]| ==> s[1..][i] == s[i + 1];
      BlankHasNoDigits(s[1..]);
    }
  }

  /** A clean verdict is one on the contents as they are read back exactly if the shop name is not blank. */
  lemma VerdictHoldsAsReadIff(w: ReceiptData, today: Date)
    requires IsConstructed(w) && IsClean(w, today)
    ensures ReadBack(Some(w)).value.shopName.Some? <==> !IsBlank(w.shopName.value)
    ensures IsClean(ReadBack(Some(w)).value, today) <==> !IsBlank(w.shopName.value)
    ensures Results(ReadBack(Some(w)), false, today) == Results(Some(w), false, today) <==> !IsBlank(w.shopName.value)
  {
    var r := ReadBack(Some(w)).value;
    TrimmedUnchanged(w.shopName.value);
    if w.businessRegistrationNumber.Some? {
      TrimmedUnchanged(w.businessRegistrationNumber.value);
      if IsBlank(w.businessRegistrationNumber.value) {
        BlankHasNoDigits(w.businessRegistrationNumber.value);
      }
    }
    assert r.businessRegistrationNumber == w.businessRegistrationNumber;
    assert r == w.(shopName := r.shopName, paymentMethod := r.paymentMethod);
    var rs, ws := Results(Some(r), false, today), Results(Some(w), false, today);
    assert rs[0] == Verdict(ShopNameRequired, r.shopName.Some?) && ws[0] == Verdict(ShopNameRequired, true);
  }
}
