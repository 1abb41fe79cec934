/** Field corrections: set, keep or clear per field (FieldCorrections.java). */
module Corrections {
  import opened Domain
  import opened ReceiptContent

  /** The names a client may list in clearFields; anything else is refused before use. */
  datatype ClearField =
    | ShopName | DateField | TotalAmount | BusinessNumber | PaymentMethod | LineItems | Unsupported(name: string)

  datatype FieldCorrections = FieldCorrections(
    shopName: Option<string>,
    date: Option<Date>,
    totalAmount: Option<real>,
    businessRegistrationNumber: Option<string>,
    paymentMethod: Option<string>,
    lineItems: Option<seq<LineItem>>,
    clearFields: set<ClearField>)

  const NO_CORRECTION := FieldCorrections(None, None, None, None, None, None, {})

  const CLEARABLE_FIELDS: set<ClearField> :=
    {ShopName, DateField, TotalAmount, BusinessNumber, PaymentMethod, LineItems}

  predicate OnlyClearable(fields: set<ClearField>) {
    fields <= CLEARABLE_FIELDS
  }

  /** What one field becomes: clear wins over set, set wins over keep. */
  function Pick<T>(current: Option<T>, replacement: Option<T>, cleared: bool): Option<T> {
    if cleared then None else if replacement.Some? then replacement else current
  }

  function Base(current: Option<ReceiptData>): ReceiptData {
    if current.Some? then current.value else EMPTY_RECEIPT
  }

  function Applied(c: FieldCorrections, current: Option<ReceiptData>): ReceiptData {
    var base := Base(current);
    Construct(
      Pick(base.shopName, c.shopName, ShopName in c.clearFields),
      Pick(base.date, c.date, DateField in c.clearFields),
      Pick(base.totalAmount, c.totalAmount, TotalAmount in c.clearFields),
      Pick(base.businessRegistrationNumber, c.businessRegistrationNumber, BusinessNumber in c.clearFields),
      Pick(base.paymentMethod, c.paymentMethod, PaymentMethod in c.clearFields),
      Pick(Some(base.lineItems), c.lineItems, LineItems in c.clearFields))
  }

  method ApplyTo(c: FieldCorrections, current: Option<ReceiptData>) returns (result: ReceiptData)
    ensures result == Applied(c, current)
    ensures IsConstructed(result)
  {
    var base := EMPTY_RECEIPT;
    if current.Some? {
      base := current.value;
    }
    var shopName, date, totalAmount := base.shopName, base.date, base.totalAmount;
    var businessNumber, paymentMethod := base.businessRegistrationNumber, base.paymentMethod;
    var lineItems := base.lineItems;

    if c.shopName.Some? { shopName := c.shopName; }
    if c.date.Some? { date := c.date; }
    if c.totalAmount.Some? { totalAmount := c.totalAmount; }
    if c.businessRegistrationNumber.Some? { businessNumber := c.businessRegistrationNumber; }
    if c.paymentMethod.Some? { paymentMethod := c.paymentMethod; }
    if c.lineItems.Some? { lineItems := c.lineItems.value; }

    if ShopName in c.clearFields { shopName := None; }
    if DateField in c.clearFields { date := None; }
    if TotalAmount in c.clearFields { totalAmount := None; }
    if BusinessNumber in c.clearFields { businessNumber := None; }
    if PaymentMethod in c.clearFields { paymentMethod := None; }
    if LineItems in c.clearFields { lineItems := []; }

    result := Construct(shopName, date, totalAmount, businessNumber, paymentMethod, Some(lineItems));
    AppliedIsConstructed(c, current);
  }

  lemma AppliedIsConstructed(c: FieldCorrections, current: Option<ReceiptData>)
    ensures IsConstructed(Applied(c, current))
  {
    forall v: Option<string> ensures IsStable(Normalize(v)) { NormalizeTwice(v); }
  }

  /** What a correction leaves in each field: cleared, set or kept, text in its normal form. */
  lemma EachFieldIsCorrected(c: FieldCorrections, current: Option<ReceiptData>)
    ensures var r := Applied(c, current);
            && TextIsCorrected(r.shopName, ShopName in c.clearFields, c.shopName,
                               if current.Some? then current.value.shopName else None)
            && TextIsCorrected(r.businessRegistrationNumber, BusinessNumber in c.clearFields,
                               c.businessRegistrationNumber,
                               if current.Some? then current.value.businessRegistrationNumber else None)
            && TextIsCorrected(r.paymentMethod, PaymentMethod in c.clearFields, c.paymentMethod,
                               if current.Some? then current.value.paymentMethod else None)
    ensures var r := Applied(c, current);
            && (DateField in c.clearFields ==> r.date == None)
            && (DateField !in c.clearFields && c.date.Some? ==> r.date == c.date)
            && (DateField !in c.clearFields && c.date.None? ==>
                  r.date == if current.Some? then current.value.date else None)
            && (TotalAmount in c.clearFields ==> r.totalAmount == None)
            && (TotalAmount !in c.clearFields && c.totalAmount.Some? ==> r.totalAmount == c.totalAmount)
            && (TotalAmount !in c.clearFields && c.totalAmount.None? ==>
                  r.totalAmount == if current.Some? then current.value.totalAmount else None)
            && (LineItems in c.clearFields ==> r.lineItems == [])
            && (LineItems !in c.clearFields && c.lineItems.Some? ==> r.lineItems == c.lineItems.value)
            && (LineItems !in c.clearFields && c.lineItems.None? ==>
                  r.lineItems == if current.Some? then current.value.lineItems else [])
  {
    assert EMPTY_RECEIPT.lineItems == [];
  }

  /** The text that is left: none if cleared or blank, else the trimmed text sent, or the trimmed text there was. */
  predicate TextIsCorrected(r: Option<string>, cleared: bool, sent: Option<string>, before: Option<string>) {
    && (cleared ==> r == None)
    && (!cleared && sent.Some? ==> IsNormalOf(r, sent.value))
    && (!cleared && sent.None? && before.Some? ==> IsNormalOf(r, before.value))
    && (!cleared && sent.None? && before.None? ==> r == None)
  }

  predicate IsNormalOf(r: Option<string>, text: string) {
    if IsBlank(text) then r == None else r == Some(Trim(text))
  }

  /** A receipt a correction can meet: none yet, or one built by the constructor. */
  predicate IsBase(current: Option<ReceiptData>) {
    current.Some? ==> IsConstructed(current.value)
  }

  /** Applying the same correction again changes nothing. */
  lemma ApplyIsIdempotent(c: FieldCorrections, current: Option<ReceiptData>)
    requires IsBase(current)
    ensures Applied(c, Some(Applied(c, current))) == Applied(c, current)
  {
    var base := Base(current);
    forall v | v in [c.shopName, c.businessRegistrationNumber, c.paymentMethod,
                     base.shopName, base.businessRegistrationNumber, base.paymentMethod]
      ensures IsStable(v) ==> Normalize(Normalize(v)) == Normalize(v)
    {
      NormalizeTwice(v);
    }
  }

  /** The value the merged correction sets when the second one keeps the field: what two passes make of it. */
  function Twice(value: Option<string>): Option<string> {
    Normalize(Normalize(value))
  }

  function Later<T>(first: Option<T>, second: Option<T>): Option<T> {
    if second.Some? then second else first
  }

  function LeavesNothing(value: Option<string>): bool {
    value.Some? && Twice(value).None?
  }

  /** A field is cleared if the second clears it, or keeps it while the first leaves nothing in it. */
  predicate MergeClears(field: ClearField, first: FieldCorrections, second: FieldCorrections) {
    || field in second.clearFields
    || match field
       case ShopName =>
         second.shopName.None? && (field in first.clearFields || LeavesNothing(first.shopName))
       case DateField => second.date.None? && field in first.clearFields
       case TotalAmount => second.totalAmount.None? && field in first.clearFields
       case BusinessNumber =>
         && second.businessRegistrationNumber.None?
         && (field in first.clearFields || LeavesNothing(first.businessRegistrationNumber))
       case PaymentMethod =>
         second.paymentMethod.None? && (field in first.clearFields || LeavesNothing(first.paymentMethod))
       case LineItems => second.lineItems.None? && field in first.clearFields
       case Unsupported(_) => false
  }

  /** One correction with the effect of `first` followed by `second`. */
  function Merge(first: FieldCorrections, second: FieldCorrections): FieldCorrections {
    FieldCorrections(
      Later(Twice(first.shopName), second.shopName),
      Later(first.date, second.date),
      Later(first.totalAmount, second.totalAmount),
      Later(Twice(first.businessRegistrationNumber), second.businessRegistrationNumber),
      Later(Twice(first.paymentMethod), second.paymentMethod),
      Later(first.lineItems, second.lineItems),
      set f | f in CLEARABLE_FIELDS && MergeClears(f, first, second))
  }

  /** On every receipt, applying two corrections in order is applying their merge. */
  lemma MergeIsSequence(first: FieldCorrections, second: FieldCorrections, current: Option<ReceiptData>)
    requires IsBase(current)
    ensures OnlyClearable(Merge(first, second).clearFields)
    ensures Applied(second, Some(Applied(first, current))) == Applied(Merge(first, second), current)
  {
    var base := Base(current);
    var merged := Merge(first, second);
    assert forall f :: f in merged.clearFields <==> f in CLEARABLE_FIELDS && MergeClears(f, first, second);
    TextFieldMerge(base.shopName, first.shopName, second.shopName,
                   ShopName in first.clearFields, ShopName in second.clearFields);
    TextFieldMerge(base.businessRegistrationNumber, first.businessRegistrationNumber,
                   second.businessRegistrationNumber,
                   BusinessNumber in first.clearFields, BusinessNumber in second.clearFields);
    TextFieldMerge(base.paymentMethod, first.paymentMethod, second.paymentMethod,
                   PaymentMethod in first.clearFields, PaymentMethod in second.clearFields);
  }

  lemma TextFieldMerge(base: Option<string>, first: Option<string>, second: Option<string>,
                       firstClears: bool, secondClears: bool)
    requires IsStable(base)
    ensures Normalize(Pick(Normalize(Pick(base, first, firstClears)), second, secondClears))
            == Normalize(Pick(base, Later(Twice(first), second),
                              secondClears || (second.None? && (firstClears || LeavesNothing(first)))))
  {
    NormalizeTwice(base);
    NormalizeTwice(first);
  }

  function ApplyAll(cs: seq<FieldCorrections>, current: Option<ReceiptData>): Option<ReceiptData> {
    if cs == [] then current else Some(Applied(cs[|cs| - 1], ApplyAll(cs[..|cs| - 1], current)))
  }

  function MergeAll(cs: seq<FieldCorrections>): FieldCorrections
    requires cs != []
  {
    if |cs| == 1 then cs[0] else Merge(MergeAll(cs[..|cs| - 1]), cs[|cs| - 1])
  }

  /** However often a receipt is corrected, one correction of the extracted data explains the result. */
  lemma {:induction false} HistoryIsOneCorrection(cs: seq<FieldCorrections>, current: Option<ReceiptData>)
    requires cs != [] && IsBase(current)
    ensures ApplyAll(cs, current) == Some(Applied(MergeAll(cs), current))
  {
    var n := |cs| - 1;
    if n == 0 {
      assert ApplyAll(cs[..0], current) == current;
    } else {
      HistoryIsOneCorrection(cs[..n], current);
      MergeIsSequence(MergeAll(cs[..n]), cs[n], current);
    }
  }

  /** Correcting nothing is the identity exactly on receipts without a blank text field. */
  lemma EmptyCorrectionIsIdentityIff(d: ReceiptData)
    requires IsConstructed(d)
    ensures Applied(NO_CORRECTION, Some(d)) == d <==> NoBlankText(d)
  {
    var vs := [d.shopName, d.businessRegistrationNumber, d.paymentMethod];
    assert vs[0] in vs && vs[1] in vs && vs[2] in vs;
    forall v | v in vs && v.Some? ensures Trim(v.value) == v.value { TrimmedUnchanged(v.value); }
  }

  /** Reading a stored receipt is correcting nothing, so it changes exactly the receipts with a blank text field. */
  lemma EmptyCorrectionIsReadBack(d: ReceiptData)
    ensures ReadBack(Some(d)) == Some(Applied(NO_CORRECTION, Some(d)))
  {}

  /** A correction has the same effect on contents as they were written and as they are read. */
  lemma CorrectionIgnoresReadBack(c: FieldCorrections, d: ReceiptData)
    requires IsConstructed(d)
    ensures Applied(c, ReadBack(Some(d))) == Applied(c, Some(d))
  {
    forall v: Option<string> ensures IsStable(v) ==> Normalize(Normalize(v)) == Normalize(v) { NormalizeTwice(v); }
  }

  /** A shop name of one control character is stored as empty text, and an empty correction then removes it. */
  lemma EmptyCorrectionCanChange()
    ensures var d := Construct(Some("\U{0001}"), None, None, None, None, None);
            d.shopName == Some("") && Applied(NO_CORRECTION, Some(d)).shopName == None
  {
    assert !IsWhitespace("\U{0001}"[0]);
  }
}
