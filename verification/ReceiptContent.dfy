/** The receipt fields and their normalising constructor (ReceiptData.java). */
module ReceiptContent {
  import opened Domain

  /** java.lang.Character.isWhitespace, for the characters that have no surrogate pair. */
  predicate IsWhitespace(c: char) {
    || '\U{0009}' <= c <= '\U{000D}' || '\U{001C}' <= c <= '\U{0020}' || c == '\U{1680}'
    || '\U{2000}' <= c <= '\U{2006}' || '\U{2008}' <= c <= '\U{200A}'
    || c == '\U{2028}' || c == '\U{2029}' || c == '\U{205F}' || c == '\U{3000}'
  }

  /** The code points that count as blank: no-break spaces are not among them. */
  lemma WhitespaceCodePoints(c: char)
    ensures IsWhitespace(c) <==>
              c as int in {0x09, 0x0A, 0x0B, 0x0C, 0x0D, 0x1C, 0x1D, 0x1E, 0x1F, 0x20, 0x1680, 0x2000, 0x2001, 0x2002,
                           0x2003, 0x2004, 0x2005, 0x2006, 0x2008, 0x2009, 0x200A, 0x2028, 0x2029, 0x205F, 0x3000}
  {}

  /** String.isBlank */
  predicate IsBlank(s: string) {
    forall i :: 0 <= i < |s| ==> IsWhitespace(s[i])
  }

  function TrimLeft(s: string): string {
    if s != [] && s[0] <= ' ' then TrimLeft(s[1..]) else s
  }

  function TrimRight(s: string): string {
    if s != [] && s[|s| - 1] <= ' ' then TrimRight(s[..|s| - 1]) else s
  }

  /** String.trim, which drops the characters up to U+0020 and no other whitespace. */
  function Trim(s: string): string {
    TrimRight(TrimLeft(s))
  }

  function Normalize(value: Option<string>): Option<string> {
    if value.None? || IsBlank(value.value) then None else Some(Trim(value.value))
  }

  predicate IsTrimmed(s: string) {
    s == [] || (s[0] > ' ' && s[|s| - 1] > ' ')
  }

  /** The text values a constructed receipt can hold. */
  predicate IsStable(value: Option<string>) {
    value.Some? ==> IsTrimmed(value.value)
  }

  lemma {:induction false} TrimRightKeepsHead(s: string)
    requires s != [] && s[0] > ' '
    ensures IsTrimmed(TrimRight(s)) && TrimRight(s) != []
    decreases |s|
  {
    if s[|s| - 1] <= ' ' {
      TrimRightKeepsHead(s[..|s| - 1]);
    }
  }

  lemma {:induction false} TrimIsTrimmed(s: string)
    ensures IsTrimmed(Trim(s))
    decreases |s|
  {
    if s != [] {
      if s[0] <= ' ' {
        TrimIsTrimmed(s[1..]);
      } else {
        TrimRightKeepsHead(s);
      }
    }
  }

  /** isBlank and trim disagree on some characters, so one pass is not always a fixed point; two passes are. */
  lemma NormalizeTwice(value: Option<string>)
    ensures IsStable(Normalize(value))
    ensures IsStable(value) ==> Normalize(Normalize(value)) == Normalize(value)
    ensures Normalize(Normalize(Normalize(value))) == Normalize(Normalize(value))
  {
    if value.Some? {
      TrimIsTrimmed(value.value);
      var once := Normalize(value);
      if once.Some? {
        TrimmedUnchanged(once.value);
      }
      if IsTrimmed(value.value) {
        TrimmedUnchanged(value.value);
      }
    }
  }

  lemma TrimmedUnchanged(s: string)
    requires IsTrimmed(s)
    ensures Trim(s) == s
  {}

  /** Every trimmed text, blank or not, is the normal form of some input. */
  lemma TrimmedIsReachable(t: string)
    requires IsTrimmed(t)
    ensures Normalize(Some("\U{0001}" + t + "\U{0001}")) == Some(t)
  {
    var s := "\U{0001}" + t + "\U{0001}";
    assert s[0] == '\U{0001}' && !IsWhitespace(s[0]);
    assert s[1..] == t + "\U{0001}";
    var rest := t + "\U{0001}";
    assert TrimLeft(s) == TrimLeft(rest);
    if t == [] {
      assert rest[1..] == [];
      assert TrimLeft(rest) == [];
    } else {
      assert rest[0] == t[0];
      assert rest[|rest| - 1] == '\U{0001}' && rest[..|rest| - 1] == t;
      assert TrimRight(rest) == TrimRight(t) == t;
    }
  }

  datatype LineItem =
    LineItem(name: Option<string>, quantity: Option<int>, unitPrice: Option<real>, amount: Option<real>)

  datatype ReceiptData = ReceiptData(
    shopName: Option<string>,
    date: Option<Date>,
    totalAmount: Option<real>,
    businessRegistrationNumber: Option<string>,
    paymentMethod: Option<string>,
    lineItems: seq<LineItem>)

  /** The record's compact constructor: every ReceiptData of the program is one of its results. */
  function Construct(shopName: Option<string>, date: Option<Date>, totalAmount: Option<real>,
                     businessRegistrationNumber: Option<string>, paymentMethod: Option<string>,
                     lineItems: Option<seq<LineItem>>): ReceiptData
  {
    ReceiptData(Normalize(shopName), date, totalAmount, Normalize(businessRegistrationNumber),
                Normalize(paymentMethod), if lineItems.Some? then lineItems.value else [])
  }

  const EMPTY_RECEIPT: ReceiptData := Construct(None, None, None, None, None, Some([]))

  predicate IsConstructed(d: ReceiptData) {
    IsStable(d.shopName) && IsStable(d.businessRegistrationNumber) && IsStable(d.paymentMethod)
  }

  function Preimage(value: Option<string>): Option<string> {
    if value.None? then None else Some("\U{0001}" + value.value + "\U{0001}")
  }

  /** IsConstructed describes exactly the range of the constructor. */
  lemma ConstructedIffRange(d: ReceiptData)
    ensures IsConstructed(d) <==>
            exists a, t, p, items :: d == Construct(a, d.date, d.totalAmount, t, p, items)
  {
    if IsConstructed(d) {
      forall v | v in [d.shopName, d.businessRegistrationNumber, d.paymentMethod]
        ensures Normalize(Preimage(v)) == v
      {
        if v.Some? { TrimmedIsReachable(v.value); }
      }
      var items: Option<seq<LineItem>> := Some(d.lineItems);
      assert d == Construct(Preimage(d.shopName), d.date, d.totalAmount,
                            Preimage(d.businessRegistrationNumber), Preimage(d.paymentMethod), items);
    }
    forall a: Option<string> ensures IsStable(Normalize(a)) { NormalizeTwice(a); }
  }

  // ---------- Stored and read again ----------

  /** What a reader gets of stored contents: the columns are JSON, and loading runs the constructor once more. */
  function ReadBack(d: Option<ReceiptData>): Option<ReceiptData> {
    if d.None? then None
    else Some(Construct(d.value.shopName, d.value.date, d.value.totalAmount, d.value.businessRegistrationNumber,
                        d.value.paymentMethod, Some(d.value.lineItems)))
  }

  /** Null, or made by the constructor, as every ReceiptData of the program is. */
  predicate HoldsConstructed(d: Option<ReceiptData>) {
    d.Some? ==> IsConstructed(d.value)
  }

  predicate NoBlankText(d: ReceiptData) {
    forall v :: v in [d.shopName, d.businessRegistrationNumber, d.paymentMethod] && v.Some? ==> !IsBlank(v.value)
  }

  predicate HasNoBlankText(d: Option<ReceiptData>) {
    d.Some? ==> NoBlankText(d.value)
  }

  /** The first reading may drop blank text, further ones change nothing. */
  lemma ReadBackTwice(d: Option<ReceiptData>)
    requires HoldsConstructed(d)
    ensures HoldsConstructed(ReadBack(d)) && HasNoBlankText(ReadBack(d))
    ensures ReadBack(ReadBack(d)) == ReadBack(d)
  {
    if d.Some? {
      forall v | v in [d.value.shopName, d.value.businessRegistrationNumber, d.value.paymentMethod]
        ensures IsStable(v) ==> Normalize(Normalize(v)) == Normalize(v) && IsStable(Normalize(v))
        ensures IsStable(v) && Normalize(v).Some? ==> !IsBlank(Normalize(v).value)
      {
        NormalizeTwice(v);
      }
    }
  }

  /** Contents are read as they were written exactly if no text field was blank. */
  lemma ReadAsWrittenIff(d: Option<ReceiptData>)
    requires HoldsConstructed(d)
    ensures ReadBack(d) == d <==> HasNoBlankText(d)
  {
    if d.Some? {
      var vs := [d.value.shopName, d.value.businessRegistrationNumber, d.value.paymentMethod];
      assert vs[0] in vs && vs[1] in vs && vs[2] in vs;
      forall v | v in vs && v.Some? ensures Trim(v.value) == v.value { TrimmedUnchanged(v.value); }
    }
  }

  /** Trimming cuts off exactly the characters up to U+0020 at both ends. */
  lemma {:induction false} TrimIsCore(s: string)
    ensures exists i, k :: 0 <= i <= k <= |s| && IsCore(s, i, k)
  {
    TrimIsTrimmed(s);
    var i := LeftCut(s);
    var k := RightCut(s[i..]);
    assert Trim(s) == s[i..][..k] == s[i..i + k];
    assert forall n :: i + k <= n < |s| ==> s[n] == s[i..][n - i];
    assert IsCore(s, i, i + k);
  }

  predicate IsCore(s: string, i: nat, k: nat)
    requires i <= k <= |s|
  {
    && Trim(s) == s[i..k] && IsTrimmed(s[i..k])
    && (forall n :: 0 <= n < i ==> s[n] <= ' ') && (forall n :: k <= n < |s| ==> s[n] <= ' ')
  }

  lemma {:induction false} LeftCut(s: string) returns (i: nat)
    ensures i <= |s| && TrimLeft(s) == s[i..] && forall n :: 0 <= n < i ==> s[n] <= ' '
  {
    i := 0;
    if s != [] && s[0] <= ' ' {
      var rest := LeftCut(s[1..]);
      i := rest + 1;
      assert s[1..][rest..] == s[i..];
      assert forall n :: 1 <= n < i ==> s[n] == s[1..][n - 1];
    }
  }

  lemma {:induction false} RightCut(s: string) returns (k: nat)
    ensures k <= |s| && TrimRight(s) == s[..k] && forall n :: k <= n < |s| ==> s[n] <= ' '
    decreases |s|
  {
    k := |s|;
    if s != [] && s[|s| - 1] <= ' ' {
      k := RightCut(s[..|s| - 1]);
      assert s[..|s| - 1][..k] == s[..k];
      assert forall n :: k <= n < |s| - 1 ==> s[n] == s[..|s| - 1][n];
    }
  }

  /** Which raw texts the constructor stores as blank text: those isBlank does not catch and trim leaves blank. */
  lemma StoredBlankIff(s: string)
    ensures Normalize(Some(s)).Some? && IsBlank(Normalize(Some(s)).value) <==> !IsBlank(s) && IsBlank(Trim(s))
    ensures IsBlank(s) ==> IsBlank(Trim(s))
  {
    TrimIsPart(s);
  }

  /** A second pass changes something exactly for those texts. */
  lemma NormalizeIsIdempotentIff(value: Option<string>)
    ensures Normalize(Normalize(value)) == Normalize(value)
            <==> !(value.Some? && !IsBlank(value.value) && IsBlank(Trim(value.value)))
  {
    if value.Some? {
      StoredBlankIff(value.value);
      TrimIsTrimmed(value.value);
      TrimmedUnchanged(Trim(value.value));
    }
  }

  lemma TrimIsPart(s: string)
    ensures forall i :: 0 <= i < |Trim(s)| ==> Trim(s)[i] in s
  {
    TrimLeftIsPart(s);
    TrimRightIsPart(TrimLeft(s));
  }

  lemma {:induction false} TrimLeftIsPart(s: string)
    ensures forall i :: 0 <= i < |TrimLeft(s)| ==> TrimLeft(s)[i] in s
  {
    if s != [] && s[0] <= ' ' {
      TrimLeftIsPart(s[1..]);
    }
  }

  lemma {:induction false} TrimRightIsPart(s: string)
    ensures forall i :: 0 <= i < |TrimRight(s)| ==> TrimRight(s)[i] in s
    decreases |s|
  {
    if s != [] && s[|s| - 1] <= ' ' {
      TrimRightIsPart(s[..|s| - 1]);
    }
  }
}
