/** Checksum of a Korean business registration number (BusinessRegistrationNumberValidator.java). */
module BusinessNumber {
  import opened Domain

  const WEIGHTS: seq<nat> := [1, 3, 7, 1, 3, 7, 1, 3, 5]

  predicate IsDigit(c: char) {
    '0' <= c <= '9'
  }

  /** The value's digits in order, everything else dropped. */
  function DigitsOf(value: string): (digits: seq<nat>)
    ensures forall i :: 0 <= i < |digits| ==> digits[i] < 10
  {
    if value == [] then []
    else if IsDigit(value[0]) then [(value[0] as int) - ('0' as int)] + DigitsOf(value[1..])
    else DigitsOf(value[1..])
  }

  predicate AreDigits(d: seq<nat>) {
    |d| == 10 && forall i :: 0 <= i < 10 ==> d[i] < 10
  }

  predicate AllSame(d: seq<nat>)
    requires |d| == 10
  {
    forall i :: 0 <= i < 10 ==> d[i] == d[0]
  }

  function WeightedSum(d: seq<nat>, n: nat): nat
    requires |d| >= 9 && n <= 9
  {
    if n == 0 then 0 else WeightedSum(d, n - 1) + d[n - 1] * WEIGHTS[n - 1]
  }

  /** The check digit the first nine digits call for; the ninth also adds the carry of its product. */
  function CheckDigit(d: seq<nat>): nat
    requires |d| >= 9
  {
    (10 - (WeightedSum(d, 9) + d[8] * 5 / 10) % 10) % 10
  }

  predicate HasChecksum(d: seq<nat>)
    requires |d| == 10
  {
    d[9] == CheckDigit(d)
  }

  predicate IsValidNumber(d: seq<nat>) {
    |d| == 10 && !AllSame(d) && HasChecksum(d)
  }

  method IsValid(value: Option<string>) returns (valid: bool)
    ensures valid <==> value.Some? && IsValidNumber(DigitsOf(value.value))
  {
    if value.None? {
      return false;
    }
    var digits := DigitsOf(value.value);
    if |digits| != 10 {
      return false;
    }
    if |set i | 0 <= i < 10 :: digits[i]| == 1 {
      OneValueMeansAllSame(digits);
      return false;
    }
    OneValueMeansAllSame(digits);
    var sum := 0;
    for index := 0 to 9
      invariant sum == WeightedSum(digits, index)
    {
      sum := sum + digits[index] * WEIGHTS[index];
    }
    var ninthProduct := digits[8] * 5;
    sum := sum + ninthProduct / 10;
    var expectedCheckDigit := (10 - sum % 10) % 10;
    valid := expectedCheckDigit == digits[9];
  }

  lemma OneValueMeansAllSame(d: seq<nat>)
    requires |d| == 10
    ensures |set i | 0 <= i < 10 :: d[i]| == 1 <==> AllSame(d)
  {
    var values := set i | 0 <= i < 10 :: d[i];
    if AllSame(d) {
      assert values == {d[0]};
    }
    if |values| == 1 {
      assert d[0] in values && |values - {d[0]}| == 0;
      forall i | 0 <= i < 10 ensures d[i] == d[0] {
        assert d[i] in values;
        assert d[i] !in values - {d[0]};
      }
    }
  }

  /** The digits of two texts are the digits of one and then of the other ... */
  lemma {:induction false} DigitsAreReadInOrder(left: string, right: string)
    ensures DigitsOf(left + right) == DigitsOf(left) + DigitsOf(right)
  {
    if left == [] {
      assert left + right == right;
    } else {
      assert left + right == [left[0]] + (left[1..] + right);
      DigitsAreReadInOrder(left[1..], right);
    }
  }

  /** ... and one character is the digit it shows, or none. */
  lemma OneCharacterIsOneDigit(c: char)
    ensures DigitsOf([c]) == if '0' <= c <= '9' then [c as int - '0' as int] else []
  {
    assert [c][1..] == [];
  }

  /** Separators do not matter: a non-digit may be put anywhere without changing the verdict. */
  lemma SeparatorsAreIgnored(left: string, c: char, right: string)
    requires !IsDigit(c)
    ensures DigitsOf(left + [c] + right) == DigitsOf(left + right)
  {
    hide DigitsOf;
    DigitsAreReadInOrder(left + [c], right);
    DigitsAreReadInOrder(left, [c]);
    OneCharacterIsOneDigit(c);
    DigitsAreReadInOrder(left, right);
  }

  /** The whole rule as one formula. */
  lemma ValidityFormula(d: seq<nat>)
    requires AreDigits(d)
    ensures IsValidNumber(d)
            <==> (exists i :: 0 <= i < 10 && d[i] != d[0])
                 && (d[0] + 3 * d[1] + 7 * d[2] + d[3] + 3 * d[4] + 7 * d[5] + d[6] + 3 * d[7] + 5 * d[8]
                     + 5 * d[8] / 10 + d[9]) % 10 == 0
  {
    SumUnfolded(d);
    Complement(WeightedSum(d, 9) + d[8] * 5 / 10, d[9]);
  }

  /** The weighted sum with the recursion spelled out, and its ninth term with the carry. */
  lemma SumUnfolded(d: seq<nat>)
    requires |d| >= 9
    ensures WeightedSum(d, 9) == d[0] + 3 * d[1] + 7 * d[2] + d[3] + 3 * d[4] + 7 * d[5] + d[6] + 3 * d[7] + 5 * d[8]
  {
    assert WeightedSum(d, 1) == WeightedSum(d, 0) + d[0] * 1;
    assert WeightedSum(d, 2) == WeightedSum(d, 1) + d[1] * 3;
    assert WeightedSum(d, 3) == WeightedSum(d, 2) + d[2] * 7;
    assert WeightedSum(d, 4) == WeightedSum(d, 3) + d[3] * 1;
    assert WeightedSum(d, 5) == WeightedSum(d, 4) + d[4] * 3;
    assert WeightedSum(d, 6) == WeightedSum(d, 5) + d[5] * 7;
    assert WeightedSum(d, 7) == WeightedSum(d, 6) + d[6] * 1;
    assert WeightedSum(d, 8) == WeightedSum(d, 7) + d[7] * 3;
    assert WeightedSum(d, 9) == WeightedSum(d, 8) + d[8] * 5;
  }

  /** What digit x contributes in position i: its product, and for the ninth also the carry. */
  function Term(i: nat, x: nat): nat {
    if i == 8 then 5 * x + x / 2
    else if i == 9 then x
    else if i % 3 == 0 then x
    else if i % 3 == 1 then 3 * x
    else 7 * x
  }

  /** The number as one total that must be a multiple of ten. */
  function Total(d: seq<nat>): nat
    requires |d| == 10
  {
    Term(0, d[0]) + Term(1, d[1]) + Term(2, d[2]) + Term(3, d[3]) + Term(4, d[4])
    + Term(5, d[5]) + Term(6, d[6]) + Term(7, d[7]) + Term(8, d[8]) + Term(9, d[9])
  }

  lemma TotalAfterUpdate(d: seq<nat>, i: nat, x: nat)
    requires |d| == 10 && i < 10
    ensures Total(d[i := x]) == Total(d) - Term(i, d[i]) + Term(i, x)
  {}

  lemma MultipleOfTen(k: int)
    requires -10 < k < 10
    ensures (3 * k) % 10 == 0 <==> k == 0
    ensures (7 * k) % 10 == 0 <==> k == 0
    ensures (2 * k) % 10 == 0 <==> k in {-5, 0, 5}
    ensures (4 * k) % 10 == 0 <==> k in {-5, 0, 5}
    ensures (6 * k) % 10 == 0 <==> k in {-5, 0, 5}
  {
    assert k in {-9, -8, -7, -6, -5, -4, -3, -2, -1, 0, 1, 2, 3, 4, 5, 6, 7, 8, 9};
  }

  /** The last digits of the ninth term, and of it less one or three times the digit. */
  function NinthDigit(a: nat): nat {
    if a % 2 == 0 then a / 2 else 5 + a / 2
  }

  function NinthLessThrice(a: nat): nat {
    if a % 4 < 2 then 2 * (a % 4) else 2 * (a % 4) + 1
  }

  function NinthLessOnce(a: nat): int {
    if a == 0 || a == 9 then 0
    else if a % 2 == 0 then 10 - a / 2
    else 4 - a / 2
  }

  lemma NinthTerm(a: nat)
    requires a < 10
    ensures Term(8, a) % 10 == NinthDigit(a)
    ensures (Term(8, a) - 3 * a) % 10 == NinthLessThrice(a)
    ensures (Term(8, a) - a) % 10 == NinthLessOnce(a)
  {
    assert a in {0, 1, 2, 3, 4, 5, 6, 7, 8, 9};
  }

  lemma SameLastDigit(x: int, y: int)
    ensures (x - y) % 10 == 0 <==> x % 10 == y % 10
  {}

  lemma NinthTermsDiffer(a: nat, b: nat)
    requires a < 10 && b < 10
    ensures (Term(8, a) - Term(8, b)) % 10 == 0 <==> a == b
    ensures (Term(8, a) - 3 * a - (Term(8, b) - 3 * b)) % 10 == 0 <==> a % 4 == b % 4
    ensures (Term(8, b) - b - (Term(8, a) - a)) % 10 == 0 <==> a == b || {a, b} == {0, 9}
  {
    hide Term, NinthDigit, NinthLessThrice, NinthLessOnce;
    var x, y := Term(8, a), Term(8, b);
    assert x % 10 == NinthDigit(a) && (x - 3 * a) % 10 == NinthLessThrice(a) && (x - a) % 10 == NinthLessOnce(a) by {
      NinthTerm(a);
    }
    assert y % 10 == NinthDigit(b) && (y - 3 * b) % 10 == NinthLessThrice(b) && (y - b) % 10 == NinthLessOnce(b) by {
      NinthTerm(b);
    }
    LastDigitsDiffer(a, b);
    SameLastDigit(x, y);
    SameLastDigit(x - 3 * a, y - 3 * b);
    SameLastDigit(y - b, x - a);
  }

  lemma LastDigitsDiffer(a: nat, b: nat)
    requires a < 10 && b < 10
    ensures NinthDigit(a) == NinthDigit(b) <==> a == b
    ensures NinthLessThrice(a) == NinthLessThrice(b) <==> a % 4 == b % 4
    ensures NinthLessOnce(a) == NinthLessOnce(b) <==> a == b || {a, b} == {0, 9}
  {
    hide NinthDigit, NinthLessThrice, NinthLessOnce;
    NinthDigitsDiffer(a, b);
    NinthThricesDiffer(a, b);
    NinthOncesDiffer(a, b);
  }

  lemma NinthDigitsDiffer(a: nat, b: nat)
    requires a < 10 && b < 10
    ensures NinthDigit(a) == NinthDigit(b) <==> a == b
  {
    assert a in {0, 1, 2, 3, 4, 5, 6, 7, 8, 9};
    assert b in {0, 1, 2, 3, 4, 5, 6, 7, 8, 9};
  }

  lemma NinthThricesDiffer(a: nat, b: nat)
    ensures NinthLessThrice(a) == NinthLessThrice(b) <==> a % 4 == b % 4
  {}

  lemma NinthOncesDiffer(a: nat, b: nat)
    requires a < 10 && b < 10
    ensures NinthLessOnce(a) == NinthLessOnce(b) <==> a == b || {a, b} == {0, 9}
  {
    assert a in {0, 1, 2, 3, 4, 5, 6, 7, 8, 9};
    assert b in {0, 1, 2, 3, 4, 5, 6, 7, 8, 9};
    assert 0 in {0, 9} && 9 in {0, 9};
  }

  lemma TermsDiffer(i: nat, a: nat, b: nat)
    requires i < 10 && a < 10 && b < 10
    ensures (Term(i, a) - Term(i, b)) % 10 == 0 <==> a == b
  {
    MultipleOfTen(a - b);
    if i == 8 {
      NinthTermsDiffer(a, b);
    } else if i == 9 || i % 3 == 0 {
      assert Term(i, a) - Term(i, b) == a - b;
    } else if i % 3 == 1 {
      assert Term(i, a) - Term(i, b) == 3 * (a - b);
    } else {
      assert Term(i, a) - Term(i, b) == 7 * (a - b);
    }
  }

  /** What swapping neighbours a and b in positions i and i + 1 adds to the total. */
  function SwapChange(i: nat, a: nat, b: nat): int {
    Term(i, b) + Term(i + 1, a) - Term(i, a) - Term(i + 1, b)
  }

  lemma EarlySwap(i: nat, a: nat, b: nat)
    requires i < 7 && a < 10 && b < 10 && a != b
    ensures SwapChange(i, a, b) % 10 == 0 <==> SwapEscapes(i, a, b)
  {
    MultipleOfTen(a - b);
    MultipleOfTen(b - a);
    if i % 3 == 0 {
      assert SwapChange(i, a, b) == 2 * (a - b);
    } else if i % 3 == 1 {
      assert SwapChange(i, a, b) == 4 * (a - b);
    } else {
      assert SwapChange(i, a, b) == 6 * (b - a);
    }
  }

  lemma LateSwap(i: nat, a: nat, b: nat)
    requires 7 <= i < 9 && a < 10 && b < 10 && a != b
    ensures SwapChange(i, a, b) % 10 == 0 <==> SwapEscapes(i, a, b)
  {
    NinthTermsDiffer(a, b);
    if i == 8 {
      assert a in {a, b} && b in {a, b};
      assert SwapChange(i, a, b) == Term(8, b) - b - (Term(8, a) - a);
    } else {
      assert SwapChange(i, a, b) == Term(8, a) - 3 * a - (Term(8, b) - 3 * b);
    }
  }

  lemma Complement(t: nat, c: nat)
    requires c < 10
    ensures c == (10 - t % 10) % 10 <==> (t + c) % 10 == 0
  {}

  lemma MultipleShift(t: int, k: int)
    requires t % 10 == 0
    ensures (t + k) % 10 == 0 <==> k % 10 == 0
  {}

  lemma ChecksumIsTotal(d: seq<nat>)
    requires AreDigits(d)
    ensures HasChecksum(d) <==> Total(d) % 10 == 0
  {
    SumUnfolded(d);
    assert d[8] * 5 / 10 == d[8] / 2;
    Complement(Total(d) - d[9], d[9]);
  }

  /** Every nine-digit prefix is completed by exactly one check digit. */
  lemma ExactlyOneCheckDigit(prefix: seq<nat>)
    requires |prefix| == 9
    ensures CheckDigit(prefix) < 10
    ensures forall c: nat :: c < 10 ==> (HasChecksum(prefix + [c]) <==> c == CheckDigit(prefix))
  {
    forall c: nat | c < 10 ensures CheckDigit(prefix + [c]) == CheckDigit(prefix) {
      SumUnfolded(prefix);
      SumUnfolded(prefix + [c]);
    }
  }

  /** Changing one digit of a valid number, the ninth and the check digit included, is always noticed. */
  lemma SingleChangeIsRejected(d: seq<nat>, i: nat, x: nat)
    requires AreDigits(d) && IsValidNumber(d)
    requires i < 10 && x < 10 && x != d[i]
    ensures !IsValidNumber(d[i := x])
  {
    ChecksumIsTotal(d);
    ChecksumIsTotal(d[i := x]);
    TotalAfterUpdate(d, i, x);
    TermsDiffer(i, x, d[i]);
    MultipleShift(Total(d), Term(i, x) - Term(i, d[i]));
  }

  /** Which pairs of neighbouring digits may change places unnoticed. */
  predicate SwapEscapes(i: nat, a: nat, b: nat) {
    if i < 7 then a == b + 5 || b == a + 5
    else if i == 7 then a % 4 == b % 4
    else (a == 0 && b == 9) || (a == 9 && b == 0)
  }

  /** Swapping two different neighbours keeps a valid number valid exactly for those pairs. */
  lemma SwapIsNoticedUnless(d: seq<nat>, i: nat)
    requires AreDigits(d) && IsValidNumber(d)
    requires i < 9 && d[i] != d[i + 1]
    ensures IsValidNumber(d[i := d[i + 1]][i + 1 := d[i]]) <==> SwapEscapes(i, d[i], d[i + 1])
  {
    var e := d[i := d[i + 1]][i + 1 := d[i]];
    assert AreDigits(e) && e[i] != e[i + 1];
    assert !AllSame(e);
    ChecksumIsTotal(d);
    ChecksumIsTotal(e);
    SwappedTotal(d, i);
    MultipleShift(Total(d), SwapChange(i, d[i], d[i + 1]));
    if i < 7 {
      EarlySwap(i, d[i], d[i + 1]);
    } else {
      LateSwap(i, d[i], d[i + 1]);
    }
  }

  lemma SwappedTotal(d: seq<nat>, i: nat)
    requires |d| == 10 && i < 9
    ensures Total(d[i := d[i + 1]][i + 1 := d[i]]) == Total(d) + SwapChange(i, d[i], d[i + 1])
  {
    TotalAfterUpdate(d, i, d[i + 1]);
    TotalAfterUpdate(d[i := d[i + 1]], i + 1, d[i]);
  }

  /** The ban on ten equal digits is needed for 0, 4 and 8 and for no other digit. */
  lemma AllSameNeedsItsOwnRule(d: seq<nat>)
    requires AreDigits(d) && AllSame(d)
    ensures HasChecksum(d) <==> d[0] in {0, 4, 8}
  {
    ChecksumIsTotal(d);
    assert Total(d) == 32 * d[0] + d[0] / 2;
  }
}
