/** The checksum of card numbers. */
module Luhn {

  const ASCII_ZERO := 48
  const ASCII_NINE := 57

  type Digit = d: int | 0 <= d <= 9

  predicate IsDigit(c: char) { ASCII_ZERO <= c as int <= ASCII_NINE }

  predicate AllDigits(s: string) { forall i :: 0 <= i < |s| ==> IsDigit(s[i]) }

  function Value(c: char): Digit
    requires IsDigit(c)
  {
    c as int - ASCII_ZERO
  }

  /** The digits of `s` as numbers. */
  function Values(s: string): (ds: seq<Digit>)
    requires AllDigits(s)
    ensures |ds| == |s|
  {
    seq(|s|, i requires 0 <= i < |s| => Value(s[i]))
  }

  // ---------------------------------------------------------------------------------
  // Annex B of ISO/IEC 7812-1: counted from the right, every second digit is doubled and
  // the decimal digits of all results are added

  function Contribution(d: Digit, doubled: bool): Digit {
    if !doubled then d else if d <= 4 then 2 * d else 2 * d - 9
  }

  /** A doubled digit contributes the sum of the decimal digits of its double. */
  lemma DoubledIsDigitSum(d: Digit)
    ensures Contribution(d, true) == 2 * d / 10 + 2 * d % 10
  {
  }

  predicate Doubled(fromRight: nat) { fromRight % 2 == 1 }

  function LuhnSum(ds: seq<Digit>): nat {
    if ds == [] then 0 else Contribution(ds[0], Doubled(|ds| - 1)) + LuhnSum(ds[1..])
  }

  predicate DivisibleByTen(n: int) { n % 10 == 0 }

  /** The shortest accepted number has 13 digits. */
  predicate Valid(s: string) {
    |s| >= 13 && AllDigits(s) && DivisibleByTen(LuhnSum(Values(s)))
  }

  lemma SameParity(n: nat, i: nat)
    requires i < n
    ensures Doubled(n - 1 - i) <==> i % 2 == n % 2
  {
  }

  method ValidLuhn(number: string) returns (valid: bool)
    ensures valid <==> Valid(number)
  {
    if |number| < 13 {
      return false;
    }
    var parity := |number| % 2;
    var sum := 0;
    for i := 0 to |number|
      invariant forall j :: 0 <= j < i ==> IsDigit(number[j])
      invariant AllDigits(number) ==> sum + LuhnSum(Values(number)[i..]) == LuhnSum(Values(number))
    {
      if number[i] as int < ASCII_ZERO || ASCII_NINE < number[i] as int {
        return false;
      }
      var d := number[i] as int - ASCII_ZERO;
      if i % 2 == parity {
        d := d * 2;
        if d > 9 {
          d := d - 9;
        }
      }
      SameParity(|number|, i);
      assert d == Contribution(Value(number[i]), Doubled(|number| - 1 - i));
      assert AllDigits(number) ==> Values(number)[i..][1..] == Values(number)[i + 1..];
      sum := sum + d;
    }
    return sum % 10 == 0;
  }

  // ---------------------------------------------------------------------------------
  // What the checksum detects

  lemma {:induction false} SumOfChange(ds: seq<Digit>, i: nat, d: Digit)
    requires i < |ds|
    ensures var doubled := Doubled(|ds| - 1 - i);
            LuhnSum(ds[i := d]) - Contribution(d, doubled) == LuhnSum(ds) - Contribution(ds[i], doubled)
  {
    var es := ds[i := d];
    if i == 0 {
      assert es[1..] == ds[1..];
    } else {
      SumOfChange(ds[1..], i - 1, d);
      assert es[1..] == ds[1..][i - 1 := d];
    }
  }

  lemma ValuesOfChange(s: string, i: nat, d: char)
    requires AllDigits(s) && i < |s| && IsDigit(d)
    ensures AllDigits(s[i := d]) && Values(s[i := d]) == Values(s)[i := Value(d)]
  {
  }

  /** Two sums that differ by less than 10 are not both divisible by 10. */
  lemma CloseMultiples(x: int, y: int)
    requires DivisibleByTen(x) && DivisibleByTen(y) && -10 < x - y < 10
    ensures x == y
  {
  }

  /** Every change of a single character is detected. */
  lemma DetectsSingleChange(s: string, i: nat, d: char)
    requires Valid(s) && i < |s|
    ensures Valid(s[i := d]) <==> d == s[i]
  {
    var t := s[i := d];
    if d == s[i] {
      assert t == s;
    } else if Valid(t) {
      assert t[i] == d;
      ValuesOfChange(s, i, d);
      SumOfChange(Values(s), i, Value(d));
      CloseMultiples(LuhnSum(Values(t)), LuhnSum(Values(s)));
    }
  }

  predicate ZeroNine(c: char, d: char) {
    (c == '0' && d == '9') || (c == '9' && d == '0')
  }

  function SwapDifference(c: Digit, d: Digit, doubled: bool): int {
    Contribution(d, !doubled) + Contribution(c, doubled) - Contribution(c, !doubled) - Contribution(d, doubled)
  }

  lemma SwapDifferences(c: Digit, d: Digit, doubled: bool)
    ensures -10 < SwapDifference(c, d, doubled) < 10
    ensures SwapDifference(c, d, doubled) == 0 <==> c == d || (c == 0 && d == 9) || (c == 9 && d == 0)
  {
  }

  lemma SumOfSwap(ds: seq<Digit>, i: nat)
    requires i + 1 < |ds|
    ensures var doubled, c, d := Doubled(|ds| - 2 - i), ds[i], ds[i + 1];
            LuhnSum(ds[i := d][i + 1 := c]) - LuhnSum(ds)
              == SwapDifference(c, d, doubled)
  {
    SumOfChange(ds, i, ds[i + 1]);
    SumOfChange(ds[i := ds[i + 1]], i + 1, ds[i]);
    assert Doubled(|ds| - 1 - i) == !Doubled(|ds| - 2 - i);
  }

  /** Every swap of neighbours is detected, except that of 0 and 9. */
  lemma DetectsTransposition(s: string, i: nat)
    requires Valid(s) && i + 1 < |s|
    ensures Valid(s[i := s[i + 1]][i + 1 := s[i]]) <==> s[i] == s[i + 1] || ZeroNine(s[i], s[i + 1])
  {
    var t := s[i := s[i + 1]];
    var u := t[i + 1 := s[i]];
    ValuesOfChange(s, i, s[i + 1]);
    ValuesOfChange(t, i + 1, s[i]);
    SumOfSwap(Values(s), i);
    SwapDifferences(Value(s[i]), Value(s[i + 1]), Doubled(|s| - 2 - i));
    if Valid(u) {
      CloseMultiples(LuhnSum(Values(u)), LuhnSum(Values(s)));
    }
  }

  /** The digit that completes the sum to a multiple of 10. */
  function CheckDigit(payload: string): char
    requires AllDigits(payload)
  {
    (ASCII_ZERO + (10 - LuhnSum(Values(payload) + [0]) % 10) % 10) as char
  }

  lemma SumWithCheckDigit(payload: string, c: char)
    requires AllDigits(payload) && IsDigit(c)
    ensures AllDigits(payload + [c])
    ensures LuhnSum(Values(payload + [c])) == LuhnSum(Values(payload) + [0]) + Value(c)
  {
    var ds := Values(payload) + [0];
    SumOfChange(ds, |payload|, Value(c));
    assert Values(payload + [c]) == ds[|payload| := Value(c)];
  }

  /** Every payload of at least 12 digits has exactly one check digit. */
  lemma OneCheckDigit(payload: string, c: char)
    requires AllDigits(payload) && |payload| >= 12
    ensures Valid(payload + [c]) <==> c == CheckDigit(payload)
  {
    assert (payload + [c])[|payload|] == c;
    var sum := LuhnSum(Values(payload) + [0]);
    if IsDigit(c) {
      SumWithCheckDigit(payload, c);
      UniqueComplement(sum, Value(c));
    }
  }

  lemma UniqueComplement(sum: nat, d: Digit)
    ensures DivisibleByTen(sum + d) <==> d == (10 - sum % 10) % 10
  {
  }
}
