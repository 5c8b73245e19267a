/**
 The payment-card check of the redaction pass (src/soctalk_wire/redaction.py).

 `LuhnOk` is the loop of the source.  The lemmas say what the checksum is good for
 (ISO/IEC 7812-1, Annex B): it notices every mistyped digit and every swap of two
 neighbouring digits except 0 with 9, and separators never change the verdict.
 */
module Luhn {
  import opened Wrappers

  type Digit = d: nat | d <= 9

  /** What a character is to Python: no digit, a decimal digit and its value, or a character that `isdigit`
      accepts and `int` does not, such as a superscript. */
  datatype Numeral = NoDigit | Decimal(value: Digit) | NoValue

  /** Unicode says which character is what; nothing below depends on it. */
  type Numerals = char -> Numeral

  /** The decimal digits of a text, in order; everything else is skipped. */
  function Digits(num: Numerals, text: string): seq<Digit> {
    if text == [] then []
    else
      match num(text[0])
      case Decimal(d) => [d] + Digits(num, text[1..])
      case _ => Digits(num, text[1..])
  }

  /** The conversion of some character fails. */
  predicate Fails(num: Numerals, text: string) {
    exists i :: 0 <= i < |text| && num(text[i]) == NoValue
  }

  /** What a digit contributes at distance `k` from the right end. */
  function Weight(k: nat, d: Digit): (w: Digit) {
    if k % 2 == 0 then d
    else if 2 * d > 9 then 2 * d - 9
    else 2 * d
  }

  function Checksum(digits: seq<Digit>): nat {
    if digits == [] then 0
    else Weight(|digits| - 1, digits[0]) + Checksum(digits[1..])
  }

  predicate Accepts(num: Numerals, text: string) {
    var digits := Digits(num, text);
    !Fails(num, text) && 13 <= |digits| <= 19 && Checksum(digits) % 10 == 0
  }

  method CollectDigits(num: Numerals, number: string) returns (digits: Option<seq<Digit>>)
    ensures digits == if Fails(num, number) then None else Some(Digits(num, number))
  {
    var found: seq<Digit> := [];
    for i := 0 to |number|
      invariant found + Digits(num, number[i..]) == Digits(num, number)
      invariant forall k :: 0 <= k < i ==> num(number[k]) != NoValue
    {
      assert number[i..][1..] == number[i + 1..];
      match num(number[i])
      case NoValue => return None;
      case Decimal(d) => found := found + [d];
      case NoDigit =>
    }
    assert number[|number|..] == [] && found + [] == found;
    return Some(found);
  }

  /** None when the conversion fails. */
  method LuhnOk(num: Numerals, number: string) returns (ok: Option<bool>)
    ensures ok == if Fails(num, number) then None else Some(Accepts(num, number))
  {
    var collected := CollectDigits(num, number);
    if collected == None {
      return None;
    }
    var digits := collected.value;
    if !(13 <= |digits| <= 19) {
      return Some(false);
    }
    var checksum := 0;
    for i := 0 to |digits|
      invariant checksum == Checksum(digits[|digits| - i..])
    {
      var d: int := digits[|digits| - 1 - i];
      assert digits[|digits| - 1 - i..][1..] == digits[|digits| - i..];
      if i % 2 == 1 {
        d := d * 2;
        if d > 9 {
          d := d - 9;
        }
      }
      checksum := checksum + d;
    }
    assert digits[0..] == digits;
    return Some(checksum % 10 == 0);
  }

  // ----- what a digit contributes

  function DigitSum(n: nat): nat {
    if n == 0 then 0 else n % 10 + DigitSum(n / 10)
  }

  /** From the right, every second digit is doubled: of each pair of digits the right one counts as it is and
      the left one by the digits of its double. */
  lemma {:induction false} PairsFromTheRight(digits: seq<Digit>)
    ensures |digits| == 1 ==> Checksum(digits) == digits[0]
    ensures |digits| >= 2 ==>
              var n := |digits|;
              Checksum(digits) == Checksum(digits[..n - 2]) + DigitSum(digits[n - 2] as nat * 2) + digits[n - 1]
  {
    var n := |digits|;
    if n == 2 {
      assert digits[..0] == [];
      DoubledDigit(digits[0]);
    } else if n > 2 {
      PairsFromTheRight(digits[1..]);
      assert digits[1..][..n - 3] == digits[..n - 2][1..];
      SameParity(n - 1);
    }
  }

  lemma SameParity(k: nat)
    requires k >= 2
    ensures forall d: Digit :: Weight(k, d) == Weight(k - 2, d)
  {
    assert k % 2 == (k - 2) % 2;
  }

  lemma DoubledDigit(d: Digit)
    ensures Weight(1, d) == DigitSum(d as nat * 2)
  {
    assert DigitSum((d as nat * 2) / 10) == (d as nat * 2) / 10;
  }

  // ----- what one changed digit does to the checksum

  /** Changing one digit moves the checksum by exactly the change of that digit's weight. */
  lemma {:induction false} ChecksumUpdate(digits: seq<Digit>, i: nat, d: Digit)
    requires i < |digits|
    ensures Checksum(digits[i := d]) - Checksum(digits)
         == Weight(|digits| - 1 - i, d) - Weight(|digits| - 1 - i, digits[i])
  {
    if i == 0 {
      assert digits[0 := d][1..] == digits[1..];
    } else {
      assert digits[i := d][1..] == digits[1..][i - 1 := d];
      ChecksumUpdate(digits[1..], i - 1, d);
    }
  }

  /** Totals less than ten apart agree modulo 10 only when they are equal. */
  lemma CloseTotals(a: int, b: int)
    requires -10 < a - b < 10
    ensures a % 10 == b % 10 <==> a == b
  {
  }

  /** Every single-digit substitution changes the checksum modulo 10, at any length. */
  lemma {:induction false} SubstitutionDetected(digits: seq<Digit>, i: nat, d: Digit)
    requires i < |digits| && d != digits[i]
    ensures Checksum(digits[i := d]) % 10 != Checksum(digits) % 10
  {
    ChecksumUpdate(digits, i, d);
    CloseTotals(Checksum(digits[i := d]), Checksum(digits));
  }

  function SwapAt(digits: seq<Digit>, i: nat): seq<Digit>
    requires i + 1 < |digits|
  {
    digits[i := digits[i + 1]][i + 1 := digits[i]]
  }

  /** What swapping `x` at distance k + 1 with `y` at distance k does to their joint weight. */
  function SwappedWeight(k: nat, x: Digit, y: Digit): (change: int)
    ensures -10 < change < 10
    ensures change == 0 <==> x == y || (x == 0 && y == 9) || (x == 9 && y == 0)
  {
    (Weight(k, x) as int - Weight(k + 1, x)) - (Weight(k, y) as int - Weight(k + 1, y))
  }

  lemma SetOfZeroAndNine(x: Digit, y: Digit)
    ensures {x, y} == {0, 9} <==> (x == 0 && y == 9) || (x == 9 && y == 0)
  {
  }

  lemma {:induction false} ChecksumSwap(digits: seq<Digit>, i: nat)
    requires i + 1 < |digits|
    ensures Checksum(SwapAt(digits, i)) - Checksum(digits)
         == SwappedWeight(|digits| - 2 - i, digits[i], digits[i + 1])
  {
    ChecksumUpdate(digits, i, digits[i + 1]);
    ChecksumUpdate(digits[i := digits[i + 1]], i + 1, digits[i]);
  }

  /** A swap of neighbours goes unnoticed exactly when they are equal or are 0 and 9. */
  lemma {:induction false} SwapDetected(digits: seq<Digit>, i: nat)
    requires i + 1 < |digits|
    ensures Checksum(SwapAt(digits, i)) % 10 == Checksum(digits) % 10
       <==> digits[i] == digits[i + 1] || {digits[i], digits[i + 1]} == {0, 9}
  {
    ChecksumSwap(digits, i);
    CloseTotals(Checksum(SwapAt(digits, i)), Checksum(digits));
    SetOfZeroAndNine(digits[i], digits[i + 1]);
  }

  /** The check digit is unique: whatever the length, exactly one final digit makes the checksum 0 modulo 10. */
  lemma CheckDigitExistsAndIsUnique(payload: seq<Digit>) returns (check: Digit)
    ensures forall d: Digit :: Checksum(payload + [d]) % 10 == 0 <==> d == check
  {
    hide Checksum;
    var base := Checksum(payload + [0]);
    check := (10 - base % 10) % 10;
    forall d: Digit
      ensures Checksum(payload + [d]) % 10 == 0 <==> d == check
    {
      LastDigitAdds(payload, d);
      DigitCompletes(base, d);
    }
  }

  lemma LastDigitAdds(payload: seq<Digit>, d: Digit)
    ensures Checksum(payload + [d]) == Checksum(payload + [0]) + d
  {
    ChecksumUpdate(payload + [0], |payload|, d);
    assert (payload + [0])[|payload| := d] == payload + [d];
  }

  lemma DigitCompletes(base: nat, d: Digit)
    ensures (base + d) % 10 == 0 <==> d == (10 - base % 10) % 10
  {
  }

  // ----- the same, said about the texts the redactor sees

  lemma {:induction false} DigitsOfConcat(num: Numerals, a: string, b: string)
    ensures Digits(num, a + b) == Digits(num, a) + Digits(num, b)
  {
    if a == [] {
      assert a + b == b;
    } else {
      assert (a + b)[1..] == a[1..] + b;
      DigitsOfConcat(num, a[1..], b);
    }
  }

  lemma FailsOfConcat(num: Numerals, a: string, b: string)
    ensures Fails(num, a + b) <==> Fails(num, a) || Fails(num, b)
  {
    if Fails(num, a) {
      var i :| 0 <= i < |a| && num(a[i]) == NoValue;
      assert (a + b)[i] == a[i];
    }
    if Fails(num, b) {
      var i :| 0 <= i < |b| && num(b[i]) == NoValue;
      assert (a + b)[|a| + i] == b[i];
    }
  }

  /** Of the ten final digits, exactly one makes a number of a payload of 12 to 18 digits; at any other length
      none does. */
  lemma CheckDigitIsAccepted(num: Numerals, payload: string) returns (check: Digit)
    requires !Fails(num, payload)
    ensures forall c: char :: num(c).Decimal? ==>
              (Accepts(num, payload + [c]) <==> 12 <= |Digits(num, payload)| <= 18 && num(c).value == check)
  {
    check := CheckDigitExistsAndIsUnique(Digits(num, payload));
    forall c: char | num(c).Decimal?
      ensures Accepts(num, payload + [c]) <==> 12 <= |Digits(num, payload)| <= 18 && num(c).value == check
    {
      DigitsOfConcat(num, payload, [c]);
      FailsOfConcat(num, payload, [c]);
      assert Digits(num, [c]) == [num(c).value];
    }
  }

  /** Separators, wherever they stand, never matter. */
  lemma SeparatorsDoNotMatter(num: Numerals, a: string, separator: char, b: string)
    requires num(separator) == NoDigit
    ensures Accepts(num, a + [separator] + b) == Accepts(num, a + b)
  {
    DigitsOfConcat(num, a + [separator], b);
    DigitsOfConcat(num, a, [separator]);
    assert Digits(num, [separator]) == Digits(num, []);
    assert Digits(num, a + [separator]) == Digits(num, a);
    DigitsOfConcat(num, a, b);
    FailsOfConcat(num, a + [separator], b);
    FailsOfConcat(num, a, [separator]);
    FailsOfConcat(num, a, b);
  }

  /** Two card numbers one substitution apart are never both accepted. */
  lemma NoTwoSubstitutionNeighbours(num: Numerals, s: string, t: string, i: nat, d: Digit)
    requires i < |Digits(num, s)| && d != Digits(num, s)[i]
    requires Digits(num, t) == Digits(num, s)[i := d]
    ensures !(Accepts(num, s) && Accepts(num, t))
  {
    SubstitutionDetected(Digits(num, s), i, d);
  }

  /** Two card numbers one swap of distinct neighbours apart: once one is accepted, the other is
      accepted too if and only if the two digits are 0 and 9. */
  lemma SwapNeighbours(num: Numerals, s: string, t: string, i: nat)
    requires i + 1 < |Digits(num, s)| && Digits(num, s)[i] != Digits(num, s)[i + 1]
    requires Digits(num, t) == SwapAt(Digits(num, s), i)
    requires Accepts(num, s)
    ensures Accepts(num, t) <==> !Fails(num, t) && {Digits(num, s)[i], Digits(num, s)[i + 1]} == {0, 9}
  {
    SwapDetected(Digits(num, s), i);
  }
}
