/** Decimal texts of numbers, zero-padded where asked, and the smaller of two numbers. */
module Numbers {

  function Min(a: nat, b: nat): nat { if a <= b then a else b }

  predicate AllDigits(s: string) { forall i :: 0 <= i < |s| ==> '0' <= s[i] <= '9' }

  function Digit(d: nat): (c: char)
    requires d < 10
    ensures '0' <= c <= '9'
  {
    ['0', '1', '2', '3', '4', '5', '6', '7', '8', '9'][d]
  }

  function NatText(n: nat): (r: string)
    ensures r != "" && AllDigits(r)
  {
    if n < 10 then [Digit(n)] else NatText(n / 10) + [Digit(n % 10)]
  }

  function DigitValue(c: char): nat {
    if '0' <= c <= '9' then (c as int) - ('0' as int) else 0
  }

  function Value(s: string): nat {
    if s == "" then 0 else 10 * Value(s[..|s| - 1]) + DigitValue(s[|s| - 1])
  }

  lemma {:induction false} ValueOfNat(n: nat)
    ensures Value(NatText(n)) == n
  {
    if n >= 10 {
      ValueOfNat(n / 10);
      assert NatText(n)[..|NatText(n)| - 1] == NatText(n / 10);
    } else {
      assert [Digit(n)][..0] == "";
    }
  }

  /** A number is written without leading zeros. */
  lemma {:induction false} NoLeadingZero(n: nat)
    ensures NatText(0) == "0" && (n > 0 ==> NatText(n)[0] != '0')
  {
    if n >= 10 { NoLeadingZero(n / 10); }
  }

  /** `padStart(4, '0')`. */
  function Padded(s: string): string
    decreases 4 - |s|
  {
    if |s| < 4 then Padded("0" + s) else s
  }

  lemma {:induction false} LeadingZero(s: string)
    ensures Value("0" + s) == Value(s)
  {
    if s != "" {
      LeadingZero(s[..|s| - 1]);
      assert ("0" + s)[..|s|] == "0" + s[..|s| - 1];
    } else {
      assert ("0" + s)[..0] == "";
    }
  }

  /** Padding keeps the number, so padded texts of different numbers differ. */
  lemma {:induction false} PaddedKeeps(s: string)
    requires AllDigits(s)
    ensures Value(Padded(s)) == Value(s) && AllDigits(Padded(s))
    ensures |Padded(s)| == if |s| < 4 then 4 else |s|
    decreases 4 - |s|
  {
    if |s| < 4 {
      LeadingZero(s);
      PaddedKeeps("0" + s);
    }
  }
}
