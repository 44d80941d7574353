/**
 * Decimal text of integers, as strconv.AppendUint and the verb %d of fmt write it.
 */
module Decimal {
  /** The digit characters; ValueOf is their inverse. */
  function DigitChar(d: nat): (c: char)
    requires d < 10
    ensures '0' <= c <= '9'
  {
    '0' + (d as char)
  }

  function Digits(n: nat): (s: string)
    ensures |s| > 0
    ensures forall i :: 0 <= i < |s| ==> '0' <= s[i] <= '9'
  {
    if n < 10 then [DigitChar(n)] else Digits(n / 10) + [DigitChar(n % 10)]
  }

  /** The number a string of digits stands for. */
  function ValueOf(s: string): nat
    requires forall i :: 0 <= i < |s| ==> '0' <= s[i] <= '9'
  {
    if s == [] then 0 else 10 * ValueOf(s[..|s| - 1]) + (s[|s| - 1] - '0') as nat
  }

  lemma {:induction false} DigitsValue(n: nat)
    ensures ValueOf(Digits(n)) == n
  {
    if n >= 10 {
      DigitsValue(n / 10);
      assert Digits(n)[..|Digits(n)| - 1] == Digits(n / 10);
    } else {
      assert Digits(n)[..0] == [];
    }
  }

  /** Different numbers have different decimal text. */
  lemma DigitsInjective(m: nat, n: nat)
    requires Digits(m) == Digits(n)
    ensures m == n
  {
    DigitsValue(m);
    DigitsValue(n);
  }

  /** Signed text, as %d writes it. */
  function Signed(n: int): (s: string)
    ensures |s| > 0
    ensures IsSigned(s)
  {
    if n < 0 then "-" + Digits(-n) else Digits(n)
  }

  predicate IsSigned(s: string) {
    forall i :: 0 <= i < |s| ==> (i == 0 && s[i] == '-') || '0' <= s[i] <= '9'
  }

  /** The number a signed decimal text stands for. */
  function SignedValueOf(s: string): int
    requires |s| > 0 && IsSigned(s)
  {
    if s[0] == '-' then 0 - ValueOf(s[1..]) else ValueOf(s)
  }

  lemma SignedValue(n: int)
    ensures SignedValueOf(Signed(n)) == n
  {
    if n < 0 {
      DigitsValue(-n);
      assert Signed(n)[1..] == Digits(-n);
    } else {
      DigitsValue(n);
    }
  }
}
