/** strconv.Itoa on the non-negative integers the exporter formats as labels. */
module Decimal {

  predicate IsDigit(c: char)
  {
    '0' <= c <= '9'
  }

  function DigitChar(d: nat): (c: char)
    requires d < 10
    ensures IsDigit(c)
  {
    "0123456789"[d]
  }

  function DigitValue(c: char): (d: nat)
    requires IsDigit(c)
    ensures d < 10
  {
    (c as int - '0' as int) as nat
  }

  /** Decimal text of n, most significant digit first. */
  function Itoa(n: nat): (s: string)
    ensures |s| > 0
    ensures forall i :: 0 <= i < |s| ==> IsDigit(s[i])
  {
    if n < 10 then [DigitChar(n)] else Itoa(n / 10) + [DigitChar(n % 10)]
  }

  /** Value of a string of decimal digits. */
  function Atoi(s: string): nat
    requires forall i :: 0 <= i < |s| ==> IsDigit(s[i])
  {
    if |s| == 0 then 0 else Atoi(s[..|s| - 1]) * 10 + DigitValue(s[|s| - 1])
  }

  /** Like strconv.Itoa, no leading zero except for zero itself. */
  lemma {:induction false} ItoaNoLeadingZero(n: nat)
    ensures Itoa(n)[0] == '0' <==> n == 0
  {
    if n >= 10 {
      ItoaNoLeadingZero(n / 10);
      assert Itoa(n)[0] == Itoa(n / 10)[0];
    }
  }

  /** Reading back the decimal text of n gives n. */
  lemma {:induction false} AtoiItoa(n: nat)
    ensures Atoi(Itoa(n)) == n
  {
    var s := Itoa(n);
    if n >= 10 {
      AtoiItoa(n / 10);
      assert s[..|s| - 1] == Itoa(n / 10);
    }
  }

  /** Distinct numbers get distinct labels. */
  lemma ItoaInjective(m: nat, n: nat)
    ensures Itoa(m) == Itoa(n) <==> m == n
  {
    AtoiItoa(m);
    AtoiItoa(n);
  }
}
