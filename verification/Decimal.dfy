/** Numbers in decimal, as strconv.FormatInt prints and strconv.ParseInt reads them. */
module Decimal {

  const DIGITS := "0123456789"

  predicate IsDigit(c: char) {
    '0' <= c <= '9'
  }

  function Value(c: char): nat
    requires IsDigit(c)
  {
    c as int - '0' as int
  }

  function Digit(d: nat): (c: char)
    requires d < 10
    ensures IsDigit(c) && Value(c) == d
  {
    DIGITS[d]
  }

  function Show(n: nat): (s: string)
    ensures s != "" && forall i | 0 <= i < |s| :: IsDigit(s[i])
    ensures n > 0 ==> s[0] != '0'
  {
    if n < 10 then [Digit(n)] else Show(n / 10) + [Digit(n % 10)]
  }

  predicate AllDigits(s: string) {
    forall i | 0 <= i < |s| :: IsDigit(s[i])
  }

  function Read(s: string): nat
    requires AllDigits(s)
  {
    if s == "" then 0 else 10 * Read(s[..|s| - 1]) + Value(s[|s| - 1])
  }

  lemma {:induction false} ReadShow(n: nat)
    ensures Read(Show(n)) == n
  {
    var s := Show(n);
    if n < 10 {
      assert s[..|s| - 1] == "";
    } else {
      ReadShow(n / 10);
      assert s[..|s| - 1] == Show(n / 10);
    }
  }

  lemma ShowInjective(a: nat, b: nat)
    requires Show(a) == Show(b)
    ensures a == b
  {
    ReadShow(a);
    ReadShow(b);
  }

  /** Printing in groups of three: all but the first group have their leading zeros. */
  lemma ThreeDigits(n: nat)
    requires n >= 1000
    ensures Show(n) == Show(n / 1000) + [Digit(n / 100 % 10), Digit(n / 10 % 10), Digit(n % 10)]
  {
    assert Show(n) == Show(n / 10) + [Digit(n % 10)];
    assert n / 10 / 10 == n / 100 && n / 100 / 10 == n / 1000;
    assert Show(n / 10) == Show(n / 100) + [Digit(n / 10 % 10)];
    assert Show(n / 100) == Show(n / 1000) + [Digit(n / 100 % 10)];
  }
}
