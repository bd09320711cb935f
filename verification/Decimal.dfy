/** Int32.ToString and Int64.ToString where the culture's minus sign is '-', with the reader that undoes them. */
module Decimal {
  import opened Basics

  function DigitChar(d: nat): (c: char)
    requires d < 10
    ensures '0' <= c <= '9'
  {
    (('0' as int) + d) as char
  }

  function PrintNat(n: nat): (s: string)
    ensures s != "" && forall c <- s :: '0' <= c <= '9'
  {
    if n < 10 then [DigitChar(n)] else PrintNat(n / 10) + [DigitChar(n % 10)]
  }

  function Print(n: int): string {
    if n < 0 then "-" + PrintNat(-n) else PrintNat(n)
  }

  function ParseNat(s: string): Option<nat> {
    if s == "" then Some(0)
    else
      var last := s[|s| - 1];
      match ParseNat(s[..|s| - 1])
      case Some(front) => if '0' <= last <= '9' then Some(front * 10 + (last as int - '0' as int)) else None
      case None => None
  }

  function Parse(s: string): Option<int> {
    if s == "" then None
    else if s[0] == '-' then
      match ParseNat(s[1..])
      case Some(n) => Some(-(n as int))
      case None => None
    else
      match ParseNat(s)
      case Some(n) => Some(n)
      case None => None
  }

  lemma {:induction false} ParsePrintNat(n: nat)
    ensures ParseNat(PrintNat(n)) == Some(n)
  {
    var s := PrintNat(n);
    if n < 10 {
      assert s[..|s| - 1] == "";
    } else {
      ParsePrintNat(n / 10);
      assert s[..|s| - 1] == PrintNat(n / 10);
    }
  }

  lemma {:induction false} ParsePrint(n: int)
    ensures Parse(Print(n)) == Some(n)
  {
    ParsePrintNat(if n < 0 then -n else n);
    if n >= 0 {
      assert PrintNat(n)[0] in PrintNat(n);
    } else {
      assert Print(n)[1..] == PrintNat(-n);
    }
  }

  /**
   * How numbers are written, digit by digit: one digit for each number below ten, one more
   * behind the others for each further decimal place, and a '-' in front of a negative number.
   */
  lemma {:induction false} PrintIsDecimal(n: nat, d: nat)
    requires d < 10
    ensures Print(d) == ["0123456789"[d]]
    ensures n > 0 ==> Print(10 * n + d) == Print(n) + ["0123456789"[d]]
    ensures n > 0 ==> Print(-(n as int)) == "-" + Print(n)
  {
    assert (10 * n + d) / 10 == n && (10 * n + d) % 10 == d;
  }

  /** No leading zero but in zero itself. */
  lemma {:induction false} NoLeadingZero(n: nat)
    ensures Print(n)[0] == '0' <==> n == 0
  {
    if n >= 10 {
      NoLeadingZero(n / 10);
    }
  }
}
