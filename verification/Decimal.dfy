/** Decimal numbers as fmt and the FIX convertors write and read them. */
module Decimal {
  import opened Wrappers

  const DIGITS := "0123456789"

  predicate IsDigit(c: char) { '0' <= c <= '9' }

  function Value(c: char): nat
    requires IsDigit(c)
  {
    c as int - '0' as int
  }

  function PrintNat(n: nat): (s: string)
    ensures s != "" && forall c :: c in s ==> IsDigit(c)
  {
    if n < 10 then [DIGITS[n]] else PrintNat(n / 10) + [DIGITS[n % 10]]
  }

  function ParseNat(s: string): Option<nat> {
    if s == "" || !IsDigit(s[|s|-1]) then None
    else if |s| == 1 then Some(Value(s[0]))
    else match ParseNat(s[..|s|-1])
      case None => None
      case Some(n) => Some(10 * n + Value(s[|s|-1]))
  }

  function PrintInt(i: int): string {
    if i < 0 then "-" + PrintNat(-i) else PrintNat(i)
  }

  function Signed(n: Option<nat>, sign: int): Option<int> {
    match n
    case None => None
    case Some(m) => Some(sign * m)
  }

  function ParseInt(s: string): Option<int> {
    if s != "" && s[0] == '-' then Signed(ParseNat(s[1..]), -1) else Signed(ParseNat(s), 1)
  }

  lemma {:induction false} ParsePrintNat(n: nat)
    ensures ParseNat(PrintNat(n)) == Some(n)
  {
    if n >= 10 {
      ParsePrintNat(n / 10);
      var s := PrintNat(n);
      assert s[..|s|-1] == PrintNat(n / 10);
    }
  }

  /** Reading back what was printed, for every integer. */
  lemma ParsePrintInt(i: int)
    ensures ParseInt(PrintInt(i)) == Some(i)
  {
    var n := if i < 0 then -i else i;
    ParsePrintNat(n);
    var digits := PrintNat(n);
    assert digits[0] in digits;
    hide PrintNat, ParseNat;
    assert ("-" + digits)[1..] == digits;
  }

  /** And nothing else could have been printed: no leading zeros. */
  lemma {:induction false} NoLeadingZero(n: nat)
    ensures PrintNat(n)[0] == '0' <==> n == 0
  {
    if n >= 10 {
      NoLeadingZero(n / 10);
    }
  }

  lemma PrintIntChars(i: int)
    ensures forall c :: c in PrintInt(i) ==> c == '-' || IsDigit(c)
  {
  }
}
