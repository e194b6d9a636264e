/** Decimal numerals, as `strconv.FormatInt` writes and `strconv.ParseInt` reads them. */
module Decimal {
  import opened Wrappers

  const MAX_INT64 := 0x7FFF_FFFF_FFFF_FFFF

  predicate IsDigit(c: char) { '0' <= c <= '9' }

  function DigitOf(d: nat): (c: char)
    requires d < 10
    ensures IsDigit(c)
  {
    '0' + d as char
  }

  function ValueOf(c: char): (d: nat)
    requires IsDigit(c)
    ensures d < 10
  {
    (c - '0') as nat
  }

  /** A natural number in base ten, without leading zeros. */
  function Format(n: nat): (s: string)
    ensures s != "" && forall i | 0 <= i < |s| :: IsDigit(s[i])
  {
    if n < 10 then [DigitOf(n)] else Format(n / 10) + [DigitOf(n % 10)]
  }

  predicate AllDigits(s: string) { forall i | 0 <= i < |s| :: IsDigit(s[i]) }

  function Value(s: string): nat
    requires AllDigits(s)
  {
    if s == "" then 0 else Value(s[..|s| - 1]) * 10 + ValueOf(s[|s| - 1])
  }

  /** `strconv.ParseInt(s, 10, 64)`: an optional sign, at least one digit, and a value in range. */
  function ParseInt(s: string): Option<int> {
    var signed := s != "" && (s[0] == '+' || s[0] == '-');
    var digits := if signed then s[1..] else s;
    if digits == "" || !AllDigits(digits) then None
    else
      var n: int := if signed && s[0] == '-' then 0 - Value(digits) else Value(digits);
      if -MAX_INT64 - 1 <= n <= MAX_INT64 then Some(n) else None
  }

  lemma {:induction false} ValueFormat(n: nat)
    ensures Value(Format(n)) == n
  {
    if n < 10 {
      assert Format(n)[..0] == "";
    } else {
      ValueFormat(n / 10);
      assert Format(n)[..|Format(n)| - 1] == Format(n / 10);
    }
  }

  /** Parsing inverts formatting on every non-negative 64-bit integer. */
  lemma {:induction false} ParseFormat(n: nat)
    requires n <= MAX_INT64
    ensures ParseInt(Format(n)) == Some(n)
  {
    ValueFormat(n);
  }

  /** With or without a sign, a numeral is read as the number that it writes, if that is a 64-bit integer. */
  lemma {:induction false} ParseSigned(n: nat)
    ensures ParseInt(Format(n)) == ParseInt("+" + Format(n)) == if n < 0x8000_0000_0000_0000 then Some(n) else None
    ensures ParseInt("-" + Format(n)) == if n <= 0x8000_0000_0000_0000 then Some(0 - n) else None
  {
    ValueFormat(n);
    var digits := Format(n);
    assert ("+" + digits)[1..] == digits && ("-" + digits)[1..] == digits;
    hide Format, Value;
  }

  /** Anything but digits after an optional sign is refused. */
  lemma {:induction false} ParseRefuses(s: string, c: char, i: nat)
    requires i < |s| && s[i] == c && !IsDigit(c) && (i == 0 ==> c != '+' && c != '-')
    ensures ParseInt(s) == None && ParseInt("") == ParseInt("+") == ParseInt("-") == None
  {
    assert i > 0 ==> s[1..][i - 1] == c;
  }

  lemma {:induction false} FormatInjective(m: nat, n: nat)
    requires Format(m) == Format(n)
    ensures m == n
  {
    ValueFormat(m);
    ValueFormat(n);
  }
}
