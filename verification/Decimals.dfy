/** Decimal numerals as text: digits, their value, padding and trimming. */
module Decimals {

  predicate IsDigit(c: char) {
    '0' <= c <= '9'
  }

  predicate AllDigits(s: string) {
    forall i :: 0 <= i < |s| ==> IsDigit(s[i])
  }

  function DigitChar(d: nat): (c: char)
    requires d < 10
    ensures IsDigit(c)
  {
    ('0' as int + d) as char
  }

  function Value(s: string): nat
    requires AllDigits(s)
  {
    if s == [] then 0 else 10 * Value(s[..|s| - 1]) + (s[|s| - 1] as int - '0' as int)
  }

  /** String(n): no leading zeros, "0" for zero. */
  function Digits(n: nat): (s: string)
    ensures |s| >= 1 && AllDigits(s)
    ensures |s| > 1 ==> s[0] != '0'
    ensures Value(s) == n
  {
    if n < 10 then [DigitChar(n)]
    else
      var s := Digits(n / 10) + [DigitChar(n % 10)];
      assert s[..|s| - 1] == Digits(n / 10);
      s
  }

  function Zeros(n: nat): (s: string)
    ensures |s| == n && AllDigits(s)
  {
    seq(n, _ => '0')
  }

  /** padStart with '0'. */
  function PadStart(s: string, width: nat): string {
    if |s| >= width then s else Zeros(width - |s|) + s
  }

  /** Drops leading zeros, all but a last digit. */
  function StripZeros(s: string): string {
    if |s| > 1 && s[0] == '0' then StripZeros(s[1..]) else s
  }

  lemma {:induction false} LeadingZeroIsNothing(s: string)
    requires AllDigits(s)
    ensures Value(['0'] + s) == Value(s)
  {
    if s != [] {
      LeadingZeroIsNothing(s[..|s| - 1]);
      assert (['0'] + s)[..|['0'] + s| - 1] == ['0'] + s[..|s| - 1];
    } else {
      assert ['0'][..0] == [];
    }
  }

  lemma {:induction false} PaddingIsNothing(n: nat, s: string)
    requires AllDigits(s)
    ensures Value(Zeros(n) + s) == Value(s)
  {
    if n == 0 {
      assert Zeros(0) + s == s;
    } else {
      PaddingIsNothing(n - 1, s);
      LeadingZeroIsNothing(Zeros(n - 1) + s);
      assert Zeros(n) + s == ['0'] + (Zeros(n - 1) + s);
    }
  }

  lemma PadStartKeepsValue(n: nat, width: nat)
    ensures AllDigits(PadStart(Digits(n), width)) && Value(PadStart(Digits(n), width)) == n
  {
    if |Digits(n)| < width {
      PaddingIsNothing(width - |Digits(n)|, Digits(n));
    }
  }

  /** A numeral whose first digit is not a zero has a value of at least one. */
  lemma {:induction false} LeadingDigitCounts(s: string)
    requires s != [] && AllDigits(s) && s[0] != '0'
    ensures Value(s) >= 1
  {
    if |s| > 1 {
      LeadingDigitCounts(s[..|s| - 1]);
    } else {
      assert s[..0] == [];
    }
  }

  /** Printing the value of a numeral gives the numeral back without its leading zeros. */
  lemma {:induction false} PrintedValue(s: string)
    requires s != [] && AllDigits(s)
    ensures Digits(Value(s)) == StripZeros(s)
  {
    if |s| == 1 {
      assert s[..0] == [];
    } else if s[0] == '0' {
      LeadingZeroIsNothing(s[1..]);
      assert s == ['0'] + s[1..];
      PrintedValue(s[1..]);
    } else {
      var front := s[..|s| - 1];
      PrintedValue(front);
      LeadingDigitCounts(front);
      assert StripZeros(front) == front;
      assert Value(s) / 10 == Value(front);
      assert s == front + [s[|s| - 1]];
    }
  }

  // -- Trimming --------------------------------------------------------------------

  /** The white space and line terminators that String.prototype.trim removes. */
  predicate IsSpace(c: char) {
    '\t' <= c <= '\r' || c == ' ' || c == '\U{00A0}' || c == '\U{1680}' || '\U{2000}' <= c <= '\U{200A}'
    || c == '\U{2028}' || c == '\U{2029}' || c == '\U{202F}' || c == '\U{205F}' || c == '\U{3000}' || c == '\U{FEFF}'
  }

  function TrimStart(s: string): string {
    if s != [] && IsSpace(s[0]) then TrimStart(s[1..]) else s
  }

  function TrimEnd(s: string): string {
    if s != [] && IsSpace(s[|s| - 1]) then TrimEnd(s[..|s| - 1]) else s
  }

  function Trim(s: string): string {
    TrimEnd(TrimStart(s))
  }

  lemma NothingToTrim(s: string)
    requires s != [] ==> !IsSpace(s[0]) && !IsSpace(s[|s| - 1])
    ensures Trim(s) == s
  {
  }
}
