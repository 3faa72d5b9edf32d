/** Amounts as decimal strings: what a DECIMAL column or a payload holds, read and written without a float. */
module MoneyText {
  import opened Outcomes
  import opened Decimals
  import opened Money

  /** Where a character first occurs; the length when it does not. */
  function IndexOf(s: string, c: char): (i: nat)
    ensures i <= |s|
    ensures i < |s| ==> s[i] == c
    ensures forall j :: 0 <= j < i ==> s[j] != c
  {
    if s == [] then 0 else if s[0] == c then 0 else 1 + IndexOf(s[1..], c)
  }

  /** The parts of a matched string: sign, whole digits, and the decimals, of which there may be none. */
  datatype Parts = Parts(negative: bool, whole: string, decimals: string)

  predicate WellFormed(parts: Parts) {
    parts.whole != [] && AllDigits(parts.whole) && AllDigits(parts.decimals) && |parts.decimals| <= 2
  }

  /** The match of an optional sign, digits, and optionally a point with one or two more. */
  function Match(s: string): (r: Option<Parts>)
    ensures r.Some? ==> WellFormed(r.value)
  {
    var negative := s != [] && s[0] == '-';
    var body := if negative then s[1..] else s;
    var point := IndexOf(body, '.');
    var whole, rest := body[..point], body[point..];
    if whole == [] || !AllDigits(whole) then None
    else if rest == [] then Some(Parts(negative, whole, []))
    else if 1 <= |rest[1..]| <= 2 && AllDigits(rest[1..]) then Some(Parts(negative, whole, rest[1..]))
    else None
  }

  function PadEnd2(decimals: string): (s: string)
    requires |decimals| <= 2
    ensures |s| == 2
    ensures AllDigits(decimals) ==> AllDigits(s)
  {
    decimals + Zeros(2 - |decimals|)
  }

  function MinorOf(parts: Parts): int
    requires WellFormed(parts)
  {
    var minor := Value(parts.whole) * 100 + Value(PadEnd2(parts.decimals));
    if parts.negative then -minor else minor
  }

  function FromDecimalString(value: string, currency: string): Result<Money, MoneyError> {
    match Match(Trim(value))
    case None => Err(Malformed)
    case Some(parts) => FromMinor(MinorOf(parts), currency)
  }

  function ToDecimalString(a: Money): string {
    var absolute := Abs(a.minor);
    (if a.minor < 0 then "-" else "") + Digits(absolute / 100) + "." + PadStart(Digits(absolute % 100), 2)
  }

  /** The canonical two-place spelling of a matched string, made from its text alone. */
  function Canonical(parts: Parts): string
    requires WellFormed(parts)
  {
    var decimals := PadEnd2(parts.decimals);
    var zero := StripZeros(parts.whole) == "0" && decimals == "00";
    (if parts.negative && !zero then "-" else "") + StripZeros(parts.whole) + "." + decimals
  }

  /** A number as written: a minus or nothing, its digits, and a point before its decimals if it has any. */
  function Spelled(parts: Parts): string {
    (if parts.negative then "-" else "") + parts.whole + (if parts.decimals == [] then "" else "." + parts.decimals)
  }

  /** What is read are exactly the numbers so written, of at least one digit and at most two decimals. */
  lemma MatchIff(s: string, parts: Parts)
    ensures Match(s) == Some(parts) <==> WellFormed(parts) && s == Spelled(parts)
  {
    hide Match, Spelled;
    if WellFormed(parts) && s == Spelled(parts) {
      SpelledIsMatched(parts);
    }
    if Match(s) == Some(parts) {
      MatchedIsSpelled(s);
    }
  }

  lemma MatchedIsSpelled(s: string)
    requires Match(s).Some?
    ensures s == Spelled(Match(s).value)
  {
    hide AllDigits, IndexOf, WellFormed, Spelled;
    var parts := Match(s).value;
    var body := if parts.negative then s[1..] else s;
    var whole, rest := body[..IndexOf(body, '.')], body[IndexOf(body, '.')..];
    assert parts.whole == whole && parts.decimals == if rest == [] then [] else rest[1..];
    PointFirst(body);
    assert (if parts.negative then "-" else "") + body == s;
    SpelledIs(parts);
  }

  lemma PointFirst(body: string)
    ensures var rest := body[IndexOf(body, '.')..];
      body == body[..IndexOf(body, '.')] + (if rest == [] then "" else "." + rest[1..])
  {
  }

  lemma SpelledIs(parts: Parts)
    ensures Spelled(parts) == (if parts.negative then "-" else "") + (parts.whole + (if parts.decimals == [] then "" else "." + parts.decimals))
  {
  }

  lemma SpelledIsMatched(parts: Parts)
    requires WellFormed(parts)
    ensures Match(Spelled(parts)) == Some(parts)
  {
    var s := Spelled(parts);
    var tail := if parts.decimals == [] then "" else "." + parts.decimals;
    var body := parts.whole + tail;
    assert s[0] == (if parts.negative then '-' else parts.whole[0]);
    assert (if parts.negative then s[1..] else s) == body;
    assert tail != [] ==> body[|parts.whole|] == '.';
    assert IndexOf(body, '.') == |parts.whole|;
    assert body[..|parts.whole|] == parts.whole && body[|parts.whole|..] == tail;
    assert tail != [] ==> tail[1..] == parts.decimals;
  }

  /** What is read is the number written, in hundredths. */
  lemma ReadsAs(parts: Parts, currency: string)
    requires WellFormed(parts)
    ensures var hundredths := match |parts.decimals|
              case 0 => 0
              case 1 => 10 * Value(parts.decimals)
              case _ => Value(parts.decimals);
      FromDecimalString(Spelled(parts), currency)
      == FromMinor((if parts.negative then -1 else 1) * (100 * Value(parts.whole) + hundredths), currency)
  {
    hide Match;
    SpelledIsMatched(parts);
    var s := Spelled(parts);
    assert IsDigit(s[0]) || s[0] == '-';
    assert s[|s| - 1] == if parts.decimals == [] then parts.whole[|parts.whole| - 1] else parts.decimals[|parts.decimals| - 1];
    NothingToTrim(s);
    Padded(parts.decimals);
  }

  lemma Padded(decimals: string)
    requires AllDigits(decimals) && |decimals| <= 2
    ensures Value(PadEnd2(decimals)) == match |decimals|
      case 0 => 0
      case 1 => 10 * Value(decimals)
      case _ => Value(decimals)
  {
    if |decimals| == 2 {
      assert PadEnd2(decimals) == decimals;
    } else if |decimals| == 1 {
      assert PadEnd2(decimals) == decimals + ['0'];
      OneMoreDigit(decimals, '0');
    } else {
      assert PadEnd2(decimals) == [] + ['0'] + ['0'];
      OneMoreDigit([], '0');
      OneMoreDigit([] + ['0'], '0');
    }
  }

  lemma OneMoreDigit(s: string, c: char)
    requires AllDigits(s) && IsDigit(c)
    ensures AllDigits(s + [c]) && Value(s + [c]) == 10 * Value(s) + (c as int - '0' as int)
  {
    assert (s + [c])[..|s|] == s;
  }

  lemma PadOfTwo(n: nat)
    requires n < 100
    ensures |PadStart(Digits(n), 2)| == 2
  {
    if n >= 10 {
      assert |Digits(n / 10)| == 1;
    }
  }

  /** The decimals of a printed amount are read back as they are. */
  lemma MatchPrinted(negative: bool, whole: string, decimals: string)
    requires whole != [] && AllDigits(whole) && AllDigits(decimals) && |decimals| == 2
    ensures Match((if negative then "-" else "") + whole + "." + decimals) == Some(Parts(negative, whole, decimals))
  {
    var s := (if negative then "-" else "") + whole + "." + decimals;
    var body := whole + "." + decimals;
    assert s[0] == (if negative then '-' else whole[0]);
    assert (if negative then s[1..] else s) == body;
    assert body[|whole|] == '.';
    assert IndexOf(body, '.') == |whole|;
    assert body[..|whole|] == whole && body[|whole|..][1..] == decimals;
  }

  lemma PrintedNeedsNoTrim(a: Money)
    ensures Trim(ToDecimalString(a)) == ToDecimalString(a)
  {
    var s := ToDecimalString(a);
    PadOfTwo(Abs(a.minor) % 100);
    PadStartKeepsValue(Abs(a.minor) % 100, 2);
    var decimals := PadStart(Digits(Abs(a.minor) % 100), 2);
    assert s[|s| - 1] == decimals[1];
    assert IsDigit(s[0]) || s[0] == '-';
    NothingToTrim(s);
  }

  /** Reading a printed amount gives the same amount, for every amount there is. */
  lemma ParsePrinted(a: Money)
    requires Safe(a.minor)
    ensures FromDecimalString(ToDecimalString(a), a.currency) == Ok(a)
  {
    hide Match, Trim, Digits, PadStart, Value;
    var absolute := Abs(a.minor);
    PrintedNeedsNoTrim(a);
    PadOfTwo(absolute % 100);
    PadStartKeepsValue(absolute % 100, 2);
    var decimals := PadStart(Digits(absolute % 100), 2);
    MatchPrinted(a.minor < 0, Digits(absolute / 100), decimals);
    assert PadEnd2(decimals) == decimals;
    assert Value(Digits(absolute / 100)) * 100 + Value(decimals) == absolute;
  }

  /** A two-digit numeral is printed again with both digits. */
  lemma TwoDigits(s: string)
    requires |s| == 2 && AllDigits(s)
    ensures Value(s) < 100 && PadStart(Digits(Value(s)), 2) == s
    ensures Value(s) == 0 <==> s == "00"
  {
    assert s[..1] == [s[0]] && s[..1][..0] == [];
    PrintedValue(s);
    if s[0] == '0' {
      assert StripZeros(s) == StripZeros(s[1..]) == s[1..];
      assert Zeros(1) + s[1..] == s;
    }
  }

  /** Printing what was read gives the canonical spelling of the text that was read. */
  lemma PrintParsed(value: string, currency: string)
    requires FromDecimalString(value, currency).Ok?
    ensures ToDecimalString(FromDecimalString(value, currency).value) == Canonical(Match(Trim(value)).value)
  {
    hide Match, Trim, Digits, PadStart, Value, StripZeros;
    var parts := Match(Trim(value)).value;
    var decimals := PadEnd2(parts.decimals);
    TwoDigits(decimals);
    PrintedValue(parts.whole);
    var minor := MinorOf(parts);
    assert Abs(minor) / 100 == Value(parts.whole) && Abs(minor) % 100 == Value(decimals);
    ZeroNumeral(parts.whole);
  }

  lemma ZeroNumeral(s: string)
    requires s != [] && AllDigits(s)
    ensures Value(s) == 0 <==> StripZeros(s) == "0"
  {
    PrintedValue(s);
    assert Digits(0) == "0";
  }
}
