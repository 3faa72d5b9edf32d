/** Phone numbers in E.164, the customer's identity: many written forms, one stored one. */
module Phone {
  import opened Outcomes
  import opened Decimals

  datatype PhoneError = Missing | Unusable | WrongLength

  datatype Plan = Plan(code: string, min: nat, max: nat)

  /** The numbering plans, longest calling code first, as the lookup tries them. */
  const PLANS: seq<Plan> := [
    Plan("971", 8, 9), Plan("966", 9, 9),
    Plan("92", 10, 10), Plan("91", 10, 10), Plan("44", 9, 10),
    Plan("1", 10, 10)]

  const DEFAULT_COUNTRY_CODE := "92"

  predicate StartsWith(s: string, prefix: string) {
    |s| >= |prefix| && s[..|prefix|] == prefix
  }

  /** Everything but the digits dropped. */
  function DigitsIn(s: string): (digits: string)
    ensures AllDigits(digits) && |digits| <= |s|
  {
    if s == [] then []
    else (if IsDigit(s[0]) then [s[0]] else []) + DigitsIn(s[1..])
  }

  function StripTrunk(digits: string): (rest: string)
    requires AllDigits(digits)
    ensures AllDigits(rest) && |rest| <= |digits|
    ensures rest != [] ==> rest[0] != '0'
  {
    if digits != [] && digits[0] == '0' then StripTrunk(digits[1..]) else digits
  }

  function FindPlan(digits: string): Option<Plan> {
    if StartsWith(digits, "971") then Some(PLANS[0])
    else if StartsWith(digits, "966") then Some(PLANS[1])
    else if StartsWith(digits, "92") then Some(PLANS[2])
    else if StartsWith(digits, "91") then Some(PLANS[3])
    else if StartsWith(digits, "44") then Some(PLANS[4])
    else if StartsWith(digits, "1") then Some(PLANS[5])
    else None
  }

  /** A listed country must have a national number of its length; an unlisted one, a plausible total. */
  function ToE164(digits: string): Result<string, PhoneError> {
    match FindPlan(digits)
    case Some(plan) =>
      var national := |digits| - |plan.code|;
      if plan.min <= national <= plan.max then Ok("+" + digits) else Err(WrongLength)
    case None => if 8 <= |digits| <= 15 then Ok("+" + digits) else Err(Unusable)
  }

  /** What is left of an input once separators are dropped: whether it led with a plus, and its digits. */
  function FromDigits(hadPlus: bool, digits: string): Result<string, PhoneError>
    requires AllDigits(digits)
  {
    if digits == [] then Err(Unusable)
    else if StartsWith(digits, "00") then ToE164(digits[2..])
    else if hadPlus then ToE164(digits)
    else if digits[0] == '0' then ToE164(DEFAULT_COUNTRY_CODE + StripTrunk(digits))
    else if StartsWith(digits, DEFAULT_COUNTRY_CODE) && |digits| == 12 then ToE164(digits)
    else ToE164(DEFAULT_COUNTRY_CODE + digits)
  }

  function NormalizePhone(input: string): Result<string, PhoneError> {
    var trimmed := Trim(input);
    if trimmed == [] then Err(Missing)
    else FromDigits(trimmed[0] == '+', DigitsIn(trimmed))
  }

  // -- What it gives ---------------------------------------------------------------

  lemma {:induction false} AllDigitsStay(s: string)
    requires AllDigits(s)
    ensures DigitsIn(s) == s
  {
    if s != [] {
      AllDigitsStay(s[1..]);
      assert s == [s[0]] + s[1..];
    }
  }

  lemma StoredDigits(digits: string)
    requires AllDigits(digits) && ToE164(digits).Ok?
    ensures ToE164(digits).value == "+" + digits && 8 <= |digits| <= 15
  {
  }

  /** A stored number is a plus and 8 to 15 digits (ITU-T E.164 allows at most 15). */
  lemma StoredForm(input: string)
    requires NormalizePhone(input).Ok?
    ensures var stored := NormalizePhone(input).value;
      && stored[..1] == "+" && AllDigits(stored[1..]) && 8 <= |stored[1..]| <= 15
      && ToE164(stored[1..]) == Ok(stored)
  {
    hide ToE164;
    forall digits: string | AllDigits(digits) && ToE164(digits).Ok?
      ensures ToE164(digits).value == "+" + digits && 8 <= |digits| <= 15
    {
      StoredDigits(digits);
    }
  }

  /** Reading a stored number goes straight to its digits. */
  lemma StoredReading(digits: string)
    requires AllDigits(digits) && digits != []
    ensures NormalizePhone("+" + digits) == FromDigits(true, digits)
  {
    hide ToE164, StripTrunk, FromDigits, DigitsIn;
    NothingToTrim("+" + digits);
    PlusIsNoDigit(digits);
    AllDigitsStay(digits);
  }

  lemma PlusIsNoDigit(digits: string)
    ensures DigitsIn("+" + digits) == DigitsIn(digits)
  {
    assert ("+" + digits)[1..] == digits;
  }

  predicate IsStored(stored: string, kept: string) {
    && stored == "+" + kept && stored[1..] == kept
    && AllDigits(kept) && 8 <= |kept| <= 15 && ToE164(kept) == Ok(stored)
  }

  lemma StoredIsKept(kept: string)
    requires AllDigits(kept) && ToE164(kept).Ok?
    ensures IsStored(ToE164(kept).value, kept)
  {
    StoredDigits(kept);
    assert ("+" + kept)[1..] == kept;
  }

  lemma DomesticIsStored(rest: string)
    requires AllDigits(rest) && ToE164(DEFAULT_COUNTRY_CODE + rest).Ok?
    ensures IsStored(ToE164(DEFAULT_COUNTRY_CODE + rest).value, DEFAULT_COUNTRY_CODE + rest)
    ensures !StartsWith(DEFAULT_COUNTRY_CODE + rest, "00")
  {
    hide ToE164;
    StoredIsKept(DEFAULT_COUNTRY_CODE + rest);
    assert (DEFAULT_COUNTRY_CODE + rest)[..2][0] == '9';
  }

  /** Which digits are kept: those after an international prefix, or ones that begin with no such prefix. */
  lemma KeptDigits(hadPlus: bool, digits: string)
    requires AllDigits(digits) && FromDigits(hadPlus, digits).Ok?
    ensures var stored := FromDigits(hadPlus, digits).value;
      && |stored| >= 1 && IsStored(stored, stored[1..])
      && (if StartsWith(digits, "00") then stored[1..] == digits[2..] else !StartsWith(stored[1..], "00"))
  {
    hide ToE164, StripTrunk, IsStored;
    if StartsWith(digits, "00") {
      StoredIsKept(digits[2..]);
      assert IsStored(FromDigits(hadPlus, digits).value, digits[2..]);
    } else if hadPlus || (digits[0] != '0' && StartsWith(digits, DEFAULT_COUNTRY_CODE) && |digits| == 12) {
      StoredIsKept(digits);
      assert IsStored(FromDigits(hadPlus, digits).value, digits);
    } else {
      var rest := if digits[0] == '0' then StripTrunk(digits) else digits;
      DomesticIsStored(rest);
      assert IsStored(FromDigits(hadPlus, digits).value, DEFAULT_COUNTRY_CODE + rest);
    }
    StoredTail(FromDigits(hadPlus, digits).value);
  }

  lemma StoredTail(stored: string)
    ensures forall kept :: IsStored(stored, kept) ==> |stored| >= 1 && stored[1..] == kept
  {
  }

  lemma FourZeros(digits: string)
    ensures StartsWith(digits, "0000") <==> StartsWith(digits, "00") && StartsWith(digits[2..], "00")
  {
    if |digits| >= 4 {
      assert digits[..4] == digits[..2] + digits[2..][..2];
    }
  }

  lemma ReadAgain(kept: string)
    requires AllDigits(kept) && 8 <= |kept| && ToE164(kept).Ok?
    ensures FromDigits(true, kept) == ToE164(kept) <==> !StartsWith(kept, "00")
  {
    hide ToE164, StripTrunk;
    StoredDigits(kept);
    if ToE164(kept[2..]).Ok? {
      StoredDigits(kept[2..]);
    }
  }

  /**
   * Normalising a stored number again changes nothing, except when the digits
   * of the original began with four zeros: the second pass then strips the two
   * that the first one left.
   */
  lemma NormalizeTwice(input: string)
    requires NormalizePhone(input).Ok?
    ensures NormalizePhone(NormalizePhone(input).value) == NormalizePhone(input)
      <==> !StartsWith(DigitsIn(Trim(input)), "0000")
  {
    hide ToE164, StripTrunk, FromDigits, StartsWith, DigitsIn, Trim;
    var digits := DigitsIn(Trim(input));
    KeptDigits(Trim(input)[0] == '+', digits);
    var kept := NormalizePhone(input).value[1..];
    assert IsStored(NormalizePhone(input).value, kept);
    StoredReading(kept);
    FourZeros(digits);
    ReadAgain(kept);
  }

  lemma {:induction false} DigitsInConcat(a: string, b: string)
    ensures DigitsIn(a + b) == DigitsIn(a) + DigitsIn(b)
  {
    if a == [] {
      assert a + b == b;
    } else {
      var first := if IsDigit(a[0]) then [a[0]] else [];
      hide IsDigit;
      assert (a + b)[1..] == a[1..] + b;
      DigitsInConcat(a[1..], b);
      assert first + (DigitsIn(a[1..]) + DigitsIn(b)) == (first + DigitsIn(a[1..])) + DigitsIn(b);
    }
  }

  /** So a separator written between two digits never matters. */
  lemma SeparatorsDoNotMatter(before: string, separator: string, after: string)
    requires before != [] && after != []
    requires IsDigit(before[|before| - 1]) && IsDigit(after[0]) && DigitsIn(separator) == []
    requires !IsSpace(before[0]) && !IsSpace(after[|after| - 1])
    ensures NormalizePhone(before + separator + after) == NormalizePhone(before + after)
  {
    NothingToTrim(before + separator + after);
    NothingToTrim(before + after);
    DigitsInConcat(before + separator, after);
    DigitsInConcat(before, separator);
    DigitsInConcat(before, after);
    assert DigitsIn(before) + [] == DigitsIn(before);
    assert (before + separator + after)[0] == before[0] == (before + after)[0];
  }

  lemma FullNumber(national: string)
    requires |national| == 10 && AllDigits(national)
    ensures ToE164("92" + national) == Ok("+92" + national)
  {
    var full := "92" + national;
    assert full[..2] == "92" && full[..3][..2] == "92" && full[0] == '9';
    assert "+" + full == "+92" + national;
  }

  lemma DomesticForms(national: string)
    requires |national| == 10 && AllDigits(national) && national[0] != '0'
    ensures FromDigits(false, national) == Ok("+92" + national)
    ensures FromDigits(false, "0" + national) == Ok("+92" + national)
  {
    hide ToE164;
    FullNumber(national);
    assert national[..2][0] == national[0];
    var trunk := "0" + national;
    assert trunk[1..] == national && trunk[..2][1] == national[0];
    assert StripTrunk(trunk) == StripTrunk(national) == national;
  }

  lemma InternationalForms(national: string)
    requires |national| == 10 && AllDigits(national)
    ensures FromDigits(false, "92" + national) == Ok("+92" + national)
    ensures FromDigits(true, "92" + national) == Ok("+92" + national)
    ensures FromDigits(false, "0092" + national) == Ok("+92" + national)
  {
    hide ToE164, StripTrunk;
    FullNumber(national);
    var full := "92" + national;
    assert full[..2] == "92" && full[..2][0] == '9' && full[0] == '9';
    var prefixed := "0092" + national;
    assert prefixed[..2] == "00" && prefixed[2..] == full;
  }

  /** The five ways a national number is written across the channels are one customer. */
  lemma FiveFormsOneNumber(national: string)
    requires |national| == 10 && AllDigits(national) && national[0] != '0'
    ensures NormalizePhone(national) == Ok("+92" + national)
    ensures NormalizePhone("0" + national) == Ok("+92" + national)
    ensures NormalizePhone("92" + national) == Ok("+92" + national)
    ensures NormalizePhone("+92" + national) == Ok("+92" + national)
    ensures NormalizePhone("0092" + national) == Ok("+92" + national)
  {
    hide ToE164, StripTrunk, FromDigits, StartsWith, DigitsIn, NormalizePhone;
    BareDigits(national);
    BareDigits("0" + national);
    BareDigits("92" + national);
    BareDigits("0092" + national);
    DomesticForms(national);
    InternationalForms(national);
    StoredReading("92" + national);
    assert "+" + ("92" + national) == "+92" + national;
  }

  /** The digits of a number, country code included: those of a listed country have its length, others are 8 to 15. */
  predicate RightLength(digits: string) {
    if StartsWith(digits, "971") then 11 <= |digits| <= 12
    else if StartsWith(digits, "966") || StartsWith(digits, "92") || StartsWith(digits, "91") then |digits| == 12
    else if StartsWith(digits, "44") then 11 <= |digits| <= 12
    else if StartsWith(digits, "1") then |digits| == 11
    else 8 <= |digits| <= 15
  }

  lemma RightLengthIff(digits: string)
    ensures ToE164(digits) == Ok("+" + digits) || ToE164(digits).Err?
    ensures ToE164(digits).Ok? <==> RightLength(digits)
  {
    hide StartsWith;
  }

  /** A number written with its country code, after a plus or two zeros, is accepted exactly when it has the right length, and kept as written. */
  lemma InternationalIff(digits: string)
    requires digits != [] && AllDigits(digits)
    ensures NormalizePhone("00" + digits) == Ok("+" + digits) <==> RightLength(digits)
    ensures !StartsWith(digits, "00") ==> (NormalizePhone("+" + digits) == Ok("+" + digits) <==> RightLength(digits))
  {
    hide ToE164, RightLength, StripTrunk, NormalizePhone;
    RightLengthIff(digits);
    StoredReading(digits);
    BareDigits("00" + digits);
    assert ("00" + digits)[2..] == digits && ("00" + digits)[..2] == "00";
  }

  /** One written without, with or without the trunk zero, exactly when it has ten digits. */
  lemma DomesticIff(national: string)
    requires national != [] && AllDigits(national) && national[0] != '0'
    ensures NormalizePhone("0" + national).Ok? <==> |national| == 10
    ensures NormalizePhone(national).Ok? <==>
      |national| == 10 || (|national| == 12 && StartsWith(national, "92"))
  {
    hide NormalizePhone;
    var trunk := "0" + national;
    assert trunk[1..] == national && trunk[..2][1] == national[0];
    assert StripTrunk(trunk) == StripTrunk(national) == national;
    BareDigits(national);
    BareDigits(trunk);
    assert |national| >= 2 ==> national[..2][0] == national[0];
    DomesticLength(national);
    RightLengthIff(national);
    assert |national| == 12 && StartsWith(national, "92") ==> RightLength(national) by { TwoCodes(national); }
    hide ToE164, RightLength, StripTrunk;
  }

  lemma DomesticLength(national: string)
    ensures ToE164("92" + national).Ok? <==> |national| == 10
  {
    TwoCodes("92" + national);
    RightLengthIff("92" + national);
  }

  /** The codes are told apart by their first two digits. */
  lemma TwoCodes(digits: string)
    ensures StartsWith(digits, "92") ==> !StartsWith(digits, "971") && !StartsWith(digits, "966") && !StartsWith(digits, "44")
    ensures StartsWith("92" + digits, "92")
  {
    if StartsWith(digits, "92") {
      assert digits[..2][0] == '9' && digits[..2][1] == '2';
      assert |digits| >= 3 ==> digits[..3][1] == '2';
    }
    assert ("92" + digits)[..2] == "92";
  }

  lemma BareDigits(digits: string)
    requires digits != [] && AllDigits(digits)
    ensures NormalizePhone(digits) == FromDigits(false, digits)
  {
    NothingToTrim(digits);
    AllDigitsStay(digits);
  }
}
