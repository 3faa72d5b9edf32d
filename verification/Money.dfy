/**
 * Exact currency values: an integer count of minor units. Every constructor
 * refuses a count outside the range JavaScript holds exactly, so arithmetic
 * that stays in it is exact and arithmetic that leaves it is an error.
 */
module Money {
  import opened Outcomes

  const MAX_SAFE_INTEGER := 9_007_199_254_740_991

  datatype Money = Money(minor: int, currency: string)

  datatype MoneyError = UnsafeAmount | CurrencyMismatch | Malformed | BadParts

  predicate Safe(minor: int) {
    -MAX_SAFE_INTEGER <= minor <= MAX_SAFE_INTEGER
  }

  function FromMinor(minor: int, currency: string): (r: Result<Money, MoneyError>)
    ensures r.Ok? <==> Safe(minor)
    ensures r.Ok? ==> r.value == Money(minor, currency)
  {
    if Safe(minor) then Ok(Money(minor, currency)) else Err(UnsafeAmount)
  }

  function Zero(currency: string): Money {
    Money(0, currency)
  }

  /** A zero goes with any currency. */
  predicate Compatible(a: Money, b: Money) {
    a.minor == 0 || b.minor == 0 || a.currency == b.currency
  }

  function PickCurrency(a: Money, b: Money): string {
    if a.minor != 0 then a.currency else b.currency
  }

  function Add(a: Money, b: Money): Result<Money, MoneyError> {
    if Compatible(a, b) then FromMinor(a.minor + b.minor, PickCurrency(a, b)) else Err(CurrencyMismatch)
  }

  function Subtract(a: Money, b: Money): Result<Money, MoneyError> {
    if Compatible(a, b) then FromMinor(a.minor - b.minor, PickCurrency(a, b)) else Err(CurrencyMismatch)
  }

  function Multiply(a: Money, quantity: int): Result<Money, MoneyError> {
    FromMinor(a.minor * quantity, a.currency)
  }

  function LessThan(a: Money, b: Money): Result<bool, MoneyError> {
    if Compatible(a, b) then Ok(a.minor < b.minor) else Err(CurrencyMismatch)
  }

  function SumFrom(start: Money, values: seq<Money>): Result<Money, MoneyError>
    decreases values
  {
    if values == [] then Ok(start)
    else
      var next :- Add(start, values[0]);
      SumFrom(next, values[1..])
  }

  function Sum(values: seq<Money>, currency: string): Result<Money, MoneyError> {
    SumFrom(Zero(currency), values)
  }

  function TotalMinor(values: seq<Money>): int {
    if values == [] then 0 else values[0].minor + TotalMinor(values[1..])
  }

  /** When the sum exists it is the sum: no amount is lost or invented on the way. */
  lemma {:induction false} SumIsExact(start: Money, values: seq<Money>)
    ensures SumFrom(start, values).Ok? ==> SumFrom(start, values).value.minor == start.minor + TotalMinor(values)
    decreases values
  {
    if values != [] && Add(start, values[0]).Ok? {
      SumIsExact(Add(start, values[0]).value, values[1..]);
    }
  }

  /** When two amounts can be added, taken from one another and compared, and in which currency the result is. */
  lemma ArithmeticIff(a: Money, b: Money)
    ensures var oneCurrency := a.minor == 0 || b.minor == 0 || a.currency == b.currency;
      && (Add(a, b).Ok? <==> oneCurrency && -9_007_199_254_740_991 <= a.minor + b.minor <= 9_007_199_254_740_991)
      && (Subtract(a, b).Ok? <==> oneCurrency && -9_007_199_254_740_991 <= a.minor - b.minor <= 9_007_199_254_740_991)
      && (LessThan(a, b).Ok? <==> oneCurrency)
    ensures Add(a, b).Ok? ==>
      Add(a, b).value.minor == a.minor + b.minor && Add(a, b).value.currency == if a.minor == 0 then b.currency else a.currency
    ensures Subtract(a, b).Ok? ==>
      Subtract(a, b).value.minor + b.minor == a.minor
      && Subtract(a, b).value.currency == if a.minor == 0 then b.currency else a.currency
    ensures LessThan(a, b).Ok? ==> (LessThan(a, b).value <==> a.minor < b.minor)
  {
  }

  predicate AllIn(values: seq<Money>, currency: string) {
    forall i :: 0 <= i < |values| ==> values[i].currency == currency
  }

  /** A sum of amounts in one currency is in it, and can fail only by being too large. */
  lemma {:induction false} SumIsInOneCurrency(start: Money, values: seq<Money>, currency: string)
    requires start.currency == currency && AllIn(values, currency)
    ensures match SumFrom(start, values)
      case Ok(sum) => sum.currency == currency
      case Err(error) => error == UnsafeAmount
    decreases values
  {
    if values != [] && Add(start, values[0]).Ok? {
      SumIsInOneCurrency(Add(start, values[0]).value, values[1..], currency);
    }
  }

  function ClampToZero(a: Money): Money {
    if a.minor < 0 then Zero(a.currency) else a
  }

  /** Half away from zero: 2.5 becomes 3 and -2.5 becomes -3. */
  function Round(value: real): int {
    if value < 0.0 then -((-value + 0.5).Floor) else (value + 0.5).Floor
  }

  lemma RoundIsNearest(value: real)
    ensures -0.5 <= Round(value) as real - value <= 0.5
    ensures value >= 0.0 ==> Round(value) >= 0
  {
  }

  /** The whole number nearest, and of two that are equally near the one further from zero. */
  lemma RoundIff(value: real, n: int)
    ensures Round(value) == n <==>
      var off := n as real - value;
      -0.5 < off < 0.5 || (off == 0.5 && value > 0.0) || (off == -0.5 && value < 0.0)
  {
  }

  lemma RoundIsMonotone(a: real, b: real)
    requires a <= b
    ensures Round(a) <= Round(b)
  {
  }

  /** So many percent of so many minor units, with the factor an exact number, rounded once. */
  function Scaled(minor: int, percent: real): int {
    Round(minor as real * (percent / 100.0))
  }

  function Percentage(a: Money, percent: real): Result<Money, MoneyError> {
    FromMinor(Scaled(a.minor, percent), a.currency)
  }

  lemma ScaledIsNearest(minor: int, percent: real)
    ensures -0.5 <= Scaled(minor, percent) as real - minor as real * (percent / 100.0) <= 0.5
    ensures minor >= 0 && percent >= 0.0 ==> Scaled(minor, percent) >= 0
  {
    var exact := minor as real * (percent / 100.0);
    RoundIsNearest(exact);
    if minor >= 0 && percent >= 0.0 {
      assert exact >= 0.0;
    }
  }

  lemma TimesIsMonotone(a: real, b: real, rate: real)
    requires a <= b && rate >= 0.0
    ensures a * rate <= b * rate
  {
    assert b * rate - a * rate == (b - a) * rate;
  }

  lemma ScaledIsMonotone(low: int, high: int, percent: real)
    requires low <= high && percent >= 0.0
    ensures Scaled(low, percent) <= Scaled(high, percent)
  {
    var rate := percent / 100.0;
    TimesIsMonotone(low as real, high as real, rate);
    RoundIsMonotone(low as real * rate, high as real * rate);
  }

  // -- Allocation ------------------------------------------------------------------

  function Abs(n: int): nat {
    if n < 0 then -n else n
  }

  function Sign(n: int): int {
    if n < 0 then -1 else 1
  }

  /** Division truncated toward zero. */
  function TruncDiv(a: int, b: int): int
    requires b > 0
  {
    Sign(a) * (Abs(a) / b)
  }

  function Remainder(a: int, b: int): int
    requires b > 0
  {
    a - TruncDiv(a, b) * b
  }

  lemma RemainderIsSmall(a: int, b: int)
    requires b > 0
    ensures Abs(Remainder(a, b)) < b && Remainder(a, b) * Sign(a) == Abs(a) % b
  {
    var q := Abs(a) / b;
    assert Abs(a) == q * b + Abs(a) % b;
    assert Sign(a) * q * b == Sign(a) * (q * b);
  }

  /** The i-th share: the truncated quotient, and one unit of the remainder for the earliest. */
  function Share(amount: int, parts: int, i: int): int
    requires parts > 0
  {
    TruncDiv(amount, parts) + (if i < Abs(Remainder(amount, parts)) then Sign(amount) else 0)
  }

  function SharesTo(amount: int, parts: int, n: nat): int
    requires parts > 0
  {
    if n == 0 then 0 else SharesTo(amount, parts, n - 1) + Share(amount, parts, n - 1)
  }

  /** Splits an amount, handing out the remainder one unit at a time to the earliest shares. */
  method Allocate(amount: Money, parts: int) returns (r: Result<seq<Money>, MoneyError>)
    requires Safe(amount.minor)
    ensures r == if parts <= 0 then Err(BadParts)
                 else Ok(seq(parts, i requires 0 <= i < parts => Money(Share(amount.minor, parts, i), amount.currency)))
  {
    if parts <= 0 { return Err(BadParts); }
    var base := TruncDiv(amount.minor, parts);
    var remainder := amount.minor - base * parts;
    RemainderIsSmall(amount.minor, parts);
    var step := if remainder < 0 then -1 else 1;
    var shares: seq<Money> := [];
    for i := 0 to parts
      invariant shares == seq(i, k requires 0 <= k < i => Money(Share(amount.minor, parts, k), amount.currency))
      invariant Abs(remainder) == if i < Abs(Remainder(amount.minor, parts)) then Abs(Remainder(amount.minor, parts)) - i else 0
      invariant remainder != 0 ==> step == Sign(amount.minor) == Sign(remainder)
    {
      var share := base;
      if remainder != 0 {
        share := share + step;
        remainder := remainder - step;
      }
      shares := shares + [Money(share, amount.currency)];
    }
    r := Ok(shares);
  }

  lemma {:induction false} SharesSoFar(amount: int, parts: int, n: nat)
    requires parts > 0
    ensures var extra := Abs(Remainder(amount, parts));
      SharesTo(amount, parts, n) == TruncDiv(amount, parts) * n + Sign(amount) * (if n < extra then n else extra)
  {
    if n > 0 {
      SharesSoFar(amount, parts, n - 1);
      assert TruncDiv(amount, parts) * n == TruncDiv(amount, parts) * (n - 1) + TruncDiv(amount, parts);
    }
  }

  lemma Signed(sign: int, q: nat, extra: nat)
    requires sign == 1 || sign == -1
    ensures sign * q + sign * extra == sign * (q + extra) && Abs(sign * (q + extra)) == q + extra
  {
  }

  lemma SignedRemainder(a: int, b: int)
    requires b > 0
    ensures Abs(Remainder(a, b)) == Abs(a) % b
  {
    RemainderIsSmall(a, b);
    hide Remainder;
    var r := Remainder(a, b);
    assert Sign(a) == 1 || Sign(a) == -1;
    assert r * Sign(a) == r || r * Sign(a) == -r;
  }

  /** A share is the sign times a magnitude: the quotient, or one more. */
  lemma ShareMagnitude(amount: int, parts: int, i: int)
    requires parts > 0
    ensures var magnitude := Abs(amount) / parts + (if i < Abs(amount) % parts then 1 else 0);
      Share(amount, parts, i) == Sign(amount) * magnitude && Abs(Share(amount, parts, i)) == magnitude
  {
    SignedRemainder(amount, parts);
    var sign, q, extra := Sign(amount), Abs(amount) / parts, if i < Abs(amount) % parts then 1 else 0;
    assert TruncDiv(amount, parts) == sign * q;
    Signed(sign, q, extra);
    hide Remainder, TruncDiv, Abs;
    assert Share(amount, parts, i) == sign * q + sign * extra;
  }

  lemma TimesAtLeastOne(q: nat, n: int)
    requires n >= 1
    ensures q * n >= q
  {
    assert q * (n - 1) >= 0;
  }

  lemma QuotientFits(amount: nat, parts: int)
    requires parts > 0
    ensures amount / parts + (if amount % parts > 0 then 1 else 0) <= amount
  {
    var q, rest := amount / parts, amount % parts;
    assert amount == q * parts + rest;
    TimesAtLeastOne(q, parts);
  }

  lemma SharesAddUp(amount: int, parts: int)
    requires parts > 0
    ensures SharesTo(amount, parts, parts) == amount
  {
    SharesSoFar(amount, parts, parts);
    RemainderIsSmall(amount, parts);
    assert Sign(amount) * Abs(Remainder(amount, parts)) == Remainder(amount, parts);
  }

  /**
   * The shares add up to the amount exactly, negative amounts included; no two
   * differ by more than one unit, the larger in magnitude come first, and none
   * exceeds the amount or has the other sign.
   */
  lemma AllocationIsFair(amount: int, parts: int)
    requires parts > 0
    ensures SharesTo(amount, parts, parts) == amount
    ensures forall i, j :: 0 <= i <= j < parts ==>
      Abs(Share(amount, parts, j)) <= Abs(Share(amount, parts, i)) <= Abs(Share(amount, parts, j)) + 1
    ensures forall i :: 0 <= i < parts ==>
      Sign(amount) * Share(amount, parts, i) >= 0 && Abs(Share(amount, parts, i)) <= Abs(amount)
  {
    hide Share;
    SharesAddUp(amount, parts);
    QuotientFits(Abs(amount), parts);
    forall i {
      ShareMagnitude(amount, parts, i);
    }
  }
}
