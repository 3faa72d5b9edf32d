/** An order's totals: discount, service charge, tax and delivery, with rates as exact numbers. */
module Pricing {
  import opened Outcomes
  import opened Money

  datatype PricedLine = PricedLine(unitPrice: Money, quantity: int)

  /** Percentages, as the settings schema admits them: between 0 and 100. */
  datatype PricingRules = PricingRules(taxPercent: real, serviceChargePercent: real, taxAppliesToDeliveryFee: bool)

  datatype OrderTotals = OrderTotals(
    subtotal: Money,
    discountAmount: Money,
    serviceCharge: Money,
    deliveryFee: Money,
    taxAmount: Money,
    total: Money)

  datatype PricingError = BadQuantity | NegativeDiscount | NegativeFee | BadMoney(error: MoneyError)

  type Priced<T> = Result<T, PricingError>

  function Lift<T>(r: Result<T, MoneyError>): Priced<T> {
    match r
    case Ok(value) => Ok(value)
    case Err(error) => Err(BadMoney(error))
  }

  function LineTotals(lines: seq<PricedLine>): Priced<seq<Money>> {
    if lines == [] then Ok([])
    else
      var first :- Lift(Multiply(lines[0].unitPrice, lines[0].quantity));
      var rest :- LineTotals(lines[1..]);
      Ok([first] + rest)
  }

  function ComputeOrderTotals(lines: seq<PricedLine>, rules: PricingRules, discount: Money, deliveryFee: Money, currency: string)
    : Priced<OrderTotals>
  {
    if exists i :: 0 <= i < |lines| && lines[i].quantity <= 0 then Err(BadQuantity)
    else
      var lineTotals :- LineTotals(lines);
      var subtotal :- Lift(Sum(lineTotals, currency));
      if discount.minor < 0 then Err(NegativeDiscount)
      else
        var exceeds :- Lift(LessThan(subtotal, discount));
        var discountAmount := if exceeds then subtotal else discount;
        var discounted :- Lift(Subtract(subtotal, discountAmount));
        if deliveryFee.minor < 0 then Err(NegativeFee)
        else
          var serviceCharge :- Lift(Percentage(discounted, rules.serviceChargePercent));
          var served :- Lift(Add(discounted, serviceCharge));
          var taxBase :- if rules.taxAppliesToDeliveryFee then Lift(Add(served, deliveryFee)) else Ok(served);
          var taxAmount :- Lift(Percentage(taxBase, rules.taxPercent));
          var taxed :- Lift(Add(served, taxAmount));
          var total :- Lift(Add(taxed, deliveryFee));
          Ok(OrderTotals(subtotal, discountAmount, serviceCharge, deliveryFee, taxAmount, total))
  }

  function SubtotalMinor(lines: seq<PricedLine>): int {
    if lines == [] then 0 else lines[0].unitPrice.minor * lines[0].quantity + SubtotalMinor(lines[1..])
  }

  lemma {:induction false} LineTotalsMinor(lines: seq<PricedLine>)
    ensures LineTotals(lines).Ok? ==> TotalMinor(LineTotals(lines).value) == SubtotalMinor(lines)
  {
    if lines != [] && LineTotals(lines).Ok? {
      LineTotalsMinor(lines[1..]);
      assert LineTotals(lines).value[1..] == LineTotals(lines[1..]).value;
    }
  }

  /** What is left to pay for the food: the subtotal less the discount, never below zero. */
  function DiscountedMinor(subtotal: int, discount: int): int {
    if subtotal < discount then 0 else subtotal - discount
  }

  function ServiceMinor(discounted: int, rules: PricingRules): int {
    Scaled(discounted, rules.serviceChargePercent)
  }

  function TaxBase(discounted: int, fee: int, rules: PricingRules): int {
    discounted + ServiceMinor(discounted, rules) + (if rules.taxAppliesToDeliveryFee then fee else 0)
  }

  function TaxMinor(discounted: int, fee: int, rules: PricingRules): int {
    Scaled(TaxBase(discounted, fee, rules), rules.taxPercent)
  }

  predicate SaneRules(rules: PricingRules) {
    0.0 <= rules.taxPercent && 0.0 <= rules.serviceChargePercent
  }

  /** The bill in plain integers, as a function of the discounted subtotal and the fee. */
  function TotalMinorOf(discounted: int, fee: int, rules: PricingRules): int {
    discounted + ServiceMinor(discounted, rules) + TaxMinor(discounted, fee, rules) + fee
  }

  /** Whenever there is a bill, each figure on it is the exact one, and they add up. */
  lemma TotalsAreExact(lines: seq<PricedLine>, rules: PricingRules, discount: Money, deliveryFee: Money, currency: string)
    requires ComputeOrderTotals(lines, rules, discount, deliveryFee, currency).Ok?
    ensures var t := ComputeOrderTotals(lines, rules, discount, deliveryFee, currency).value;
      var discounted := DiscountedMinor(SubtotalMinor(lines), discount.minor);
      && discount.minor >= 0 && deliveryFee.minor >= 0
      && t.subtotal.minor == SubtotalMinor(lines)
      && t.subtotal.minor - t.discountAmount.minor == discounted
      && t.serviceCharge.minor == ServiceMinor(discounted, rules)
      && t.taxAmount.minor == TaxMinor(discounted, deliveryFee.minor, rules)
      && t.deliveryFee == deliveryFee
      && t.total.minor == TotalMinorOf(discounted, deliveryFee.minor, rules)
      && t.total.minor == t.subtotal.minor - t.discountAmount.minor + t.serviceCharge.minor + t.taxAmount.minor + t.deliveryFee.minor
  {
    hide Scaled, SumFrom;
    LineTotalsMinor(lines);
    SumIsExact(Zero(currency), LineTotals(lines).value);
  }

  predicate InCurrency(lines: seq<PricedLine>, currency: string) {
    forall i :: 0 <= i < |lines| ==> lines[i].unitPrice.currency == currency
  }

  lemma {:induction false} LineTotalsInCurrency(lines: seq<PricedLine>, currency: string)
    requires InCurrency(lines, currency)
    ensures match LineTotals(lines)
      case Ok(totals) => AllIn(totals, currency)
      case Err(error) => error == BadMoney(UnsafeAmount)
  {
    if lines != [] {
      assert lines[0].unitPrice.currency == currency;
      assert InCurrency(lines[1..], currency);
      LineTotalsInCurrency(lines[1..], currency);
    }
  }

  /** Why there may be no bill: a line without a quantity, a negative discount or fee, or, in one currency, a figure too large to hold. */
  lemma RefusedFor(lines: seq<PricedLine>, rules: PricingRules, discount: Money, deliveryFee: Money, currency: string)
    requires InCurrency(lines, currency) && discount.currency == currency && deliveryFee.currency == currency
    ensures var bill := ComputeOrderTotals(lines, rules, discount, deliveryFee, currency);
      && (bill == Err(BadQuantity) <==> exists i :: 0 <= i < |lines| && lines[i].quantity <= 0)
      && (bill == Err(NegativeDiscount) ==> discount.minor < 0)
      && (bill == Err(NegativeFee) ==> deliveryFee.minor < 0)
      && (bill.Err? && bill.error.BadMoney? ==> bill.error == BadMoney(UnsafeAmount))
  {
    hide LineTotals, SumFrom, Scaled;
    LineTotalsInCurrency(lines, currency);
    if LineTotals(lines).Ok? {
      SumIsInOneCurrency(Zero(currency), LineTotals(lines).value, currency);
    }
  }

  /** The figure the free-delivery threshold is measured against is the one the bill is built on. */
  lemma ThresholdSeesTheBilledFigure(subtotal: Money, discount: Money)
    requires discount.minor >= 0 && Subtract(subtotal, discount).Ok?
    ensures ClampToZero(Subtract(subtotal, discount).value).minor == DiscountedMinor(subtotal.minor, discount.minor)
  {
  }

  /** Nobody is ever owed money: not by a large discount, nor by lines that modifiers made negative. */
  lemma TotalNeverNegative(lines: seq<PricedLine>, rules: PricingRules, discount: Money, deliveryFee: Money, currency: string)
    requires SaneRules(rules) && ComputeOrderTotals(lines, rules, discount, deliveryFee, currency).Ok?
    ensures var t := ComputeOrderTotals(lines, rules, discount, deliveryFee, currency).value;
      && t.total.minor >= t.deliveryFee.minor >= 0
      && t.serviceCharge.minor >= 0 && t.taxAmount.minor >= 0 && t.subtotal.minor >= t.discountAmount.minor
  {
    hide ComputeOrderTotals, Scaled;
    TotalsAreExact(lines, rules, discount, deliveryFee, currency);
    var discounted := DiscountedMinor(SubtotalMinor(lines), discount.minor);
    ScaledIsNearest(discounted, rules.serviceChargePercent);
    ScaledIsNearest(TaxBase(discounted, deliveryFee.minor, rules), rules.taxPercent);
  }

  /** The bill before any rounding. */
  function ExactTotal(discounted: int, fee: int, rules: PricingRules): real {
    var served := discounted as real * (1.0 + rules.serviceChargePercent / 100.0);
    var base := served + (if rules.taxAppliesToDeliveryFee then fee as real else 0.0);
    served + base * (rules.taxPercent / 100.0) + fee as real
  }

  /**
   * However many lines there are, the bill is within 1 + taxPercent/200 minor
   * units of the unrounded one: half a unit for the service charge, taxed, and
   * half a unit for the tax.
   */
  lemma RoundingIsBounded(lines: seq<PricedLine>, rules: PricingRules, discount: Money, deliveryFee: Money, currency: string)
    requires SaneRules(rules) && ComputeOrderTotals(lines, rules, discount, deliveryFee, currency).Ok?
    ensures var t := ComputeOrderTotals(lines, rules, discount, deliveryFee, currency).value;
      var exact := ExactTotal(DiscountedMinor(SubtotalMinor(lines), discount.minor), deliveryFee.minor, rules);
      var bound := 1.0 + rules.taxPercent / 200.0;
      -bound <= t.total.minor as real - exact <= bound
  {
    hide ComputeOrderTotals, Scaled;
    TotalsAreExact(lines, rules, discount, deliveryFee, currency);
    RoundingError(DiscountedMinor(SubtotalMinor(lines), discount.minor), deliveryFee.minor, rules);
  }

  lemma RoundingError(discounted: int, fee: int, rules: PricingRules)
    requires SaneRules(rules)
    ensures var bound := 1.0 + rules.taxPercent / 200.0;
      -bound <= TotalMinorOf(discounted, fee, rules) as real - ExactTotal(discounted, fee, rules) <= bound
  {
    hide Scaled;
    var rate := rules.taxPercent / 100.0;
    var exactService := discounted as real * (rules.serviceChargePercent / 100.0);
    ScaledIsNearest(discounted, rules.serviceChargePercent);
    ScaledIsNearest(TaxBase(discounted, fee, rules), rules.taxPercent);
    var slip := ServiceMinor(discounted, rules) as real - exactService;
    var exactBase := discounted as real * (1.0 + rules.serviceChargePercent / 100.0)
      + (if rules.taxAppliesToDeliveryFee then fee as real else 0.0);
    TimesDistributes(TaxBase(discounted, fee, rules) as real, exactBase, slip, rate);
    SlipScaled(slip, rate);
    var tax := TaxMinor(discounted, fee, rules) as real;
    assert -0.5 <= tax - (exactBase * rate + slip * rate) <= 0.5;
    assert TotalMinorOf(discounted, fee, rules) as real - ExactTotal(discounted, fee, rules)
        == slip + (tax - exactBase * rate);
    ErrorsAdd(slip, slip * rate, tax, exactBase * rate, rules.taxPercent / 200.0);
  }

  lemma TimesDistributes(whole: real, a: real, b: real, rate: real)
    requires whole == a + b
    ensures whole * rate == a * rate + b * rate
  {
  }

  lemma ErrorsAdd(slip: real, taxedSlip: real, tax: real, exactTax: real, half: real)
    requires -0.5 <= slip <= 0.5 && -half <= taxedSlip <= half
    requires -0.5 <= tax - (exactTax + taxedSlip) <= 0.5
    ensures -(1.0 + half) <= slip + (tax - exactTax) <= 1.0 + half
  {
  }

  lemma SlipScaled(slip: real, rate: real)
    requires -0.5 <= slip <= 0.5 && rate >= 0.0
    ensures -(rate / 2.0) <= slip * rate <= rate / 2.0
  {
    assert (slip + 0.5) * rate >= 0.0;
    assert (0.5 - slip) * rate >= 0.0;
  }

  /** At a fixed delivery fee, asking for a larger discount never raises the bill. */
  lemma LargerDiscountNeverCosts(lines: seq<PricedLine>, rules: PricingRules, smaller: Money, larger: Money, deliveryFee: Money, currency: string)
    requires SaneRules(rules) && smaller.minor <= larger.minor
    requires ComputeOrderTotals(lines, rules, smaller, deliveryFee, currency).Ok?
    requires ComputeOrderTotals(lines, rules, larger, deliveryFee, currency).Ok?
    ensures ComputeOrderTotals(lines, rules, larger, deliveryFee, currency).value.total.minor
         <= ComputeOrderTotals(lines, rules, smaller, deliveryFee, currency).value.total.minor
  {
    hide ComputeOrderTotals, Scaled;
    TotalsAreExact(lines, rules, smaller, deliveryFee, currency);
    TotalsAreExact(lines, rules, larger, deliveryFee, currency);
    var less := DiscountedMinor(SubtotalMinor(lines), larger.minor);
    var more := DiscountedMinor(SubtotalMinor(lines), smaller.minor);
    assert less <= more;
    ScaledIsMonotone(less, more, rules.serviceChargePercent);
    ScaledIsMonotone(TaxBase(less, deliveryFee.minor, rules), TaxBase(more, deliveryFee.minor, rules), rules.taxPercent);
  }
}
