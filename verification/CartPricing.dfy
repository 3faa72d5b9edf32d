/**
 * Turning a cart into money: every line checked against the menu as it is now,
 * then priced, in the strict mode of checkout or the forgiving one of a preview.
 * Prices are DECIMAL columns and so counts of minor units.
 */
module CartPricing {
  import opened Outcomes
  import opened Money
  import opened Pricing
  import opened OrderStates

  // -- The menu ------------------------------------------------------------------

  datatype Availability = AVAILABLE | OUT_OF_STOCK | HIDDEN

  datatype Override = Override(price: Option<int>, availability: Option<Availability>)

  datatype ModifierOption = ModifierOption(id: nat, priceDelta: int, isAvailable: bool)

  datatype Group = Group(
    id: nat, isActive: bool, single: bool, required: bool,
    minSelections: int, maxSelections: int, options: seq<ModifierOption>)

  datatype Variant = Variant(id: nat, price: int)

  datatype MenuItem = MenuItem(
    basePrice: int, currency: string, availability: Availability, isActive: bool,
    variants: seq<Variant>, groups: seq<Group>, branchOverride: Option<Override>)

  function Restrictiveness(a: Availability): nat {
    match a
    case AVAILABLE => 0
    case OUT_OF_STOCK => 1
    case HIDDEN => 2
  }

  /** The more restrictive of the two wins. */
  function ResolveAvailability(item: MenuItem): Availability {
    match item.branchOverride
    case Some(Override(_, Some(branch))) =>
      if Restrictiveness(branch) > Restrictiveness(item.availability) then branch else item.availability
    case _ => item.availability
  }

  predicate IsOrderable(item: MenuItem) {
    item.isActive && ResolveAvailability(item) == AVAILABLE
  }

  function FindVariant(variants: seq<Variant>, id: nat): Option<Variant> {
    if variants == [] then None
    else if variants[0].id == id then Some(variants[0])
    else FindVariant(variants[1..], id)
  }

  function FindOption(options: seq<ModifierOption>, id: nat): (r: Option<ModifierOption>)
    ensures r.Some? ==> r.value in options && r.value.id == id
  {
    if options == [] then None
    else if options[0].id == id then Some(options[0])
    else FindOption(options[1..], id)
  }

  /** A variant replaces the price; otherwise the branch price, otherwise the base price. */
  function ResolveUnitPrice(item: MenuItem, variant: Option<Variant>): Result<Money, MoneyError> {
    var minor :=
      if variant.Some? then variant.value.price
      else match item.branchOverride
        case Some(Override(Some(price), _)) => price
        case _ => item.basePrice;
    var price :- FromMinor(minor, item.currency);
    Ok(ClampToZero(price))
  }

  // -- One group's choices ---------------------------------------------------------

  datatype SelectionProblem = Repeated | UnknownOption | UnavailableOption | OnlyOne | AtLeast(n: int) | AtMost(n: int)

  predicate Distinct(ids: seq<nat>) {
    forall i, j :: 0 <= i < j < |ids| ==> ids[i] != ids[j]
  }

  /** The first choice that is not an available option of the group. */
  function FirstBadOption(options: seq<ModifierOption>, ids: seq<nat>): Option<SelectionProblem> {
    if ids == [] then None
    else match FindOption(options, ids[0])
      case None => Some(UnknownOption)
      case Some(option) => if option.isAvailable then FirstBadOption(options, ids[1..]) else Some(UnavailableOption)
  }

  /** `required` sets a floor of one even when the minimum was left at zero. */
  function Minimum(group: Group): int {
    if group.required && group.minSelections < 1 then 1 else group.minSelections
  }

  function ValidateSelection(group: Group, ids: seq<nat>): Option<SelectionProblem> {
    if !Distinct(ids) then Some(Repeated)
    else
      var bad := FirstBadOption(group.options, ids);
      if bad.Some? then bad
      else if group.single && |ids| > 1 then Some(OnlyOne)
      else if |ids| < Minimum(group) then Some(AtLeast(Minimum(group)))
      else if group.maxSelections > 0 && |ids| > group.maxSelections then Some(AtMost(group.maxSelections))
      else None
  }

  lemma {:induction false} BadOptionIff(options: seq<ModifierOption>, ids: seq<nat>)
    ensures FirstBadOption(options, ids).None? <==>
      forall i :: 0 <= i < |ids| ==> FindOption(options, ids[i]).Some? && FindOption(options, ids[i]).value.isAvailable
  {
    if ids != [] {
      BadOptionIff(options, ids[1..]);
      assert ids == [ids[0]] + ids[1..];
    }
  }

  /** The group has an option with this id, and the first that has it is on offer. */
  predicate OnOffer(options: seq<ModifierOption>, id: nat) {
    exists k :: 0 <= k < |options| && options[k].id == id && options[k].isAvailable && forall j :: 0 <= j < k ==> options[j].id != id
  }

  lemma {:induction false} OnOfferIff(options: seq<ModifierOption>, id: nat)
    ensures OnOffer(options, id) <==> FindOption(options, id).Some? && FindOption(options, id).value.isAvailable
  {
    if options != [] {
      var rest := options[1..];
      OnOfferIff(rest, id);
      if options[0].id != id {
        if k :| 0 <= k < |options| && options[k].id == id && options[k].isAvailable && forall j :: 0 <= j < k ==> options[j].id != id {
          assert rest[k - 1] == options[k] && forall j :: 0 <= j < k - 1 ==> rest[j] == options[j + 1];
        }
        if k :| 0 <= k < |rest| && rest[k].id == id && rest[k].isAvailable && forall j :: 0 <= j < k ==> rest[j].id != id {
          assert options[k + 1] == rest[k] && forall j :: 0 < j < k + 1 ==> options[j] == rest[j - 1];
        }
      }
    }
  }

  /**
   * What a valid selection is: different options of the group that are on offer, at
   * most one where only one may be had, no fewer than the group's minimum, at least
   * one if it is required, and no more than its maximum when it has one.
   */
  lemma ValidSelectionIff(group: Group, ids: seq<nat>)
    ensures ValidateSelection(group, ids).None? <==>
      && (forall i, j :: 0 <= i < j < |ids| ==> ids[i] != ids[j])
      && (forall i :: 0 <= i < |ids| ==> OnOffer(group.options, ids[i]))
      && (group.single ==> |ids| <= 1)
      && group.minSelections <= |ids|
      && (group.required ==> |ids| >= 1)
      && (group.maxSelections > 0 ==> |ids| <= group.maxSelections)
  {
    BadOptionIff(group.options, ids);
    forall i | 0 <= i < |ids|
      ensures OnOffer(group.options, ids[i]) <==>
        FindOption(group.options, ids[i]).Some? && FindOption(group.options, ids[i]).value.isAvailable
    {
      OnOfferIff(group.options, ids[i]);
    }
    hide OnOffer, FindOption;
  }

  // -- One cart line ----------------------------------------------------------------

  datatype Choice = Choice(modifier: nat, option: nat)

  datatype CartItem = CartItem(id: nat, menuItem: nat, variant: Option<nat>, quantity: int, modifiers: seq<Choice>)

  datatype SelectedOption = SelectedOption(modifier: nat, option: nat, priceDelta: Money)

  datatype CartLine = CartLine(
    cartItem: nat, menuItem: nat, variant: Option<nat>, quantity: int,
    unitPrice: Money, modifiersTotal: Money, lineTotal: Money, modifiers: seq<SelectedOption>)

  datatype Blocker =
    | NoLongerOnMenu
    | NotAvailable(item: nat)
    | SizeGone(item: nat)
    | BadChoice(group: nat, problem: SelectionProblem)
    | CartIsEmpty
    | BelowMinimum(minimum: Money)
    | OutsideDeliveryArea

  /** A problem of one line, as opposed to one of the cart as a whole. */
  predicate IsLineProblem(blocker: Blocker) {
    blocker.NoLongerOnMenu? || blocker.NotAvailable? || blocker.SizeGone? || blocker.BadChoice?
  }

  datatype Selection = Selected(options: seq<SelectedOption>) | Refused(group: nat, problem: SelectionProblem)

  function OptionsChosen(modifiers: seq<Choice>, group: nat): seq<nat> {
    if modifiers == [] then []
    else (if modifiers[0].modifier == group then [modifiers[0].option] else []) + OptionsChosen(modifiers[1..], group)
  }

  function PriceOptions(group: Group, ids: seq<nat>, currency: string): Result<seq<SelectedOption>, MoneyError>
    requires forall i :: 0 <= i < |ids| ==> FindOption(group.options, ids[i]).Some?
  {
    if ids == [] then Ok([])
    else
      var option := FindOption(group.options, ids[0]).value;
      var delta :- FromMinor(option.priceDelta, currency);
      var rest :- PriceOptions(group, ids[1..], currency);
      Ok([SelectedOption(group.id, option.id, delta)] + rest)
  }

  /** Each attached group that is active is checked in turn; the first that is not satisfied ends the search. */
  function SelectOptions(groups: seq<Group>, modifiers: seq<Choice>, currency: string): Result<Selection, MoneyError> {
    if groups == [] then Ok(Selected([]))
    else if !groups[0].isActive then SelectOptions(groups[1..], modifiers, currency)
    else
      var ids := OptionsChosen(modifiers, groups[0].id);
      var problem := ValidateSelection(groups[0], ids);
      if problem.Some? then Ok(Refused(groups[0].id, problem.value))
      else
        BadOptionIff(groups[0].options, ids);
        var first :- PriceOptions(groups[0], ids, currency);
        var rest :- SelectOptions(groups[1..], modifiers, currency);
        Ok(if rest.Refused? then rest else Selected(first + rest.options))
  }

  function Deltas(options: seq<SelectedOption>): (r: seq<Money>)
    ensures |r| == |options|
  {
    seq(|options|, i requires 0 <= i < |options| => options[i].priceDelta)
  }

  datatype LineOutcome = Line(line: CartLine) | Problem(blocker: Blocker)

  function PriceLine(item: CartItem, menu: map<nat, MenuItem>, currency: string): Priced<LineOutcome> {
    if item.menuItem !in menu then Ok(Problem(NoLongerOnMenu))
    else
      var menuItem := menu[item.menuItem];
      if !IsOrderable(menuItem) then Ok(Problem(NotAvailable(item.menuItem)))
      else
        var variant := if item.variant.Some? then FindVariant(menuItem.variants, item.variant.value) else None;
        if item.variant.Some? && variant.None? then Ok(Problem(SizeGone(item.menuItem)))
        else
          var selection :- Lift(SelectOptions(menuItem.groups, item.modifiers, currency));
          if selection.Refused? then Ok(Problem(BadChoice(selection.group, selection.problem)))
          else
            var unitPrice :- Lift(ResolveUnitPrice(menuItem, variant));
            var modifiersTotal :- Lift(Sum(Deltas(selection.options), currency));
            var each :- Lift(Add(unitPrice, modifiersTotal));
            var lineTotal :- Lift(Multiply(each, item.quantity));
            Ok(Line(CartLine(item.id, item.menuItem, if variant.Some? then Some(variant.value.id) else None, item.quantity,
                             unitPrice, modifiersTotal, lineTotal, selection.options)))
  }

  // -- The whole cart ----------------------------------------------------------------

  datatype CartError = LineProblem(blocker: Blocker) | Failed(error: PricingError)

  datatype Lines = Lines(lines: seq<CartLine>, blockers: seq<Blocker>)

  function LiftCart<T>(r: Priced<T>): Result<T, CartError> {
    match r
    case Ok(value) => Ok(value)
    case Err(error) => Err(Failed(error))
  }

  /** Line by line: a problem ends strict pricing, and is noted and passed over by a preview. */
  function PriceLines(items: seq<CartItem>, menu: map<nat, MenuItem>, currency: string, strict: bool): Result<Lines, CartError> {
    if items == [] then Ok(Lines([], []))
    else
      var first :- LiftCart(PriceLine(items[0], menu, currency));
      if first.Problem? && strict then Err(LineProblem(first.blocker))
      else
        var rest :- PriceLines(items[1..], menu, currency, strict);
        match first
        case Line(line) => Ok(Lines([line] + rest.lines, rest.blockers))
        case Problem(blocker) => Ok(Lines(rest.lines, [blocker] + rest.blockers))
  }

  /** `distance` is the great-circle distance from the zone's centre to the delivery point. */
  datatype Zone = Zone(hasRadius: bool, radius: int, distance: int, deliveryFee: Money, minimumOrder: Option<Money>)

  datatype Settings = Settings(rules: PricingRules, defaultDeliveryFee: Money, minimumOrder: Money, freeDeliveryAbove: Option<Money>)

  /** `zones` are the branch's active zones in sort order, or nothing when there is no delivery point. */
  datatype PriceRequest = PriceRequest(
    items: seq<CartItem>, menu: map<nat, MenuItem>, currency: string, settings: Settings,
    orderType: OrderType, zones: Option<seq<Zone>>, discount: Money)

  datatype PricedCart = PricedCart(lines: seq<CartLine>, totals: OrderTotals, zone: Option<Zone>, blockers: seq<Blocker>)

  /** The first zone that covers the point. */
  function FindZone(zones: seq<Zone>): Option<Zone> {
    if zones == [] then None
    else if zones[0].hasRadius && zones[0].distance <= zones[0].radius then Some(zones[0])
    else FindZone(zones[1..])
  }

  function ZoneFor(request: PriceRequest): Option<Zone> {
    if request.orderType == Delivery && request.zones.Some? then FindZone(request.zones.value) else None
  }

  function ResolveDeliveryFee(request: PriceRequest, zone: Option<Zone>, discountedSubtotal: Money): Result<Money, MoneyError> {
    var settings := request.settings;
    if request.orderType != Delivery then Ok(Zero(settings.defaultDeliveryFee.currency))
    else
      var below :-
        match settings.freeDeliveryAbove
        case None => Ok(true)
        case Some(threshold) => LessThan(discountedSubtotal, threshold);
      if !below then Ok(Zero(settings.defaultDeliveryFee.currency))
      else Ok(if zone.Some? then zone.value.deliveryFee else settings.defaultDeliveryFee)
  }

  function LineTotalsOf(lines: seq<CartLine>): (r: seq<Money>)
    ensures |r| == |lines|
  {
    seq(|lines|, i requires 0 <= i < |lines| => lines[i].lineTotal)
  }

  function PricedLines(lines: seq<CartLine>): Priced<seq<PricedLine>> {
    if lines == [] then Ok([])
    else
      var each :- Lift(Add(lines[0].unitPrice, lines[0].modifiersTotal));
      var rest :- PricedLines(lines[1..]);
      Ok([PricedLine(each, lines[0].quantity)] + rest)
  }

  function CartBlockers(request: PriceRequest, lines: seq<CartLine>, zone: Option<Zone>, totals: OrderTotals): Priced<seq<Blocker>> {
    var minimum := if zone.Some? && zone.value.minimumOrder.Some? then zone.value.minimumOrder.value else request.settings.minimumOrder;
    var below :- if request.orderType == Delivery && minimum.minor > 0 then Lift(LessThan(totals.subtotal, minimum)) else Ok(false);
    Ok((if lines == [] then [CartIsEmpty] else [])
       + (if below then [BelowMinimum(minimum)] else [])
       + (if request.orderType == Delivery && zone.None? && request.zones.Some? then [OutsideDeliveryArea] else []))
  }

  /** The discounted subtotal as the free-delivery threshold sees it. */
  function Threshold(request: PriceRequest, lines: seq<CartLine>): Priced<Money> {
    var sum :- Lift(Sum(LineTotalsOf(lines), request.currency));
    var less :- Lift(Subtract(sum, request.discount));
    Ok(ClampToZero(less))
  }

  /** What is decided once the lines are known; the mode plays no part in it. */
  function Finish(request: PriceRequest, priced: Lines): Priced<PricedCart> {
    var discountedSubtotal :- Threshold(request, priced.lines);
    var zone := ZoneFor(request);
    var fee :- Lift(ResolveDeliveryFee(request, zone, discountedSubtotal));
    var lines :- PricedLines(priced.lines);
    var totals :- ComputeOrderTotals(lines, request.settings.rules, request.discount, fee, request.currency);
    var blockers :- CartBlockers(request, priced.lines, zone, totals);
    Ok(PricedCart(priced.lines, totals, zone, priced.blockers + blockers))
  }

  function PriceCart(request: PriceRequest, strict: bool): Result<PricedCart, CartError> {
    var lines :- PriceLines(request.items, request.menu, request.currency, strict);
    LiftCart(Finish(request, lines))
  }

  // -- Strict and preview agree --------------------------------------------------------

  predicate NoLineProblem(blockers: seq<Blocker>) {
    forall b :: b in blockers ==> !IsLineProblem(b)
  }

  lemma {:induction false} PreviewNotesLineProblems(items: seq<CartItem>, menu: map<nat, MenuItem>, currency: string)
    ensures var preview := PriceLines(items, menu, currency, false);
      && (preview.Err? ==> preview.error.Failed?)
      && (preview.Ok? ==> forall b :: b in preview.value.blockers ==> IsLineProblem(b))
  {
    hide PriceLine;
    if items != [] {
      PreviewNotesLineProblems(items[1..], menu, currency);
      ProblemsAreLineProblems(items[0], menu, currency);
    }
  }

  lemma ProblemsAreLineProblems(item: CartItem, menu: map<nat, MenuItem>, currency: string)
    ensures var r := PriceLine(item, menu, currency); r.Ok? && r.value.Problem? ==> IsLineProblem(r.value.blocker)
  {
    hide SelectOptions;
  }

  /** Strict line pricing is preview line pricing, up to the first problem. */
  lemma {:induction false} StrictLines(items: seq<CartItem>, menu: map<nat, MenuItem>, currency: string)
    ensures var strict, preview := PriceLines(items, menu, currency, true), PriceLines(items, menu, currency, false);
      && (strict.Ok? <==> preview.Ok? && preview.value.blockers == [])
      && (strict.Ok? ==> strict == preview)
      && (preview.Ok? && preview.value.blockers != [] ==> strict == Err(LineProblem(preview.value.blockers[0])))
      && (strict.Err? && strict.error.Failed? ==> preview == strict)
  {
    hide PriceLine;
    if items != [] {
      StrictLines(items[1..], menu, currency);
    }
  }

  /**
   * Checkout prices a cart exactly when the preview of it shows no problem with
   * a line, and then the two are the same cart: lines, totals and blockers. A
   * line problem that checkout refuses is the first one the preview shows, and
   * any other failure befalls both.
   */
  lemma StrictAgreesWithPreview(request: PriceRequest)
    ensures var strict, preview := PriceCart(request, true), PriceCart(request, false);
      && (strict.Ok? <==> preview.Ok? && NoLineProblem(preview.value.blockers))
      && (strict.Ok? ==> strict == preview)
      && (preview.Ok? && strict.Err? ==>
            && preview.value.blockers != []
            && IsLineProblem(preview.value.blockers[0])
            && strict.error == LineProblem(preview.value.blockers[0]))
      && (strict.Err? && strict.error.Failed? ==> preview == strict)
  {
    hide PriceLines, ComputeOrderTotals, PricedLines, Threshold, ResolveDeliveryFee;
    StrictLines(request.items, request.menu, request.currency);
    PreviewNotesLineProblems(request.items, request.menu, request.currency);
    var preview := PriceLines(request.items, request.menu, request.currency, false);
    if preview.Ok? && Finish(request, preview.value).Ok? {
      var cart := Finish(request, preview.value).value;
      if preview.value.blockers == [] {
        assert NoLineProblem(cart.blockers);
      } else {
        assert cart.blockers[0] == preview.value.blockers[0];
        assert cart.blockers[0] in preview.value.blockers && cart.blockers[0] in cart.blockers;
      }
    }
  }

  // -- The two subtotals -----------------------------------------------------------------

  /** A line's total is what one unit costs, modifiers included, times the quantity. */
  predicate Consistent(line: CartLine) {
    line.lineTotal.minor == (line.unitPrice.minor + line.modifiersTotal.minor) * line.quantity
  }

  lemma {:induction false} LinesAreConsistent(items: seq<CartItem>, menu: map<nat, MenuItem>, currency: string, strict: bool)
    requires PriceLines(items, menu, currency, strict).Ok?
    ensures forall line :: line in PriceLines(items, menu, currency, strict).value.lines ==> Consistent(line)
  {
    hide PriceLine;
    if items != [] {
      LinesAreConsistent(items[1..], menu, currency, strict);
      LineIsConsistent(items[0], menu, currency);
    }
  }

  lemma LineIsConsistent(item: CartItem, menu: map<nat, MenuItem>, currency: string)
    ensures var r := PriceLine(item, menu, currency); r.Ok? && r.value.Line? ==> Consistent(r.value.line)
  {
    hide SelectOptions;
  }

  lemma {:induction false} SubtotalsAgree(lines: seq<CartLine>)
    requires forall line :: line in lines ==> Consistent(line)
    requires PricedLines(lines).Ok?
    ensures SubtotalMinor(PricedLines(lines).value) == TotalMinor(LineTotalsOf(lines))
  {
    if lines != [] {
      assert LineTotalsOf(lines)[1..] == LineTotalsOf(lines[1..]);
      SubtotalsAgree(lines[1..]);
      assert PricedLines(lines).value[1..] == PricedLines(lines[1..]).value;
      assert Consistent(lines[0]);
    }
  }

  /**
   * The figure that decides free delivery is the very figure the bill is built
   * on, although the two are computed in different places and in different ways.
   */
  lemma FreeDeliverySeesTheBill(request: PriceRequest, strict: bool)
    requires PriceCart(request, strict).Ok?
    ensures var cart := PriceCart(request, strict).value;
      Threshold(request, cart.lines).Ok?
      && Threshold(request, cart.lines).value.minor == cart.totals.subtotal.minor - cart.totals.discountAmount.minor
  {
    hide PriceLines, ComputeOrderTotals, SumFrom;
    var priced := PriceLines(request.items, request.menu, request.currency, strict).value;
    LinesAreConsistent(request.items, request.menu, request.currency, strict);
    SubtotalsAgree(priced.lines);
    SumIsExact(Zero(request.currency), LineTotalsOf(priced.lines));
    var lines := PricedLines(priced.lines).value;
    var threshold := Threshold(request, priced.lines).value;
    var fee := ResolveDeliveryFee(request, ZoneFor(request), threshold).value;
    TotalsAreExact(lines, request.settings.rules, request.discount, fee, request.currency);
    ThresholdSeesTheBilledFigure(Sum(LineTotalsOf(priced.lines), request.currency).value, request.discount);
  }

  /** Priced carts are never billed below zero, whatever their modifiers do. */
  lemma CartNeverOwesMoney(request: PriceRequest, strict: bool)
    requires SaneRules(request.settings.rules) && PriceCart(request, strict).Ok?
    ensures PriceCart(request, strict).value.totals.total.minor >= 0
  {
    hide PriceLines, ComputeOrderTotals, PricedLines, Threshold, ResolveDeliveryFee, CartBlockers;
    var priced := PriceLines(request.items, request.menu, request.currency, strict).value;
    var fee := ResolveDeliveryFee(request, ZoneFor(request), Threshold(request, priced.lines).value).value;
    TotalNeverNegative(PricedLines(priced.lines).value, request.settings.rules, request.discount, fee, request.currency);
  }

  /** What one unit of a dish is listed at, in the size asked for: nothing below zero. */
  function ListedPrice(item: MenuItem, variant: Option<nat>): int {
    var sized := if variant.Some? then FindVariant(item.variants, variant.value) else None;
    var minor :=
      if sized.Some? then sized.value.price
      else if item.branchOverride.Some? && item.branchOverride.value.price.Some? then item.branchOverride.value.price.value
      else item.basePrice;
    if minor < 0 then 0 else minor
  }

  /** What these options of a group add to a unit. */
  function Surcharge(options: seq<ModifierOption>, ids: seq<nat>): int {
    if ids == [] then 0
    else (match FindOption(options, ids[0]) case Some(option) => option.priceDelta case None => 0) + Surcharge(options, ids[1..])
  }

  /** What the customer's choices in the dish's active groups add to a unit. */
  function ChosenSurcharge(groups: seq<Group>, modifiers: seq<Choice>): int {
    if groups == [] then 0
    else
      (if groups[0].isActive then Surcharge(groups[0].options, OptionsChosen(modifiers, groups[0].id)) else 0)
      + ChosenSurcharge(groups[1..], modifiers)
  }

  lemma {:induction false} TotalOfBoth(first: seq<SelectedOption>, second: seq<SelectedOption>)
    ensures TotalMinor(Deltas(first + second)) == TotalMinor(Deltas(first)) + TotalMinor(Deltas(second))
  {
    if first == [] {
      assert first + second == second;
    } else {
      assert Deltas(first + second)[1..] == Deltas(first[1..] + second);
      assert Deltas(first)[1..] == Deltas(first[1..]);
      TotalOfBoth(first[1..], second);
    }
  }

  lemma {:induction false} OptionsAddSurcharge(group: Group, ids: seq<nat>, currency: string)
    requires forall i :: 0 <= i < |ids| ==> FindOption(group.options, ids[i]).Some?
    ensures PriceOptions(group, ids, currency).Ok? ==>
      TotalMinor(Deltas(PriceOptions(group, ids, currency).value)) == Surcharge(group.options, ids)
  {
    if ids != [] && PriceOptions(group, ids, currency).Ok? {
      OptionsAddSurcharge(group, ids[1..], currency);
      var priced := PriceOptions(group, ids, currency).value;
      assert Deltas(priced)[1..] == Deltas(PriceOptions(group, ids[1..], currency).value);
    }
  }

  /** The options a line is charged for add up to what the customer's choices cost. */
  lemma {:induction false} SelectionAddsSurcharge(groups: seq<Group>, modifiers: seq<Choice>, currency: string)
    requires SelectOptions(groups, modifiers, currency).Ok? && SelectOptions(groups, modifiers, currency).value.Selected?
    ensures TotalMinor(Deltas(SelectOptions(groups, modifiers, currency).value.options)) == ChosenSurcharge(groups, modifiers)
  {
    hide Surcharge, PriceOptions, OptionsChosen;
    if groups != [] {
      SelectionAddsSurcharge(groups[1..], modifiers, currency);
      if groups[0].isActive {
        var ids := OptionsChosen(modifiers, groups[0].id);
        BadOptionIff(groups[0].options, ids);
        OptionsAddSurcharge(groups[0], ids, currency);
        TotalOfBoth(PriceOptions(groups[0], ids, currency).value, SelectOptions(groups[1..], modifiers, currency).value.options);
      }
    }
  }

  /** A line is charged its dish's listed price and its choices' surcharge. */
  lemma LineChargesThat(item: CartItem, menu: map<nat, MenuItem>, currency: string)
    requires PriceLine(item, menu, currency).Ok? && PriceLine(item, menu, currency).value.Line?
    ensures item.menuItem in menu
    ensures var line := PriceLine(item, menu, currency).value.line;
      && line.unitPrice.minor == ListedPrice(menu[item.menuItem], item.variant)
      && line.modifiersTotal.minor == ChosenSurcharge(menu[item.menuItem].groups, item.modifiers)
      && line.quantity == item.quantity
  {
    hide SelectOptions, SumFrom, IsOrderable;
    var dish := menu[item.menuItem];
    SelectionAddsSurcharge(dish.groups, item.modifiers, currency);
    SumIsExact(Zero(currency), Deltas(SelectOptions(dish.groups, item.modifiers, currency).value.options));
  }

  /**
   * A single line can be negative, although unit prices are clamped: the clamp
   * is applied before the modifiers are added. It is negative exactly when the
   * options chosen in the dish's active groups take off more than the dish is
   * listed at. (A negative quantity, which the pricing does not refuse by itself,
   * turns that round.)
   */
  lemma NegativeLineIff(item: CartItem, menu: map<nat, MenuItem>, currency: string)
    requires PriceLine(item, menu, currency).Ok? && PriceLine(item, menu, currency).value.Line?
    ensures item.menuItem in menu
    ensures var dish := menu[item.menuItem];
      var listed, surcharge := ListedPrice(dish, item.variant), ChosenSurcharge(dish.groups, item.modifiers);
      PriceLine(item, menu, currency).value.line.lineTotal.minor < 0 <==>
        (item.quantity > 0 && listed < -surcharge) || (item.quantity < 0 && listed > -surcharge)
  {
    hide PriceLine, ListedPrice, ChosenSurcharge;
    LineIsConsistent(item, menu, currency);
    LineChargesThat(item, menu, currency);
    var dish := menu[item.menuItem];
    SignOfProduct(ListedPrice(dish, item.variant) + ChosenSurcharge(dish.groups, item.modifiers), item.quantity);
  }

  lemma SignOfProduct(a: int, n: int)
    ensures a * n < 0 <==> (n > 0 && a < 0) || (n < 0 && a > 0)
  {
    if a > 0 && n > 0 { assert a * n > 0; }
    if a < 0 && n < 0 { assert a * n == (-a) * (-n) > 0; }
    if a > 0 && n < 0 { assert a * n == -(a * -n); }
    if a < 0 && n > 0 { assert a * n == -((-a) * n); }
  }

  /** And there are such lines: one unit at 1.00 with a modifier of -3.00 takes 2.00 off the subtotal, and checkout prices it. */
  lemma NegativeLineExists()
    ensures exists item: CartItem, menu :: (
      && item.quantity > 0
      && PriceLine(item, menu, "PKR").Ok? && PriceLine(item, menu, "PKR").value.Line?
      && PriceLine(item, menu, "PKR").value.line.lineTotal == Money(-200, "PKR"))
  {
    var option := ModifierOption(7, -300, true);
    var group := Group(5, true, true, false, 0, 1, [option]);
    var menu := map[1 := MenuItem(100, "PKR", AVAILABLE, true, [], [group], None)];
    var item := CartItem(0, 1, None, 1, [Choice(5, 7)]);
    assert OptionsChosen([Choice(5, 7)], 5) == [7] by {
      assert OptionsChosen([Choice(5, 7)][1..], 5) == [];
    }
    assert FindOption([option], 7) == Some(option);
    assert FirstBadOption([option], [7]) == FirstBadOption([option], [7][1..]) == None;
    assert ValidateSelection(group, [7]).None?;
    var selected := SelectedOption(5, 7, Money(-300, "PKR"));
    BadOptionIff([option], [7]);
    assert PriceOptions(group, [7], "PKR") == Ok([selected]) by {
      assert PriceOptions(group, [7][1..], "PKR") == Ok([]);
      assert [selected] + [] == [selected];
    }
    assert SelectOptions([group], [Choice(5, 7)], "PKR") == Ok(Selected([selected])) by {
      assert SelectOptions([group][1..], [Choice(5, 7)], "PKR") == Ok(Selected([]));
      assert [selected] + [] == [selected];
    }
    assert Deltas([selected]) == [Money(-300, "PKR")];
    assert Sum([Money(-300, "PKR")], "PKR") == Ok(Money(-300, "PKR")) by {
      assert SumFrom(Money(-300, "PKR"), [Money(-300, "PKR")][1..]) == Ok(Money(-300, "PKR"));
    }
    assert PriceLine(item, menu, "PKR").value.line.lineTotal == Money(-200, "PKR");
  }

  // -- What a line charges for --------------------------------------------------------------

  /** An option of an active group attached to the dish, chosen by the customer, on offer, at its own price. */
  ghost predicate Warranted(selected: SelectedOption, groups: seq<Group>, modifiers: seq<Choice>, currency: string) {
    exists group :: group in groups && group.isActive && group.id == selected.modifier
      && Choice(group.id, selected.option) in modifiers
      && exists option :: option in group.options && option.id == selected.option && option.isAvailable
           && selected.priceDelta == Money(option.priceDelta, currency)
  }

  lemma {:induction false} OptionsChosenWereChosen(modifiers: seq<Choice>, group: nat)
    ensures forall id :: id in OptionsChosen(modifiers, group) <==> Choice(group, id) in modifiers
  {
    if modifiers != [] {
      OptionsChosenWereChosen(modifiers[1..], group);
    }
  }

  lemma {:induction false} PricedOptions(group: Group, ids: seq<nat>, currency: string)
    requires FirstBadOption(group.options, ids).None?
    ensures forall i :: 0 <= i < |ids| ==> FindOption(group.options, ids[i]).Some?
    ensures PriceOptions(group, ids, currency).Ok? ==>
      var priced := PriceOptions(group, ids, currency).value;
      && |priced| == |ids|
      && forall i :: 0 <= i < |priced| ==>
           && priced[i].modifier == group.id && priced[i].option == ids[i]
           && exists option :: option in group.options && option.id == ids[i] && option.isAvailable
                && priced[i].priceDelta == Money(option.priceDelta, currency)
  {
    BadOptionIff(group.options, ids);
    if ids != [] {
      PricedOptions(group, ids[1..], currency);
      var option := FindOption(group.options, ids[0]).value;
      assert option in group.options && option.isAvailable;
    }
  }

  /** A line charges for nothing the customer did not choose, and for nothing the dish does not offer now. */
  lemma {:induction false} OnlyWarrantedOptions(groups: seq<Group>, modifiers: seq<Choice>, currency: string)
    requires SelectOptions(groups, modifiers, currency).Ok? && SelectOptions(groups, modifiers, currency).value.Selected?
    ensures forall selected :: selected in SelectOptions(groups, modifiers, currency).value.options ==>
      Warranted(selected, groups, modifiers, currency)
  {
    if groups != [] {
      var rest := groups[1..];
      OnlyWarrantedOptions(rest, modifiers, currency);
      var later := SelectOptions(rest, modifiers, currency).value.options;
      forall selected | selected in later ensures Warranted(selected, groups, modifiers, currency) {
        assert Warranted(selected, rest, modifiers, currency);
      }
      if groups[0].isActive {
        var ids := OptionsChosen(modifiers, groups[0].id);
        OptionsChosenWereChosen(modifiers, groups[0].id);
        PricedOptions(groups[0], ids, currency);
        var first := PriceOptions(groups[0], ids, currency).value;
        forall selected | selected in first ensures Warranted(selected, groups, modifiers, currency) {
          var i :| 0 <= i < |first| && first[i] == selected;
          assert ids[i] in ids;
        }
      }
    }
  }

  /** And it leaves out no choice made in a group that is attached and active. */
  lemma {:induction false} NoChoiceIsForgotten(groups: seq<Group>, modifiers: seq<Choice>, currency: string, choice: Choice)
    requires SelectOptions(groups, modifiers, currency).Ok? && SelectOptions(groups, modifiers, currency).value.Selected?
    requires choice in modifiers && exists group :: group in groups && group.isActive && group.id == choice.modifier
    ensures exists selected :: (
      && selected in SelectOptions(groups, modifiers, currency).value.options
      && selected.modifier == choice.modifier && selected.option == choice.option)
  {
    if groups[0].isActive && groups[0].id == choice.modifier {
      var ids := OptionsChosen(modifiers, groups[0].id);
      OptionsChosenWereChosen(modifiers, groups[0].id);
      assert choice.option in ids;
      PricedOptions(groups[0], ids, currency);
      var i :| 0 <= i < |ids| && ids[i] == choice.option;
      assert PriceOptions(groups[0], ids, currency).value[i] in SelectOptions(groups, modifiers, currency).value.options;
    } else {
      NoChoiceIsForgotten(groups[1..], modifiers, currency, choice);
    }
  }
}
