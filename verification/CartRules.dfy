/** What a cart is charged for delivery and what stands in its way, in the terms of the menu, the settings and the zones. */
module CartRules {
  import opened Outcomes
  import opened OrderStates
  import opened Money
  import opened Pricing
  import opened CartPricing

  // -- Dishes ----------------------------------------------------------------------

  /** A dish can be ordered at a branch exactly when it is on the menu, in stock, and not withheld there. */
  lemma OrderableIff(item: MenuItem)
    ensures IsOrderable(item) <==>
      && item.isActive && item.availability == AVAILABLE
      && (item.branchOverride.None? || item.branchOverride.value.availability.None?
          || item.branchOverride.value.availability.value == AVAILABLE)
  {
  }

  /** A branch can only restrict: whoever hides a dish hides it, and whoever is out of it takes it off sale. */
  lemma TheStricterWins(item: MenuItem, branch: Availability)
    requires item.branchOverride.Some? && item.branchOverride.value.availability == Some(branch)
    ensures ResolveAvailability(item) == HIDDEN <==> item.availability == HIDDEN || branch == HIDDEN
    ensures ResolveAvailability(item) == AVAILABLE <==> item.availability == AVAILABLE && branch == AVAILABLE
  {
  }

  /** The dish has a variant of this id. */
  predicate HasVariant(item: MenuItem, id: nat) {
    exists i :: 0 <= i < |item.variants| && item.variants[i].id == id
  }

  lemma {:induction false} HasVariantIff(variants: seq<Variant>, id: nat)
    ensures FindVariant(variants, id).Some? <==> exists i :: 0 <= i < |variants| && variants[i].id == id
  {
    if variants != [] {
      HasVariantIff(variants[1..], id);
      if i :| 0 <= i < |variants| && variants[i].id == id {
        assert i > 0 ==> variants[1..][i - 1].id == id;
      }
      if i :| 0 <= i < |variants[1..]| && variants[1..][i].id == id {
        assert variants[i + 1].id == id;
      }
    }
  }

  /** An active group of the dish that the customer's choices do not satisfy. */
  predicate Unsatisfied(groups: seq<Group>, modifiers: seq<Choice>) {
    exists g :: 0 <= g < |groups| && groups[g].isActive && ValidateSelection(groups[g], OptionsChosen(modifiers, groups[g].id)).Some?
  }

  lemma {:induction false} RefusedIff(groups: seq<Group>, modifiers: seq<Choice>, currency: string)
    requires SelectOptions(groups, modifiers, currency).Ok?
    ensures SelectOptions(groups, modifiers, currency).value.Refused? <==> Unsatisfied(groups, modifiers)
  {
    hide ValidateSelection, OptionsChosen, PriceOptions;
    if groups != [] {
      var rest := groups[1..];
      var chosen := OptionsChosen(modifiers, groups[0].id);
      if groups[0].isActive && ValidateSelection(groups[0], chosen).Some? {
        assert Unsatisfied(groups, modifiers);
      } else {
        RefusedIff(rest, modifiers, currency);
        if g :| 0 <= g < |groups| && groups[g].isActive && ValidateSelection(groups[g], OptionsChosen(modifiers, groups[g].id)).Some? {
          assert rest[g - 1] == groups[g];
        }
        if g :| 0 <= g < |rest| && rest[g].isActive && ValidateSelection(rest[g], OptionsChosen(modifiers, rest[g].id)).Some? {
          assert groups[g + 1] == rest[g];
        }
      }
    }
  }

  /** A line cannot be priced exactly when its dish is gone or not to be had, its size is gone, or a group's choices do not do. */
  lemma LineProblemIff(item: CartItem, menu: map<nat, MenuItem>, currency: string)
    requires PriceLine(item, menu, currency).Ok?
    ensures PriceLine(item, menu, currency).value.Problem? <==>
      || item.menuItem !in menu
      || !IsOrderable(menu[item.menuItem])
      || (item.variant.Some? && !HasVariant(menu[item.menuItem], item.variant.value))
      || Unsatisfied(menu[item.menuItem].groups, item.modifiers)
  {
    hide SelectOptions, ResolveUnitPrice, SumFrom, IsOrderable, FindVariant, HasVariant, Unsatisfied;
    if item.menuItem in menu {
      var dish := menu[item.menuItem];
      if item.variant.Some? {
        HasVariantIff(dish.variants, item.variant.value);
        VariantIs(dish, item.variant.value);
      }
      if SelectOptions(dish.groups, item.modifiers, currency).Ok? {
        RefusedIff(dish.groups, item.modifiers, currency);
      }
    }
  }

  lemma VariantIs(item: MenuItem, id: nat)
    ensures HasVariant(item, id) <==> exists i :: 0 <= i < |item.variants| && item.variants[i].id == id
  {
  }

  /** The price a dish is listed at: its first variant of that id's, else its branch's own, else the base price; never below zero. */
  ghost predicate ListedAt(item: MenuItem, variant: Option<nat>, price: int) {
    var listed := if item.branchOverride.Some? && item.branchOverride.value.price.Some? then item.branchOverride.value.price.value
                  else item.basePrice;
    if variant.None? then price == if listed < 0 then 0 else listed
    else exists i: nat :: FirstVariant(item.variants, variant.value, i)
           && price == if item.variants[i].price < 0 then 0 else item.variants[i].price
  }

  predicate FirstVariant(variants: seq<Variant>, id: nat, i: nat) {
    i < |variants| && variants[i].id == id && forall j :: 0 <= j < i ==> variants[j].id != id
  }

  lemma {:induction false} FirstVariantFound(variants: seq<Variant>, id: nat)
    ensures FindVariant(variants, id).Some? ==>
      exists i: nat :: FirstVariant(variants, id, i) && variants[i] == FindVariant(variants, id).value
  {
    if variants != [] {
      if variants[0].id == id {
        assert FirstVariant(variants, id, 0);
      } else {
        FirstVariantFound(variants[1..], id);
        if FindVariant(variants[1..], id).Some? {
          var i: nat :| FirstVariant(variants[1..], id, i) && variants[1..][i] == FindVariant(variants[1..], id).value;
          assert forall j :: 0 < j <= i ==> variants[j] == variants[1..][j - 1];
          assert FirstVariant(variants, id, i + 1);
        }
      }
    }
  }

  /** What a line costs: so many times the listed price and what the options on it add up to. */
  lemma LineCosts(item: CartItem, menu: map<nat, MenuItem>, currency: string)
    requires PriceLine(item, menu, currency).Ok? && PriceLine(item, menu, currency).value.Line?
    ensures var line := PriceLine(item, menu, currency).value.line;
      && line.menuItem == item.menuItem && line.variant == item.variant && line.quantity == item.quantity
      && item.menuItem in menu && ListedAt(menu[item.menuItem], item.variant, line.unitPrice.minor)
      && line.modifiersTotal.minor == TotalMinor(Deltas(line.modifiers))
      && line.lineTotal.minor == (line.unitPrice.minor + line.modifiersTotal.minor) * item.quantity
  {
    hide SelectOptions, SumFrom, IsOrderable, FindVariant, FirstVariant;
    var dish := menu[item.menuItem];
    if item.variant.Some? {
      FirstVariantFound(dish.variants, item.variant.value);
      VariantHasItsId(dish.variants, item.variant.value);
    }
    SumIsExact(Zero(currency), Deltas(SelectOptions(dish.groups, item.modifiers, currency).value.options));
  }

  lemma {:induction false} VariantHasItsId(variants: seq<Variant>, id: nat)
    ensures FindVariant(variants, id).Some? ==> FindVariant(variants, id).value.id == id
  {
    if variants != [] {
      VariantHasItsId(variants[1..], id);
    }
  }

  /** A cart priced for checkout has a line for every item, in order, each costing that. */
  lemma {:induction false} EveryItemIsPriced(items: seq<CartItem>, menu: map<nat, MenuItem>, currency: string)
    requires PriceLines(items, menu, currency, true).Ok?
    ensures var lines := PriceLines(items, menu, currency, true).value.lines;
      |lines| == |items| && forall i :: 0 <= i < |items| ==> PriceLine(items[i], menu, currency) == Ok(Line(lines[i]))
  {
    hide PriceLine;
    if items != [] {
      EveryItemIsPriced(items[1..], menu, currency);
      var rest := PriceLines(items[1..], menu, currency, true).value.lines;
      assert forall i :: 0 < i < |items| ==> items[1..][i - 1] == items[i];
    }
  }

  // -- Zones and the fee ---------------------------------------------------------------

  predicate Covers(zone: Zone) {
    zone.hasRadius && zone.distance <= zone.radius
  }

  /** The first of the zones, in their order, that reaches the delivery point. */
  predicate FirstCovering(zones: seq<Zone>, i: nat) {
    i < |zones| && Covers(zones[i]) && forall j :: 0 <= j < i ==> !Covers(zones[j])
  }

  predicate NoneCovers(zones: seq<Zone>) {
    forall i :: 0 <= i < |zones| ==> !Covers(zones[i])
  }

  lemma {:induction false} ZoneFound(zones: seq<Zone>)
    ensures NoneCovers(zones) <==> FindZone(zones).None?
    ensures forall i: nat :: FirstCovering(zones, i) ==> FindZone(zones) == Some(zones[i])
  {
    if zones != [] {
      var rest := zones[1..];
      ZoneFound(rest);
      assert NoneCovers(zones) <==> !Covers(zones[0]) && NoneCovers(rest) by {
        assert forall i :: 0 < i < |zones| ==> zones[i] == rest[i - 1];
        assert forall i :: 0 <= i < |rest| ==> rest[i] == zones[i + 1];
      }
      forall i: nat | FirstCovering(zones, i)
        ensures FindZone(zones) == Some(zones[i])
      {
        if i > 0 {
          assert forall j :: 0 <= j < i - 1 ==> rest[j] == zones[j + 1];
          assert FirstCovering(rest, i - 1);
        }
      }
    }
  }

  /** The zone a cart is delivered in: for a delivery with a point to go to, the first that reaches it. */
  ghost predicate DeliveredIn(request: PriceRequest, zone: Option<Zone>) {
    if request.orderType == Delivery && request.zones.Some? then
      && (zone.None? <==> NoneCovers(request.zones.value))
      && (forall i: nat :: FirstCovering(request.zones.value, i) ==> zone == Some(request.zones.value[i]))
    else zone.None?
  }

  /** A delivery is free when there is a threshold and what is left to pay for the food reaches it. */
  predicate DeliveredFree(request: PriceRequest, totals: OrderTotals) {
    && request.settings.freeDeliveryAbove.Some?
    && totals.subtotal.minor - totals.discountAmount.minor >= request.settings.freeDeliveryAbove.value.minor
  }

  /** The fee of every priced cart: none unless it is delivered and not free; otherwise the zone's, or the branch's own outside all zones. */
  lemma FeeIs(request: PriceRequest, strict: bool)
    requires PriceCart(request, strict).Ok?
    ensures var cart := PriceCart(request, strict).value;
      && DeliveredIn(request, cart.zone)
      && cart.totals.deliveryFee.minor ==
         if request.orderType != Delivery || DeliveredFree(request, cart.totals) then 0
         else if cart.zone.Some? then cart.zone.value.deliveryFee.minor
         else request.settings.defaultDeliveryFee.minor
  {
    FreeDeliverySeesTheBill(request, strict);
    if request.zones.Some? {
      ZoneFound(request.zones.value);
    }
    hide PriceLines, ComputeOrderTotals, PricedLines, Threshold, CartBlockers, FindZone, NoneCovers, FirstCovering;
    var priced := PriceLines(request.items, request.menu, request.currency, strict).value;
    var fee := ResolveDeliveryFee(request, ZoneFor(request), Threshold(request, priced.lines).value).value;
    BilledAsGiven(PricedLines(priced.lines).value, request.settings.rules, request.discount, fee, request.currency);
  }

  lemma BilledAsGiven(lines: seq<PricedLine>, rules: PricingRules, discount: Money, fee: Money, currency: string)
    requires ComputeOrderTotals(lines, rules, discount, fee, currency).Ok?
    ensures ComputeOrderTotals(lines, rules, discount, fee, currency).value.deliveryFee == fee
  {
    TotalsAreExact(lines, rules, discount, fee, currency);
  }

  // -- What stands in the way ---------------------------------------------------------------

  /** The least a delivery must come to: the zone's own minimum where it has one. */
  function LeastOrder(request: PriceRequest, zone: Option<Zone>): Money {
    if zone.Some? && zone.value.minimumOrder.Some? then zone.value.minimumOrder.value else request.settings.minimumOrder
  }

  /** A list of blockers says this much about the cart as a whole. */
  ghost predicate Tells(blockers: seq<Blocker>, request: PriceRequest, lines: seq<CartLine>, zone: Option<Zone>, totals: OrderTotals) {
    var least := LeastOrder(request, zone);
    && (CartIsEmpty in blockers <==> lines == [])
    && (forall m :: BelowMinimum(m) in blockers <==>
          m == least && request.orderType == Delivery && least.minor > 0 && totals.subtotal.minor < least.minor)
    && (OutsideDeliveryArea in blockers <==> request.orderType == Delivery && zone.None? && request.zones.Some?)
  }

  lemma CartBlockersTell(request: PriceRequest, lines: seq<CartLine>, zone: Option<Zone>, totals: OrderTotals)
    requires CartBlockers(request, lines, zone, totals).Ok?
    ensures Tells(CartBlockers(request, lines, zone, totals).value, request, lines, zone, totals)
    ensures CartBlockers(request, lines, zone, totals).value == [] ==> lines != []
  {
  }

  lemma LineProblemsTellNothing(problems: seq<Blocker>, more: seq<Blocker>, request: PriceRequest, lines: seq<CartLine>,
                                zone: Option<Zone>, totals: OrderTotals)
    requires Tells(more, request, lines, zone, totals) && forall b :: b in problems ==> IsLineProblem(b)
    ensures Tells(problems + more, request, lines, zone, totals)
  {
    assert !IsLineProblem(CartIsEmpty) && !IsLineProblem(OutsideDeliveryArea);
    assert forall m :: !IsLineProblem(BelowMinimum(m));
  }

  /** The blockers of a preview, lines apart: an empty cart, a delivery below its minimum, a point no zone reaches. */
  lemma BlockersAre(request: PriceRequest)
    requires PriceCart(request, false).Ok?
    ensures var cart := PriceCart(request, false).value;
      var least := LeastOrder(request, cart.zone);
      && (CartIsEmpty in cart.blockers <==> cart.lines == [])
      && (forall m :: BelowMinimum(m) in cart.blockers <==>
            m == least && request.orderType == Delivery && least.minor > 0 && cart.totals.subtotal.minor < least.minor)
      && (OutsideDeliveryArea in cart.blockers <==>
            request.orderType == Delivery && request.zones.Some? && NoneCovers(request.zones.value))
  {
    PreviewNotesLineProblems(request.items, request.menu, request.currency);
    FeeIs(request, false);
    hide PriceLines, ComputeOrderTotals, PricedLines, Threshold, ResolveDeliveryFee, NoneCovers, CartBlockers, FirstCovering, IsLineProblem;
    var priced := PriceLines(request.items, request.menu, request.currency, false).value;
    var cart := PriceCart(request, false).value;
    var more := CartBlockers(request, priced.lines, cart.zone, cart.totals).value;
    CartBlockersTell(request, priced.lines, cart.zone, cart.totals);
    LineProblemsTellNothing(priced.blockers, more, request, priced.lines, cart.zone, cart.totals);
    assert cart.blockers == priced.blockers + more;
  }
}
