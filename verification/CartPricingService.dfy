/** The pricing loop as it runs: lists grown line by line, in either mode. */
module CartPricingService {
  import opened Outcomes
  import opened Money
  import opened Pricing
  import opened CartPricing

  /** The chosen options by modifier, each list in the order chosen. */
  method GroupChoices(modifiers: seq<Choice>) returns (chosenByModifier: map<nat, seq<nat>>)
    ensures forall g :: OptionsChosen(modifiers, g) == if g in chosenByModifier then chosenByModifier[g] else []
  {
    chosenByModifier := map[];
    for i := 0 to |modifiers|
      invariant forall g ::
        (if g in chosenByModifier then chosenByModifier[g] else []) + OptionsChosen(modifiers[i..], g) == OptionsChosen(modifiers, g)
    {
      assert modifiers[i..][1..] == modifiers[i + 1..];
      var Choice(modifier, option) := modifiers[i];
      var list := if modifier in chosenByModifier then chosenByModifier[modifier] else [];
      ghost var before := chosenByModifier;
      chosenByModifier := chosenByModifier[modifier := list + [option]];
      forall g
        ensures (if g in chosenByModifier then chosenByModifier[g] else []) + OptionsChosen(modifiers[i + 1..], g)
             == OptionsChosen(modifiers, g)
      {
        var sofar := if g in before then before[g] else [];
        assert sofar + OptionsChosen(modifiers[i..], g) == OptionsChosen(modifiers, g);
        if g == modifier {
          assert (sofar + [option]) + OptionsChosen(modifiers[i + 1..], g)
              == sofar + ([option] + OptionsChosen(modifiers[i + 1..], g));
        }
      }
    }
  }

  lemma SelectRest(groups: seq<Group>, modifiers: seq<Choice>, currency: string, i: nat, ids: seq<nat>)
    requires i < |groups| && ids == OptionsChosen(modifiers, groups[i].id)
    ensures groups[i..][1..] == groups[i + 1..]
    ensures ValidateSelection(groups[i], ids).None? ==> forall k :: 0 <= k < |ids| ==> FindOption(groups[i].options, ids[k]).Some?
  {
    BadOptionIff(groups[i].options, ids);
  }

  /** The options of one validated group. The lookup cannot miss: validation has already found every one. */
  method PushOptions(group: Group, ids: seq<nat>, currency: string) returns (r: Result<seq<SelectedOption>, MoneyError>)
    requires ValidateSelection(group, ids).None?
    ensures forall k :: 0 <= k < |ids| ==> FindOption(group.options, ids[k]).Some?
    ensures r == PriceOptions(group, ids, currency)
  {
    BadOptionIff(group.options, ids);
    var selected: seq<SelectedOption> := [];
    assert ids[0..] == ids;
    for k := 0 to |ids|
      invariant Prefixed(selected, PriceOptions(group, ids[k..], currency)) == PriceOptions(group, ids, currency)
    {
      assert ids[k..][1..] == ids[k + 1..];
      var found := FindOption(group.options, ids[k]);
      assert found.Some?;
      var delta := FromMinor(found.value.priceDelta, currency);
      if delta.Err? { return Err(delta.error); }
      ghost var rest := PriceOptions(group, ids[k + 1..], currency);
      var next := SelectedOption(group.id, found.value.id, delta.value);
      PrefixedSnoc(selected, next, rest);
      selected := selected + [next];
    }
    r := Ok(selected);
  }

  /** What was pushed so far, before what is still to come. */
  function Prefixed<T, E>(front: seq<T>, rest: Result<seq<T>, E>): (whole: Result<seq<T>, E>)
    ensures front == [] ==> whole == rest
    ensures rest == Ok([]) ==> whole == Ok(front)
  {
    assert rest.Ok? ==> [] + rest.value == rest.value;
    assert front + [] == front;
    match rest
    case Ok(value) => Ok(front + value)
    case Err(error) => Err(error)
  }

  lemma PrefixedSnoc<T, E>(front: seq<T>, next: T, rest: Result<seq<T>, E>)
    ensures Prefixed(front, Prefixed([next], rest)) == Prefixed(front + [next], rest)
  {
    if rest.Ok? {
      assert front + ([next] + rest.value) == front + [next] + rest.value;
    }
  }

  /** Likewise for a whole selection, which a refusal further on replaces. */
  function PrefixedSelection(front: seq<SelectedOption>, rest: Result<Selection, MoneyError>): (whole: Result<Selection, MoneyError>)
    ensures front == [] ==> whole == rest
    ensures rest == Ok(Selected([])) ==> whole == Ok(Selected(front))
  {
    assert rest.Ok? && rest.value.Selected? ==> [] + rest.value.options == rest.value.options;
    assert front + [] == front;
    match rest
    case Ok(Selected(options)) => Ok(Selected(front + options))
    case _ => rest
  }

  method SelectAllOptions(groups: seq<Group>, modifiers: seq<Choice>, currency: string) returns (r: Result<Selection, MoneyError>)
    ensures r == SelectOptions(groups, modifiers, currency)
  {
    hide ValidateSelection, PriceOptions, OptionsChosen;
    var chosenByModifier := GroupChoices(modifiers);
    var selectedOptions: seq<SelectedOption> := [];
    assert groups[0..] == groups;
    for i := 0 to |groups|
      invariant PrefixedSelection(selectedOptions, SelectOptions(groups[i..], modifiers, currency)) == SelectOptions(groups, modifiers, currency)
    {
      var group := groups[i];
      SelectRest(groups, modifiers, currency, i, OptionsChosen(modifiers, group.id));
      if group.isActive {
        var chosenIds := if group.id in chosenByModifier then chosenByModifier[group.id] else [];
        var problem := ValidateSelection(group, chosenIds);
        if problem.Some? { return Ok(Refused(group.id, problem.value)); }
        var pushed := PushOptions(group, chosenIds, currency);
        if pushed.Err? { return Err(pushed.error); }
        ghost var rest := SelectOptions(groups[i + 1..], modifiers, currency);
        if rest.Ok? && rest.value.Selected? {
          assert selectedOptions + (pushed.value + rest.value.options) == selectedOptions + pushed.value + rest.value.options;
        }
        selectedOptions := selectedOptions + pushed.value;
      }
    }
    r := Ok(Selected(selectedOptions));
  }

  /** Likewise for lines and blockers together. */
  function Resumed(lines: seq<CartLine>, blockers: seq<Blocker>, rest: Result<Lines, CartError>): (whole: Result<Lines, CartError>)
    ensures lines == [] && blockers == [] ==> whole == rest
    ensures rest == Ok(Lines([], [])) ==> whole == Ok(Lines(lines, blockers))
  {
    assert rest.Ok? ==> [] + rest.value.lines == rest.value.lines && [] + rest.value.blockers == rest.value.blockers;
    assert lines + [] == lines && blockers + [] == blockers;
    match rest
    case Ok(more) => Ok(Lines(lines + more.lines, blockers + more.blockers))
    case Err(error) => Err(error)
  }

  /** One cart item: the checks in their order, then its line. */
  method PriceOne(item: CartItem, menu: map<nat, MenuItem>, currency: string) returns (r: Priced<LineOutcome>)
    ensures r == PriceLine(item, menu, currency)
  {
    hide SelectOptions, SumFrom, ResolveUnitPrice;
    if item.menuItem !in menu { return Ok(Problem(NoLongerOnMenu)); }
    var menuItem := menu[item.menuItem];
    if !IsOrderable(menuItem) { return Ok(Problem(NotAvailable(item.menuItem))); }
    var variant := None;
    if item.variant.Some? {
      variant := FindVariant(menuItem.variants, item.variant.value);
      if variant.None? { return Ok(Problem(SizeGone(item.menuItem))); }
    }
    var selection := SelectAllOptions(menuItem.groups, item.modifiers, currency);
    if selection.Err? { return Err(BadMoney(selection.error)); }
    if selection.value.Refused? { return Ok(Problem(BadChoice(selection.value.group, selection.value.problem))); }
    var options := selection.value.options;
    var unitPrice := ResolveUnitPrice(menuItem, variant);
    if unitPrice.Err? { return Err(BadMoney(unitPrice.error)); }
    var modifiersTotal := Sum(Deltas(options), currency);
    if modifiersTotal.Err? { return Err(BadMoney(modifiersTotal.error)); }
    var each := Add(unitPrice.value, modifiersTotal.value);
    if each.Err? { return Err(BadMoney(each.error)); }
    var lineTotal := Multiply(each.value, item.quantity);
    if lineTotal.Err? { return Err(BadMoney(lineTotal.error)); }
    r := Ok(Line(CartLine(item.id, item.menuItem, if variant.Some? then Some(variant.value.id) else None, item.quantity,
                          unitPrice.value, modifiersTotal.value, lineTotal.value, options)));
  }

  /** The loop over the cart. Strict, it stops at the first problem; otherwise it notes it and goes on. */
  lemma NoLines(menu: map<nat, MenuItem>, currency: string, strict: bool)
    ensures PriceLines([], menu, currency, strict) == Ok(Lines([], []))
  {
  }

  /** Pricing from the i-th line on: that line, then the rest. */
  lemma LinesFrom(items: seq<CartItem>, menu: map<nat, MenuItem>, currency: string, strict: bool, i: nat)
    requires i < |items|
    ensures var rest := PriceLines(items[i + 1..], menu, currency, strict);
      PriceLines(items[i..], menu, currency, strict) ==
        match PriceLine(items[i], menu, currency)
        case Err(error) => Err(Failed(error))
        case Ok(Problem(blocker)) =>
          if strict then Err(LineProblem(blocker))
          else if rest.Err? then rest else Ok(Lines(rest.value.lines, [blocker] + rest.value.blockers))
        case Ok(Line(line)) =>
          if rest.Err? then rest else Ok(Lines([line] + rest.value.lines, rest.value.blockers))
  {
    hide PriceLine;
    assert items[i..][0] == items[i] && items[i..][1..] == items[i + 1..];
  }

  method PriceAllLines(items: seq<CartItem>, menu: map<nat, MenuItem>, currency: string, strict: bool) returns (r: Result<Lines, CartError>)
    ensures r == PriceLines(items, menu, currency, strict)
  {
    hide PriceLine, PriceLines;
    var lines: seq<CartLine>, blockers: seq<Blocker> := [], [];
    assert items[0..] == items;
    NoLines(menu, currency, strict);
    for i := 0 to |items|
      invariant Resumed(lines, blockers, PriceLines(items[i..], menu, currency, strict)) == PriceLines(items, menu, currency, strict)
    {
      LinesFrom(items, menu, currency, strict, i);
      ghost var rest := PriceLines(items[i + 1..], menu, currency, strict);
      var outcome := PriceOne(items[i], menu, currency);
      if outcome.Err? { return Err(Failed(outcome.error)); }
      match outcome.value
      case Problem(blocker) =>
        if strict { return Err(LineProblem(blocker)); }
        if rest.Ok? {
          assert blockers + ([blocker] + rest.value.blockers) == blockers + [blocker] + rest.value.blockers;
        }
        blockers := blockers + [blocker];
      case Line(line) =>
        if rest.Ok? {
          assert lines + ([line] + rest.value.lines) == lines + [line] + rest.value.lines;
        }
        lines := lines + [line];
    }
    assert items[|items|..] == [];
    r := Ok(Lines(lines, blockers));
  }

  method PriceTheCart(request: PriceRequest, strict: bool) returns (r: Result<PricedCart, CartError>)
    ensures r == PriceCart(request, strict)
  {
    hide PriceLines, Finish;
    var lines := PriceAllLines(request.items, request.menu, request.currency, strict);
    match lines
    case Err(error) => r := Err(error);
    case Ok(priced) =>
      var cart := Finish(request, priced);
      r := LiftCart(cart);
  }
}
