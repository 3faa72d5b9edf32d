/** What an accepted cart edit amounts to, and what a later pricing can still find wrong with it. */
module CartEdits {
  import opened Outcomes
  import opened CartPricing
  import opened CartRules
  import opened Orders

  predicate Chooses(choices: seq<Choice>, option: nat) {
    exists i :: 0 <= i < |choices| && choices[i].option == option
  }

  predicate OffersChoice(groups: seq<Group>, choice: Choice) {
    exists g :: 0 <= g < |groups| && groups[g].id == choice.modifier && FindOption(groups[g].options, choice.option).Some?
  }

  predicate Offers(groups: seq<Group>, option: nat) {
    exists g :: 0 <= g < |groups| && FindOption(groups[g].options, option).Some?
  }

  lemma {:induction false} OfferingIff(groups: seq<Group>, option: nat)
    ensures Offering(groups, option).Some? <==> Offers(groups, option)
    ensures Offering(groups, option).Some? ==> OffersChoice(groups, Choice(Offering(groups, option).value, option))
  {
    if groups != [] {
      OfferingIff(groups[1..], option);
      if Offers(groups, option) && FindOption(groups[0].options, option).None? {
        var g :| 0 <= g < |groups| && FindOption(groups[g].options, option).Some?;
        assert FindOption(groups[1..][g - 1].options, option).Some?;
      }
      if Offering(groups, option).Some? && FindOption(groups[0].options, option).None? {
        var choice := Choice(Offering(groups, option).value, option);
        var g :| 0 <= g < |groups[1..]| && groups[1..][g].id == choice.modifier && FindOption(groups[1..][g].options, option).Some?;
        assert groups[g + 1] == groups[1..][g];
      }
    }
  }

  /** Each asked-for option once, under a group of the item that offers it. */
  predicate Faithful(groups: seq<Group>, options: seq<nat>, choices: seq<Choice>) {
    && (forall i, j :: 0 <= i < j < |choices| ==> choices[i].option != choices[j].option)
    && (forall i :: 0 <= i < |choices| ==> choices[i].option in options && OffersChoice(groups, choices[i]))
    && (forall o :: o in options ==> Chooses(choices, o))
  }

  /**
   * A line's options are accepted exactly when the item offers every one; they
   * are then stored once each, so nobody prices a burger with a pizza's toppings.
   */
  lemma {:induction false} OptionsAreChosenOnce(groups: seq<Group>, options: seq<nat>)
    ensures ChoicesFor(groups, options).Ok? <==> forall o :: o in options ==> Offers(groups, o)
    ensures ChoicesFor(groups, options).Ok? ==> Faithful(groups, options, ChoicesFor(groups, options).value)
  {
    hide FindOption, OffersChoice, Offers, Offering;
    if options != [] {
      var front, last := options[..|options| - 1], options[|options| - 1];
      assert options == front + [last];
      OptionsAreChosenOnce(groups, front);
      OfferingIff(groups, last);
      if ChoicesFor(groups, options).Ok? {
        var before, after := ChoicesFor(groups, front).value, ChoicesFor(groups, options).value;
        ChoosesStill(before, after, options);
        if last !in front {
          assert after[|before|].option == last;
        }
      }
    }
  }

  lemma ChoosesStill(before: seq<Choice>, after: seq<Choice>, options: seq<nat>)
    requires before <= after
    ensures forall o :: o in options && Chooses(before, o) ==> Chooses(after, o)
  {
    forall o | o in options && Chooses(before, o)
      ensures Chooses(after, o)
    {
      var i :| 0 <= i < |before| && before[i].option == o;
      assert after[i].option == o;
    }
  }

  lemma HasLineCons(first: CartItem, rest: seq<CartItem>, line: nat)
    ensures HasLine([first] + rest, line) <==> first.id == line || HasLine(rest, line)
  {
    if HasLine(rest, line) {
      var i :| 0 <= i < |rest| && rest[i].id == line;
      assert ([first] + rest)[i + 1].id == line;
    }
    assert ([first] + rest)[0] == first;
  }

  /** Removing a line, or setting its quantity to nothing, takes it out and leaves the rest as they were. */
  lemma {:induction false} RemovedIsGone(items: seq<CartItem>, line: nat, other: CartItem)
    ensures !HasLine(Without(items, line), line)
    ensures other.id != line ==> (other in Without(items, line) <==> other in items)
    ensures !HasLine(items, line) ==> Without(items, line) == items
  {
    hide HasLine;
    if items == [] {
      assert !HasLine([], line) by { NoLines(line); }
    } else {
      RemovedIsGone(items[1..], line, other);
      HasLineCons(items[0], items[1..], line);
      HasLineCons(items[0], Without(items[1..], line), line);
      assert items == [items[0]] + items[1..];
      assert [] + Without(items[1..], line) == Without(items[1..], line);
    }
  }

  lemma NoLines(line: nat)
    ensures !HasLine([], line)
  {
  }

  /** Setting a quantity touches that line's quantity and nothing else; nothing is no quantity, and takes the line out. */
  lemma QuantityIsSet(cart: Cart, line: nat, quantity: int, menu: map<nat, MenuItem>)
    ensures var outcome := EditItems(cart, UpdateQuantity(line, quantity), menu);
      && (outcome.Ok? <==> HasLine(cart.items, line))
      && (outcome.Ok? && quantity == 0 ==> outcome == EditItems(cart, RemoveItem(line), menu))
      && (outcome.Ok? && quantity != 0 ==>
            var after := outcome.value;
            && after == cart.(items := after.items) && |after.items| == |cart.items|
            && forall i :: 0 <= i < |cart.items| ==>
                 && after.items[i].(quantity := cart.items[i].quantity) == cart.items[i]
                 && after.items[i].quantity == if cart.items[i].id == line then quantity else cart.items[i].quantity)
  {
    hide HasLine, Without;
  }

  /** What is added is a line at the end, and it is added exactly when it could be ordered as it stands. */
  lemma AddedIff(cart: Cart, line: nat, menuItem: nat, variant: Option<nat>, quantity: int, options: seq<nat>, menu: map<nat, MenuItem>)
    ensures var outcome := EditItems(cart, AddItem(line, menuItem, variant, quantity, options), menu);
      && (outcome.Ok? <==>
            && menuItem in menu
            && var item := menu[menuItem];
               && item.isActive && item.availability == AVAILABLE
               && (item.branchOverride.Some? ==>
                     item.branchOverride.value.availability.None? || item.branchOverride.value.availability.value == AVAILABLE)
               && (variant.Some? ==> HasVariant(item, variant.value))
               && forall o :: o in options ==> Offers(item.groups, o))
      && (outcome.Ok? ==>
            exists choices ::
              && Faithful(menu[menuItem].groups, options, choices)
              && outcome.value == cart.(items := cart.items + [CartItem(line, menuItem, variant, quantity, choices)]))
  {
    if menuItem in menu {
      OptionsAreChosenOnce(menu[menuItem].groups, options);
      OrderableIff(menu[menuItem]);
      if variant.Some? {
        HasVariantIff(menu[menuItem].variants, variant.value);
      }
    }
    hide ChoicesFor, FindVariant, IsOrderable, Offers, Faithful;
  }

  /**
   * An item accepted into a cart can, while the menu stays as it is, be refused
   * at checkout only for its modifier choices: these alone are not checked when
   * it is added.
   */
  lemma AddedItemsFailOnlyOnChoices(cart: Cart, line: nat, menuItem: nat, variant: Option<nat>, quantity: int, options: seq<nat>,
                                    menu: map<nat, MenuItem>, currency: string)
    requires EditItems(cart, AddItem(line, menuItem, variant, quantity, options), menu).Ok?
    ensures var items := EditItems(cart, AddItem(line, menuItem, variant, quantity, options), menu).value.items;
      && items != [] && items[..|items| - 1] == cart.items
      && var priced := PriceLine(items[|items| - 1], menu, currency);
         priced.Ok? && priced.value.Problem? ==> priced.value.blocker.BadChoice?
  {
    hide ChoicesFor, SelectOptions, ResolveUnitPrice, IsOrderable, FindVariant;
  }
}
