/** Paging through the menu in a conversation, nine dishes and a "Show more" at a time. */
module Browsing {
  import opened Outcomes
  import opened Decimals
  import opened Replies
  import opened Messages
  import CartPricing

  const PAGE_SIZE := 9

  predicate HasNextPage(total: nat, page: nat) {
    total > (page + 1) * PAGE_SIZE
  }

  function Slice<T>(items: seq<T>, start: nat, end: nat): seq<T>
    requires start <= end
  {
    if |items| <= start then [] else if |items| <= end then items[start..] else items[start..end]
  }

  function PageSlice<T>(items: seq<T>, page: nat): (r: seq<T>)
    ensures |r| <= PAGE_SIZE
  {
    Slice(items, page * PAGE_SIZE, page * PAGE_SIZE + PAGE_SIZE)
  }

  // -- Paging ---------------------------------------------------------------------

  /** The items shown by following "Show more" from a page for as long as it is offered. */
  function Follow<T>(items: seq<T>, page: nat): seq<T>
    decreases |items| - page * PAGE_SIZE
  {
    PageSlice(items, page) + if HasNextPage(|items|, page) then Follow(items, page + 1) else []
  }

  function PagesFollowed(total: nat, page: nat): nat
    decreases total - page * PAGE_SIZE
  {
    1 + if HasNextPage(total, page) then PagesFollowed(total, page + 1) else 0
  }

  /** Every item from there on is shown exactly once, in order. */
  lemma {:induction false} FollowShowsTheRest<T>(items: seq<T>, page: nat)
    requires page * PAGE_SIZE <= |items|
    ensures Follow(items, page) == items[page * PAGE_SIZE..]
    decreases |items| - page * PAGE_SIZE
  {
    if HasNextPage(|items|, page) {
      FollowShowsTheRest(items, page + 1);
      assert items[page * PAGE_SIZE..] == items[page * PAGE_SIZE..(page + 1) * PAGE_SIZE] + items[(page + 1) * PAGE_SIZE..];
    }
  }

  lemma {:induction false} PagesAreCeiling(total: nat, page: nat)
    requires page * PAGE_SIZE < total
    ensures PagesFollowed(total, page) == (total - page * PAGE_SIZE + PAGE_SIZE - 1) / PAGE_SIZE
    decreases total - page * PAGE_SIZE
  {
    if HasNextPage(total, page) {
      PagesAreCeiling(total, page + 1);
    }
  }

  // -- The menu ----------------------------------------------------------------------

  datatype Modifier = Modifier(required: bool, minSelections: int)

  datatype Item = Item(id: string, name: string, price: string, isVisible: bool,
                       availability: CartPricing.Availability, modifiers: seq<Modifier>)

  datatype Category = Category(id: string, name: string, description: Option<string>, items: seq<Item>)

  datatype Menu = Menu(categories: seq<Category>, uncategorized: seq<Item>)

  predicate NeedsAChoice(modifiers: seq<Modifier>) {
    exists i :: 0 <= i < |modifiers| && (modifiers[i].required || modifiers[i].minSelections > 0)
  }

  /** Visible, in stock, and needing no choice that a conversation cannot ask for. */
  predicate Orderable(item: Item) {
    item.isVisible && item.availability == CartPricing.AVAILABLE && !NeedsAChoice(item.modifiers)
  }

  function OrderableItems(items: seq<Item>): seq<Item> {
    if items == [] then []
    else (if Orderable(items[0]) then [items[0]] else []) + OrderableItems(items[1..])
  }

  function OpenCategories(categories: seq<Category>): seq<Category> {
    if categories == [] then []
    else (if OrderableItems(categories[0].items) != [] then [categories[0]] else []) + OpenCategories(categories[1..])
  }

  /** What can be ordered of a list of dishes: those visible, in stock, and with no group that needs a choice. */
  lemma {:induction false} OrderableItemsIff(items: seq<Item>, item: Item)
    ensures item in OrderableItems(items) <==>
      && item in items && item.isVisible && item.availability == CartPricing.AVAILABLE
      && forall i :: 0 <= i < |item.modifiers| ==> !item.modifiers[i].required && item.modifiers[i].minSelections <= 0
  {
    if items != [] {
      OrderableItemsIff(items[1..], item);
      assert items == [items[0]] + items[1..];
    }
  }

  /** And they keep their order. */
  lemma {:induction false} OrderableItemsInOrder(first: seq<Item>, second: seq<Item>)
    ensures OrderableItems(first + second) == OrderableItems(first) + OrderableItems(second)
  {
    hide Orderable;
    if first == [] {
      assert first + second == second;
    } else {
      OrderableItemsInOrder(first[1..], second);
      assert (first + second)[1..] == first[1..] + second;
    }
  }

  /** A section is offered exactly when something in it can be ordered, and sections keep their order. */
  lemma {:induction false} OpenCategoriesIff(categories: seq<Category>, category: Category)
    ensures category in OpenCategories(categories) <==>
      category in categories && exists item :: item in category.items && item in OrderableItems(category.items)
  {
    if categories != [] {
      OpenCategoriesIff(categories[1..], category);
      assert categories == [categories[0]] + categories[1..];
      var items := OrderableItems(category.items);
      if items != [] {
        OrderableItemsIff(category.items, items[0]);
        assert items[0] in category.items && items[0] in items;
      }
    }
  }

  lemma {:induction false} OpenCategoriesInOrder(first: seq<Category>, second: seq<Category>)
    ensures OpenCategories(first + second) == OpenCategories(first) + OpenCategories(second)
  {
    if first == [] {
      assert first + second == second;
    } else {
      var head := if OrderableItems(first[0].items) != [] then [first[0]] else [];
      hide OrderableItems;
      assert (first + second)[0] == first[0] && (first + second)[1..] == first[1..] + second;
      OpenCategoriesInOrder(first[1..], second);
      assert OpenCategories(first + second) == head + OpenCategories(first[1..] + second);
      assert head + (OpenCategories(first[1..]) + OpenCategories(second)) == (head + OpenCategories(first[1..])) + OpenCategories(second);
    }
  }

  lemma {:induction false} OpenHaveItems(categories: seq<Category>)
    ensures forall c :: c in OpenCategories(categories) ==> OrderableItems(c.items) != []
  {
    if categories != [] {
      OpenHaveItems(categories[1..]);
    }
  }

  function FindCategory(categories: seq<Category>, id: string): (r: Option<Category>)
    ensures r.Some? ==> r.value in categories && r.value.id == id
  {
    if categories == [] then None
    else if categories[0].id == id then Some(categories[0])
    else FindCategory(categories[1..], id)
  }

  // -- Browsing ------------------------------------------------------------------------

  datatype Context = Context(categoryId: Option<string>, page: Option<nat>)

  datatype Screen = Start | EmptyMenu | SectionList(rows: seq<Row>) | Dishes(category: Option<string>, page: nat, rows: seq<Row>)

  datatype View = View(screen: Screen, context: Context)

  const AT_START := View(Start, Context(None, None))

  function Numbered(rows: seq<Row>): (r: seq<Row>)
    ensures |r| == |rows|
    ensures forall i :: 0 <= i < |rows| ==> r[i].id == rows[i].id
  {
    seq(|rows|, i requires 0 <= i < |rows| => rows[i].(title := Digits(i + 1) + ". " + rows[i].title))
  }

  function SectionRows(categories: seq<Category>): (r: seq<Row>)
    ensures |r| <= PAGE_SIZE
    ensures RowIds(r) == CategoryIds(PageSlice(categories, 0))
  {
    var page := PageSlice(categories, 0);
    var rows := Numbered(seq(|page|, i requires 0 <= i < |page| =>
      Row(Encode(CATEGORY, Some(page[i].id)), page[i].name, page[i].description)));
    assert RowIds(rows) == CategoryIds(page);
    rows
  }

  function CategoryIds(categories: seq<Category>): (r: seq<string>)
    ensures |r| == |categories|
  {
    seq(|categories|, i requires 0 <= i < |categories| => Encode(CATEGORY, Some(categories[i].id)))
  }

  function ItemIds(items: seq<Item>): (r: seq<string>)
    ensures |r| == |items|
  {
    seq(|items|, i requires 0 <= i < |items| => Encode(ITEM, Some(items[i].id)))
  }

  function DishRows(items: seq<Item>, page: nat): seq<Row> {
    var shown := PageSlice(items, page);
    Numbered(
      seq(|shown|, i requires 0 <= i < |shown| => Row(Encode(ITEM, Some(shown[i].id)), shown[i].name, Some(shown[i].price)))
      + if HasNextPage(|items|, page) then [Row(Encode(MORE, None), "Show more", Some("See the rest of this section"))] else [])
  }

  function Chosen(categories: seq<Category>, categoryId: Option<string>): Option<Category> {
    if categoryId.Some? then FindCategory(categories, categoryId.value)
    else if |categories| == 1 then Some(categories[0])
    else None
  }

  function Browse(menu: Menu, context: Context, reply: Option<Reply>): View {
    var categories := OpenCategories(menu.categories);
    var loose := OrderableItems(menu.uncategorized);
    if categories == [] && loose == [] then View(EmptyMenu, context)
    else
      var paging := reply.Some? && reply.value.action == MORE;
      var categoryId := if paging then context.categoryId else if reply.Some? then reply.value.value else None;
      var page := if paging then (if context.page.Some? then context.page.value else 0) + 1 else 0;
      var chosen := Chosen(categories, categoryId);
      if chosen.None? && categories != [] then View(SectionList(SectionRows(categories)), Context(None, Some(0)))
      else
        var items := if chosen.Some? then OrderableItems(chosen.value.items) else loose;
        var category := if chosen.Some? then Some(chosen.value.id) else None;
        View(Dishes(category, page, DishRows(items, page)), Context(category, Some(page)))
  }

  /** What a customer sees who asks for the menu: the sections, unless there is just one, or none. */
  lemma FirstScreen(menu: Menu, context: Context)
    ensures var open, loose := OpenCategories(menu.categories), OrderableItems(menu.uncategorized);
      Browse(menu, context, Some(Reply(BROWSE, None))).screen ==
        if open == [] && loose == [] then EmptyMenu
        else if open == [] then Dishes(None, 0, DishRows(loose, 0))
        else if |open| == 1 then Dishes(Some(open[0].id), 0, DishRows(OrderableItems(open[0].items), 0))
        else SectionList(SectionRows(open))
  {
    hide OpenCategories, OrderableItems, DishRows, SectionRows;
  }

  function BrowseAll(menu: Menu, view: View, taps: seq<Reply>): View
    decreases taps
  {
    if taps == [] then view else BrowseAll(menu, Browse(menu, view.context, Some(taps[0])), taps[1..])
  }

  /** A page's rows are its dishes, then "Show more" exactly when dishes remain; ten at most, so none is lost when the list is built. */
  lemma PageKeepsEveryRow(items: seq<Item>, page: nat, title: string)
    ensures var rows := DishRows(items, page);
      && |rows| <= MAX_ROWS
      && RowIds(rows) == ItemIds(PageSlice(items, page)) + (if HasNextPage(|items|, page) then [Encode(MORE, None)] else [])
      && SectionIds(KeepRows([Section(title, rows)], MAX_ROWS)) == RowIds(rows)
  {
    hide Encode, HasNextPage;
    var rows := DishRows(items, page);
    assert RowIds(rows) == ItemIds(PageSlice(items, page)) + (if HasNextPage(|items|, page) then [Encode(MORE, None)] else []);
    FirstTenRowsAreKept([Section(title, rows)], MAX_ROWS);
    assert SectionIds([Section(title, rows)]) == RowIds(rows) + [] == RowIds(rows);
  }

  function Mores(n: nat): seq<Reply> {
    seq(n, _ => Reply(MORE, None))
  }

  /** Whether a chosen section is where the conversation is. */
  predicate At(menu: Menu, view: View, category: Category, page: nat) {
    view == View(Dishes(Some(category.id), page, DishRows(OrderableItems(category.items), page)),
                 Context(Some(category.id), Some(page)))
  }

  lemma {:induction false} MoreMovesOnePage(menu: Menu, view: View, category: Category, page: nat, n: nat)
    requires FindCategory(OpenCategories(menu.categories), category.id) == Some(category)
    requires At(menu, view, category, page)
    ensures At(menu, BrowseAll(menu, view, Mores(n)), category, page + n)
    decreases n
  {
    hide DishRows, OpenCategories, FindCategory, OrderableItems;
    if n > 0 {
      var next := Browse(menu, view.context, Some(Reply(MORE, None)));
      assert OpenCategories(menu.categories) != [] by { FoundSomewhere(OpenCategories(menu.categories), category.id); }
      assert At(menu, next, category, page + 1);
      assert Mores(n)[0] == Reply(MORE, None) && Mores(n)[1..] == Mores(n - 1);
      MoreMovesOnePage(menu, next, category, page + 1, n - 1);
    }
  }

  lemma FoundSomewhere(categories: seq<Category>, id: string)
    requires FindCategory(categories, id).Some?
    ensures categories != []
  {
  }

  /** Choosing a section and following "Show more" walks its pages in turn. */
  lemma SectionPages(menu: Menu, start: View, category: Category, n: nat)
    requires FindCategory(OpenCategories(menu.categories), category.id) == Some(category)
    ensures At(menu, BrowseAll(menu, start, [Reply(CATEGORY, Some(category.id))] + Mores(n)), category, n)
  {
    hide DishRows, OpenCategories, FindCategory, OrderableItems;
    FoundSomewhere(OpenCategories(menu.categories), category.id);
    var tap := Reply(CATEGORY, Some(category.id));
    var first := Browse(menu, start.context, Some(tap));
    assert At(menu, first, category, 0);
    assert ([tap] + Mores(n))[1..] == Mores(n);
    MoreMovesOnePage(menu, first, category, 0, n);
  }

  /** So the whole section is shown, each dish once and in order, over as many pages as nine to a page needs. */
  lemma SectionIsShownInFull(category: Category)
    requires OrderableItems(category.items) != []
    ensures var items := OrderableItems(category.items);
      && Follow(items, 0) == items
      && PagesFollowed(|items|, 0) == (|items| + PAGE_SIZE - 1) / PAGE_SIZE
      && forall page: nat :: HasNextPage(|items|, page) <==> page + 1 < PagesFollowed(|items|, 0)
  {
    var items := OrderableItems(category.items);
    FollowShowsTheRest(items, 0);
    PagesAreCeiling(|items|, 0);
  }

  /** But "Show more" tapped again on an older list walks past the end, to a list with no rows. */
  lemma PagePastTheEnd(items: seq<Item>, page: nat)
    ensures DishRows(items, page) == [] <==> page * PAGE_SIZE >= |items|
    ensures DishRows(items, page) == [] ==> forall title :: KeepRows([Section(title, DishRows(items, page))], MAX_ROWS) == []
  {
  }

  // -- What a row says and what typing its number does ----------------------------------

  /** The rows on offer after browsing. */
  function RowsOf(screen: Screen): seq<Row> {
    match screen
    case SectionList(rows) => rows
    case Dishes(_, _, rows) => rows
    case _ => []
  }

  /** A page's kth row is its kth dish, by name and price; "Show more" comes after them. */
  lemma DishRowSays(items: seq<Item>, page: nat, k: nat)
    requires k < |DishRows(items, page)|
    ensures var at := page * PAGE_SIZE + k;
      DishRows(items, page)[k] ==
        if k < PAGE_SIZE then
          Row(Encode(ITEM, Some(items[at].id)), Digits(k + 1) + ". " + items[at].name, Some(items[at].price))
        else Row(Encode(MORE, None), Digits(k + 1) + ". Show more", Some("See the rest of this section"))
  {
    hide Encode, Digits;
  }

  /** The kth row of the sections is the kth with anything to order. */
  lemma SectionRowSays(categories: seq<Category>, k: nat)
    requires k < |SectionRows(categories)|
    ensures k < |categories|
    ensures SectionRows(categories)[k]
         == Row(Encode(CATEGORY, Some(categories[k].id)), Digits(k + 1) + ". " + categories[k].name, categories[k].description)
  {
    hide Encode;
  }

  /** Every row starts with its own number and is something that can be tapped. */
  predicate IsNumbered(rows: seq<Row>) {
    && |rows| <= MAX_ROWS
    && forall k :: 0 <= k < |rows| ==> Digits(k + 1) + "." <= rows[k].title && Parse(Some(rows[k].id)).Some?
  }

  lemma BrowsingIsNumbered(menu: Menu, context: Context, reply: Option<Reply>)
    ensures IsNumbered(RowsOf(Browse(menu, context, reply).screen))
  {
    hide OpenCategories, OrderableItems, DishRows, SectionRows, Digits, Encode, Parse;
    match Browse(menu, context, reply).screen
    case Start =>
    case EmptyMenu =>
    case SectionList(rows) =>
      SectionsAreNumbered(OpenCategories(menu.categories));
    case Dishes(_, page, rows) =>
      var items :| rows == DishRows(items, page);
      DishesAreNumbered(items, page);
  }

  lemma DishesAreNumbered(items: seq<Item>, page: nat)
    ensures IsNumbered(DishRows(items, page))
  {
    PageKeepsEveryRow(items, page, "");
    hide DishRows, Digits, Encode, Parse;
    forall k: nat | k < |DishRows(items, page)|
      ensures Digits(k + 1) + "." <= DishRows(items, page)[k].title && Parse(Some(DishRows(items, page)[k].id)).Some?
    {
      DishRowSays(items, page, k);
      if k < PAGE_SIZE {
        ParseEncoded(ITEM, Some(items[page * PAGE_SIZE + k].id));
      } else {
        ParseEncoded(MORE, None);
      }
    }
  }

  lemma SectionsAreNumbered(categories: seq<Category>)
    ensures IsNumbered(SectionRows(categories))
  {
    hide SectionRows, Digits, Encode, Parse;
    forall k: nat | k < |SectionRows(categories)|
      ensures Digits(k + 1) + "." <= SectionRows(categories)[k].title && Parse(Some(SectionRows(categories)[k].id)).Some?
    {
      SectionRowSays(categories, k);
      ParseEncoded(CATEGORY, Some(categories[k].id));
    }
  }

  lemma {:induction false} TrimEndKeepsInk(ink: string, s: string)
    requires ink <= s && ink != [] && !IsSpace(ink[|ink| - 1])
    ensures ink <= TrimEnd(s)
    decreases |s|
  {
    hide IsSpace;
    if IsSpace(s[|s| - 1]) {
      TrimEndKeepsInk(ink, s[..|s| - 1]);
    }
  }

  lemma AtMostTwoDigits(n: nat)
    requires n < 100
    ensures |Digits(n)| <= 2
  {
  }

  /** However long the name, the number in front of it survives the clipping. */
  lemma ClippingKeepsTheNumber(row: Row, k: nat)
    requires k < MAX_ROWS && Digits(k + 1) + "." <= row.title
    ensures Digits(k + 1) + "." <= ClipRow(row).title
  {
    var ink := Digits(k + 1) + ".";
    assert |ink| <= 3;
    assert TrimStart(row.title) == row.title by { assert row.title[0] == Digits(k + 1)[0]; }
    TrimEndKeepsInk(ink, row.title);
    var trimmed := Trim(row.title);
    if |trimmed| > ROW_TITLE {
      TrimEndKeepsInk(ink, trimmed[..ROW_TITLE - 1]);
    }
  }

  /**
   * Whatever the customer was browsing, every row of the list sent starts with
   * its number, and typing that number does what tapping the row does.
   */
  lemma TypingARowsNumber(menu: Menu, context: Context, reply: Option<Reply>, body: string, title: string, k: nat, text: string, state: State)
    requires k < |RowsOf(Browse(menu, context, reply).screen)|
    requires state != BUILDING_CART && state != ASKING_ADDRESS
    ensures var rows := RowsOf(Browse(menu, context, reply).screen);
      var sections := KeepRows([Section(title, rows)], MAX_ROWS);
      var shown := ShownReplyIds([Picker(body, sections)]);
      && |sections| == 1 && |sections[0].rows| == |rows|
      && Digits(k + 1) + "." <= sections[0].rows[k].title
      && ResolveIntent(Digits(k + 1), None, state, shown) == ResolveIntent(text, Some(rows[k].id), state, shown)
  {
    hide Digits, Encode, Parse, ResolveIntent, Browse, Value, ClipRow, Truncate;
    var rows := RowsOf(Browse(menu, context, reply).screen);
    BrowsingIsNumbered(menu, context, reply);
    var sections := KeepRows([Section(title, rows)], MAX_ROWS);
    var whole := [Section(title, rows)];
    assert whole[1..] == [];
    assert First(rows, MAX_ROWS) == rows;
    assert KeepRows(whole[1..], MAX_ROWS - |rows|) == [];
    assert sections == [Section(Truncate(title, SECTION_TITLE), ClipRows(rows))];
    ClippingKeepsTheNumber(rows[k], k);
    KeepsId(rows);
    var shown := ShownReplyIds([Picker(body, sections)]);
    ConsIds(sections[0], []);
    assert sections == [sections[0]] + [];
    assert IdsOf(Picker(body, sections)) == RowIds(sections[0].rows);
    assert shown == RowIds(sections[0].rows);
    assert shown[k] == rows[k].id;
    AtMostTwoDigits(k + 1);
    TypedIsTapped(Digits(k + 1), text, state, shown);
  }

  // -- Which sections can be reached ---------------------------------------------------------

  /** The taps a list of this menu ever offers. */
  ghost predicate Offered(menu: Menu, reply: Reply) {
    || reply == Reply(BROWSE, None)
    || reply == Reply(MORE, None)
    || exists c :: c in PageSlice(OpenCategories(menu.categories), 0) && reply == Reply(CATEGORY, Some(c.id))
  }

  ghost predicate AllOffered(menu: Menu, taps: seq<Reply>) {
    forall i :: 0 <= i < |taps| ==> Offered(menu, taps[i])
  }

  predicate IsAmong(categories: seq<Category>, id: string) {
    exists i :: 0 <= i < |categories| && categories[i].id == id
  }

  predicate NearTheTop(menu: Menu, view: View) {
    var top := PageSlice(OpenCategories(menu.categories), 0);
    && (view.context.categoryId.Some? ==> IsAmong(top, view.context.categoryId.value))
    && (view.screen.Dishes? ==> match view.screen.category
        case Some(id) => IsAmong(top, id)
        case None => OpenCategories(menu.categories) == [])
  }

  lemma TapStaysNearTheTop(menu: Menu, view: View, reply: Reply)
    requires NearTheTop(menu, view) && Offered(menu, reply)
    ensures NearTheTop(menu, Browse(menu, view.context, Some(reply)))
  {
    hide DishRows, SectionRows, OrderableItems, OpenCategories;
    var categories := OpenCategories(menu.categories);
    var top := PageSlice(categories, 0);
    if categories == [] {
      assert top == [];
    } else if reply.action == CATEGORY {
      var c :| c in top && reply == Reply(CATEGORY, Some(c.id));
      assert IsAmong(top, c.id);
    }
    if |categories| == 1 {
      assert top == categories && IsAmong(top, categories[0].id);
    }
  }

  lemma {:induction false} TapsStayNearTheTop(menu: Menu, view: View, taps: seq<Reply>)
    requires NearTheTop(menu, view) && AllOffered(menu, taps)
    ensures NearTheTop(menu, BrowseAll(menu, view, taps))
    decreases taps
  {
    hide NearTheTop, Offered, Browse;
    if taps != [] {
      TapStaysNearTheTop(menu, view, taps[0]);
      TapsStayNearTheTop(menu, Browse(menu, view.context, Some(taps[0])), taps[1..]);
    }
  }

  predicate DistinctIds(categories: seq<Category>) {
    forall i, j :: 0 <= i < j < |categories| ==> categories[i].id != categories[j].id
  }

  lemma {:induction false} FoundAt(categories: seq<Category>, i: nat)
    requires DistinctIds(categories) && i < |categories|
    ensures FindCategory(categories, categories[i].id) == Some(categories[i])
  {
    if i > 0 {
      assert categories[0].id != categories[i].id;
      assert forall j, k :: 0 <= j < k < |categories[1..]| ==> categories[1..][j] == categories[j + 1] && categories[1..][k] == categories[k + 1];
      FoundAt(categories[1..], i - 1);
    }
  }

  /** A section's dishes can be reached by tapping exactly when it is one of the first nine with anything to order. */
  lemma SectionReachableIff(menu: Menu, i: nat)
    requires var categories := OpenCategories(menu.categories); DistinctIds(categories) && i < |categories|
    ensures (exists taps :: AllOffered(menu, taps)
               && ShowsSection(BrowseAll(menu, AT_START, taps), OpenCategories(menu.categories)[i].id))
       <==> i < PAGE_SIZE
  {
    hide DishRows, SectionRows, OrderableItems, OpenCategories, FindCategory, BrowseAll, Browse;
    var categories := OpenCategories(menu.categories);
    var id := categories[i].id;
    if i < PAGE_SIZE {
      FoundAt(categories, i);
      var taps := [Reply(CATEGORY, Some(id))] + Mores(0);
      assert PageSlice(categories, 0)[i] == categories[i];
      assert Offered(menu, taps[0]);
      assert AllOffered(menu, taps);
      SectionPages(menu, AT_START, categories[i], 0);
      assert ShowsSection(BrowseAll(menu, AT_START, taps), id);
    } else {
      forall taps | AllOffered(menu, taps)
        ensures !ShowsSection(BrowseAll(menu, AT_START, taps), id)
      {
        TapsStayNearTheTop(menu, AT_START, taps);
        NotInTheFirstNine(categories, i);
      }
    }
  }

  lemma NotInTheFirstNine(categories: seq<Category>, i: nat)
    requires DistinctIds(categories) && PAGE_SIZE <= i < |categories|
    ensures !IsAmong(PageSlice(categories, 0), categories[i].id)
  {
  }

  predicate ShowsSection(view: View, id: string) {
    view.screen.Dishes? && view.screen.category == Some(id)
  }

  predicate ShowsLoose(view: View) {
    view.screen.Dishes? && view.screen.category == None
  }

  /** Dishes without a section can be reached exactly when no section has anything to order. */
  lemma LooseReachableIff(menu: Menu)
    requires OrderableItems(menu.uncategorized) != []
    ensures (exists taps :: AllOffered(menu, taps) && ShowsLoose(BrowseAll(menu, AT_START, taps)))
       <==> OpenCategories(menu.categories) == []
  {
    hide DishRows, SectionRows, OrderableItems, OpenCategories, FindCategory;
    if OpenCategories(menu.categories) == [] {
      var taps := [Reply(BROWSE, None)];
      assert AllOffered(menu, taps);
      assert BrowseAll(menu, AT_START, taps) == Browse(menu, AT_START.context, Some(taps[0]));
      assert ShowsLoose(BrowseAll(menu, AT_START, taps));
    } else {
      hide Browse, BrowseAll;
      forall taps | AllOffered(menu, taps)
        ensures !ShowsLoose(BrowseAll(menu, AT_START, taps))
      {
        TapsStayNearTheTop(menu, AT_START, taps);
      }
    }
  }
}
