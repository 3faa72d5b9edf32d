/** What a customer's message means: tapped reply ids, typed numbers and typed words. */
module Replies {
  import opened Outcomes
  import opened Decimals

  // -- Reply ids -------------------------------------------------------------------

  datatype Action =
    | CATEGORY | ITEM | QUANTITY | ORDER_TYPE | VIEW_CART | CHECKOUT
    | CONFIRM | CANCEL | BROWSE | TRACK | HANDOFF | MORE

  const ACTIONS: seq<Action> := [
    CATEGORY, ITEM, QUANTITY, ORDER_TYPE, VIEW_CART, CHECKOUT, CONFIRM, CANCEL, BROWSE, TRACK, HANDOFF, MORE]

  function Name(action: Action): string {
    match action
    case CATEGORY => "cat"
    case ITEM => "item"
    case QUANTITY => "qty"
    case ORDER_TYPE => "type"
    case VIEW_CART => "cart"
    case CHECKOUT => "checkout"
    case CONFIRM => "confirm"
    case CANCEL => "cancel"
    case BROWSE => "browse"
    case TRACK => "track"
    case HANDOFF => "agent"
    case MORE => "more"
  }

  datatype Reply = Reply(action: Action, value: Option<string>)

  function Encode(action: Action, value: Option<string>): string {
    if value.None? then Name(action) else Name(action) + ":" + value.value
  }

  /** The ids that are on customers' screens already, which a later release must go on reading the same way. */
  lemma WireForm(value: string)
    ensures Encode(CATEGORY, Some(value)) == "cat:" + value && Encode(ITEM, Some(value)) == "item:" + value
    ensures Encode(QUANTITY, Some(value)) == "qty:" + value && Encode(ORDER_TYPE, Some(value)) == "type:" + value
    ensures Encode(VIEW_CART, None) == "cart" && Encode(CHECKOUT, None) == "checkout" && Encode(CONFIRM, None) == "confirm"
    ensures Encode(CANCEL, None) == "cancel" && Encode(BROWSE, None) == "browse" && Encode(TRACK, None) == "track"
    ensures Encode(HANDOFF, None) == "agent" && Encode(MORE, None) == "more"
  {
    assert "cat" + ":" == "cat:" && "item" + ":" == "item:" && "qty" + ":" == "qty:" && "type" + ":" == "type:";
  }

  function IndexOfColon(s: string): (r: Option<nat>)
    ensures r.Some? ==> r.value < |s| && s[r.value] == ':' && ':' !in s[..r.value]
    ensures r.None? ==> ':' !in s
  {
    if s == [] then None
    else if s[0] == ':' then Some(0)
    else match IndexOfColon(s[1..])
      case None => None
      case Some(i) =>
        assert s[..i + 1] == [s[0]] + s[1..][..i];
        Some(i + 1)
  }

  function ActionNamed(name: string, actions: seq<Action>): Option<Action> {
    if actions == [] then None
    else if Name(actions[0]) == name then Some(actions[0])
    else ActionNamed(name, actions[1..])
  }

  function Parse(id: Option<string>): Option<Reply> {
    if id.None? || id.value == [] then None
    else
      var separator := IndexOfColon(id.value);
      var name := if separator.None? then id.value else id.value[..separator.value];
      match ActionNamed(name, ACTIONS)
      case None => None
      case Some(action) =>
        var value := if separator.None? then [] else id.value[separator.value + 1..];
        Some(Reply(action, if value == [] then None else Some(value)))
  }

  lemma NamesTell(action: Action)
    ensures Name(action) != [] && ':' !in Name(action)
    ensures forall other :: Name(other) == Name(action) ==> other == action
  {
  }

  lemma {:induction false} FoundByName(action: Action, actions: seq<Action>)
    requires action in actions
    ensures ActionNamed(Name(action), actions) == Some(action)
  {
    hide Name;
    NamesTell(action);
    if actions[0] != action {
      assert action in actions[1..];
      FoundByName(action, actions[1..]);
    }
  }

  lemma EveryAction(action: Action)
    ensures ActionNamed(Name(action), ACTIONS) == Some(action)
  {
    hide Name, ActionNamed;
    assert action in ACTIONS;
    FoundByName(action, ACTIONS);
  }

  lemma {:induction false} OnlyByName(name: string, actions: seq<Action>)
    requires ActionNamed(name, actions).Some?
    ensures Name(ActionNamed(name, actions).value) == name
  {
    if Name(actions[0]) != name {
      OnlyByName(name, actions[1..]);
    }
  }

  lemma {:induction false} FirstColon(before: string, after: string)
    requires ':' !in before
    ensures IndexOfColon(before + ":" + after) == Some(|before|)
  {
    if before != [] {
      assert (before + ":" + after)[1..] == before[1..] + ":" + after;
      FirstColon(before[1..], after);
    }
  }

  /** A built id reads back as what it was built from, colons in the value included; an empty value is none. */
  lemma ParseEncoded(action: Action, value: Option<string>)
    ensures Parse(Some(Encode(action, value)))
         == Some(Reply(action, if value == Some("") then None else value))
  {
    hide Name, ActionNamed, IndexOfColon;
    NamesTell(action);
    EveryAction(action);
    if value.Some? {
      var id := Name(action) + ":" + value.value;
      FirstColon(Name(action), value.value);
      assert id[..|Name(action)|] == Name(action) && id[|Name(action)| + 1..] == value.value;
    }
  }

  /** And what an id reads as builds that id again, but for a bare trailing colon. */
  lemma EncodeParsed(id: string)
    requires Parse(Some(id)).Some?
    ensures var reply := Parse(Some(id)).value;
      Encode(reply.action, reply.value) == id <==> id != Name(reply.action) + ":"
  {
    hide Name, ActionNamed, IndexOfColon;
    var separator := IndexOfColon(id);
    var name := if separator.None? then id else id[..separator.value];
    OnlyByName(name, ACTIONS);
    NamesTell(Parse(Some(id)).value.action);
    if separator.Some? {
      assert id == name + ":" + id[separator.value + 1..];
    }
  }

  // -- Intents -----------------------------------------------------------------------

  datatype State =
    | IDLE | BROWSING_MENU | BUILDING_CART | SELECTING_ORDER_TYPE | ASKING_ADDRESS | CONFIRMING_ORDER
    | AWAITING_PAYMENT | TRACKING_ORDER | RESERVATION_FLOW | HUMAN_HANDOFF

  datatype Intent =
    | Greeting | BrowseMenu | SearchMenu | AddToCart | ViewCart | CheckoutCart | SelectOrderType
    | ProvideAddress | ConfirmOrder | CancelOrder | TrackOrder | HumanHandoff | Unknown

  datatype Resolved = Resolved(intent: Intent, reply: Option<Reply>, query: Option<string>)

  function ReplyIntent(action: Action): Intent {
    match action
    case CATEGORY => BrowseMenu
    case ITEM => AddToCart
    case QUANTITY => AddToCart
    case ORDER_TYPE => SelectOrderType
    case VIEW_CART => ViewCart
    case CHECKOUT => CheckoutCart
    case CONFIRM => ConfirmOrder
    case CANCEL => CancelOrder
    case BROWSE => BrowseMenu
    case TRACK => TrackOrder
    case HANDOFF => HumanHandoff
    case MORE => BrowseMenu
  }

  /** The first entry with a word in the message wins, so the order of the table matters. */
  const KEYWORDS: seq<(Intent, seq<string>)> := [
    (HumanHandoff, ["agent", "human", "person", "complaint", "manager", "baat", "help"]),
    (TrackOrder, ["track", "status", "where", "kahan", "kidhar"]),
    (CancelOrder, ["cancel", "stop", "no", "nahi", "nahin"]),
    (CheckoutCart, ["checkout", "confirm", "place", "done", "finish"]),
    (ViewCart, ["cart", "basket", "total"]),
    (BrowseMenu, ["menu", "order", "food", "khana", "dikhao", "kya", "list"]),
    (Greeting, ["hi", "hello", "hey", "salam", "salaam", "assalam", "assalamualaikum", "aoa", "start"])]

  const AFFIRMATIVES: seq<string> := ["yes", "y", "ok", "okay", "haan", "han", "ji", "theek", "sure"]

  function Lower(s: string): (r: string)
    ensures |r| == |s|
  {
    seq(|s|, i requires 0 <= i < |s| => if 'A' <= s[i] <= 'Z' then (s[i] as int + 32) as char else s[i])
  }

  predicate IsWordChar(c: char) {
    'a' <= c <= 'z' || IsDigit(c)
  }

  /** The runs of letters and digits, with `run` the one being read. */
  function WordsOf(s: string, run: string): set<string> {
    if s == [] then (if run == [] then {} else {run})
    else if IsWordChar(s[0]) then WordsOf(s[1..], run + [s[0]])
    else (if run == [] then {} else {run}) + WordsOf(s[1..], [])
  }

  predicate AnyOf(words: seq<string>, said: set<string>) {
    exists i :: 0 <= i < |words| && words[i] in said
  }

  function FirstMatch(table: seq<(Intent, seq<string>)>, said: set<string>): Option<Intent> {
    if table == [] then None
    else if AnyOf(table[0].1, said) then Some(table[0].0)
    else FirstMatch(table[1..], said)
  }

  function MatchedIntent(lowered: string): Option<Intent> {
    FirstMatch(KEYWORDS, WordsOf(lowered, []))
  }

  predicate IsBareNumber(s: string) {
    1 <= |s| <= 2 && AllDigits(s)
  }

  /** The id at a typed position, counting from one. */
  function ShownAt(shown: seq<string>, position: nat): Option<string> {
    if 1 <= position <= |shown| then Some(shown[position - 1]) else None
  }

  function Plain(intent: Intent): Resolved {
    Resolved(intent, None, None)
  }

  function FromReply(reply: Reply): Resolved {
    Resolved(ReplyIntent(reply.action), Some(reply), None)
  }

  /** What words alone mean, once a tap, an address and a number have been ruled out. */
  function FromWords(text: string, lowered: string, state: State): Resolved {
    match MatchedIntent(lowered)
    case Some(intent) => Plain(if intent == CheckoutCart && state == CONFIRMING_ORDER then ConfirmOrder else intent)
    case None =>
      if lowered in AFFIRMATIVES then Plain(if state == CONFIRMING_ORDER then ConfirmOrder else Greeting)
      else if |text| >= 3 && (state == IDLE || state == BROWSING_MENU || state == BUILDING_CART) then
        Resolved(SearchMenu, None, Some(text))
      else Plain(Unknown)
  }

  /** A tap wins over the text; then the state decides what the text is. */
  function ResolveIntent(input: string, replyId: Option<string>, state: State, shown: seq<string>): Resolved {
    var reply := Parse(replyId);
    if reply.Some? then FromReply(reply.value)
    else
      var text := Trim(input);
      var lowered := Lower(text);
      if state == ASKING_ADDRESS && text != [] then
        var matched := MatchedIntent(lowered);
        if matched == Some(CancelOrder) || matched == Some(HumanHandoff) then Plain(matched.value)
        else Resolved(ProvideAddress, None, Some(text))
      else if IsBareNumber(lowered) then
        if state == BUILDING_CART then FromReply(Reply(QUANTITY, Some(lowered)))
        else
          var selected := Parse(ShownAt(shown, Value(lowered)));
          if selected.Some? then FromReply(selected.value) else FromWords(text, lowered, state)
      else FromWords(text, lowered, state)
  }

  // -- Words ---------------------------------------------------------------------------

  /** The first entry of a table with a word said, and no entry before it. */
  predicate FirstAt(table: seq<(Intent, seq<string>)>, said: set<string>, i: nat)
    requires i < |table|
  {
    AnyOf(table[i].1, said) && forall j :: 0 <= j < i ==> !AnyOf(table[j].1, said)
  }

  lemma {:induction false} FirstMatchIff(table: seq<(Intent, seq<string>)>, said: set<string>, intent: Intent)
    ensures FirstMatch(table, said) == Some(intent) <==>
      exists i :: 0 <= i < |table| && FirstAt(table, said, i) && table[i].0 == intent
  {
    hide AnyOf;
    if table != [] {
      var rest := table[1..];
      if AnyOf(table[0].1, said) {
        assert FirstAt(table, said, 0);
      } else {
        FirstMatchIff(rest, said, intent);
        forall i | 0 <= i < |rest|
          ensures FirstAt(rest, said, i) <==> FirstAt(table, said, i + 1)
        {
          assert forall j :: 0 <= j < i ==> rest[j] == table[j + 1];
          if FirstAt(rest, said, i) {
            forall j | 0 <= j < i + 1
              ensures !AnyOf(table[j].1, said)
            {
              if j > 0 { assert rest[j - 1] == table[j]; }
            }
          }
        }
        if i :| 0 <= i < |table| && FirstAt(table, said, i) && table[i].0 == intent {
          assert i > 0 && FirstAt(rest, said, i - 1);
        }
        if i :| 0 <= i < |rest| && FirstAt(rest, said, i) && rest[i].0 == intent {
          assert FirstAt(table, said, i + 1) && table[i + 1].0 == intent;
        }
      }
    }
  }

  // -- What words are -----------------------------------------------------------------

  lemma WordChars(c: char)
    ensures IsWordChar(c) <==> c in "abcdefghijklmnopqrstuvwxyz0123456789"
  {
  }

  /** A run of letters and digits that stands at `i` with neither before nor after it. */
  predicate WordAt(s: string, i: nat, word: string) {
    && word != [] && i + |word| <= |s| && s[i..i + |word|] == word
    && (forall k :: 0 <= k < |word| ==> IsWordChar(word[k]))
    && (i > 0 ==> !IsWordChar(s[i - 1]))
    && (i + |word| < |s| ==> !IsWordChar(s[i + |word|]))
  }

  predicate HasWord(s: string, word: string) {
    exists i :: 0 <= i <= |s| && WordAt(s, i, word)
  }

  predicate AllWordChars(s: string) {
    forall k :: 0 <= k < |s| ==> IsWordChar(s[k])
  }

  lemma OneRunOneWord(run: string, word: string)
    requires AllWordChars(run)
    ensures HasWord(run, word) <==> word == run && run != []
  {
    hide IsWordChar;
    if i :| 0 <= i <= |run| && WordAt(run, i, word) {
      assert i == 0 && |word| == |run|;
    }
    if run != [] {
      assert WordAt(run, 0, run);
    }
  }

  lemma WordBeforeASeparator(run: string, separator: char, rest: string, word: string, i: nat)
    requires AllWordChars(run) && !IsWordChar(separator)
    requires i <= |run| && WordAt(run + [separator] + rest, i, word)
    ensures word == run
  {
    hide IsWordChar;
    var s := run + [separator] + rest;
    assert s[|run|] == separator && s[..|run|] == run;
    var end := i + |word|;
    forall k: nat | i <= k < end
      ensures IsWordChar(s[k])
    {
      assert s[k] == s[i..end][k - i] == word[k - i];
    }
    forall k | 0 <= k < |run|
      ensures IsWordChar(s[k])
    {
      assert s[k] == run[k];
    }
  }

  lemma WordAfterASeparator(run: string, separator: char, rest: string, word: string, i: nat)
    requires !IsWordChar(separator)
    ensures WordAt(run + [separator] + rest, |run| + 1 + i, word) <==> WordAt(rest, i, word)
  {
    hide IsWordChar;
    var s := run + [separator] + rest;
    var n := |run| + 1;
    var end := i + |word|;
    assert s[n..] == rest && s[n - 1] == separator;
    if end <= |rest| {
      assert s[n + i..n + end] == rest[i..end];
      assert i > 0 ==> s[n + i - 1] == rest[i - 1];
      assert end < |rest| ==> s[n + end] == rest[end];
    }
  }

  lemma WordsAroundASeparator(run: string, separator: char, rest: string, word: string)
    requires AllWordChars(run) && !IsWordChar(separator)
    ensures HasWord(run + [separator] + rest, word) <==> (word == run && run != []) || HasWord(rest, word)
  {
    var s := run + [separator] + rest;
    var n := |run| + 1;
    if i :| 0 <= i <= |s| && WordAt(s, i, word) {
      if i < n {
        WordBeforeASeparator(run, separator, rest, word, i);
      } else {
        WordAfterASeparator(run, separator, rest, word, i - n);
      }
    }
    if word == run && run != [] {
      assert s[..|run|] == run && s[|run|] == separator;
      assert WordAt(s, 0, run);
    }
    if i :| 0 <= i <= |rest| && WordAt(rest, i, word) {
      WordAfterASeparator(run, separator, rest, word, i);
    }
  }

  lemma {:induction false} WordsAre(s: string, run: string, word: string)
    requires AllWordChars(run)
    ensures word in WordsOf(s, run) <==> HasWord(run + s, word)
    decreases |s|
  {
    hide IsWordChar, HasWord;
    if s == [] {
      assert run + s == run;
      OneRunOneWord(run, word);
    } else if IsWordChar(s[0]) {
      WordsAre(s[1..], run + [s[0]], word);
      assert run + [s[0]] + s[1..] == run + s;
    } else {
      WordsAre(s[1..], [], word);
      assert [] + s[1..] == s[1..];
      WordsAroundASeparator(run, s[0], s[1..], word);
      assert run + [s[0]] + s[1..] == run + s;
    }
  }

  /** One of these words is among those written. */
  predicate Says(text: string, words: seq<string>) {
    exists i :: 0 <= i < |words| && HasWord(text, words[i])
  }

  lemma SaysIff(text: string, words: seq<string>)
    ensures AnyOf(words, WordsOf(text, [])) <==> Says(text, words)
  {
    hide WordsOf, HasWord;
    forall i | 0 <= i < |words|
      ensures words[i] in WordsOf(text, []) <==> HasWord(text, words[i])
    {
      WordsAre(text, [], words[i]);
      assert [] + text == text;
    }
  }

  /** Letters count alike in either case. */
  lemma CaseIsIgnored(a: string, b: string)
    requires |a| == |b|
    requires forall i :: 0 <= i < |a| ==> a[i] == b[i] || ('A' <= a[i] <= 'Z' && b[i] as int == a[i] as int + 32)
    ensures Lower(a) == Lower(b)
  {
  }

  // -- What words mean ------------------------------------------------------------------

  predicate AsksForAPerson(text: string) {
    Says(text, ["agent", "human", "person", "complaint", "manager", "baat", "help"])
  }

  predicate AsksWhere(text: string) {
    Says(text, ["track", "status", "where", "kahan", "kidhar"])
  }

  predicate CallsOff(text: string) {
    Says(text, ["cancel", "stop", "no", "nahi", "nahin"])
  }

  predicate Concludes(text: string) {
    Says(text, ["checkout", "confirm", "place", "done", "finish"])
  }

  predicate AsksForTheCart(text: string) {
    Says(text, ["cart", "basket", "total"])
  }

  predicate AsksForTheMenu(text: string) {
    Says(text, ["menu", "order", "food", "khana", "dikhao", "kya", "list"])
  }

  predicate Greets(text: string) {
    Says(text, ["hi", "hello", "hey", "salam", "salaam", "assalam", "assalamualaikum", "aoa", "start"])
  }

  predicate Agrees(text: string) {
    text in {"yes", "y", "ok", "okay", "haan", "han", "ji", "theek", "sure"}
  }

  /** The command words of a message, the most specific first. */
  lemma CommandIs(lowered: string)
    ensures MatchedIntent(lowered) ==
      if AsksForAPerson(lowered) then Some(HumanHandoff)
      else if AsksWhere(lowered) then Some(TrackOrder)
      else if CallsOff(lowered) then Some(CancelOrder)
      else if Concludes(lowered) then Some(CheckoutCart)
      else if AsksForTheCart(lowered) then Some(ViewCart)
      else if AsksForTheMenu(lowered) then Some(BrowseMenu)
      else if Greets(lowered) then Some(Greeting)
      else None
  {
    hide WordsOf, Says, AnyOf;
    forall words: seq<string> ensures AnyOf(words, WordsOf(lowered, [])) <==> Says(lowered, words) {
      SaysIff(lowered, words);
    }
    var said := WordsOf(lowered, []);
    assert KEYWORDS[1..][0] == KEYWORDS[1] && KEYWORDS[2..][0] == KEYWORDS[2] && KEYWORDS[3..][0] == KEYWORDS[3];
    assert KEYWORDS[4..][0] == KEYWORDS[4] && KEYWORDS[5..][0] == KEYWORDS[5] && KEYWORDS[6..][0] == KEYWORDS[6];
    assert KEYWORDS[1..][1..] == KEYWORDS[2..] && KEYWORDS[2..][1..] == KEYWORDS[3..] && KEYWORDS[3..][1..] == KEYWORDS[4..];
    assert KEYWORDS[4..][1..] == KEYWORDS[5..] && KEYWORDS[5..][1..] == KEYWORDS[6..] && KEYWORDS[6..][1..] == [];
    assert FirstMatch([], said) == None;
    assert FirstMatch(KEYWORDS[6..], said) == if AnyOf(KEYWORDS[6].1, said) then Some(Greeting) else None;
    assert FirstMatch(KEYWORDS[5..], said) == if AnyOf(KEYWORDS[5].1, said) then Some(BrowseMenu) else FirstMatch(KEYWORDS[6..], said);
    assert FirstMatch(KEYWORDS[4..], said) == if AnyOf(KEYWORDS[4].1, said) then Some(ViewCart) else FirstMatch(KEYWORDS[5..], said);
    assert FirstMatch(KEYWORDS[3..], said) == if AnyOf(KEYWORDS[3].1, said) then Some(CheckoutCart) else FirstMatch(KEYWORDS[4..], said);
    assert FirstMatch(KEYWORDS[2..], said) == if AnyOf(KEYWORDS[2].1, said) then Some(CancelOrder) else FirstMatch(KEYWORDS[3..], said);
    assert FirstMatch(KEYWORDS[1..], said) == if AnyOf(KEYWORDS[1].1, said) then Some(TrackOrder) else FirstMatch(KEYWORDS[2..], said);
  }

  /** A typed message outside the address and with no number in it. */
  lemma WordsMean(input: string, state: State, shown: seq<string>)
    requires state != ASKING_ADDRESS && !IsBareNumber(Trim(input))
    ensures var text := Trim(input);
      var lowered := Lower(text);
      ResolveIntent(input, None, state, shown) ==
        if AsksForAPerson(lowered) then Resolved(HumanHandoff, None, None)
        else if AsksWhere(lowered) then Resolved(TrackOrder, None, None)
        else if CallsOff(lowered) then Resolved(CancelOrder, None, None)
        else if Concludes(lowered) then Resolved(if state == CONFIRMING_ORDER then ConfirmOrder else CheckoutCart, None, None)
        else if AsksForTheCart(lowered) then Resolved(ViewCart, None, None)
        else if AsksForTheMenu(lowered) then Resolved(BrowseMenu, None, None)
        else if Greets(lowered) then Resolved(Greeting, None, None)
        else if Agrees(lowered) then Resolved(if state == CONFIRMING_ORDER then ConfirmOrder else Greeting, None, None)
        else if |text| >= 3 && (state == IDLE || state == BROWSING_MENU || state == BUILDING_CART) then
          Resolved(SearchMenu, None, Some(text))
        else Resolved(Unknown, None, None)
  {
    var text := Trim(input);
    LowerKeepsNumbers(text);
    CommandIs(Lower(text));
    NoId();
    assert Lower(text) in AFFIRMATIVES <==> Agrees(Lower(text));
    hide MatchedIntent, Trim, Lower, Parse, Says;
  }

  /** At the address whatever is written is the address, unless it calls off or asks for a person. */
  lemma AddressMeans(input: string, shown: seq<string>)
    requires Trim(input) != []
    ensures var text := Trim(input);
      var lowered := Lower(text);
      ResolveIntent(input, None, ASKING_ADDRESS, shown) ==
        if AsksForAPerson(lowered) then Resolved(HumanHandoff, None, None)
        else if CallsOff(lowered) && !AsksWhere(lowered) then Resolved(CancelOrder, None, None)
        else Resolved(ProvideAddress, None, Some(text))
  {
    CommandIs(Lower(Trim(input)));
    NoId();
    hide MatchedIntent, Trim, Lower, Parse, Says;
  }

  // -- What a tap means ---------------------------------------------------------------------

  /** A tapped row or button means what it was built for, in every state and whatever its title says. */
  lemma TapMeans(action: Action, value: Option<string>, text: string, state: State, shown: seq<string>)
    ensures var resolved := ResolveIntent(text, Some(Encode(action, value)), state, shown);
      && resolved.reply == Some(Reply(action, if value == Some("") then None else value)) && resolved.query == None
      && resolved.intent ==
         match action
         case CATEGORY => BrowseMenu
         case BROWSE => BrowseMenu
         case MORE => BrowseMenu
         case ITEM => AddToCart
         case QUANTITY => AddToCart
         case ORDER_TYPE => SelectOrderType
         case VIEW_CART => ViewCart
         case CHECKOUT => CheckoutCart
         case CONFIRM => ConfirmOrder
         case CANCEL => CancelOrder
         case TRACK => TrackOrder
         case HANDOFF => HumanHandoff
  {
    ParseEncoded(action, value);
    hide Parse, Encode, Trim, Lower, MatchedIntent;
  }

  // -- When an order is confirmed --------------------------------------------------------------

  /** A number typed for a confirm button that is shown. */
  predicate NumbersConfirm(text: string, shown: seq<string>) {
    && IsBareNumber(text) && 1 <= Value(text) <= |shown|
    && Parse(Some(shown[Value(text) - 1])).Some? && Parse(Some(shown[Value(text) - 1])).value.action == CONFIRM
  }

  lemma NumbersAgreeToNothing(text: string)
    requires IsBareNumber(text)
    ensures Lower(text) == text && Trim(text) == text && MatchedIntent(text) == None && text !in AFFIRMATIVES
  {
    DigitsAreThemselves(text);
    NumbersAreNoKeywords(text);
    assert forall i :: 0 <= i < |AFFIRMATIVES| ==> AFFIRMATIVES[i] != [] && !IsDigit(AFFIRMATIVES[i][0]);
  }

  /** Words that conclude or agree, and that call nothing off, ask for nobody and ask after nothing. */
  predicate SaysYes(lowered: string) {
    && !AsksForAPerson(lowered) && !AsksWhere(lowered) && !CallsOff(lowered)
    && (Concludes(lowered)
        || (Agrees(lowered) && !AsksForTheCart(lowered) && !AsksForTheMenu(lowered) && !Greets(lowered)))
  }

  lemma NumberConfirmsIff(input: string, state: State, shown: seq<string>)
    requires IsBareNumber(Trim(input))
    ensures ResolveIntent(input, None, state, shown).intent == ConfirmOrder <==>
      state != BUILDING_CART && state != ASKING_ADDRESS && NumbersConfirm(Trim(input), shown)
    ensures !SaysYes(Lower(Trim(input)))
  {
    var text := Trim(input);
    NumbersAgreeToNothing(text);
    CommandIs(text);
    NoId();
    assert Agrees(text) <==> text in AFFIRMATIVES;
    hide MatchedIntent, Trim, Lower, Parse, Value, Says;
  }

  lemma AddressConfirmsNothing(input: string, shown: seq<string>)
    requires !IsBareNumber(Trim(input))
    ensures ResolveIntent(input, None, ASKING_ADDRESS, shown).intent != ConfirmOrder
  {
    if Trim(input) != [] {
      AddressMeans(input, shown);
    } else {
      NoId();
      CommandIs(Lower(Trim(input)));
      hide MatchedIntent, Trim, Parse, Says;
    }
  }

  lemma TypedConfirmsIff(input: string, state: State, shown: seq<string>)
    ensures ResolveIntent(input, None, state, shown).intent == ConfirmOrder <==>
      || (state != BUILDING_CART && state != ASKING_ADDRESS && NumbersConfirm(Trim(input), shown))
      || (state == CONFIRMING_ORDER && SaysYes(Lower(Trim(input))))
  {
    if IsBareNumber(Trim(input)) {
      NumberConfirmsIff(input, state, shown);
      hide ResolveIntent, Trim, Lower, NumbersConfirm, SaysYes;
    } else {
      if state == ASKING_ADDRESS {
        AddressConfirmsNothing(input, shown);
      } else {
        WordsMean(input, state, shown);
      }
      hide ResolveIntent, Trim, Lower, Parse, Value, Says;
    }
  }

  /**
   * A message confirms an order exactly when it is a tap on confirm; or the typed
   * number of a confirm button shown, outside the cart and the address; or, once the
   * customer has been asked to confirm, words that conclude or agree and that call
   * nothing off, ask for nobody and ask after nothing.
   */
  lemma ConfirmsIff(input: string, replyId: Option<string>, state: State, shown: seq<string>)
    ensures ResolveIntent(input, replyId, state, shown).intent == ConfirmOrder <==>
      if Parse(replyId).Some? then Parse(replyId).value.action == CONFIRM
      else
        || (state != BUILDING_CART && state != ASKING_ADDRESS && NumbersConfirm(Trim(input), shown))
        || (state == CONFIRMING_ORDER && SaysYes(Lower(Trim(input))))
  {
    TypedConfirmsIff(input, state, shown);
    if Parse(replyId).None? {
      UnreadTapIsNone(input, replyId, state, shown);
    }
    hide Trim, Lower, Parse, Value, MatchedIntent, NumbersConfirm, SaysYes;
  }

  /** A tap nobody can read is no tap. */
  lemma UnreadTapIsNone(input: string, replyId: Option<string>, state: State, shown: seq<string>)
    requires Parse(replyId).None?
    ensures ResolveIntent(input, replyId, state, shown) == ResolveIntent(input, None, state, shown)
  {
    NoId();
    hide Parse, Trim, Lower, MatchedIntent;
  }

  lemma LowerKeepsNumbers(text: string)
    ensures IsBareNumber(Lower(text)) ==> IsBareNumber(text)
  {
    forall i | 0 <= i < |text| && IsDigit(Lower(text)[i])
      ensures IsDigit(text[i])
    {
    }
  }

  // -- Typing a number and tapping ---------------------------------------------------

  lemma DigitsAreThemselves(typed: string)
    requires IsBareNumber(typed)
    ensures Trim(typed) == typed && Lower(typed) == typed
  {
    NothingToTrim(typed);
    hide Trim;
    assert forall i :: 0 <= i < |typed| ==> IsDigit(typed[i]) && Lower(typed)[i] == typed[i];
  }

  lemma {:induction false} OneWord(typed: string, run: string)
    requires AllDigits(typed) && typed + run != []
    ensures WordsOf(typed, run) == {run + typed}
  {
    if typed == [] {
      assert run + typed == run;
    } else {
      OneWord(typed[1..], run + [typed[0]]);
      assert run + [typed[0]] + typed[1..] == run + typed;
    }
  }

  predicate StartsWithLetter(words: seq<string>) {
    forall i :: 0 <= i < |words| ==> words[i] != [] && !IsDigit(words[i][0])
  }

  lemma {:induction false} NotInTable(table: seq<(Intent, seq<string>)>, typed: string)
    requires typed != [] && IsDigit(typed[0])
    requires forall i :: 0 <= i < |table| ==> StartsWithLetter(table[i].1)
    ensures FirstMatch(table, {typed}) == None
  {
    hide IsDigit;
    if table != [] {
      assert StartsWithLetter(table[0].1);
      NotInTable(table[1..], typed);
    }
  }

  lemma NumbersAreNoKeywords(typed: string)
    requires IsBareNumber(typed)
    ensures MatchedIntent(typed) == None
  {
    OneWord(typed, []);
    assert [] + typed == typed;
    assert forall i :: 0 <= i < |KEYWORDS| ==> StartsWithLetter(KEYWORDS[i].1);
    hide StartsWithLetter;
    NotInTable(KEYWORDS, typed);
  }

  /**
   * Typing the number of something shown, as against tapping it. Everywhere but
   * in a cart or at the address they are the same. In a cart the number is a
   * quantity, so they agree exactly on the quantity button that says it; at the
   * address the number is the address, and they never agree.
   */
  lemma TypedIsTapped(typed: string, text: string, state: State, shown: seq<string>)
    requires IsBareNumber(typed) && 1 <= Value(typed) <= |shown|
    requires Parse(Some(shown[Value(typed) - 1])).Some?
    ensures var tapped := shown[Value(typed) - 1];
      ResolveIntent(typed, None, state, shown) == ResolveIntent(text, Some(tapped), state, shown)
      <==> state != ASKING_ADDRESS && (state == BUILDING_CART ==> tapped == Encode(QUANTITY, Some(typed)))
  {
    hide MatchedIntent, Trim, Lower, Parse, Value, Encode, FromWords;
    var tapped := shown[Value(typed) - 1];
    DigitsAreThemselves(typed);
    NumbersAreNoKeywords(typed);
    assert Parse(None).None? by { NoId(); }
    if state == BUILDING_CART {
      ParseEncoded(QUANTITY, Some(typed));
      var reply := Parse(Some(tapped)).value;
      if reply == Reply(QUANTITY, Some(typed)) {
        EncodeParsed(tapped);
        ValueMeansNoBareColon(tapped, typed);
      }
    }
  }

  lemma NoId()
    ensures Parse(None).None?
  {
  }

  lemma ValueMeansNoBareColon(id: string, value: string)
    requires Parse(Some(id)) == Some(Reply(QUANTITY, Some(value))) && value != []
    ensures id != Name(QUANTITY) + ":"
  {
    if id == Name(QUANTITY) + ":" {
      assert id == Encode(QUANTITY, Some(""));
      ParseEncoded(QUANTITY, Some(""));
    }
  }

  /**
   * So right after a dish is added, with "Add more", "Checkout" and "Cancel" on
   * the screen, a typed 2 is a quantity and not a checkout.
   */
  lemma CartButtonsAreNotNumbered()
    ensures var shown := [Encode(BROWSE, None), Encode(CHECKOUT, None), Encode(CANCEL, None)];
      && ResolveIntent("2", None, BUILDING_CART, shown) == FromReply(Reply(QUANTITY, Some("2")))
      && ResolveIntent("Checkout", Some(shown[1]), BUILDING_CART, shown) == Resolved(CheckoutCart, Some(Reply(CHECKOUT, None)), None)
  {
    ParseEncoded(CHECKOUT, None);
    hide Parse, Trim, Lower, Encode;
    DigitsAreThemselves("2");
    NoId();
  }
}
