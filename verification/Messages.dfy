/** Interactive messages as the provider accepts them: row budgets, clipped titles, and the ids left on the screen. */
module Messages {
  import opened Outcomes
  import opened Decimals
  import opened Replies

  datatype Row = Row(id: string, title: string, description: Option<string>)

  datatype Section = Section(title: string, rows: seq<Row>)

  datatype Button = Button(id: string, title: string)

  datatype Message = Text(body: string) | Buttons(body: string, buttons: seq<Button>) | Picker(body: string, sections: seq<Section>)

  const MAX_BUTTONS := 3
  const MAX_ROWS := 10
  const BUTTON_TITLE := 20
  const ROW_TITLE := 24
  const ROW_DESCRIPTION := 72
  const SECTION_TITLE := 24
  const BODY := 1024

  /** Shortened with an ellipsis when it does not fit. */
  function Truncate(value: string, max: nat): (r: string)
    ensures max >= 2 ==> |r| <= max
  {
    var trimmed := Trim(value);
    if |trimmed| <= max then trimmed
    else
      var kept := TrimEnd(trimmed[..if max - 1 > 1 then max - 1 else 1]);
      TrimEndShortens(trimmed[..if max - 1 > 1 then max - 1 else 1]);
      kept + "\U{2026}"
  }

  lemma {:induction false} TrimEndShortens(s: string)
    ensures |TrimEnd(s)| <= |s|
  {
    if s != [] && IsSpace(s[|s| - 1]) {
      TrimEndShortens(s[..|s| - 1]);
    }
  }

  function ClipRow(row: Row): Row {
    Row(row.id, Truncate(row.title, ROW_TITLE),
        if row.description == Some("") || row.description == None then None
        else Some(Truncate(row.description.value, ROW_DESCRIPTION)))
  }

  function ClipRows(rows: seq<Row>): (r: seq<Row>)
    ensures |r| == |rows|
    ensures forall i :: 0 <= i < |rows| ==> r[i] == ClipRow(rows[i])
  {
    seq(|rows|, i requires 0 <= i < |rows| => ClipRow(rows[i]))
  }

  function First<T>(s: seq<T>, n: nat): (r: seq<T>)
    ensures |r| <= n
  {
    if |s| <= n then s else s[..n]
  }

  /** Rows in order until the budget is spent; a section left with none is dropped. */
  function KeepRows(sections: seq<Section>, budget: nat): seq<Section> {
    if sections == [] || budget == 0 then []
    else
      var rows := ClipRows(First(sections[0].rows, budget));
      if rows == [] then KeepRows(sections[1..], budget)
      else [Section(Truncate(sections[0].title, SECTION_TITLE), rows)] + KeepRows(sections[1..], budget - |rows|)
  }

  method ListMessage(body: string, sections: seq<Section>) returns (message: Message)
    ensures message == Picker(Truncate(body, BODY), KeepRows(sections, MAX_ROWS))
  {
    hide Truncate, ClipRows, First;
    var remaining: nat := MAX_ROWS;
    var kept: seq<Section> := [];
    var i := 0;
    while i < |sections| && remaining > 0
      invariant 0 <= i <= |sections|
      invariant kept + KeepRows(sections[i..], remaining) == KeepRows(sections, MAX_ROWS)
    {
      ghost var left := sections[i..];
      assert left[0] == sections[i] && left[1..] == sections[i + 1..];
      var rows := ClipRows(First(sections[i].rows, remaining));
      if rows != [] {
        remaining := remaining - |rows|;
        kept := kept + [Section(Truncate(sections[i].title, SECTION_TITLE), rows)];
      }
      i := i + 1;
    }
    return Picker(Truncate(body, BODY), kept);
  }

  function ButtonsMessage(body: string, buttons: seq<Button>): Message {
    var kept := First(buttons, MAX_BUTTONS);
    Buttons(Truncate(body, BODY), seq(|kept|, i requires 0 <= i < |kept| => Button(kept[i].id, Truncate(kept[i].title, BUTTON_TITLE))))
  }

  function RowIds(rows: seq<Row>): (r: seq<string>)
    ensures |r| == |rows|
    ensures forall i :: 0 <= i < |rows| ==> r[i] == rows[i].id
  {
    seq(|rows|, i requires 0 <= i < |rows| => rows[i].id)
  }

  /** The ids of every row, section after section. */
  function SectionIds(sections: seq<Section>): seq<string> {
    if sections == [] then [] else RowIds(sections[0].rows) + SectionIds(sections[1..])
  }

  lemma FirstOfBoth<T>(a: seq<T>, b: seq<T>, budget: nat)
    ensures First(a + b, budget) == First(a, budget) + First(b, budget - |First(a, budget)|)
  {
  }

  lemma ClippedIds(rows: seq<Row>, budget: nat)
    ensures RowIds(ClipRows(First(rows, budget))) == First(RowIds(rows), budget)
  {
    hide ClipRow;
    assert forall i :: 0 <= i < |rows| ==> ClipRow(rows[i]).id == rows[i].id by { KeepsId(rows); }
  }

  lemma KeepsId(rows: seq<Row>)
    ensures forall i :: 0 <= i < |rows| ==> ClipRow(rows[i]).id == rows[i].id
  {
    hide Truncate;
  }

  lemma ConsIds(section: Section, rest: seq<Section>)
    ensures SectionIds([section] + rest) == RowIds(section.rows) + SectionIds(rest)
  {
    assert ([section] + rest)[1..] == rest;
  }

  /** What is kept is the first ten rows across all sections together, none out of place. */
  lemma {:induction false} FirstTenRowsAreKept(sections: seq<Section>, budget: nat)
    ensures SectionIds(KeepRows(sections, budget)) == First(SectionIds(sections), budget)
  {
    hide First, ClipRows, RowIds, Truncate, SectionIds;
    if sections == [] || budget == 0 {
      NoneKept(sections, budget);
    } else {
      var rows := ClipRows(First(sections[0].rows, budget));
      var ids, rest := RowIds(sections[0].rows), SectionIds(sections[1..]);
      ClippedIds(sections[0].rows, budget);
      FirstTenRowsAreKept(sections[1..], budget - |rows|);
      FirstOfBoth(ids, rest, budget);
      ConsIds(sections[0], sections[1..]);
      assert sections == [sections[0]] + sections[1..];
      var kept := KeepRows(sections[1..], budget - |rows|);
      ConsIds(Section(Truncate(sections[0].title, SECTION_TITLE), rows), kept);
      assert rows == [] ==> RowIds(rows) + SectionIds(kept) == SectionIds(kept);
    }
  }

  lemma NoneKept(sections: seq<Section>, budget: nat)
    requires sections == [] || budget == 0
    ensures SectionIds(KeepRows(sections, budget)) == First(SectionIds(sections), budget)
  {
  }

  /** Every row of every section, in order. */
  function AllRows(sections: seq<Section>): seq<Row> {
    if sections == [] then [] else sections[0].rows + AllRows(sections[1..])
  }

  /** And each is that row with its texts cut to size. */
  lemma {:induction false} RowsAreKept(sections: seq<Section>, budget: nat)
    ensures AllRows(KeepRows(sections, budget)) == ClipRows(First(AllRows(sections), budget))
  {
    hide ClipRow, Truncate;
    if sections != [] && budget > 0 {
      var kept := First(sections[0].rows, budget);
      var rows, rest := ClipRows(kept), AllRows(sections[1..]);
      RowsAreKept(sections[1..], budget - |rows|);
      FirstOfBoth(sections[0].rows, rest, budget);
      ClippedTogether(kept, First(rest, budget - |kept|));
      var after := KeepRows(sections[1..], budget - |rows|);
      ConsRows(Section(Truncate(sections[0].title, SECTION_TITLE), rows), after);
      assert rows == [] ==> rows + AllRows(after) == AllRows(after);
    }
  }

  lemma ClippedTogether(a: seq<Row>, b: seq<Row>)
    ensures ClipRows(a + b) == ClipRows(a) + ClipRows(b)
  {
  }

  lemma ConsRows(section: Section, rest: seq<Section>)
    ensures AllRows([section] + rest) == section.rows + AllRows(rest)
  {
    assert ([section] + rest)[1..] == rest;
  }

  /** A text cut to size: itself without the space around it where that fits, else its beginning and an ellipsis. */
  predicate Cut(value: string, max: nat, cut: string) {
    var trimmed := Trim(value);
    if |trimmed| <= max then cut == trimmed
    else
      && 0 < |cut| <= max && cut[|cut| - 1] == '\U{2026}' && cut[..|cut| - 1] <= trimmed
      && (|cut| > 1 ==> !IsSpace(cut[|cut| - 2]))
      && forall i :: |cut| - 1 <= i < max - 1 ==> IsSpace(trimmed[i])
  }

  lemma {:induction false} TrimEndCuts(s: string)
    ensures TrimEnd(s) <= s && (TrimEnd(s) != [] ==> !IsSpace(TrimEnd(s)[|TrimEnd(s)| - 1]))
    ensures forall i :: |TrimEnd(s)| <= i < |s| ==> IsSpace(s[i])
  {
    hide IsSpace;
    if s != [] && IsSpace(s[|s| - 1]) {
      TrimEndCuts(s[..|s| - 1]);
    }
  }

  lemma TruncateCuts(value: string, max: nat)
    requires max >= 2
    ensures Cut(value, max, Truncate(value, max))
  {
    hide IsSpace, TrimEnd, Trim;
    var trimmed := Trim(value);
    if |trimmed| > max {
      CutShort(trimmed, max, TrimEnd(trimmed[..max - 1]));
    }
  }

  lemma CutShort(trimmed: string, max: nat, kept: string)
    requires 2 <= max < |trimmed| && kept == TrimEnd(trimmed[..max - 1])
    ensures var cut := kept + "\U{2026}";
      && 0 < |cut| <= max && cut[|cut| - 1] == '\U{2026}' && cut[..|cut| - 1] <= trimmed
      && (|cut| > 1 ==> !IsSpace(cut[|cut| - 2]))
      && forall i :: |cut| - 1 <= i < max - 1 ==> IsSpace(trimmed[i])
  {
    hide IsSpace, TrimEnd;
    var front := trimmed[..max - 1];
    TrimEndCuts(front);
    assert (kept + "\U{2026}")[..|kept|] == kept;
    assert kept == front[..|kept|] == trimmed[..|kept|];
    assert forall i :: 0 <= i < max - 1 ==> front[i] == trimmed[i];
  }

  /** A row goes out under its own id, its title cut to 24 characters and its description, if it has one, to 72. */
  lemma RowAsSent(row: Row)
    ensures var sent := ClipRow(row);
      && sent.id == row.id && Cut(row.title, 24, sent.title)
      && (sent.description.Some? <==> row.description.Some? && row.description.value != [])
      && (sent.description.Some? ==> Cut(row.description.value, 72, sent.description.value))
  {
    hide Truncate, Cut;
    TruncateCuts(row.title, 24);
    if row.description.Some? {
      TruncateCuts(row.description.value, 72);
    }
  }

  /** Of the buttons the first three go out, in order, each under its own id with its title cut to 20 characters. */
  lemma ButtonsAsSent(body: string, buttons: seq<Button>)
    ensures var sent := ButtonsMessage(body, buttons);
      && Cut(body, 1024, sent.body)
      && |sent.buttons| == (if |buttons| < 3 then |buttons| else 3)
      && forall i :: 0 <= i < |sent.buttons| ==> sent.buttons[i].id == buttons[i].id && Cut(buttons[i].title, 20, sent.buttons[i].title)
  {
    hide Truncate, Cut;
    TruncateCuts(body, 1024);
    forall i | 0 <= i < |buttons|
      ensures Cut(buttons[i].title, 20, Truncate(buttons[i].title, 20))
    {
      TruncateCuts(buttons[i].title, 20);
    }
  }

  predicate Sendable(section: Section) {
    && section.rows != [] && |section.title| <= SECTION_TITLE
    && forall i :: 0 <= i < |section.rows| ==> RowFits(section.rows[i])
  }

  predicate RowFits(row: Row) {
    |row.title| <= ROW_TITLE && (row.description.Some? ==> |row.description.value| <= ROW_DESCRIPTION)
  }

  /** No section of a built list is empty, and nothing in one is too long. (A list with no sections at all can still be built.) */
  lemma {:induction false} EverySectionIsSendable(sections: seq<Section>, budget: nat)
    ensures forall i :: 0 <= i < |KeepRows(sections, budget)| ==> Sendable(KeepRows(sections, budget)[i])
  {
    hide Truncate;
    if sections != [] && budget > 0 {
      var rows := ClipRows(First(sections[0].rows, budget));
      EverySectionIsSendable(sections[1..], budget - |rows|);
    }
  }

  // -- What is on the screen after a turn ------------------------------------------------

  predicate IsInteractive(message: Message) {
    !message.Text?
  }

  function IdsOf(message: Message): seq<string> {
    match message
    case Text(_) => []
    case Buttons(_, buttons) => seq(|buttons|, i requires 0 <= i < |buttons| => buttons[i].id)
    case Picker(_, sections) => SectionIds(sections)
  }

  function ShownReplyIds(messages: seq<Message>): seq<string> {
    if messages == [] then []
    else
      var last := messages[|messages| - 1];
      if IsInteractive(last) then IdsOf(last) else ShownReplyIds(messages[..|messages| - 1])
  }

  lemma {:induction false} ShownAreTheLastOffered(messages: seq<Message>, i: nat)
    requires i < |messages| && IsInteractive(messages[i])
    requires forall j :: i < j < |messages| ==> !IsInteractive(messages[j])
    ensures ShownReplyIds(messages) == IdsOf(messages[i])
  {
    if i < |messages| - 1 {
      ShownAreTheLastOffered(messages[..|messages| - 1], i);
    }
  }

  lemma {:induction false} NothingOfferedNothingShown(messages: seq<Message>)
    requires forall j :: 0 <= j < |messages| ==> !IsInteractive(messages[j])
    ensures ShownReplyIds(messages) == []
  {
    if messages != [] {
      NothingOfferedNothingShown(messages[..|messages| - 1]);
    }
  }

  /** The nth thing in the last interactive message of a saved turn is what typing n means, outside the two states that read numbers their own way. */
  lemma TypingAfterASavedTurn(messages: seq<Message>, i: nat, typed: string, text: string, state: State)
    requires i < |messages| && IsInteractive(messages[i])
    requires forall j :: i < j < |messages| ==> !IsInteractive(messages[j])
    requires IsBareNumber(typed) && 1 <= Value(typed) <= |IdsOf(messages[i])|
    requires Parse(Some(IdsOf(messages[i])[Value(typed) - 1])).Some?
    requires state != BUILDING_CART && state != ASKING_ADDRESS
    ensures ResolveIntent(typed, None, state, ShownReplyIds(messages))
         == ResolveIntent(text, Some(IdsOf(messages[i])[Value(typed) - 1]), state, ShownReplyIds(messages))
  {
    hide ResolveIntent, Parse, Value;
    ShownAreTheLastOffered(messages, i);
    TypedIsTapped(typed, text, state, ShownReplyIds(messages));
  }
}
