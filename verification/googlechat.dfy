/**
 * The Google Chat log backend: a FIFO pool of log records, a periodic step
 * that pops and sends at most one record, and the card layout each sent
 * record gets (one text paragraph, then the columns packed two per widget).
 */
module GoogleChat {

  import opened Wrappers
  import opened LogMessage

  // The parts of the Chat API's card model that the layout produces.

  datatype TextParagraph = TextParagraph(text: string)

  /** A column item: its own list of text widgets. */
  datatype Column = Column(widgets: seq<TextParagraph>)

  /** A section widget: either a text paragraph or a row of column items. */
  datatype Widget = TextWidget(textParagraph: TextParagraph) | ColumnsWidget(columnItems: seq<Column>)

  datatype Section = Section(collapsible: bool, widgets: seq<Widget>)

  datatype Card = Card(sections: seq<Section>)

  datatype CardWithId = CardWithId(card: Card, cardId: string)

  datatype ChatMessage = ChatMessage(cardsV2: seq<CardWithId>)

  /** A (name, value) pair shown as one column item. */
  type ColumnPair = (string, string)

  /** `toChatColumn`: the name paragraph above the value paragraph. */
  function ToChatColumn(column: ColumnPair): (c: Column)
    ensures |c.widgets| == 2 && (c.widgets[0].text, c.widgets[1].text) == column
  {
    Column([TextParagraph(column.0), TextParagraph(column.1)])
  }

  /** The column items of one widget; a text widget has none. */
  function ItemsOf(widget: Widget): seq<Column> {
    if widget.ColumnsWidget? then widget.columnItems else []
  }

  /** All column items of a widget list, in order. */
  function ColumnItemsOf(widgets: seq<Widget>): seq<Column> {
    if widgets == [] then [] else ItemsOf(widgets[0]) + ColumnItemsOf(widgets[1..])
  }

  lemma {:induction false} ColumnItemsOfAppend(a: seq<Widget>, b: seq<Widget>)
    ensures ColumnItemsOf(a + b) == ColumnItemsOf(a) + ColumnItemsOf(b)
  {
    if a == [] {
      assert a + b == b;
    } else {
      assert (a + b)[0] == a[0];
      assert (a + b)[1..] == a[1..] + b;
      ColumnItemsOfAppend(a[1..], b);
      assert ColumnItemsOf(a + b) == ItemsOf(a[0]) + (ColumnItemsOf(a[1..]) + ColumnItemsOf(b));
    }
  }

  /**
   * Reference layout of the columns: consecutive pairs share a widget, and an
   * odd last column sits alone in the final widget.
   */
  function PackColumns(columns: seq<ColumnPair>): (ws: seq<Widget>)
    ensures |ws| == (|columns| + 1) / 2
    ensures forall i :: 0 <= i < |ws| ==> ws[i].ColumnsWidget? && 1 <= |ws[i].columnItems| <= 2
  {
    if |columns| == 0 then []
    else if |columns| == 1 then [ColumnsWidget([ToChatColumn(columns[0])])]
    else [ColumnsWidget([ToChatColumn(columns[0]), ToChatColumn(columns[1])])] + PackColumns(columns[2..])
  }

  /** The packed widgets hold every column, in input order, each as name then value. */
  lemma {:induction false} PackColumnsItems(columns: seq<ColumnPair>)
    ensures var items := ColumnItemsOf(PackColumns(columns));
      |items| == |columns| &&
      forall i :: 0 <= i < |columns| ==>
        items[i] == Column([TextParagraph(columns[i].0), TextParagraph(columns[i].1)])
  {
    if |columns| >= 2 {
      var head := ColumnsWidget([ToChatColumn(columns[0]), ToChatColumn(columns[1])]);
      ColumnItemsOfAppend([head], PackColumns(columns[2..]));
      PackColumnsItems(columns[2..]);
    } else if |columns| == 1 {
      ColumnItemsOfAppend([ColumnsWidget([ToChatColumn(columns[0])])], []);
    }
  }

  /** Packing splits at any even boundary. */
  lemma {:induction false} PackColumnsSplit(columns: seq<ColumnPair>, j: nat)
    requires j <= |columns| && j % 2 == 0
    ensures PackColumns(columns) == PackColumns(columns[..j]) + PackColumns(columns[j..])
  {
    if j > 0 {
      assert columns[..j][2..] == columns[2..][..j - 2];
      assert columns[j..] == columns[2..][j - 2..];
      PackColumnsSplit(columns[2..], j - 2);
    }
  }

  /**
   * A column at an even position opens a new widget; the widget before it,
   * if any, is full.
   */
  lemma PackColumnsEvenStep(columns: seq<ColumnPair>, i: nat)
    requires i < |columns| && i % 2 == 0
    ensures PackColumns(columns[..i + 1]) == PackColumns(columns[..i]) + [ColumnsWidget([ToChatColumn(columns[i])])]
    ensures i > 0 ==> |PackColumns(columns[..i])[i / 2 - 1].columnItems| == 2
  {
    var prefix := columns[..i + 1];
    PackColumnsSplit(prefix, i);
    assert prefix[..i] == columns[..i];
    assert prefix[i..] == [columns[i]];
    if i > 0 {
      PackColumnsSplit(columns[..i], i - 2);
      assert columns[..i][i - 2..] == [columns[i - 2], columns[i - 1]];
    }
  }

  /** A column at an odd position joins the widget its predecessor opened. */
  lemma PackColumnsOddStep(columns: seq<ColumnPair>, i: nat)
    requires i < |columns| && i % 2 == 1
    ensures var packed := PackColumns(columns[..i]);
      packed[|packed| - 1] == ColumnsWidget([ToChatColumn(columns[i - 1])]) &&
      PackColumns(columns[..i + 1])
        == packed[..|packed| - 1] + [ColumnsWidget([ToChatColumn(columns[i - 1]), ToChatColumn(columns[i])])]
  {
    var prefix := columns[..i + 1];
    PackColumnsSplit(prefix, i - 1);
    PackColumnsSplit(columns[..i], i - 1);
    assert prefix[..i - 1] == columns[..i - 1];
    assert columns[..i][..i - 1] == columns[..i - 1];
    assert prefix[i - 1..] == [columns[i - 1], columns[i]];
    assert columns[..i][i - 1..] == [columns[i - 1]];
  }

  /**
   * The greedy placement rule of `toChatMsg` keeps the section equal to the
   * text widget followed by the reference layout: the next column opens a
   * new widget when the last widget is not a column widget or already holds
   * two items, and otherwise joins it.
   */
  lemma PackColumnsGreedyStep(columns: seq<ColumnPair>, msg: string, i: nat, widgets: seq<Widget>)
    requires i < |columns|
    requires widgets == [TextWidget(TextParagraph(msg))] + PackColumns(columns[..i])
    ensures var last := widgets[|widgets| - 1];
      var item := ToChatColumn(columns[i]);
      var next := [TextWidget(TextParagraph(msg))] + PackColumns(columns[..i + 1]);
      (!last.ColumnsWidget? || |last.columnItems| >= 2 ==> widgets + [ColumnsWidget([item])] == next) &&
      (last.ColumnsWidget? && |last.columnItems| < 2 ==>
        widgets[..|widgets| - 1] + [ColumnsWidget(last.columnItems + [item])] == next)
  {
    if i % 2 == 0 {
      GreedyStepOpensWidget(columns, msg, i, widgets);
    } else {
      GreedyStepJoinsWidget(columns, msg, i, widgets);
    }
  }

  /** At an even position the last widget is the text or a full one, and a new widget is opened. */
  lemma GreedyStepOpensWidget(columns: seq<ColumnPair>, msg: string, i: nat, widgets: seq<Widget>)
    requires i < |columns| && i % 2 == 0
    requires widgets == [TextWidget(TextParagraph(msg))] + PackColumns(columns[..i])
    ensures var last := widgets[|widgets| - 1];
      (!last.ColumnsWidget? || |last.columnItems| >= 2) &&
      widgets + [ColumnsWidget([ToChatColumn(columns[i])])]
        == [TextWidget(TextParagraph(msg))] + PackColumns(columns[..i + 1])
  {
    var packed := PackColumns(columns[..i]);
    var item := ToChatColumn(columns[i]);
    PackColumnsEvenStep(columns, i);
    assert i > 0 ==> widgets[|widgets| - 1] == packed[i / 2 - 1];
    assert widgets + [ColumnsWidget([item])] == [TextWidget(TextParagraph(msg))] + (packed + [ColumnsWidget([item])]);
  }

  /** At an odd position the last widget holds one item, and the column joins it. */
  lemma GreedyStepJoinsWidget(columns: seq<ColumnPair>, msg: string, i: nat, widgets: seq<Widget>)
    requires i < |columns| && i % 2 == 1
    requires widgets == [TextWidget(TextParagraph(msg))] + PackColumns(columns[..i])
    ensures var last := widgets[|widgets| - 1];
      last.ColumnsWidget? && |last.columnItems| < 2 &&
      widgets[..|widgets| - 1] + [ColumnsWidget(last.columnItems + [ToChatColumn(columns[i])])]
        == [TextWidget(TextParagraph(msg))] + PackColumns(columns[..i + 1])
  {
    var packed := PackColumns(columns[..i]);
    var item := ToChatColumn(columns[i]);
    PackColumnsOddStep(columns, i);
    assert widgets[|widgets| - 1] == packed[|packed| - 1];
    assert widgets[..|widgets| - 1] == [TextWidget(TextParagraph(msg))] + packed[..|packed| - 1];
    assert [ToChatColumn(columns[i - 1])] + [item] == [ToChatColumn(columns[i - 1]), item];
  }

  /** The message `toChatMsg` builds, stated through the reference layout. */
  function CardFor(msg: string, columns: seq<ColumnPair>): (m: ChatMessage)
    ensures |m.cardsV2| == 1 && m.cardsV2[0].cardId == "card1"
    ensures |m.cardsV2[0].card.sections| == 1
    ensures var section := m.cardsV2[0].card.sections[0];
      !section.collapsible &&
      |section.widgets| == 1 + (|columns| + 1) / 2 &&
      section.widgets[0] == TextWidget(TextParagraph(msg)) &&
      (forall i :: 1 <= i < |section.widgets| ==>
        section.widgets[i].ColumnsWidget? && 1 <= |section.widgets[i].columnItems| <= 2) &&
      |ColumnItemsOf(section.widgets)| == |columns| &&
      (forall i :: 0 <= i < |columns| ==>
        ColumnItemsOf(section.widgets)[i] == Column([TextParagraph(columns[i].0), TextParagraph(columns[i].1)]))
  {
    var widgets := [TextWidget(TextParagraph(msg))] + PackColumns(columns);
    ColumnItemsOfAppend([TextWidget(TextParagraph(msg))], PackColumns(columns));
    PackColumnsItems(columns);
    ChatMessage([CardWithId(Card([Section(false, widgets)]), "card1")])
  }

  /**
   * `toChatMsg`: a text widget holding the message, then each column placed
   * into the last widget if that is a column widget with room, or else into a
   * new column widget.
   */
  method ToChatMsg(msg: string, columns: seq<ColumnPair>) returns (chatMsg: ChatMessage)
    ensures chatMsg == CardFor(msg, columns)
  {
    var widgets := [TextWidget(TextParagraph(msg))];
    var i := 0;
    while i < |columns|
      invariant i <= |columns|
      invariant widgets == [TextWidget(TextParagraph(msg))] + PackColumns(columns[..i])
    {
      PackColumnsGreedyStep(columns, msg, i, widgets);
      var column := columns[i];
      var lastWidget := widgets[|widgets| - 1];
      if !lastWidget.ColumnsWidget? || |lastWidget.columnItems| >= 2 {
        widgets := widgets + [ColumnsWidget([ToChatColumn(column)])];
      } else {
        widgets := widgets[..|widgets| - 1] + [ColumnsWidget(lastWidget.columnItems + [ToChatColumn(column)])];
      }
      i := i + 1;
    }
    assert columns[..i] == columns;
    chatMsg := ChatMessage([CardWithId(Card([Section(false, widgets)]), "card1")]);
  }

  /** The three columns a sent record shows: its level, the backend's prefix, and its location. */
  function RecordColumns(m: Message, msgPrefix: string): (columns: seq<ColumnPair>)
    ensures |columns| == 3
    ensures columns[0] == ("Level", m.level) && columns[1] == ("Env", msgPrefix) && columns[2] == ("File", Location(m))
  {
    [("Level", m.level), ("Env", msgPrefix), ("File", Location(m))]
  }

  class GoogleChatBackend {
    const webhookUrl: string
    const msgPrefix: string
    /** Records waiting to be sent, oldest first. */
    var pool: seq<Message>

    /** `NewGoogleChatBackend`, without starting the sender loop. */
    constructor (webhookUrl: string, msgPrefix: string)
      ensures this.webhookUrl == webhookUrl && this.msgPrefix == msgPrefix
      ensures pool == []
    {
      this.webhookUrl := webhookUrl;
      this.msgPrefix := msgPrefix;
      pool := [];
    }

    method InfoDepth(depth: int, msg: string, now: string, stack: CallStack)
      modifies this
      ensures pool == old(pool) + [NewMessage("info", msg, now, stack(depth + 1))]
    {
      PushMessage(depth + 1, "info", msg, now, stack);
    }

    method WarningDepth(depth: int, msg: string, now: string, stack: CallStack)
      modifies this
      ensures pool == old(pool) + [NewMessage("warn", msg, now, stack(depth + 1))]
    {
      PushMessage(depth + 1, "warn", msg, now, stack);
    }

    method ErrorDepth(depth: int, msg: string, now: string, stack: CallStack)
      modifies this
      ensures pool == old(pool) + [NewMessage("error", msg, now, stack(depth + 1))]
    {
      PushMessage(depth + 1, "error", msg, now, stack);
    }

    /** Appends one record for the caller `depth` frames up; `now` is the current time. */
    method PushMessage(depth: int, level: string, msg: string, now: string, stack: CallStack)
      modifies this
      ensures pool == old(pool) + [NewMessage(level, msg, now, stack(depth))]
    {
      var message := NewMessage(level, msg, now, stack(depth));
      pool := pool + [message];
    }

    /**
     * One pass of the sender loop: pop the oldest record, if any, and return
     * the card to send for it; a record with empty text is dropped unsent.
     */
    method Tick() returns (sent: Option<ChatMessage>)
      modifies this
      ensures old(pool) == [] ==> pool == [] && sent == None
      ensures old(pool) != [] ==> pool == old(pool)[1..]
      ensures old(pool) != [] ==>
        sent == if old(pool)[0].msg == "" then None
                else Some(CardFor(old(pool)[0].msg, RecordColumns(old(pool)[0], msgPrefix)))
    {
      var message := Message("", "", "", "", 0);
      if |pool| > 0 {
        message, pool := pool[0], pool[1..];
      }
      if message.msg == "" {
        return None;
      }
      var chatMsg := ToChatMsg(message.msg, RecordColumns(message, msgPrefix));
      sent := Some(chatMsg);
    }
  }
}
