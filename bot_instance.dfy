/**
 * bot_interface/bot_instance.py: inline keyboards built from query rows, the MarkdownV2 escaping
 * of reserved characters, and the Telegram bot itself as a trace of what it was asked to do.
 */
module BotInstance {
  import opened Wrappers
  import opened Text
  import opened Json

  /** A query row used for a keyboard: `row[0]` is the id, `row[1]` the name. */
  datatype Row = Row(id: int, name: string)

  datatype Button = Button(text: string, data: string)

  /** The callback data of a row's button: the prefix followed by `str(id)`. */
  function ButtonData(prefix: string, id: int): string {
    prefix + IntToString(id)
  }

  /** The keyboard a list of rows gives: one button per row, in row order. */
  function Buttons(rows: seq<Row>, prefix: string): seq<Button> {
    seq(|rows|, i requires 0 <= i < |rows| => Button(rows[i].name, ButtonData(prefix, rows[i].id)))
  }

  /** `list_buttons(rows, prefix)`: one button per row, in row order. */
  method ListButtons(rows: seq<Row>, prefix: string) returns (keyboard: seq<Button>)
    ensures |keyboard| == |rows|
    ensures forall i :: 0 <= i < |rows| ==>
      keyboard[i] == Button(rows[i].name, ButtonData(prefix, rows[i].id))
    ensures keyboard == Buttons(rows, prefix)
  {
    keyboard := [];
    for k := 0 to |rows|
      invariant |keyboard| == k
      invariant forall i :: 0 <= i < k ==> keyboard[i] == Button(rows[i].name, ButtonData(prefix, rows[i].id))
    {
      var itemId := IntToString(rows[k].id);
      keyboard := keyboard + [Button(rows[k].name, prefix + itemId)];
    }
  }

  /**
   * `int(data.split("#")[1])`, as both callback handlers read the value of a pressed button:
   * data without a '#' raises IndexError, a non-numeric second piece raises ValueError.
   */
  function CallbackValue(data: string): (r: Result<int>)
    ensures '#' !in data ==> r == Err("list index out of range")
  {
    var parts := Split(data, '#');
    if '#' !in data then
      SplitWithoutSeparator(data, '#');
      Err("list index out of range")
    else if |parts| < 2 then Err("list index out of range")
    else
      match ParseInt(parts[1])
      case Some(v) => Ok(v)
      case None => Err(InvalidLiteral(parts[1]))
  }

  /** A button built with a `name#` prefix gives back the row id when pressed. */
  lemma CallbackValueOfButton(name: string, id: int)
    requires '#' !in name
    ensures CallbackValue(ButtonData(name + "#", id)) == Ok(id)
  {
    var digits := IntToString(id);
    assert ButtonData(name + "#", id) == name + ['#'] + digits;
    assert '#' in ButtonData(name + "#", id) by {
      assert ButtonData(name + "#", id)[|name|] == '#';
    }
    SplitAtFirstSeparator(name, '#', digits);
    IntToStringHasNo(id, '#');
    SplitWithoutSeparator(digits, '#');
    ParseIntOfIntToString(id);
  }

  lemma MainButtonsRoundTrip(id: int)
    ensures CallbackValue(ButtonData("main#", id)) == Ok(id)
  {
    assert "main" + "#" == "main#";
    CallbackValueOfButton("main", id);
  }

  // ---------------------------------------------------------------------------------------------
  // MarkdownV2 escaping

  /** The characters `replace_reserved_characters` escapes, in the order of its replace calls. */
  const Reserved: seq<char> := ['_', '*', '[', ']', '(', ')', '~', '`', '>', '#', '+', '-', '=', '|', '{', '}', '.', '!']

  /** One character of the escaped text: a reserved character gets a backslash in front. */
  function EscapeCharIn(c: char, set_: seq<char>): string {
    if c in set_ then ['\\', c] else [c]
  }

  /** Escapes exactly the characters listed in `set_`, each once, and copies the rest. */
  function EscapeWith(s: string, set_: seq<char>): string {
    if |s| == 0 then "" else EscapeCharIn(s[0], set_) + EscapeWith(s[1..], set_)
  }

  /** The per-character MarkdownV2 escape. */
  function Escape(s: string): string {
    EscapeWith(s, Reserved)
  }

  lemma ReplaceAllSingleAppend(a: string, b: string, c: char, rep: string)
    ensures ReplaceAll(a + b, [c], rep) == ReplaceAll(a, [c], rep) + ReplaceAll(b, [c], rep)
  {
    if |a| > 0 {
      assert (a + b)[1..] == a[1..] + b;
      ReplaceAllSingleAppend(a[1..], b, c, rep);
    } else {
      assert a + b == b;
    }
  }

  lemma ReplaceAllOnChar(x: char, c: char, rep: string)
    ensures ReplaceAll([x], [c], rep) == if x == c then rep else [x]
  {
    assert [x][1..] == "";
    if x == c {
      assert [c] <= [x];
    } else {
      assert !([c] <= [x]) by {
        assert [x][0] != [c][0];
      }
    }
  }

  /** Replacing one more character `c` in a partly escaped text escapes `c` as well and nothing twice. */
  lemma {:induction false} ReplaceAfterEscape(s: string, done: seq<char>, c: char)
    requires c != '\\' && c !in done
    ensures ReplaceAll(EscapeWith(s, done), [c], ['\\', c]) == EscapeWith(s, done + [c])
  {
    if |s| > 0 {
      var head := EscapeCharIn(s[0], done);
      ReplaceAllSingleAppend(head, EscapeWith(s[1..], done), c, ['\\', c]);
      ReplaceAfterEscape(s[1..], done, c);
      if s[0] in done {
        assert head == ['\\'] + [s[0]];
        ReplaceAllSingleAppend(['\\'], [s[0]], c, ['\\', c]);
        ReplaceAllOnChar('\\', c, ['\\', c]);
        ReplaceAllOnChar(s[0], c, ['\\', c]);
      } else {
        ReplaceAllOnChar(s[0], c, ['\\', c]);
      }
    }
  }

  lemma EscapeWithNothing(s: string)
    ensures EscapeWith(s, []) == s
  {
    if |s| > 0 {
      EscapeWithNothing(s[1..]);
      assert [s[0]] + s[1..] == s;
    }
  }

  /** `replace_reserved_characters(cell)`: eighteen chained `replace` calls, in source order. */
  function ReplaceReservedCharacters(cell: string): string {
    var s1 := ReplaceAll(cell, "_", "\\_");
    var s2 := ReplaceAll(s1, "*", "\\*");
    var s3 := ReplaceAll(s2, "[", "\\[");
    var s4 := ReplaceAll(s3, "]", "\\]");
    var s5 := ReplaceAll(s4, "(", "\\(");
    var s6 := ReplaceAll(s5, ")", "\\)");
    var s7 := ReplaceAll(s6, "~", "\\~");
    var s8 := ReplaceAll(s7, "`", "\\`");
    var s9 := ReplaceAll(s8, ">", "\\>");
    var s10 := ReplaceAll(s9, "#", "\\#");
    var s11 := ReplaceAll(s10, "+", "\\+");
    var s12 := ReplaceAll(s11, "-", "\\-");
    var s13 := ReplaceAll(s12, "=", "\\=");
    var s14 := ReplaceAll(s13, "|", "\\|");
    var s15 := ReplaceAll(s14, "{", "\\{");
    var s16 := ReplaceAll(s15, "}", "\\}");
    var s17 := ReplaceAll(s16, ".", "\\.");
    var s18 := ReplaceAll(s17, "!", "\\!");
    s18
  }

  lemma EscapeFrom0(cell: string, s: string)
    requires s == EscapeWith(cell, [])
    ensures ReplaceAll(ReplaceAll(ReplaceAll(s, "_", "\\_"), "*", "\\*"), "[", "\\[") == EscapeWith(cell, ['_', '*', '['])
  {
    var s1 := ReplaceAll(s, "_", "\\_");
    assert s1 == EscapeWith(cell, ['_']) by {
      ReplaceAfterEscape(cell, [], '_');
      assert [] + ['_'] == ['_'];
    }
    var s2 := ReplaceAll(s1, "*", "\\*");
    assert s2 == EscapeWith(cell, ['_', '*']) by {
      ReplaceAfterEscape(cell, ['_'], '*');
      assert ['_'] + ['*'] == ['_', '*'];
    }
    var s3 := ReplaceAll(s2, "[", "\\[");
    assert s3 == EscapeWith(cell, ['_', '*', '[']) by {
      ReplaceAfterEscape(cell, ['_', '*'], '[');
      assert ['_', '*'] + ['['] == ['_', '*', '['];
    }
  }

  lemma EscapeFrom3(cell: string, s: string)
    requires s == EscapeWith(cell, ['_', '*', '['])
    ensures ReplaceAll(ReplaceAll(ReplaceAll(s, "]", "\\]"), "(", "\\("), ")", "\\)") == EscapeWith(cell, ['_', '*', '[', ']', '(', ')'])
  {
    var s4 := ReplaceAll(s, "]", "\\]");
    assert s4 == EscapeWith(cell, ['_', '*', '[', ']']) by {
      ReplaceAfterEscape(cell, ['_', '*', '['], ']');
      assert ['_', '*', '['] + [']'] == ['_', '*', '[', ']'];
    }
    var s5 := ReplaceAll(s4, "(", "\\(");
    assert s5 == EscapeWith(cell, ['_', '*', '[', ']', '(']) by {
      ReplaceAfterEscape(cell, ['_', '*', '[', ']'], '(');
      assert ['_', '*', '[', ']'] + ['('] == ['_', '*', '[', ']', '('];
    }
    var s6 := ReplaceAll(s5, ")", "\\)");
    assert s6 == EscapeWith(cell, ['_', '*', '[', ']', '(', ')']) by {
      ReplaceAfterEscape(cell, ['_', '*', '[', ']', '('], ')');
      assert ['_', '*', '[', ']', '('] + [')'] == ['_', '*', '[', ']', '(', ')'];
    }
  }

  lemma EscapeFrom6(cell: string, s: string)
    requires s == EscapeWith(cell, ['_', '*', '[', ']', '(', ')'])
    ensures ReplaceAll(ReplaceAll(ReplaceAll(s, "~", "\\~"), "`", "\\`"), ">", "\\>") == EscapeWith(cell, ['_', '*', '[', ']', '(', ')', '~', '`', '>'])
  {
    var s7 := ReplaceAll(s, "~", "\\~");
    assert s7 == EscapeWith(cell, ['_', '*', '[', ']', '(', ')', '~']) by {
      ReplaceAfterEscape(cell, ['_', '*', '[', ']', '(', ')'], '~');
      assert ['_', '*', '[', ']', '(', ')'] + ['~'] == ['_', '*', '[', ']', '(', ')', '~'];
    }
    var s8 := ReplaceAll(s7, "`", "\\`");
    assert s8 == EscapeWith(cell, ['_', '*', '[', ']', '(', ')', '~', '`']) by {
      ReplaceAfterEscape(cell, ['_', '*', '[', ']', '(', ')', '~'], '`');
      assert ['_', '*', '[', ']', '(', ')', '~'] + ['`'] == ['_', '*', '[', ']', '(', ')', '~', '`'];
    }
    var s9 := ReplaceAll(s8, ">", "\\>");
    assert s9 == EscapeWith(cell, ['_', '*', '[', ']', '(', ')', '~', '`', '>']) by {
      ReplaceAfterEscape(cell, ['_', '*', '[', ']', '(', ')', '~', '`'], '>');
      assert ['_', '*', '[', ']', '(', ')', '~', '`'] + ['>'] == ['_', '*', '[', ']', '(', ')', '~', '`', '>'];
    }
  }

  lemma EscapeFrom9(cell: string, s: string)
    requires s == EscapeWith(cell, ['_', '*', '[', ']', '(', ')', '~', '`', '>'])
    ensures ReplaceAll(ReplaceAll(ReplaceAll(s, "#", "\\#"), "+", "\\+"), "-", "\\-") == EscapeWith(cell, ['_', '*', '[', ']', '(', ')', '~', '`', '>', '#', '+', '-'])
  {
    var s10 := ReplaceAll(s, "#", "\\#");
    assert s10 == EscapeWith(cell, ['_', '*', '[', ']', '(', ')', '~', '`', '>', '#']) by {
      ReplaceAfterEscape(cell, ['_', '*', '[', ']', '(', ')', '~', '`', '>'], '#');
      assert ['_', '*', '[', ']', '(', ')', '~', '`', '>'] + ['#'] == ['_', '*', '[', ']', '(', ')', '~', '`', '>', '#'];
    }
    var s11 := ReplaceAll(s10, "+", "\\+");
    assert s11 == EscapeWith(cell, ['_', '*', '[', ']', '(', ')', '~', '`', '>', '#', '+']) by {
      ReplaceAfterEscape(cell, ['_', '*', '[', ']', '(', ')', '~', '`', '>', '#'], '+');
      assert ['_', '*', '[', ']', '(', ')', '~', '`', '>', '#'] + ['+'] == ['_', '*', '[', ']', '(', ')', '~', '`', '>', '#', '+'];
    }
    var s12 := ReplaceAll(s11, "-", "\\-");
    assert s12 == EscapeWith(cell, ['_', '*', '[', ']', '(', ')', '~', '`', '>', '#', '+', '-']) by {
      ReplaceAfterEscape(cell, ['_', '*', '[', ']', '(', ')', '~', '`', '>', '#', '+'], '-');
      assert ['_', '*', '[', ']', '(', ')', '~', '`', '>', '#', '+'] + ['-'] == ['_', '*', '[', ']', '(', ')', '~', '`', '>', '#', '+', '-'];
    }
  }

  lemma EscapeFrom12(cell: string, s: string)
    requires s == EscapeWith(cell, ['_', '*', '[', ']', '(', ')', '~', '`', '>', '#', '+', '-'])
    ensures ReplaceAll(ReplaceAll(ReplaceAll(s, "=", "\\="), "|", "\\|"), "{", "\\{") == EscapeWith(cell, ['_', '*', '[', ']', '(', ')', '~', '`', '>', '#', '+', '-', '=', '|', '{'])
  {
    var s13 := ReplaceAll(s, "=", "\\=");
    assert s13 == EscapeWith(cell, ['_', '*', '[', ']', '(', ')', '~', '`', '>', '#', '+', '-', '=']) by {
      ReplaceAfterEscape(cell, ['_', '*', '[', ']', '(', ')', '~', '`', '>', '#', '+', '-'], '=');
      assert ['_', '*', '[', ']', '(', ')', '~', '`', '>', '#', '+', '-'] + ['='] == ['_', '*', '[', ']', '(', ')', '~', '`', '>', '#', '+', '-', '='];
    }
    var s14 := ReplaceAll(s13, "|", "\\|");
    assert s14 == EscapeWith(cell, ['_', '*', '[', ']', '(', ')', '~', '`', '>', '#', '+', '-', '=', '|']) by {
      ReplaceAfterEscape(cell, ['_', '*', '[', ']', '(', ')', '~', '`', '>', '#', '+', '-', '='], '|');
      assert ['_', '*', '[', ']', '(', ')', '~', '`', '>', '#', '+', '-', '='] + ['|'] == ['_', '*', '[', ']', '(', ')', '~', '`', '>', '#', '+', '-', '=', '|'];
    }
    var s15 := ReplaceAll(s14, "{", "\\{");
    assert s15 == EscapeWith(cell, ['_', '*', '[', ']', '(', ')', '~', '`', '>', '#', '+', '-', '=', '|', '{']) by {
      ReplaceAfterEscape(cell, ['_', '*', '[', ']', '(', ')', '~', '`', '>', '#', '+', '-', '=', '|'], '{');
      assert ['_', '*', '[', ']', '(', ')', '~', '`', '>', '#', '+', '-', '=', '|'] + ['{'] == ['_', '*', '[', ']', '(', ')', '~', '`', '>', '#', '+', '-', '=', '|', '{'];
    }
  }

  lemma EscapeFrom15(cell: string, s: string)
    requires s == EscapeWith(cell, ['_', '*', '[', ']', '(', ')', '~', '`', '>', '#', '+', '-', '=', '|', '{'])
    ensures ReplaceAll(ReplaceAll(ReplaceAll(s, "}", "\\}"), ".", "\\."), "!", "\\!") == EscapeWith(cell, ['_', '*', '[', ']', '(', ')', '~', '`', '>', '#', '+', '-', '=', '|', '{', '}', '.', '!'])
  {
    var s16 := ReplaceAll(s, "}", "\\}");
    assert s16 == EscapeWith(cell, ['_', '*', '[', ']', '(', ')', '~', '`', '>', '#', '+', '-', '=', '|', '{', '}']) by {
      ReplaceAfterEscape(cell, ['_', '*', '[', ']', '(', ')', '~', '`', '>', '#', '+', '-', '=', '|', '{'], '}');
      assert ['_', '*', '[', ']', '(', ')', '~', '`', '>', '#', '+', '-', '=', '|', '{'] + ['}'] == ['_', '*', '[', ']', '(', ')', '~', '`', '>', '#', '+', '-', '=', '|', '{', '}'];
    }
    var s17 := ReplaceAll(s16, ".", "\\.");
    assert s17 == EscapeWith(cell, ['_', '*', '[', ']', '(', ')', '~', '`', '>', '#', '+', '-', '=', '|', '{', '}', '.']) by {
      ReplaceAfterEscape(cell, ['_', '*', '[', ']', '(', ')', '~', '`', '>', '#', '+', '-', '=', '|', '{', '}'], '.');
      assert ['_', '*', '[', ']', '(', ')', '~', '`', '>', '#', '+', '-', '=', '|', '{', '}'] + ['.'] == ['_', '*', '[', ']', '(', ')', '~', '`', '>', '#', '+', '-', '=', '|', '{', '}', '.'];
    }
    var s18 := ReplaceAll(s17, "!", "\\!");
    assert s18 == EscapeWith(cell, ['_', '*', '[', ']', '(', ')', '~', '`', '>', '#', '+', '-', '=', '|', '{', '}', '.', '!']) by {
      ReplaceAfterEscape(cell, ['_', '*', '[', ']', '(', ')', '~', '`', '>', '#', '+', '-', '=', '|', '{', '}', '.'], '!');
      assert ['_', '*', '[', ']', '(', ')', '~', '`', '>', '#', '+', '-', '=', '|', '{', '}', '.'] + ['!'] == ['_', '*', '[', ']', '(', ')', '~', '`', '>', '#', '+', '-', '=', '|', '{', '}', '.', '!'];
    }
  }

  /** The chained replaces act as one per-character map: each reserved character is escaped once. */
  lemma ReplaceReservedCharactersIsEscape(cell: string)
    ensures ReplaceReservedCharacters(cell) == Escape(cell)
  {
    EscapeWithNothing(cell);
    var t3 := ReplaceAll(ReplaceAll(ReplaceAll(cell, "_", "\\_"), "*", "\\*"), "[", "\\[");
    EscapeFrom0(cell, cell);
    var t6 := ReplaceAll(ReplaceAll(ReplaceAll(t3, "]", "\\]"), "(", "\\("), ")", "\\)");
    EscapeFrom3(cell, t3);
    var t9 := ReplaceAll(ReplaceAll(ReplaceAll(t6, "~", "\\~"), "`", "\\`"), ">", "\\>");
    EscapeFrom6(cell, t6);
    var t12 := ReplaceAll(ReplaceAll(ReplaceAll(t9, "#", "\\#"), "+", "\\+"), "-", "\\-");
    EscapeFrom9(cell, t9);
    var t15 := ReplaceAll(ReplaceAll(ReplaceAll(t12, "=", "\\="), "|", "\\|"), "{", "\\{");
    EscapeFrom12(cell, t12);
    var t18 := ReplaceAll(ReplaceAll(ReplaceAll(t15, "}", "\\}"), ".", "\\."), "!", "\\!");
    EscapeFrom15(cell, t15);
  }

  /** How many characters of `s` are reserved. */
  function CountReserved(s: string): nat {
    if |s| == 0 then 0 else (if s[0] in Reserved then 1 else 0) + CountReserved(s[1..])
  }

  lemma {:induction false} EscapeLength(s: string)
    ensures |Escape(s)| == |s| + CountReserved(s)
  {
    if |s| > 0 {
      EscapeLength(s[1..]);
    }
  }

  lemma {:induction false} EscapeWithoutReserved(s: string)
    requires forall i :: 0 <= i < |s| ==> s[i] !in Reserved
    ensures Escape(s) == s
  {
    if |s| > 0 {
      EscapeWithoutReserved(s[1..]);
      assert [s[0]] + s[1..] == s;
    }
  }

  lemma {:induction false} EscapeAppend(a: string, b: string)
    ensures Escape(a + b) == Escape(a) + Escape(b)
  {
    if |a| > 0 {
      assert (a + b)[1..] == a[1..] + b;
      EscapeAppend(a[1..], b);
    } else {
      assert a + b == b;
    }
  }

  // ---------------------------------------------------------------------------------------------
  // The bot as the record of its calls.

  /** What the bot was asked to do, in order. */
  datatype Outgoing =
    | Message(chatId: int, text: string, keyboard: seq<Button>)
    | Document(chatId: int, fileName: string, body: string)
    | Deleted(chatId: int, messageId: int)
    | AwaitsReply(chatId: int)

  class Bot {
    var sent: seq<Outgoing>

    constructor ()
      ensures sent == []
    {
      sent := [];
    }

    /** `bot.send_message(chat_id, text, reply_markup=keyboard)`. */
    method SendMessage(chatId: int, text: string, keyboard: seq<Button>)
      modifies this
      ensures sent == old(sent) + [Message(chatId, text, keyboard)]
    {
      sent := sent + [Message(chatId, text, keyboard)];
    }

    /** `bot.send_document`: a file with the given name whose content is `body`. */
    method SendDocument(chatId: int, fileName: string, body: string)
      modifies this
      ensures sent == old(sent) + [Document(chatId, fileName, body)]
    {
      sent := sent + [Document(chatId, fileName, body)];
    }

    /** `bot.delete_message`; a failure to delete is ignored by every caller. */
    method DeleteMessage(chatId: int, messageId: int)
      modifies this
      ensures sent == old(sent) + [Deleted(chatId, messageId)]
    {
      sent := sent + [Deleted(chatId, messageId)];
    }

    /** `bot.register_next_step_handler`: the chat's next message goes to the waiting handler. */
    method RegisterNextStep(chatId: int)
      modifies this
      ensures sent == old(sent) + [AwaitsReply(chatId)]
    {
      sent := sent + [AwaitsReply(chatId)];
    }
  }
}
