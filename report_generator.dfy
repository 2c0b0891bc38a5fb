/**
 * bot_interface/report_generator.py: running a stored report for the chat's selected report id and
 * sending it as a PDF document, a monospaced table or raw tab-separated text, with a footer line
 * that totals the last column.
 */
module ReportGenerator {
  import opened Wrappers
  import opened Text
  import opened Decimals
  import opened Sessions
  import opened Storage
  import opened BotInstance
  import opened PdfOutput

  /** A value of a result row, as the database driver hands it over. */
  datatype Cell = Null | Bool(b: bool) | Int(i: int) | Num(d: Dec) | Text(s: string)

  /** A result column: its name (`column[0]`) and its text `str(column)`. */
  datatype Column = Column(name: string, repr: string)

  /** What PrettyTable is given: a title, the field names, the rows and the row drawn with a divider under it. */
  datatype TableSpec = TableSpec(title: string, fieldNames: seq<string>, rows: seq<seq<string>>, dividerAfter: int)

  /**
   * The three library calls the report depends on, as parameters: `validators.url`, PrettyTable's
   * `get_string`, and pandoc's conversion of a markdown source to the bytes of a PDF file, or the
   * error it raises.
   */
  datatype Renderers = Renderers(isUrl: string -> bool, prettyTable: TableSpec -> string, pandoc: string -> Result<string>)

  /** Python truthiness of a cell: None, False, 0, a zero Decimal and "" are false. */
  predicate Truthy(c: Cell) {
    match c
    case Null => false
    case Bool(b) => b
    case Int(i) => i != 0
    case Num(d) => d.coef != 0
    case Text(s) => |s| > 0
  }

  /** `str(cell)`. */
  function Show(c: Cell): string {
    match c
    case Null => "None"
    case Bool(b) => if b then "True" else "False"
    case Int(i) => IntToString(i)
    case Num(d) => Decimals.ToString(d)
    case Text(s) => s
  }

  /** The first pass: a truthy cell becomes its text, a falsy one is kept as it is. */
  function Converted(c: Cell): Cell {
    if Truthy(c) then Text(Show(c)) else c
  }

  /** The second pass: non-empty text that is not a URL gets its MarkdownV2 characters escaped. */
  function Escaped(isUrl: string -> bool, c: Cell): Cell {
    if c.Text? && |c.s| > 0 && !isUrl(c.s) then Text(ReplaceReservedCharacters(c.s)) else c
  }

  /** The third pass: text that is a URL is turned into a markdown link. */
  function Linked(isUrl: string -> bool, c: Cell): Cell {
    if c.Text? && isUrl(c.s) then Text("[link](" + c.s + ")") else c
  }

  function MapRow(row: seq<Cell>, f: Cell -> Cell): (r: seq<Cell>)
    ensures |r| == |row| && forall j :: 0 <= j < |row| ==> r[j] == f(row[j])
  {
    seq(|row|, j requires 0 <= j < |row| => f(row[j]))
  }

  function MapRows(rows: seq<seq<Cell>>, f: Cell -> Cell): (r: seq<seq<Cell>>)
    ensures |r| == |rows| && forall k :: 0 <= k < |rows| ==> r[k] == MapRow(rows[k], f)
  {
    seq(|rows|, k requires 0 <= k < |rows| => MapRow(rows[k], f))
  }

  /** One of the report's nested loops rewriting cells in place, `row[i] = f(cell)`. */
  method RewriteCells(rows: seq<seq<Cell>>, f: Cell -> Cell) returns (out: seq<seq<Cell>>)
    ensures out == MapRows(rows, f)
  {
    out := rows;
    for r := 0 to |rows|
      invariant |out| == |rows|
      invariant forall k :: 0 <= k < r ==> out[k] == MapRow(rows[k], f)
      invariant forall k :: r <= k < |rows| ==> out[k] == rows[k]
    {
      var row := out[r];
      for i := 0 to |row|
        invariant |row| == |rows[r]|
        invariant forall j :: 0 <= j < i ==> row[j] == f(rows[r][j])
        invariant forall j :: i <= j < |row| ==> row[j] == rows[r][j]
      {
        row := row[i := f(row[i])];
      }
      out := out[r := row];
    }
  }

  /** Conversion keeps a cell's truthiness, so the later `if cell:` tests see what the query returned. */
  lemma ConvertedKeepsTruthiness(c: Cell)
    ensures Truthy(Converted(c)) == Truthy(c)
    ensures Truthy(c) ==> Converted(c).Text?
  {
    if c.Int? {
      assert |IntToString(c.i)| > 0;
    } else if c.Num? && c.d.coef != 0 {
      assert |Decimals.ToString(c.d)| > 0 by {
        assert |NatToString(Abs(c.d.coef))| > 0;
      }
    }
  }

  /** Converting twice is converting once. */
  lemma ConvertedIdempotent(c: Cell)
    ensures Converted(Converted(c)) == Converted(c)
  {
    ConvertedKeepsTruthiness(c);
  }

  /** A URL cell is never escaped: after both passes it is exactly a link to the original text. */
  lemma UrlBecomesLink(isUrl: string -> bool, s: string)
    requires isUrl(s)
    ensures Linked(isUrl, Escaped(isUrl, Text(s))) == Text("[link](" + s + ")")
  {
  }

  /** Any other non-empty text is escaped, and stays so unless its escaped form is itself a URL. */
  lemma TextIsEscaped(isUrl: string -> bool, s: string)
    requires |s| > 0 && !isUrl(s) && !isUrl(BotInstance.Escape(s))
    ensures Linked(isUrl, Escaped(isUrl, Text(s))) == Text(BotInstance.Escape(s))
  {
    ReplaceReservedCharactersIsEscape(s);
  }

  /** Cells that were falsy in the query's answer pass all three passes unchanged, apart from "". */
  lemma FalsyCellUnchanged(isUrl: string -> bool, c: Cell)
    requires !Truthy(c) && !c.Text?
    ensures Linked(isUrl, Escaped(isUrl, Converted(c))) == c
  {
  }

  // ---------------------------------------------------------------------------------------------
  // The total of the last column.

  /** `Decimal(cell)`, None when it raises: None, text that is not a number, and "True" (a converted True). */
  function CellDecimal(c: Cell): Option<Dec> {
    match c
    case Null => None
    case Bool(b) => Some(Dec(if b then 1 else 0, 0))
    case Int(i) => Some(Dec(i, 0))
    case Num(d) => Some(d)
    case Text(s) => Decimals.Parse(s)
  }

  /** What one row adds to the total: `Decimal(row[-1])` when it exists and does not raise. */
  function Summand(row: seq<Cell>): Option<Dec> {
    if |row| == 0 then None else CellDecimal(row[|row| - 1])
  }

  /** The start value `Decimal("0.0")`. */
  const Zero: Dec := Dec(0, 1)

  /** The total after every row: each summand added in turn, the rows that raise skipped. */
  function Total(rows: seq<seq<Cell>>): Dec {
    if |rows| == 0 then Zero
    else
      var t := Total(rows[..|rows| - 1]);
      match Summand(rows[|rows| - 1])
      case None => t
      case Some(d) => Decimals.Add(t, d)
  }

  /** The exact sum of the summands' values, the reference the total is checked against. */
  function SumOfLastColumn(rows: seq<seq<Cell>>): real {
    if |rows| == 0 then 0.0
    else
      SumOfLastColumn(rows[..|rows| - 1])
      + match Summand(rows[|rows| - 1]) case None => 0.0 case Some(d) => Decimals.Value(d)
  }

  /** The total is the exact sum of the last column's numeric cells. */
  lemma {:induction false} TotalIsSum(rows: seq<seq<Cell>>)
    ensures Decimals.Value(Total(rows)) == SumOfLastColumn(rows)
  {
    if |rows| > 0 {
      TotalIsSum(rows[..|rows| - 1]);
      match Summand(rows[|rows| - 1])
      case None =>
      case Some(d) =>
        AddValue(Total(rows[..|rows| - 1]), d);
    } else {
      assert Decimals.Value(Zero) == 0.0;
    }
  }

  /** The total has at least one fractional digit, that of `Decimal("0.0")`. */
  lemma {:induction false} TotalHasFraction(rows: seq<seq<Cell>>)
    ensures Total(rows).scale >= 1
  {
    if |rows| > 0 {
      TotalHasFraction(rows[..|rows| - 1]);
    }
  }

  /** With nothing to add the footer shows "0.0". */
  lemma NothingToAdd(rows: seq<seq<Cell>>)
    requires forall k :: 0 <= k < |rows| ==> Summand(rows[k]).None?
    ensures Decimals.ToString(Total(rows)) == "0.0"
  {
    NoSummands(rows);
    ZeroText();
  }

  lemma ZeroText()
    ensures Decimals.ToString(Zero) == "0.0"
  {
    assert NatToString(0) == "0";
  }

  lemma {:induction false} NoSummands(rows: seq<seq<Cell>>)
    requires forall k :: 0 <= k < |rows| ==> Summand(rows[k]).None?
    ensures Total(rows) == Zero
  {
    if |rows| > 0 {
      var init := rows[..|rows| - 1];
      assert forall k :: 0 <= k < |init| ==> init[k] == rows[k];
      NoSummands(init);
    }
  }

  /** The loop summing the last column, with a failing `Decimal(row[-1])` skipped. */
  method ComputeTotal(rows: seq<seq<Cell>>) returns (total: Dec)
    ensures total == Total(rows)
  {
    total := Zero;
    for r := 0 to |rows|
      invariant total == Total(rows[..r])
    {
      assert rows[..r + 1][..r] == rows[..r];
      var row := rows[r];
      var d := Summand(row);
      if d.Some? {
        total := Decimals.Add(total, d.value);
      }
    }
    assert rows[..|rows|] == rows;
  }

  /**
   * The footer: "-" per column, the last cell replaced by the total and then the first by "Total".
   * Without columns the first assignment raises.
   */
  function Footer(columnCount: nat, total: Dec): Result<seq<string>> {
    if columnCount == 0 then Err("list assignment index out of range")
    else Ok(seq(columnCount, k => "-")[columnCount - 1 := Decimals.ToString(total)][0 := "Total"])
  }

  /** The footer has a cell per column: "Total" first, the total last when there are two or more, "-" between. */
  lemma FooterShape(columnCount: nat, total: Dec)
    ensures Footer(columnCount, total).Ok? <==> columnCount > 0
    ensures Footer(columnCount, total).Ok? ==>
      var f := Footer(columnCount, total).value;
      |f| == columnCount && f[0] == "Total"
      && (columnCount > 1 ==> f[columnCount - 1] == Decimals.ToString(total))
      && forall k :: 0 < k < columnCount - 1 ==> f[k] == "-"
  {
  }

  method BuildFooter(columnCount: nat, total: Dec) returns (footer: Result<seq<string>>)
    ensures footer == Footer(columnCount, total)
  {
    var cells: seq<string> := [];
    for k := 0 to columnCount
      invariant cells == seq(k, _ => "-")
    {
      cells := cells + ["-"];
    }
    if |cells| == 0 {
      return Err("list assignment index out of range");
    }
    cells := cells[|cells| - 1 := Decimals.ToString(total)];
    cells := cells[0 := "Total"];
    footer := Ok(cells);
  }

  // ---------------------------------------------------------------------------------------------
  // The three outputs.

  function ShowRow(row: seq<Cell>): (r: seq<string>)
    ensures |r| == |row| && forall j :: 0 <= j < |row| ==> r[j] == Show(row[j])
  {
    seq(|row|, j requires 0 <= j < |row| => Show(row[j]))
  }

  function ShowRows(rows: seq<seq<Cell>>): (r: seq<seq<string>>)
    ensures |r| == |rows| && forall k :: 0 <= k < |rows| ==> r[k] == ShowRow(rows[k])
  {
    seq(|rows|, k requires 0 <= k < |rows| => ShowRow(rows[k]))
  }

  function Reprs(columns: seq<Column>): (r: seq<string>)
    ensures |r| == |columns| && forall k :: 0 <= k < |columns| ==> r[k] == columns[k].repr
  {
    seq(|columns|, k requires 0 <= k < |columns| => columns[k].repr)
  }

  function Names(columns: seq<Column>): (r: seq<string>)
    ensures |r| == |columns| && forall k :: 0 <= k < |columns| ==> r[k] == columns[k].name
  {
    seq(|columns|, k requires 0 <= k < |columns| => columns[k].name)
  }

  /** One row of the raw engine: every cell followed by a tab, then a line break. */
  function RawLine(row: seq<Cell>): string {
    if |row| == 0 then "\n" else Show(row[0]) + "\t" + RawLine(row[1..])
  }

  /** The raw engine's text, one line per row. */
  function RawText(rows: seq<seq<Cell>>): string {
    if |rows| == 0 then "" else RawText(rows[..|rows| - 1]) + RawLine(rows[|rows| - 1])
  }

  /** The raw text of rows put one after the other is the texts of the parts put one after the other. */
  lemma {:induction false} RawTextAppend(a: seq<seq<Cell>>, b: seq<seq<Cell>>)
    ensures RawText(a + b) == RawText(a) + RawText(b)
  {
    if |b| == 0 {
      assert a + b == a;
      assert RawText(b) == "";
    } else {
      var n := |b| - 1;
      RawTextAppend(a, b[..n]);
      assert (a + b)[..|a + b| - 1] == a + b[..n];
      assert (a + b)[|a + b| - 1] == b[n];
      assert RawText(a + b) == RawText(a + b[..n]) + RawLine(b[n]);
      Assoc(RawText(a), RawText(b[..n]), RawLine(b[n]));
    }
  }

  /** Every row contributes exactly one "\n" of the raw engine's framing: a raw line ends with it. */
  lemma {:induction false} RawLineEndsWithBreak(row: seq<Cell>)
    ensures |RawLine(row)| > 0 && RawLine(row)[|RawLine(row)| - 1] == '\n'
  {
    if |row| > 0 {
      RawLineEndsWithBreak(row[1..]);
    }
  }

  /** The tab-separated loop of the raw engine. */
  method BuildRawText(rows: seq<seq<Cell>>) returns (text: string)
    ensures text == RawText(rows)
  {
    text := "";
    for r := 0 to |rows|
      invariant text == RawText(rows[..r])
    {
      assert rows[..r + 1][..r] == rows[..r];
      var line := "";
      for i := 0 to |rows[r]|
        invariant line + RawLine(rows[r][i..]) == RawLine(rows[r])
      {
        assert rows[r][i..][1..] == rows[r][i + 1..];
        Assoc(line, Show(rows[r][i]) + "\t", RawLine(rows[r][i + 1..]));
        line := line + Show(rows[r][i]) + "\t";
      }
      assert rows[r][|rows[r]|..] == [];
      text := text + (line + "\n");
    }
    assert rows[..|rows|] == rows;
  }

  /** The message text of the md engine: the rendered table in a code block. */
  function MdMessage(prettyTable: TableSpec -> string, title: string, columns: seq<Column>, rows: seq<seq<Cell>>, footer: seq<string>): string {
    "```\n" + prettyTable(TableSpec(title, Names(columns), ShowRows(rows) + [footer], |rows| - 1)) + "```"
  }

  // ---------------------------------------------------------------------------------------------
  // generate_report.

  /** The rows after the three passes, and the footer computed between the first and the second. */
  datatype Prepared = Prepared(rows: seq<seq<Cell>>, footer: seq<string>)

  function Prepare(isUrl: string -> bool, columnCount: nat, result: seq<seq<Cell>>): Result<Prepared> {
    var converted := MapRows(result, Converted);
    var footer :- Footer(columnCount, Total(converted));
    var escaped := MapRows(converted, c => Escaped(isUrl, c));
    Ok(Prepared(MapRows(escaped, c => Linked(isUrl, c)), footer))
  }

  /** The message for a prepared report, by engine. */
  function Output(chatId: int, report: Report, columns: seq<Column>, p: Prepared, r: Renderers): Result<Outgoing> {
    if report.engine == Some("pdf") then
      if report.slug.None? then Err("unsupported operand type(s) for +: 'NoneType' and 'str'")
      else
        var pdf :- r.pandoc(PandocSource(report.name, Reprs(columns), ShowRows(p.rows), p.footer));
        Ok(Document(chatId, report.slug.value + ".pdf", pdf))
    else if report.engine == Some("md") then
      Ok(Message(chatId, MdMessage(r.prettyTable, report.name, columns, p.rows, p.footer), []))
    else if report.engine == Some("raw") then
      Ok(Message(chatId, RawText(p.rows), []))
    else
      Ok(Message(chatId, "Unknown report engine", []))
  }

  /**
   * What `generate_report` sends, or the exception it raises. `columns` and `result` are the
   * answer of the stored report query.
   */
  function Reply(user: User, reports: map<int, Report>, columns: seq<Column>, result: seq<seq<Cell>>, r: Renderers): Result<Outgoing> {
    var chatId := user.chatId;
    if user.botStateValue.None? || user.botStateValue == Some(0) then Ok(Message(chatId, "Error: no report selected", []))
    else if user.botStateValue.value !in reports then Ok(Message(chatId, "Error: report not found in database", []))
    else if |result| == 0 then Ok(Message(chatId, "No data", []))
    else
      var report := reports[user.botStateValue.value];
      var p :- Prepare(r.isUrl, |columns|, result);
      Output(chatId, report, columns, p, r)
  }

  /** The chat's selected report is asked for; with none selected, or an unknown one, the user is told so. */
  lemma ReplyGuards(user: User, reports: map<int, Report>, columns: seq<Column>, result: seq<seq<Cell>>, r: Renderers)
    ensures user.botStateValue.None? || user.botStateValue == Some(0) ==>
      Reply(user, reports, columns, result, r) == Ok(Message(user.chatId, "Error: no report selected", []))
    ensures user.botStateValue.Some? && user.botStateValue.value != 0 && user.botStateValue.value !in reports ==>
      Reply(user, reports, columns, result, r) == Ok(Message(user.chatId, "Error: report not found in database", []))
    ensures user.botStateValue.Some? && user.botStateValue.value != 0 && user.botStateValue.value in reports && result == [] ==>
      Reply(user, reports, columns, result, r) == Ok(Message(user.chatId, "No data", []))
  {
  }

  /** A report with data but no columns raises at the footer, whatever its engine. */
  lemma NoColumnsRaises(user: User, reports: map<int, Report>, result: seq<seq<Cell>>, r: Renderers)
    requires user.botStateValue.Some? && user.botStateValue.value != 0 && user.botStateValue.value in reports
    requires |result| > 0
    ensures Reply(user, reports, [], result, r) == Err("list assignment index out of range")
  {
  }

  /** Every reply goes to the chat the report was asked in. */
  lemma ReplyGoesToChat(user: User, reports: map<int, Report>, columns: seq<Column>, result: seq<seq<Cell>>, r: Renderers)
    ensures Reply(user, reports, columns, result, r).Ok? ==>
      var m := Reply(user, reports, columns, result, r).value;
      (m.Message? || m.Document?) && m.chatId == user.chatId
  {
  }

  /**
   * A PDF report is named after its slug, and its body is what pandoc makes of a markdown source
   * that opens with the front matter and the title line; a pandoc failure is the report's failure.
   */
  lemma PdfReport(user: User, reports: map<int, Report>, columns: seq<Column>, result: seq<seq<Cell>>, r: Renderers)
    requires user.botStateValue.Some? && user.botStateValue.value in reports && user.botStateValue.value != 0
    requires |result| > 0 && |columns| > 0
    requires reports[user.botStateValue.value].engine == Some("pdf")
    ensures var report := reports[user.botStateValue.value];
            var reply := Reply(user, reports, columns, result, r);
            report.slug.None? ==> reply.Err?
    ensures var report := reports[user.botStateValue.value];
            var reply := Reply(user, reports, columns, result, r);
            var p := Prepare(r.isUrl, |columns|, result);
            var opening := FrontMatter + "# " + report.name + "\n\n";
            report.slug.Some? ==>
              p.Ok? &&
              var source := PandocSource(report.name, Reprs(columns), ShowRows(p.value.rows), p.value.footer);
              |opening| <= |source| && source[..|opening|] == opening
              && (reply.Ok? <==> r.pandoc(source).Ok?)
              && (reply.Ok? ==> reply.value == Document(user.chatId, report.slug.value + ".pdf", r.pandoc(source).value))
              && (reply.Err? ==> reply.error == r.pandoc(source).error)
  {
    var report := reports[user.botStateValue.value];
    if report.slug.Some? {
      var converted := MapRows(result, Converted);
      FooterShape(|columns|, Total(converted));
      var p := Prepare(r.isUrl, |columns|, result).value;
      PandocSourceOpens(report.name, Reprs(columns), ShowRows(p.rows), p.footer);
    }
  }

  lemma PandocSourceOpens(title: string, headers: seq<string>, data: seq<seq<string>>, footers: seq<string>)
    ensures var opening := FrontMatter + "# " + title + "\n\n";
            var source := PandocSource(title, headers, data, footers);
            |opening| <= |source| && source[..|opening|] == opening
  {
    var rep := PdfOutput.Report(title, headers, data, footers);
    var opening := "# " + title + "\n\n";
    ReportOpensWithTitle(title, headers, data, footers);
    assert (FrontMatter + rep)[..|FrontMatter + opening|] == FrontMatter + opening by {
      assert rep[..|opening|] == opening;
    }
    Assoc(FrontMatter, "# " + title, "\n\n");
    Assoc(FrontMatter, "# ", title);
  }

  /** The md engine puts the data rows and then the footer in the table, with the divider under the last data row. */
  lemma MdReport(user: User, reports: map<int, Report>, columns: seq<Column>, result: seq<seq<Cell>>, r: Renderers)
    requires user.botStateValue.Some? && user.botStateValue.value in reports && user.botStateValue.value != 0
    requires |result| > 0 && |columns| > 0
    requires reports[user.botStateValue.value].engine == Some("md")
    ensures var reply := Reply(user, reports, columns, result, r);
            var p := Prepare(r.isUrl, |columns|, result);
            p.Ok? && reply.Ok? && reply.value.Message?
            && reply.value.text == "```\n" + r.prettyTable(TableSpec(
                 reports[user.botStateValue.value].name, Names(columns),
                 ShowRows(p.value.rows) + [p.value.footer], |result| - 1)) + "```"
            && |p.value.footer| == |columns| && p.value.footer[0] == "Total"
  {
    var converted := MapRows(result, Converted);
    FooterShape(|columns|, Total(converted));
  }

  /** `generate_report`: the three loops over the rows, then one message for the chosen engine. */
  method GenerateReport(bot: Bot, tables: Tables, user: User, columns: seq<Column>, result: seq<seq<Cell>>, r: Renderers)
    returns (outcome: Result<Outgoing>)
    modifies bot
    ensures outcome == Reply(user, tables.reports, columns, result, r)
    ensures outcome.Ok? ==> bot.sent == old(bot.sent) + [outcome.value]
    ensures outcome.Err? ==> bot.sent == old(bot.sent)
  {
    var chatId := user.chatId;
    if user.botStateValue.None? || user.botStateValue == Some(0) {
      outcome := Ok(Message(chatId, "Error: no report selected", []));
    } else if user.botStateValue.value !in tables.reports {
      outcome := Ok(Message(chatId, "Error: report not found in database", []));
    } else if |result| == 0 {
      outcome := Ok(Message(chatId, "No data", []));
    } else {
      var report := tables.reports[user.botStateValue.value];
      var converted := RewriteCells(result, Converted);
      var total := ComputeTotal(converted);
      var footer := BuildFooter(|columns|, total);
      if footer.Err? {
        return footer.PropagateFailure();
      }
      var escaped := RewriteCells(converted, c => Escaped(r.isUrl, c));
      var linked := RewriteCells(escaped, c => Linked(r.isUrl, c));
      assert Prepare(r.isUrl, |columns|, result) == Ok(Prepared(linked, footer.value));
      if report.engine == Some("pdf") {
        if report.slug.None? {
          return Err("unsupported operand type(s) for +: 'NoneType' and 'str'");
        }
        var table := ArrayToMdTable(ShowRows(linked), Reprs(columns), footer.value);
        var source := FrontMatter + ("# " + report.name + "\n" + table);
        assert source == PandocSource(report.name, Reprs(columns), ShowRows(linked), footer.value);
        var pdf := r.pandoc(source);
        if pdf.Err? {
          return Err(pdf.error);
        }
        outcome := Ok(Document(chatId, report.slug.value + ".pdf", pdf.value));
      } else if report.engine == Some("md") {
        outcome := Ok(Message(chatId, MdMessage(r.prettyTable, report.name, columns, linked, footer.value), []));
      } else if report.engine == Some("raw") {
        var text := BuildRawText(linked);
        outcome := Ok(Message(chatId, text, []));
      } else {
        outcome := Ok(Message(chatId, "Unknown report engine", []));
      }
    }
    if outcome.Ok? {
      match outcome.value
      case Message(c, text, keyboard) => bot.SendMessage(c, text, keyboard);
      case Document(c, name, body) => bot.SendDocument(c, name, body);
      case Deleted(_, _) =>
      case AwaitsReply(_) =>
    }
  }
}
