/**
 * bot_interface/pdf_output.py: the markdown table a PDF report is rendered from, and the report
 * text around it. The conversion of that markdown to PDF is not modelled.
 */
module PdfOutput {
  import opened Text

  /** One cell of a table line: the first cell is followed by a space, later ones framed by "| " and " ". */
  function Piece(i: nat, cell: string): string {
    if i == 0 then cell + " " else "| " + cell + " "
  }

  /** A table line without its line break. */
  function Line(cells: seq<string>): string {
    if |cells| == 0 then "" else Line(cells[..|cells| - 1]) + Piece(|cells| - 1, cells[|cells| - 1])
  }

  /** The part of a rule below one header: its width is fixed by the header text alone. */
  function RulePiece(i: nat, header: string, c: char): string {
    if i == 0 then Repeat(c, |header| + 1) else "|" + Repeat(c, |header| + 2)
  }

  /** The rule under the headers, drawn with `c`. */
  function Rule(headers: seq<string>, c: char): string {
    if |headers| == 0 then ""
    else Rule(headers[..|headers| - 1], c) + RulePiece(|headers| - 1, headers[|headers| - 1], c)
  }

  /** The data rows, one line each, every line ended by a line break. */
  function Rows(data: seq<seq<string>>): string {
    if |data| == 0 then "" else Rows(data[..|data| - 1]) + Line(data[|data| - 1]) + "\n"
  }

  /** The whole table `array_to_md_table` builds. */
  function MdTable(data: seq<seq<string>>, headers: seq<string>, footers: seq<string>): string {
    "\n" + Line(headers) + "\n" + Rule(headers, '-') + "\n" + Rows(data) + Rule(headers, '=') + "\n" + Line(footers)
  }

  /** The line of one more cell is the line so far and that cell's piece. */
  lemma LineSnoc(cells: seq<string>, i: nat)
    requires i < |cells|
    ensures Line(cells[..i + 1]) == Line(cells[..i]) + Piece(i, cells[i])
  {
    var next := cells[..i + 1];
    assert |next| - 1 == i;
    assert next[..i] == cells[..i];
    assert next[i] == cells[i];
  }

  /** One loop of `array_to_md_table` over a sequence of cells: the cells' line appended to `table`. */
  method AppendLine(table: string, cells: seq<string>) returns (r: string)
    ensures r == table + Line(cells)
  {
    r := table;
    for i := 0 to |cells|
      invariant r == table + Line(cells[..i])
    {
      LineSnoc(cells, i);
      Assoc(table, Line(cells[..i]), Piece(i, cells[i]));
      r := r + Piece(i, cells[i]);
    }
    assert cells[..|cells|] == cells;
  }

  lemma RuleSnoc(headers: seq<string>, i: nat, c: char)
    requires i < |headers|
    ensures Rule(headers[..i + 1], c) == Rule(headers[..i], c) + RulePiece(i, headers[i], c)
  {
    assert headers[..i + 1][..i] == headers[..i];
    assert headers[..i + 1][i] == headers[i];
  }

  /** One loop of `array_to_md_table` over the headers drawing a rule with `c`. */
  method AppendRule(table: string, headers: seq<string>, c: char) returns (r: string)
    ensures r == table + Rule(headers, c)
  {
    r := table;
    for i := 0 to |headers|
      invariant r == table + Rule(headers[..i], c)
    {
      RuleSnoc(headers, i, c);
      var before := Rule(headers[..i], c);
      if i == 0 {
        Assoc(table, before, Repeat(c, |headers[i]| + 1));
        r := r + Repeat(c, |headers[i]| + 1);
      } else {
        Assoc(table, before, "|" + Repeat(c, |headers[i]| + 2));
        Assoc(table + before, "|", Repeat(c, |headers[i]| + 2));
        r := r + "|";
        r := r + Repeat(c, |headers[i]| + 2);
      }
    }
    assert headers[..|headers|] == headers;
  }

  /** `array_to_md_table(array, headers, footers)`, built by appending to one string. */
  method ArrayToMdTable(data: seq<seq<string>>, headers: seq<string>, footers: seq<string>) returns (table: string)
    ensures table == MdTable(data, headers, footers)
  {
    table := "\n";
    table := AppendLine(table, headers);
    table := table + "\n";
    table := AppendRule(table, headers, '-');
    table := table + "\n";
    var head := table;
    for r := 0 to |data|
      invariant table == head + Rows(data[..r])
    {
      assert data[..r + 1][..r] == data[..r];
      Assoc(head, Rows(data[..r]), Line(data[r]));
      Assoc(head, Rows(data[..r]) + Line(data[r]), "\n");
      table := AppendLine(table, data[r]);
      table := table + "\n";
    }
    assert data[..|data|] == data;
    table := AppendRule(table, headers, '=');
    table := table + "\n";
    table := AppendLine(table, footers);
  }

  /** A rule is exactly as long as the header line above it. */
  lemma {:induction false} RuleLength(headers: seq<string>, c: char)
    ensures |Rule(headers, c)| == |Line(headers)|
  {
    if |headers| > 0 {
      RuleLength(headers[..|headers| - 1], c);
    }
  }

  /** Where a line of cells has a '|' of its own framing: before every cell but the first. */
  function Bars(headers: seq<string>): seq<bool> {
    if |headers| == 0 then []
    else
      var n := |headers| - 1;
      Bars(headers[..n]) + (if n == 0 then [] else [true]) + seq(|headers[n]| + 2 - (if n == 0 then 1 else 0), _ => false)
  }

  /** The bars of one more header: those so far, then the new cell's. */
  function PieceBars(n: nat, header: string): seq<bool> {
    (if n == 0 then [] else [true]) + seq(|header| + 2 - (if n == 0 then 1 else 0), _ => false)
  }

  lemma BarsSnoc(headers: seq<string>)
    requires |headers| > 0
    ensures Bars(headers) == Bars(headers[..|headers| - 1]) + PieceBars(|headers| - 1, headers[|headers| - 1])
  {
  }

  /** Text `r` is the bar pattern `b` drawn with `c`: a '|' at every bar, `c` everywhere else. */
  predicate DrawnAs(r: string, b: seq<bool>, c: char) {
    |r| == |b| && forall k :: 0 <= k < |b| ==> r[k] == (if b[k] then '|' else c)
  }

  lemma RulePieceDrawn(n: nat, header: string, c: char)
    ensures DrawnAs(RulePiece(n, header, c), PieceBars(n, header), c)
  {
  }

  lemma DrawnAppend(r0: string, rp: string, b0: seq<bool>, bp: seq<bool>, c: char)
    requires DrawnAs(r0, b0, c) && DrawnAs(rp, bp, c)
    ensures DrawnAs(r0 + rp, b0 + bp, c)
  {
    forall k | 0 <= k < |b0 + bp|
      ensures (r0 + rp)[k] == (if (b0 + bp)[k] then '|' else c)
    {
      if k >= |b0| {
        assert (r0 + rp)[k] == rp[k - |r0|];
        assert (b0 + bp)[k] == bp[k - |b0|];
      } else {
        assert (r0 + rp)[k] == r0[k];
        assert (b0 + bp)[k] == b0[k];
      }
    }
  }

  /**
   * A rule is the bar pattern of its headers filled with its own character: which positions hold
   * a '|' depends on the header texts only, so the "-" and "=" rules have the same column widths.
   */
  lemma {:induction false} RuleFollowsBars(headers: seq<string>, c: char)
    ensures DrawnAs(Rule(headers, c), Bars(headers), c)
  {
    if |headers| > 0 {
      var n := |headers| - 1;
      var r0, rp := Rule(headers[..n], c), RulePiece(n, headers[n], c);
      var b0, bp := Bars(headers[..n]), PieceBars(n, headers[n]);
      RuleFollowsBars(headers[..n], c);
      RulePieceDrawn(n, headers[n], c);
      DrawnAppend(r0, rp, b0, bp, c);
      BarsSnoc(headers);
      assert Rule(headers, c) == r0 + rp;
    } else {
      assert Rule(headers, c) == "" && Bars(headers) == [];
    }
  }

  /** Text `l` has a '|' wherever `b` has a bar. */
  predicate BarsOver(l: string, b: seq<bool>) {
    |l| == |b| && forall k :: 0 <= k < |b| && b[k] ==> l[k] == '|'
  }

  lemma PieceFollowsBars(n: nat, header: string)
    ensures BarsOver(Piece(n, header), PieceBars(n, header))
  {
  }

  lemma BarsOverAppend(l0: string, lp: string, b0: seq<bool>, bp: seq<bool>)
    requires BarsOver(l0, b0) && BarsOver(lp, bp)
    ensures BarsOver(l0 + lp, b0 + bp)
  {
    forall k | 0 <= k < |b0 + bp| && (b0 + bp)[k]
      ensures (l0 + lp)[k] == '|'
    {
      if k >= |b0| {
        assert (l0 + lp)[k] == lp[k - |l0|];
        assert (b0 + bp)[k] == bp[k - |b0|];
      } else {
        assert (l0 + lp)[k] == l0[k];
        assert (b0 + bp)[k] == b0[k];
      }
    }
  }

  /** The header line has a '|' above every bar of the rule, so the columns line up. */
  lemma {:induction false} LineFollowsBars(headers: seq<string>)
    ensures |Line(headers)| == |Bars(headers)|
    ensures forall k :: 0 <= k < |Bars(headers)| && Bars(headers)[k] ==> Line(headers)[k] == '|'
  {
    LineOverBars(headers);
  }

  lemma {:induction false} LineOverBars(headers: seq<string>)
    ensures BarsOver(Line(headers), Bars(headers))
  {
    if |headers| > 0 {
      var n := |headers| - 1;
      var l0, lp := Line(headers[..n]), Piece(n, headers[n]);
      var b0, bp := Bars(headers[..n]), PieceBars(n, headers[n]);
      LineOverBars(headers[..n]);
      PieceFollowsBars(n, headers[n]);
      BarsOverAppend(l0, lp, b0, bp);
      BarsSnoc(headers);
      assert Line(headers) == l0 + lp;
    } else {
      assert Line(headers) == "" && Bars(headers) == [];
    }
  }

  /** The text of a PDF report, `# {title}` and then the table (which itself opens with a line break). */
  function Report(title: string, headers: seq<string>, data: seq<seq<string>>, footers: seq<string>): string {
    "# " + title + "\n" + MdTable(data, headers, footers)
  }

  /** The front matter `make_pdf_from_markdown` puts before the markdown it converts. */
  const FrontMatter: string := "---\nheader-includes:\n  - \\setmainfont{DejaVuSansMono}\n---\n"

  /** The markdown source handed to the converter for a report. */
  function PandocSource(title: string, headers: seq<string>, data: seq<seq<string>>, footers: seq<string>): string {
    FrontMatter + Report(title, headers, data, footers)
  }

  /** The table opens with an empty line and then the header line. */
  lemma TableOpensWithHeaderLine(data: seq<seq<string>>, headers: seq<string>, footers: seq<string>)
    ensures var t := MdTable(data, headers, footers);
            1 + |Line(headers)| < |t| && t[..1 + |Line(headers)|] == "\n" + Line(headers)
            && t[1 + |Line(headers)|] == '\n'
  {
    var x := "\n" + Line(headers);
    var r1, r2, r3, r4, r5 := Rule(headers, '-'), "\n", Rows(data), Rule(headers, '=') + "\n", Line(footers);
    Assoc(x, "\n", r1);
    Assoc(x, "\n" + r1, r2);
    Assoc(x, "\n" + r1 + r2, r3);
    Assoc(x, "\n" + r1 + r2 + r3, r4);
    Assoc(x + "\n" + r1 + r2 + r3, Rule(headers, '='), "\n");
    Assoc(x, "\n" + r1 + r2 + r3 + r4, r5);
    assert MdTable(data, headers, footers) == x + ("\n" + r1 + r2 + r3 + r4 + r5);
    assert (x + ("\n" + r1 + r2 + r3 + r4 + r5))[..|x|] == x;
  }

  /** A report is its title line, then the table: so the title line is followed by an empty line. */
  lemma ReportOpensWithTitle(title: string, headers: seq<string>, data: seq<seq<string>>, footers: seq<string>)
    ensures var r := Report(title, headers, data, footers);
            var opening := "# " + title + "\n\n";
            |opening| <= |r| && r[..|opening|] == opening
  {
    var t := MdTable(data, headers, footers);
    TableOpensWithHeaderLine(data, headers, footers);
    assert t[..1] == "\n";
    var r := Report(title, headers, data, footers);
    assert r == ("# " + title + "\n") + t;
  }

  /** The table ends with the footer line, which has no line break after it. */
  lemma TableEndsWithFooter(data: seq<seq<string>>, headers: seq<string>, footers: seq<string>)
    ensures var t := MdTable(data, headers, footers);
            |Line(footers)| < |t| && t[|t| - |Line(footers)|..] == Line(footers)
            && t[|t| - |Line(footers)| - 1] == '\n'
  {
  }
}
