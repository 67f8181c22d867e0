/** The markdown issue table of a query report. */
module ReportTable {
  import opened Collections
  import opened Text
  import opened Clarification

  // ----- Cells

  function EscapeChar(c: char): string {
    if c == '\r' || c == '\n' then " " else if c == '|' then "\\|" else [c]
  }

  /** Line breaks become spaces, pipes are escaped. */
  function Escape(s: string): string {
    if s == "" then "" else Escape(s[..|s| - 1]) + EscapeChar(s[|s| - 1])
  }

  function Cell(value: Option<string>): string {
    Escape(value.GetOr(""))
  }

  /** Every pipe is immediately preceded by a backslash. */
  ghost predicate PipesEscaped(s: string) {
    forall i :: 0 <= i < |s| && s[i] == '|' ==> i > 0 && s[i - 1] == '\\'
  }

  ghost predicate OneLine(s: string) {
    forall i :: 0 <= i < |s| ==> s[i] != '\r' && s[i] != '\n'
  }

  lemma {:induction false} EscapeIsSafe(s: string)
    ensures PipesEscaped(Escape(s)) && OneLine(Escape(s))
  {
    if s != "" {
      EscapeIsSafe(s[..|s| - 1]);
    }
  }

  function Flatten(c: char): char {
    if c == '\r' || c == '\n' then ' ' else c
  }

  /** The text as one line. */
  function Flattened(s: string): string {
    if s == "" then "" else Flattened(s[..|s| - 1]) + [Flatten(s[|s| - 1])]
  }

  lemma {:induction false} FlattenedKeepsText(s: string)
    ensures |Flattened(s)| == |s|
    ensures forall i :: 0 <= i < |s| ==> Flattened(s)[i] == if s[i] in {'\r', '\n'} then ' ' else s[i]
  {
    if s != "" {
      FlattenedKeepsText(s[..|s| - 1]);
    }
  }

  /** Drops the backslash in front of every pipe. */
  function Unescape(s: string): string {
    if s == "" then ""
    else if |s| >= 2 && s[|s| - 1] == '|' && s[|s| - 2] == '\\' then Unescape(s[..|s| - 2]) + "|"
    else Unescape(s[..|s| - 1]) + [s[|s| - 1]]
  }

  lemma UnescapePlain(e: string, c: char)
    requires c != '|'
    ensures Unescape(e + [c]) == Unescape(e) + [c]
  {
    assert (e + [c])[..|e|] == e;
  }

  lemma UnescapePipe(e: string)
    ensures Unescape(e + "\\|") == Unescape(e) + "|"
  {
    var all := e + "\\|";
    assert all[..|all| - 2] == e && all[|all| - 1] == '|' && all[|all| - 2] == '\\';
  }

  /** A cell can be read back: unescaping gives the value, except that its line breaks are spaces. */
  lemma {:induction false} CellRoundTrip(s: string)
    ensures Unescape(Escape(s)) == Flattened(s)
  {
    if s != "" {
      hide Unescape;
      var init, c := s[..|s| - 1], s[|s| - 1];
      CellRoundTrip(init);
      if c == '|' {
        UnescapePipe(Escape(init));
      } else {
        UnescapePlain(Escape(init), Flatten(c));
      }
    }
  }

  // ----- Rows

  function Join(cells: seq<string>): string {
    if cells == [] then ""
    else if |cells| == 1 then cells[0]
    else Join(cells[..|cells| - 1]) + " | " + cells[|cells| - 1]
  }

  function Row(cells: seq<string>): string {
    "| " + Join(cells) + " |"
  }

  function Dashes(n: nat): string {
    if n == 0 then "" else Dashes(n - 1) + "---|"
  }

  function Separator(n: nat): string {
    "|" + Dashes(n)
  }

  /** How a markdown reader splits a line: at each pipe not immediately preceded by a backslash. */
  function Split(s: string): (parts: seq<string>)
    ensures parts != []
  {
    if s == "" then [""]
    else
      var parts, n := Split(s[..|s| - 1]), |s| - 1;
      if s[n] == '|' && !(n > 0 && s[n - 1] == '\\') then parts + [""]
      else parts[..|parts| - 1] + [parts[|parts| - 1] + [s[n]]]
  }

  /** A character that is no free pipe extends the last part. */
  lemma SplitChar(s: string, c: char)
    requires c == '|' ==> s != "" && s[|s| - 1] == '\\'
    ensures var parts := Split(s); Split(s + [c]) == parts[..|parts| - 1] + [parts[|parts| - 1] + [c]]
  {
    assert (s + [c])[..|s|] == s;
  }

  /** Text without a free pipe extends the last part. */
  lemma {:induction false} SplitText(s: string, t: string)
    requires PipesEscaped(t)
    ensures var parts := Split(s); Split(s + t) == parts[..|parts| - 1] + [parts[|parts| - 1] + t]
  {
    hide Split;
    var parts := Split(s);
    var last := parts[|parts| - 1];
    if t == "" {
      assert s + t == s && last + t == last;
    } else {
      var init, c := t[..|t| - 1], t[|t| - 1];
      SplitText(s, init);
      assert (s + init) + [c] == s + t;
      assert c == '|' ==> (s + init)[|s + init| - 1] == init[|init| - 1];
      SplitChar(s + init, c);
      assert (last + init) + [c] == last + t;
    }
  }

  /** A pipe after other text than a backslash closes the part. */
  lemma SplitPipe(s: string)
    requires s == "" || s[|s| - 1] != '\\'
    ensures Split(s + "|") == Split(s) + [""]
  {
    assert (s + "|")[..|s|] == s;
  }

  /** Each cell between its two spaces. */
  function Padded(cells: seq<string>): seq<string> {
    seq(|cells|, i requires 0 <= i < |cells| => " " + cells[i] + " ")
  }

  lemma PaddedAppend(cells: seq<string>)
    requires cells != []
    ensures Padded(cells) == Padded(cells[..|cells| - 1]) + [" " + cells[|cells| - 1] + " "]
  {
  }

  lemma RowGrows(cells: seq<string>)
    requires |cells| >= 2
    ensures Row(cells) == Row(cells[..|cells| - 1]) + (" " + cells[|cells| - 1] + " ") + "|"
  {
  }

  /** Adding a safe part and a pipe to a line that ends in a pipe. */
  lemma AddPart(front: string, parts: seq<string>, text: string)
    requires Split(front) == [""] + parts + [""]
    requires PipesEscaped(text) && text != "" && text[|text| - 1] != '\\'
    ensures Split(front + text + "|") == [""] + (parts + [text]) + [""]
  {
    hide Split, PipesEscaped;
    var before := Split(front);
    SplitText(front, text);
    assert before[..|before| - 1] == [""] + parts && before[|before| - 1] == "";
    assert "" + text == text;
    assert (front + text)[|front + text| - 1] == text[|text| - 1];
    SplitPipe(front + text);
    assert [""] + parts + [text] + [""] == [""] + (parts + [text]) + [""];
  }

  lemma SinglePipe()
    ensures Split("|") == [""] + [] + [""]
  {
    assert "" + "|" == "|";
    SplitPipe("");
  }

  /** A row of safe cells is read back as exactly these cells, whatever they contain. */
  lemma {:induction false} RowSplits(cells: seq<string>)
    requires cells != [] && (forall i :: 0 <= i < |cells| ==> PipesEscaped(cells[i]))
    ensures Split(Row(cells)) == [""] + Padded(cells) + [""]
  {
    hide Split, Row, Padded;
    var init, last := cells[..|cells| - 1], cells[|cells| - 1];
    var cell := " " + last + " ";
    assert PipesEscaped(cell);
    PaddedAppend(cells);
    if |cells| == 1 {
      SinglePipe();
      SingleRow(cells);
      assert Padded(init) == [] by {
        PaddedEmpty();
      }
      AddPart("|", [], cell);
    } else {
      RowSplits(init);
      RowGrows(cells);
      AddPart(Row(init), Padded(init), cell);
    }
  }

  lemma PaddedEmpty()
    ensures Padded([]) == []
  {
  }

  lemma SingleRow(cells: seq<string>)
    requires |cells| == 1
    ensures Row(cells) == "|" + (" " + cells[0] + " ") + "|"
  {
  }

  lemma {:induction false} SeparatorSplits(n: nat)
    ensures Split(Separator(n)) == [""] + seq(n, _ => "---") + [""]
  {
    hide Split;
    if n == 0 {
      SinglePipe();
      assert Separator(0) == "|";
    } else {
      SeparatorSplits(n - 1);
      var front := Separator(n - 1);
      assert Separator(n) == front + "---" + "|";
      AddPart(front, seq(n - 1, _ => "---"), "---");
      assert seq(n, _ => "---") == seq(n - 1, _ => "---") + ["---"];
    }
  }

  lemma {:induction false} RowIsOneLine(cells: seq<string>)
    requires forall i :: 0 <= i < |cells| ==> OneLine(cells[i])
    ensures OneLine(Join(cells)) && OneLine(Row(cells))
  {
    if |cells| > 1 {
      RowIsOneLine(cells[..|cells| - 1]);
    }
  }

  lemma {:induction false} SeparatorIsOneLine(n: nat)
    ensures OneLine(Dashes(n)) && OneLine(Separator(n))
  {
    if n > 0 {
      SeparatorIsOneLine(n - 1);
    }
  }

  // ----- The table

  function WithoutSpaces(s: string): string {
    if s == "" then ""
    else WithoutSpaces(s[..|s| - 1]) + if s[|s| - 1] == ' ' then "" else [s[|s| - 1]]
  }

  function ValueAt(issue: Issue, name: string): Option<string> {
    if name in issue.vals then issue.vals[name] else None
  }

  /** The value of a column: under its name, the lowercased name, or that without spaces. */
  function IssueValue(issue: Issue, column: string): string {
    var lower := Lower(column);
    if ValueAt(issue, column).Some? then ValueAt(issue, column).value
    else if ValueAt(issue, lower).Some? then ValueAt(issue, lower).value
    else ValueAt(issue, WithoutSpaces(lower)).GetOr("")
  }

  function NoSpace(): char -> Option<char> {
    c => if c == ' ' then None else Some(c)
  }

  lemma {:induction false} OnlySpacesDropped(s: string)
    ensures WithoutSpaces(s) == Picked(s, NoSpace())
  {
    if s != "" {
      OnlySpacesDropped(s[..|s| - 1]);
    }
  }

  const MAX_DEFAULT_COLUMNS := 8

  function Columns(displayFields: seq<string>, issues: seq<Issue>): seq<string>
    requires issues != []
  {
    if displayFields != [] then displayFields else Take(issues[0].keys, MAX_DEFAULT_COLUMNS)
  }

  function HeaderCells(columns: seq<string>): seq<string> {
    seq(|columns|, i requires 0 <= i < |columns| => Cell(Some(columns[i])))
  }

  function IssueCells(issue: Issue, columns: seq<string>): seq<string> {
    seq(|columns|, i requires 0 <= i < |columns| => Cell(Some(IssueValue(issue, columns[i]))))
  }

  function IssueRows(issues: seq<Issue>, columns: seq<string>): (rows: seq<string>)
    ensures |rows| == |issues|
    ensures forall i :: 0 <= i < |issues| ==> rows[i] == Row(IssueCells(issues[i], columns))
  {
    seq(|issues|, i requires 0 <= i < |issues| => Row(IssueCells(issues[i], columns)))
  }

  function Decimal(n: nat): string {
    if n < 10 then [('0' as int + n) as char] else Decimal(n / 10) + Decimal(n % 10)
  }

  /** The number that a string of digits denotes. */
  function ReadDecimal(s: string): int {
    if s == "" then 0 else 10 * ReadDecimal(s[..|s| - 1]) + (s[|s| - 1] as int - '0' as int)
  }

  lemma ReadDigit(n: nat)
    requires n < 10
    ensures ReadDecimal(Decimal(n)) == n && |Decimal(n)| == 1
  {
    assert Decimal(n)[..0] == "";
  }

  /** The decimal notation reads back as the number. */
  lemma {:induction false} DecimalRoundTrip(n: nat)
    ensures ReadDecimal(Decimal(n)) == n
  {
    if n < 10 {
      ReadDigit(n);
    } else {
      DecimalRoundTrip(n / 10);
      ReadDigit(n % 10);
      var s := Decimal(n);
      assert s[..|s| - 1] == Decimal(n / 10) && [s[|s| - 1]] == Decimal(n % 10);
      assert Decimal(n % 10)[..0] == "";
    }
  }

  function OmittedLines(omitted: int): seq<string> {
    if omitted > 0 then ["", "(" + Decimal(omitted) + " more rows omitted)"] else []
  }

  function Table(columns: seq<string>, issues: seq<Issue>, maxIssues: int): seq<string> {
    [Row(HeaderCells(columns)), Separator(|columns|)]
    + IssueRows(Take(issues, maxIssues), columns)
    + OmittedLines(|issues| - maxIssues)
  }

  method RenderCells(issue: Option<Issue>, columns: seq<string>) returns (cells: seq<string>)
    ensures cells == if issue.Some? then IssueCells(issue.value, columns) else HeaderCells(columns)
  {
    hide Cell, IssueValue;
    cells := [];
    for i := 0 to |columns|
      invariant |cells| == i
      invariant forall j :: 0 <= j < i ==>
        cells[j] == Cell(Some(if issue.Some? then IssueValue(issue.value, columns[j]) else columns[j]))
    {
      cells := cells + [Cell(Some(if issue.Some? then IssueValue(issue.value, columns[i]) else columns[i]))];
    }
  }

  method IssuesTable(displayFields: seq<string>, issues: seq<Issue>, maxIssues: int) returns (table: seq<string>)
    requires issues != []
    ensures table == Table(Columns(displayFields, issues), issues, maxIssues)
  {
    hide Row, IssueCells, HeaderCells, Separator, OmittedLines;
    var columns := Columns(displayFields, issues);
    var header := RenderCells(None, columns);
    table := [Row(header), Separator(|columns|)];
    var shown := Take(issues, maxIssues);
    for i := 0 to |shown|
      invariant table == [Row(header), Separator(|columns|)] + IssueRows(shown[..i], columns)
    {
      var cells := RenderCells(Some(shown[i]), columns);
      table := table + [Row(cells)];
      assert IssueRows(shown[..i + 1], columns) == IssueRows(shown[..i], columns) + [Row(cells)];
    }
    assert shown[..|shown|] == shown;
    table := table + OmittedLines(|issues| - maxIssues);
  }

  /**
   The columns are the display fields if there are any, else the first eight fields of the first
   issue, in its order.
   */
  lemma ColumnsShown(displayFields: seq<string>, issues: seq<Issue>)
    requires issues != []
    ensures var fields := issues[0].keys;
      Columns(displayFields, issues) ==
      if displayFields != [] then displayFields else if |fields| <= 8 then fields else fields[..8]
  {
  }

  /** The line has exactly these cells, each between two spaces, and no line break. */
  ghost predicate ReadsAs(line: string, cells: seq<string>) {
    OneLine(line) && Split(line) == [""] + Padded(cells) + [""]
  }

  lemma SafeRow(cells: seq<string>)
    requires cells != []
    requires forall i :: 0 <= i < |cells| ==> PipesEscaped(cells[i]) && OneLine(cells[i])
    ensures ReadsAs(Row(cells), cells)
  {
    RowSplits(cells);
    RowIsOneLine(cells);
  }

  /**
   For any values and at least one column, the header and every row are single lines that read
   back as exactly one cell per column, the cell of its own issue and column; the separator has
   one group of dashes per column.
   */
  lemma {:induction false} TableIsWellFormed(columns: seq<string>, issues: seq<Issue>, maxIssues: int)
    requires columns != []
    ensures var table, shown := Table(columns, issues, maxIssues), Take(issues, maxIssues);
      && |table| >= 2 + |shown|
      && ReadsAs(table[0], HeaderCells(columns))
      && OneLine(table[1]) && Split(table[1]) == [""] + seq(|columns|, _ => "---") + [""]
      && (forall i :: 0 <= i < |shown| ==> ReadsAs(table[2 + i], IssueCells(shown[i], columns)))
  {
    hide ReadsAs, Row, Split, IssueValue, Escape, Separator;
    var table, shown := Table(columns, issues, maxIssues), Take(issues, maxIssues);
    forall i | 0 <= i < |columns|
      ensures PipesEscaped(HeaderCells(columns)[i]) && OneLine(HeaderCells(columns)[i])
    {
      EscapeIsSafe(columns[i]);
    }
    SafeRow(HeaderCells(columns));
    SeparatorSplits(|columns|);
    SeparatorIsOneLine(|columns|);
    forall i | 0 <= i < |shown|
      ensures ReadsAs(table[2 + i], IssueCells(shown[i], columns))
    {
      var cells := IssueCells(shown[i], columns);
      forall j | 0 <= j < |columns|
        ensures PipesEscaped(cells[j]) && OneLine(cells[j])
      {
        EscapeIsSafe(IssueValue(shown[i], columns[j]));
      }
      SafeRow(cells);
      assert table[2 + i] == IssueRows(shown, columns)[i];
    }
  }

  /** What a reader recovers from a cell: the issue's value on one line. */
  lemma {:induction false} CellsCarryValues(issue: Issue, columns: seq<string>, j: nat)
    requires j < |columns|
    ensures Unescape(IssueCells(issue, columns)[j]) == Flattened(IssueValue(issue, columns[j]))
  {
    CellRoundTrip(IssueValue(issue, columns[j]));
  }

  /** And from a header cell the name of its column. */
  lemma {:induction false} HeaderCarriesNames(columns: seq<string>, j: nat)
    requires j < |columns|
    ensures Unescape(HeaderCells(columns)[j]) == Flattened(columns[j])
  {
    CellRoundTrip(columns[j]);
  }

  /**
   After header and separator come the rows of the first maxIssues issues, and then, if issues are
   left, an empty line and one that says how many.
   */
  lemma {:induction false} TableEnds(columns: seq<string>, issues: seq<Issue>, maxIssues: nat)
    ensures var table, shown := Table(columns, issues, maxIssues), if maxIssues < |issues| then maxIssues else |issues|;
      && |table| == 2 + shown + (if maxIssues < |issues| then 2 else 0)
      && (forall i :: 0 <= i < shown ==> table[2 + i] == Row(IssueCells(issues[i], columns)))
      && (maxIssues < |issues| ==>
            && table[2 + shown] == ""
            && exists number :: ReadDecimal(number) == |issues| - maxIssues &&
                 table[3 + shown] == "(" + number + " more rows omitted)")
  {
    hide Row, IssueCells, HeaderCells, Separator, Decimal;
    var rows := IssueRows(Take(issues, maxIssues), columns);
    var table := Table(columns, issues, maxIssues);
    assert forall i :: 0 <= i < |rows| ==> table[2 + i] == rows[i];
    if maxIssues < |issues| {
      var omitted := |issues| - maxIssues;
      DecimalRoundTrip(omitted);
      assert table[3 + maxIssues] == "(" + Decimal(omitted) + " more rows omitted)";
    }
  }

  /** Rendered and omitted rows add up to the issues exactly for a non-negative limit. */
  lemma {:induction false} RowsAddUpExactly(issues: seq<Issue>, columns: seq<string>, maxIssues: int)
    ensures var omitted := |issues| - maxIssues;
      var rendered := |IssueRows(Take(issues, maxIssues), columns)|;
      rendered + (if omitted > 0 then omitted else 0) == |issues| <==> maxIssues >= 0
  {
    hide IssueCells, Row;
    var rows := IssueRows(Take(issues, maxIssues), columns);
    if maxIssues < 0 {
      assert |rows| <= |issues| + maxIssues || |rows| == 0;
    } else {
      assert |rows| == if maxIssues < |issues| then maxIssues else |issues|;
    }
  }

  /** Of three issues and a maximum of -1, two rows are rendered and four are said to be omitted. */
  lemma NegativeMaximum(issue: Issue, columns: seq<string>)
    ensures var issues := [issue, issue, issue];
      && |IssueRows(Take(issues, -1), columns)| == 2
      && Table(columns, issues, -1)[4..] == OmittedLines(4)
  {
    hide IssueCells, Row, Separator, OmittedLines;
    var issues := [issue, issue, issue];
    assert Take(issues, -1) == [issue, issue];
  }

  /** A null under an earlier form of the column name does not hide a value under a later one. */
  lemma {:induction false} ValueIsFirstNonNull(issue: Issue, column: string, i: nat)
    requires i < 3
    ensures var names := [column, Lower(column), WithoutSpaces(Lower(column))];
      && ((forall k :: 0 <= k < 3 ==> ValueAt(issue, names[k]) == None) ==> IssueValue(issue, column) == "")
      && (ValueAt(issue, names[i]).Some? && (forall k :: 0 <= k < i ==> ValueAt(issue, names[k]) == None) ==>
            IssueValue(issue, column) == ValueAt(issue, names[i]).value)
  {
    hide Lower, WithoutSpaces, ValueAt;
    var names := [column, Lower(column), WithoutSpaces(Lower(column))];
    assert names[0] == column;
    assert names[1] == Lower(column);
    assert names[2] == WithoutSpaces(Lower(column));
  }
}
