/** `buildTable(rows, columns)` of public/app.js: an HTML table with one
    header cell per column and one row per record, each with one cell per
    column, or a fixed paragraph when there are no records. Values are written
    without escaping; a reader (`ParseTable`) recovers the header and the cell
    texts whenever no text contains '<'. */
module Table {
  import opened Wrappers

  /** A JSON field value of a record; an absent key is modelled by the map's domain. */
  datatype Value = Null | Str(s: string) | Num(n: int) | Bool(b: bool)

  type Row = map<string, Value>

  const NO_DATA := "<p>Belum ada data.</p>"
  const TABLE_OPEN := "<table><thead><tr>"
  const HEAD_CLOSE := "</tr></thead><tbody>"
  const TABLE_CLOSE := "</tbody></table>"

  predicate IsDigit(c: char) {
    '0' <= c <= '9'
  }

  function DigitChar(d: nat): (c: char)
    requires d < 10
    ensures IsDigit(c) && c as int - '0' as int == d
  {
    ('0' as int + d) as char
  }

  /** The decimal digits of `n`, most significant first, without leading zeros. */
  function Digits(n: nat): (s: string)
    ensures |s| > 0 && forall i :: 0 <= i < |s| ==> IsDigit(s[i])
    ensures s[0] == '0' ==> n == 0
  {
    if n < 10 then [DigitChar(n)] else Digits(n / 10) + [DigitChar(n % 10)]
  }

  /** The value a string of decimal digits denotes. */
  function DigitsValue(s: string): int
    requires forall i :: 0 <= i < |s| ==> IsDigit(s[i])
  {
    if s == [] then 0 else DigitsValue(s[..|s| - 1]) * 10 + (s[|s| - 1] as int - '0' as int)
  }

  /** Reading the digits back gives the number. */
  lemma {:induction false} DigitsRoundTrip(n: nat)
    ensures DigitsValue(Digits(n)) == n
  {
    if n >= 10 {
      var s := Digits(n);
      assert s[..|s| - 1] == Digits(n / 10);
      DigitsRoundTrip(n / 10);
    }
  }

  /** `String(n)` for an integer: an optional minus sign and the digits of
      `|n|`, without a leading zero unless `n` is 0. */
  function DecimalString(n: int): (s: string)
    ensures n < 0 <==> |s| > 0 && s[0] == '-'
    ensures forall i :: 0 <= i < |s| ==> IsDigit(s[i]) || (i == 0 && s[i] == '-')
    ensures n >= 0 ==> |s| > 0 && DigitsValue(s) == n && (s[0] == '0' ==> n == 0)
    ensures n < 0 ==> |s| > 1 && DigitsValue(s[1..]) == -n && s[1] != '0'
  {
    if n < 0 then
      DigitsRoundTrip(-n);
      assert ("-" + Digits(-n))[1..] == Digits(-n);
      "-" + Digits(-n)
    else
      DigitsRoundTrip(n);
      Digits(n)
  }

  /** `${row[c] ?? '-'}`: only an absent key or null becomes '-'; 0, false and
      the empty string are written as themselves. */
  function CellText(row: Row, column: string): (t: string)
    ensures column !in row || row[column].Null? ==> t == "-"
    ensures column in row && row[column].Str? ==> t == row[column].s
    ensures column in row && row[column].Num? ==> t == DecimalString(row[column].n)
    ensures column in row && row[column].Bool? ==> t == (if row[column].b then "true" else "false")
  {
    if column !in row then "-"
    else match row[column]
      case Null => "-"
      case Str(s) => s
      case Num(n) => DecimalString(n)
      case Bool(b) => if b then "true" else "false"
  }

  function Open(tag: string): string {
    "<" + tag + ">"
  }

  function Close(tag: string): string {
    "</" + tag + ">"
  }

  /** `<tag>${text}</tag>`. */
  function Cell(tag: string, text: string): string {
    Open(tag) + text + Close(tag)
  }

  /** `texts.map((t) => `<tag>${t}</tag>`).join('')`. */
  function Cells(tag: string, texts: seq<string>): string {
    if texts == [] then "" else Cell(tag, texts[0]) + Cells(tag, texts[1..])
  }

  /** The texts of the cells: one row per record, one text per column. */
  function Grid(rows: seq<Row>, columns: seq<string>): (g: seq<seq<string>>)
    ensures |g| == |rows|
    ensures forall j :: 0 <= j < |rows| ==> |g[j]| == |columns|
    ensures forall j, i :: 0 <= j < |rows| && 0 <= i < |columns| ==> g[j][i] == CellText(rows[j], columns[i])
  {
    seq(|rows|, j requires 0 <= j < |rows| =>
      seq(|columns|, i requires 0 <= i < |columns| => CellText(rows[j], columns[i])))
  }

  /** `<tr>` elements, one per row of texts. */
  function RowsHtml(grid: seq<seq<string>>): string {
    if grid == [] then "" else Cell("tr", Cells("td", grid[0])) + RowsHtml(grid[1..])
  }

  function BuildTable(rows: seq<Row>, columns: seq<string>): (html: string)
    ensures rows == [] <==> html == NO_DATA
  {
    if |rows| == 0 then NO_DATA
    else TABLE_OPEN + Cells("th", columns) + HEAD_CLOSE + RowsHtml(Grid(rows, columns)) + TABLE_CLOSE
  }

  // A reader for the tables BuildTable writes.

  predicate StartsWith(s: string, p: string) {
    |p| <= |s| && s[..|p|] == p
  }

  predicate Untagged(s: string) {
    forall i :: 0 <= i < |s| ==> s[i] != '<'
  }

  /** The length of the text before the first '<'. */
  function TextEnd(s: string): (k: nat)
    ensures k <= |s| && Untagged(s[..k]) && (k < |s| ==> s[k] == '<')
  {
    if s == [] || s[0] == '<' then 0 else 1 + TextEnd(s[1..])
  }

  /** Reads `<tag>text</tag>` cells for as long as they follow; gives their texts and what remains. */
  function ReadCells(tag: string, s: string): (r: (seq<string>, string))
    ensures |r.1| <= |s|
    decreases |s|
  {
    var open := Open(tag);
    var close := Close(tag);
    if !StartsWith(s, open) then ([], s)
    else
      var body := s[|open|..];
      var k := TextEnd(body);
      var after := body[k..];
      if !StartsWith(after, close) then ([], s)
      else
        var next := ReadCells(tag, after[|close|..]);
        ([body[..k]] + next.0, next.1)
  }

  /** Reads `<tr>` rows of `<td>` cells for as long as they follow. */
  function ReadRows(s: string): (r: (seq<seq<string>>, string))
    ensures |r.1| <= |s|
    decreases |s|
  {
    if !StartsWith(s, Open("tr")) then ([], s)
    else
      var cells := ReadCells("td", s[|Open("tr")|..]);
      if !StartsWith(cells.1, Close("tr")) then ([], s)
      else
        var next := ReadRows(cells.1[|Close("tr")|..]);
        ([cells.0] + next.0, next.1)
  }

  /** The header texts and the cell texts of a table, if `html` is one. */
  function ParseTable(html: string): Option<(seq<string>, seq<seq<string>>)> {
    if !StartsWith(html, TABLE_OPEN) then None
    else
      var header := ReadCells("th", html[|TABLE_OPEN|..]);
      if !StartsWith(header.1, HEAD_CLOSE) then None
      else
        var body := ReadRows(header.1[|HEAD_CLOSE|..]);
        if body.1 != TABLE_CLOSE then None else Some((header.0, body.0))
  }

  lemma StartsWithAppend(p: string, x: string)
    ensures StartsWith(p + x, p) && (p + x)[|p|..] == x
  {
    assert (p + x)[..|p|] == p;
  }

  lemma TextEndAt(t: string, x: string)
    requires Untagged(t) && |x| > 0 && x[0] == '<'
    ensures TextEnd(t + x) == |t|
  {
    if t != [] {
      assert (t + x)[1..] == t[1..] + x;
      TextEndAt(t[1..], x);
    } else {
      assert t + x == x;
    }
  }

  /** Text that starts with a closing tag does not start with an opening one. */
  lemma ClosingIsNotOpen(s: string, tag: string)
    requires |s| > 1 && s[1] == '/'
    requires |tag| > 0 && tag[0] != '/'
    ensures !StartsWith(s, Open(tag))
  {
    assert Open(tag)[1] == tag[0];
  }

  /** One cell is read off the front. */
  lemma ReadCellsStep(tag: string, t: string, tail: string)
    requires tag == "th" || tag == "td"
    requires Untagged(t)
    ensures ReadCells(tag, Cell(tag, t) + tail) == ([t] + ReadCells(tag, tail).0, ReadCells(tag, tail).1)
  {
    var s := Cell(tag, t) + tail;
    assert s == Open(tag) + (t + (Close(tag) + tail));
    StartsWithAppend(Open(tag), t + (Close(tag) + tail));
    var body := s[|Open(tag)|..];
    TextEndAt(t, Close(tag) + tail);
    assert body[..|t|] == t;
    assert body[|t|..] == Close(tag) + tail;
    StartsWithAppend(Close(tag), tail);
  }

  /** When the cells after the first are read back, so are all of them. */
  lemma ReadCellsCons(tag: string, t: string, more: seq<string>, rest: string)
    requires tag == "th" || tag == "td"
    requires Untagged(t)
    requires ReadCells(tag, Cells(tag, more) + rest) == (more, rest)
    ensures ReadCells(tag, Cells(tag, [t] + more) + rest) == ([t] + more, rest)
  {
    var texts := [t] + more;
    assert texts[0] == t && texts[1..] == more;
    var tail := Cells(tag, more) + rest;
    assert Cells(tag, texts) + rest == Cell(tag, t) + tail;
    ReadCellsStep(tag, t, tail);
  }

  /** Reading the cells written for `texts` gives back `texts`. */
  lemma {:induction false} ReadCellsOf(tag: string, texts: seq<string>, rest: string)
    requires tag == "th" || tag == "td"
    requires forall i :: 0 <= i < |texts| ==> Untagged(texts[i])
    requires !StartsWith(rest, Open(tag))
    ensures ReadCells(tag, Cells(tag, texts) + rest) == (texts, rest)
  {
    if texts == [] {
      assert Cells(tag, texts) + rest == rest;
    } else {
      ReadCellsOf(tag, texts[1..], rest);
      ReadCellsCons(tag, texts[0], texts[1..], rest);
      assert texts == [texts[0]] + texts[1..];
    }
  }

  /** One row is read off the front. */
  lemma ReadRowsStep(texts: seq<string>, tail: string)
    requires forall i :: 0 <= i < |texts| ==> Untagged(texts[i])
    ensures ReadRows(Cell("tr", Cells("td", texts)) + tail) == ([texts] + ReadRows(tail).0, ReadRows(tail).1)
  {
    var s := Cell("tr", Cells("td", texts)) + tail;
    assert s == Open("tr") + (Cells("td", texts) + (Close("tr") + tail));
    StartsWithAppend(Open("tr"), Cells("td", texts) + (Close("tr") + tail));
    ClosingIsNotOpen(Close("tr") + tail, "td");
    ReadCellsOf("td", texts, Close("tr") + tail);
    StartsWithAppend(Close("tr"), tail);
  }

  /** Reading the rows written for `grid` gives back `grid`. */
  lemma {:induction false} ReadRowsOf(grid: seq<seq<string>>, rest: string)
    requires forall j, i :: 0 <= j < |grid| && 0 <= i < |grid[j]| ==> Untagged(grid[j][i])
    requires !StartsWith(rest, Open("tr"))
    ensures ReadRows(RowsHtml(grid) + rest) == (grid, rest)
  {
    if grid == [] {
      assert RowsHtml(grid) + rest == rest;
    } else {
      var tail := RowsHtml(grid[1..]) + rest;
      assert RowsHtml(grid) + rest == Cell("tr", Cells("td", grid[0])) + tail;
      ReadRowsStep(grid[0], tail);
      ReadRowsOf(grid[1..], rest);
      assert grid == [grid[0]] + grid[1..];
    }
  }

  /** Every text written into a cell is free of '<' when the record's string
      values are: numbers, booleans and '-' never contain it. */
  lemma CellTextUntagged(row: Row, column: string)
    requires column in row && row[column].Str? ==> Untagged(row[column].s)
    ensures Untagged(CellText(row, column))
  {
  }

  /** The header cells after the table's opening are read back up to `rest`. */
  lemma ReadHeaderOf(columns: seq<string>, rest: string)
    requires forall i :: 0 <= i < |columns| ==> Untagged(columns[i])
    requires |rest| > 1 && rest[1] == '/'
    ensures var html := TABLE_OPEN + (Cells("th", columns) + rest);
      StartsWith(html, TABLE_OPEN) && ReadCells("th", html[|TABLE_OPEN|..]) == (columns, rest)
  {
    StartsWithAppend(TABLE_OPEN, Cells("th", columns) + rest);
    ClosingIsNotOpen(rest, "th");
    ReadCellsOf("th", columns, rest);
  }

  /** The closings of the header and of the table both start with "</". */
  lemma ClosingsStart(x: string)
    ensures |HEAD_CLOSE + x| > 1 && (HEAD_CLOSE + x)[1] == '/'
    ensures |TABLE_CLOSE| > 1 && TABLE_CLOSE[1] == '/'
  {
    assert (HEAD_CLOSE + x)[1] == HEAD_CLOSE[1];
  }

  /** After the header, the rows are read back up to the table's closing. */
  lemma ReadBodyOf(grid: seq<seq<string>>)
    requires forall j, i :: 0 <= j < |grid| && 0 <= i < |grid[j]| ==> Untagged(grid[j][i])
    ensures var rest := HEAD_CLOSE + (RowsHtml(grid) + TABLE_CLOSE);
      && |rest| > 1 && rest[1] == '/'
      && StartsWith(rest, HEAD_CLOSE) && ReadRows(rest[|HEAD_CLOSE|..]) == (grid, TABLE_CLOSE)
  {
    ClosingsStart(RowsHtml(grid) + TABLE_CLOSE);
    StartsWithAppend(HEAD_CLOSE, RowsHtml(grid) + TABLE_CLOSE);
    ClosingIsNotOpen(TABLE_CLOSE, "tr");
    ReadRowsOf(grid, TABLE_CLOSE);
  }

  /** A header of '<'-free column names followed by rows of '<'-free texts is read back as written. */
  lemma ParseTableOf(columns: seq<string>, grid: seq<seq<string>>)
    requires forall i :: 0 <= i < |columns| ==> Untagged(columns[i])
    requires forall j, i :: 0 <= j < |grid| && 0 <= i < |grid[j]| ==> Untagged(grid[j][i])
    ensures ParseTable(TABLE_OPEN + Cells("th", columns) + HEAD_CLOSE + RowsHtml(grid) + TABLE_CLOSE) == Some((columns, grid))
  {
    var rest := HEAD_CLOSE + (RowsHtml(grid) + TABLE_CLOSE);
    var html := TABLE_OPEN + Cells("th", columns) + HEAD_CLOSE + RowsHtml(grid) + TABLE_CLOSE;
    assert html == TABLE_OPEN + (Cells("th", columns) + rest);
    ReadBodyOf(grid);
    ReadHeaderOf(columns, rest);
  }

  /** The table has one header cell per column, in order, and one row per
      record holding one cell per column, in order: reading it back gives the
      columns and the cell texts, provided no column name and no string value
      contains '<'. */
  lemma TableRoundTrip(rows: seq<Row>, columns: seq<string>)
    requires |rows| > 0
    requires forall i :: 0 <= i < |columns| ==> Untagged(columns[i])
    requires forall j, c :: 0 <= j < |rows| && c in rows[j] && rows[j][c].Str? ==> Untagged(rows[j][c].s)
    ensures ParseTable(BuildTable(rows, columns)) == Some((columns, Grid(rows, columns)))
  {
    var grid := Grid(rows, columns);
    forall j, i | 0 <= j < |grid| && 0 <= i < |grid[j]|
      ensures Untagged(grid[j][i])
    {
      CellTextUntagged(rows[j], columns[i]);
    }
    ParseTableOf(columns, grid);
  }

  /** The empty-data paragraph is never read as a table. */
  lemma NoDataIsNoTable()
    ensures ParseTable(NO_DATA) == None
  {
    assert NO_DATA[1] == 'p';
  }
}
