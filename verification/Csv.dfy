/** The pipeline's CSV reader and writer (lib/csv.mjs), against section 2 of RFC 4180. */
module Csv {
  import opened Whitespace

  type Row = seq<string>

  // ---- reading ----

  predicate HasContent(row: Row) {
    exists i :: 0 <= i < |row| && row[i] != ""
  }

  function Kept(rows: seq<Row>, row: Row): seq<Row> {
    if HasContent(row) then rows + [row] else rows
  }

  /** What is left to read, from a scanner holding finished rows, the open row, the open cell and the quote flag. */
  function Rest(s: string, rows: seq<Row>, row: Row, cell: string, quoted: bool): seq<Row>
    decreases |s|
  {
    if s == "" then (if cell != "" || row != [] then Kept(rows, row + [cell]) else rows)
    else if s[0] == '"' then
      if quoted && |s| > 1 && s[1] == '"' then Rest(s[2..], rows, row, cell + "\"", quoted)
      else Rest(s[1..], rows, row, cell, !quoted)
    else if s[0] == ',' && !quoted then Rest(s[1..], rows, row + [cell], "", quoted)
    else if IsLineBreak(s[0]) && !quoted then
      Rest(if s[0] == '\r' && |s| > 1 && s[1] == '\n' then s[2..] else s[1..], Kept(rows, row + [cell]), [], "", quoted)
    else Rest(s[1..], rows, row, cell + [s[0]], quoted)
  }

  function Parse(s: string): seq<Row> {
    Rest(s, [], [], "", false)
  }

  method ParseCsv(source: string) returns (rows: seq<Row>)
    ensures rows == Parse(source)
  {
    rows := [];
    var row: Row := [];
    var cell := "";
    var quoted := false;
    var index := 0;
    while index < |source|
      invariant index <= |source|
      invariant Parse(source) == Rest(source[index..], rows, row, cell, quoted)
    {
      var c := source[index];
      if c == '"' {
        if quoted && index + 1 < |source| && source[index + 1] == '"' {
          cell := cell + "\"";
          index := index + 1;
        } else {
          quoted := !quoted;
        }
      } else if c == ',' && !quoted {
        row := row + [cell];
        cell := "";
      } else if (c == '\n' || c == '\r') && !quoted {
        if c == '\r' && index + 1 < |source| && source[index + 1] == '\n' {
          index := index + 1;
        }
        row := row + [cell];
        if HasContent(row) {
          rows := rows + [row];
        }
        row := [];
        cell := "";
      } else {
        cell := cell + [c];
      }
      index := index + 1;
    }
    if cell != "" || row != [] {
      row := row + [cell];
      if HasContent(row) {
        rows := rows + [row];
      }
    }
  }

  // ---- writing ----

  predicate IsDigit(c: char) {
    '0' <= c <= '9'
  }

  predicate AllDigits(s: string) {
    s != "" && forall i :: 0 <= i < |s| ==> IsDigit(s[i])
  }

  /** An optionally signed number with an optional decimal part after a point or a comma. */
  predicate IsNumber(s: string) {
    var t := if s != "" && s[0] == '-' then s[1..] else s;
    AllDigits(t) || exists i :: 0 < i < |t| && t[i] in {'.', ','} && AllDigits(t[..i]) && AllDigits(t[i + 1..])
  }

  predicate StartsFormula(s: string) {
    s != "" && s[0] in {'=', '+', '@', '-'}
  }

  function Guard(s: string, guardFormulas: bool): string {
    if guardFormulas && StartsFormula(s) && !IsNumber(s) then "'" + s else s
  }

  predicate Special(c: char) {
    c in {'"', ',', '\n', '\r'}
  }

  predicate NeedsQuotes(s: string) {
    exists i :: 0 <= i < |s| && Special(s[i])
  }

  function Doubled(s: string): string {
    if s == "" then "" else (if s[0] == '"' then "\"\"" else [s[0]]) + Doubled(s[1..])
  }

  function CellText(s: string): string {
    if NeedsQuotes(s) then "\"" + Doubled(s) + "\"" else s
  }

  function Join(parts: seq<string>, separator: string): string {
    if parts == [] then ""
    else if |parts| == 1 then parts[0]
    else parts[0] + separator + Join(parts[1..], separator)
  }

  function Guarded(row: Row, guardFormulas: bool): Row {
    seq(|row|, i requires 0 <= i < |row| => Guard(row[i], guardFormulas))
  }

  function RowText(row: Row): string {
    Join(seq(|row|, i requires 0 <= i < |row| => CellText(row[i])), ",")
  }

  function GuardedRows(rows: seq<Row>, guardFormulas: bool): seq<Row> {
    seq(|rows|, i requires 0 <= i < |rows| => Guarded(rows[i], guardFormulas))
  }

  function ToCsv(rows: seq<Row>, guardFormulas: bool): string {
    var guarded := GuardedRows(rows, guardFormulas);
    Join(seq(|rows|, i requires 0 <= i < |rows| => RowText(guarded[i])), "\n") + "\n"
  }

  // ---- reading back what was written ----

  function WithContent(rows: seq<Row>): seq<Row> {
    if rows == [] then [] else (if HasContent(rows[0]) then [rows[0]] else []) + WithContent(rows[1..])
  }

  lemma {:induction false} PlainCellReads(s: string, rest: string, rows: seq<Row>, row: Row, cell: string)
    requires !NeedsQuotes(s)
    ensures Rest(s + rest, rows, row, cell, false) == Rest(rest, rows, row, cell + s, false)
  {
    if s == "" {
      assert s + rest == rest && cell + s == cell;
    } else {
      assert !Special(s[0]);
      assert (s + rest)[1..] == s[1..] + rest && cell + [s[0]] + s[1..] == cell + s;
      assert !NeedsQuotes(s[1..]) by {
        assert forall i :: 0 <= i < |s[1..]| ==> s[1..][i] == s[i + 1];
      }
      PlainCellReads(s[1..], rest, rows, row, cell + [s[0]]);
    }
  }

  /** Inside quotes every character, doubled quotes included, comes back as itself. */
  lemma {:induction false} QuotedBodyReads(s: string, rest: string, rows: seq<Row>, row: Row, cell: string)
    requires rest == "" || rest[0] != '"'
    ensures Rest(Doubled(s) + "\"" + rest, rows, row, cell, true) == Rest(rest, rows, row, cell + s, false)
  {
    var text := Doubled(s) + "\"" + rest;
    if s == "" {
      assert text == "\"" + rest && text[1..] == rest && cell + s == cell;
    } else {
      var tail := Doubled(s[1..]) + "\"" + rest;
      assert cell + [s[0]] + s[1..] == cell + s;
      if s[0] == '"' {
        assert text == "\"\"" + tail && text[2..] == tail;
      } else {
        assert text == [s[0]] + tail && text[1..] == tail;
      }
      QuotedBodyReads(s[1..], rest, rows, row, cell + [s[0]]);
    }
  }

  lemma QuotedCellReads(s: string, rest: string, rows: seq<Row>, row: Row)
    requires rest == "" || rest[0] != '"'
    ensures Rest("\"" + Doubled(s) + "\"" + rest, rows, row, "", false) == Rest(rest, rows, row, s, false)
  {
    var text := "\"" + Doubled(s) + "\"" + rest;
    assert text[0] == '"' && text[1..] == Doubled(s) + "\"" + rest;
    QuotedBodyReads(s, rest, rows, row, "");
    assert "" + s == s;
  }

  lemma CellReads(s: string, rest: string, rows: seq<Row>, row: Row)
    requires rest == "" || rest[0] != '"'
    ensures Rest(CellText(s) + rest, rows, row, "", false) == Rest(rest, rows, row, s, false)
  {
    if NeedsQuotes(s) {
      QuotedCellReads(s, rest, rows, row);
    } else {
      PlainCellReads(s, rest, rows, row, "");
      assert "" + s == s;
    }
  }

  function CellTexts(row: Row): seq<string> {
    seq(|row|, i requires 0 <= i < |row| => CellText(row[i]))
  }

  lemma FirstCellReads(row: Row, rest: string, rows: seq<Row>, before: Row)
    requires |row| > 1
    ensures Rest(Join(CellTexts(row), ",") + rest, rows, before, "", false) ==
      Rest(Join(CellTexts(row[1..]), ",") + rest, rows, before + [row[0]], "", false)
  {
    var tail := Join(CellTexts(row[1..]), ",") + rest;
    assert CellTexts(row)[1..] == CellTexts(row[1..]);
    CellReads(row[0], "," + tail, rows, before);
    assert Join(CellTexts(row), ",") + rest == CellText(row[0]) + ("," + tail);
    assert ("," + tail)[1..] == tail;
  }

  /** Reading a row's text leaves its last cell open. */
  lemma {:induction false} RowReads(row: Row, rest: string, rows: seq<Row>, before: Row)
    requires row != [] && (rest == "" || rest[0] != '"')
    ensures Rest(Join(CellTexts(row), ",") + rest, rows, before, "", false) ==
      Rest(rest, rows, before + row[..|row| - 1], row[|row| - 1], false)
  {
    if |row| == 1 {
      CellReads(row[0], rest, rows, before);
      assert before + row[..0] == before;
    } else {
      FirstCellReads(row, rest, rows, before);
      RowReads(row[1..], rest, rows, before + [row[0]]);
      assert before + [row[0]] + row[1..][..|row| - 2] == before + row[..|row| - 1];
    }
  }

  lemma LineReads(row: Row, rest: string, rows: seq<Row>)
    ensures Rest(RowText(row) + "\n" + rest, rows, [], "", false) == Rest(rest, Kept(rows, row), [], "", false)
  {
    if row == [] {
      NoRowsRead(rest, rows);
      assert RowText(row) + "\n" + rest == "\n" + rest && !HasContent(row);
    } else {
      assert RowText(row) == Join(CellTexts(row), ",") && RowText(row) + "\n" + rest == RowText(row) + ("\n" + rest);
      RowReads(row, "\n" + rest, rows, []);
      assert ("\n" + rest)[1..] == rest && [] + row[..|row| - 1] + [row[|row| - 1]] == row;
    }
  }

  /** A single row reads back the same without its line end. */
  lemma LoneLineReads(row: Row)
    ensures Parse(RowText(row)) == WithContent([row])
  {
    assert WithContent([row]) == Kept([], row) by {
      assert [row][1..] == [];
    }
    if row == [] {
      assert RowText(row) == "" && !HasContent(row);
    } else {
      assert RowText(row) == Join(CellTexts(row), ",") && RowText(row) + "" == RowText(row);
      RowReads(row, "", [], []);
      assert [] + row[..|row| - 1] + [row[|row| - 1]] == row;
      if row[|row| - 1] == "" && row[..|row| - 1] == [] {
        assert row == [""];
      }
    }
  }

  function RowTexts(rows: seq<Row>): seq<string> {
    seq(|rows|, i requires 0 <= i < |rows| => RowText(rows[i]))
  }

  lemma NoRowsRead(rest: string, done: seq<Row>)
    ensures Rest("\n" + rest, done, [], "", false) == Rest(rest, done, [], "", false)
  {
  }

  lemma KeptFirst(rows: seq<Row>, done: seq<Row>)
    requires rows != []
    ensures Kept(done, rows[0]) + WithContent(rows[1..]) == done + WithContent(rows)
  {
    hide HasContent;
    var rest := WithContent(rows[1..]);
    if HasContent(rows[0]) {
      assert done + [rows[0]] + rest == done + ([rows[0]] + rest);
    } else {
      assert [] + rest == rest;
    }
  }

  lemma FirstLine(rows: seq<Row>, rest: string)
    requires |rows| > 1
    ensures Join(RowTexts(rows), "\n") + "\n" + rest ==
      RowText(rows[0]) + "\n" + (Join(RowTexts(rows[1..]), "\n") + "\n" + rest)
  {
    assert RowTexts(rows)[1..] == RowTexts(rows[1..]);
  }

  lemma {:induction false} RowsRead(rows: seq<Row>, rest: string, done: seq<Row>)
    ensures Rest(Join(RowTexts(rows), "\n") + "\n" + rest, done, [], "", false) ==
      Rest(rest, done + WithContent(rows), [], "", false)
  {
    if rows == [] {
      NoRowsRead(rest, done);
      assert Join(RowTexts(rows), "\n") + "\n" + rest == "\n" + rest && done + WithContent(rows) == done;
    } else if |rows| == 1 {
      LineReads(rows[0], rest, done);
      KeptFirst(rows, done);
      assert Kept(done, rows[0]) + WithContent(rows[1..]) == Kept(done, rows[0]);
    } else {
      FirstLine(rows, rest);
      LineReads(rows[0], Join(RowTexts(rows[1..]), "\n") + "\n" + rest, done);
      RowsRead(rows[1..], rest, Kept(done, rows[0]));
      KeptFirst(rows, done);
    }
  }

  /** MAIN: reading what was written returns the (guarded) rows, minus those whose cells are all empty. */
  lemma RoundTrip(rows: seq<Row>, guardFormulas: bool)
    ensures Parse(ToCsv(rows, guardFormulas)) == WithContent(GuardedRows(rows, guardFormulas))
  {
    var guarded := GuardedRows(rows, guardFormulas);
    RowsRead(guarded, "", []);
    assert RowTexts(guarded) == seq(|rows|, i requires 0 <= i < |rows| => RowText(guarded[i]));
    assert ToCsv(rows, guardFormulas) + "" == ToCsv(rows, guardFormulas);
    assert [] + WithContent(guarded) == WithContent(guarded);
  }

  lemma UnguardedRows(rows: seq<Row>)
    ensures GuardedRows(rows, false) == rows
  {
    forall i | 0 <= i < |rows| ensures Guarded(rows[i], false) == rows[i] {
    }
  }

  /** Without the guard the rows come back exactly, whatever characters their cells hold. */
  lemma PlainRoundTrip(rows: seq<Row>)
    ensures Parse(ToCsv(rows, false)) == WithContent(rows)
  {
    RoundTrip(rows, false);
    UnguardedRows(rows);
  }

  /** Two written documents appended to each other read as their rows appended. */
  lemma DocumentsConcatenate(a: seq<Row>, b: seq<Row>)
    ensures Parse(ToCsv(a, false) + ToCsv(b, false)) == Parse(ToCsv(a, false)) + Parse(ToCsv(b, false))
  {
    PlainRoundTrip(a);
    PlainRoundTrip(b);
    UnguardedRows(a);
    UnguardedRows(b);
    assert ToCsv(a, false) == Join(RowTexts(a), "\n") + "\n" && ToCsv(b, false) == Join(RowTexts(b), "\n") + "\n";
    RowsRead(a, ToCsv(b, false), []);
    RowsRead(b, "", [] + WithContent(a));
    assert ToCsv(b, false) + "" == ToCsv(b, false);
    assert [] + WithContent(a) + WithContent(b) == WithContent(a) + WithContent(b);
  }

  ghost predicate AllHaveContent(rows: seq<Row>) {
    forall i :: 0 <= i < |rows| ==> HasContent(rows[i])
  }

  lemma {:induction false} ParsedRowsHaveContent(s: string, rows: seq<Row>, row: Row, cell: string, quoted: bool)
    requires AllHaveContent(rows)
    ensures AllHaveContent(Rest(s, rows, row, cell, quoted))
    decreases |s|
  {
    if s == "" {
    } else if s[0] == '"' {
      if quoted && |s| > 1 && s[1] == '"' {
        ParsedRowsHaveContent(s[2..], rows, row, cell + "\"", quoted);
      } else {
        ParsedRowsHaveContent(s[1..], rows, row, cell, !quoted);
      }
    } else if s[0] == ',' && !quoted {
      ParsedRowsHaveContent(s[1..], rows, row + [cell], "", quoted);
    } else if IsLineBreak(s[0]) && !quoted {
      var rest := if s[0] == '\r' && |s| > 1 && s[1] == '\n' then s[2..] else s[1..];
      ParsedRowsHaveContent(rest, Kept(rows, row + [cell]), [], "", quoted);
    } else {
      ParsedRowsHaveContent(s[1..], rows, row, cell + [s[0]], quoted);
    }
  }

  lemma {:induction false} AllKept(rows: seq<Row>)
    requires AllHaveContent(rows)
    ensures WithContent(rows) == rows
  {
    if rows != [] {
      assert forall i :: 0 <= i < |rows[1..]| ==> rows[1..][i] == rows[i + 1];
      AllKept(rows[1..]);
    }
  }

  /** On any text at all, writing what was read and reading it again changes nothing. */
  lemma ReadWriteRead(s: string)
    ensures Parse(ToCsv(Parse(s), false)) == Parse(s)
  {
    ParsedRowsHaveContent(s, [], [], "", false);
    PlainRoundTrip(Parse(s));
    AllKept(Parse(s));
  }

  /** A guarded cell never starts a spreadsheet formula, unless it is a plain number; it keeps its emptiness. */
  lemma GuardNeutralizes(s: string)
    ensures StartsFormula(Guard(s, true)) ==> IsNumber(s) && Guard(s, true) == s
    ensures Guard(s, true) == s || Guard(s, true)[1..] == s
    ensures Guard(s, true) == "" <==> s == ""
  {
  }

  // ---- one-line cells ----

  function SkipBreaks(s: string): (t: string)
    ensures |t| <= |s| && (t == "" || !IsLineBreak(t[0]))
  {
    if s == "" || !IsLineBreak(s[0]) then s else SkipBreaks(s[1..])
  }

  function Flattened(s: string): string
    decreases |s|
  {
    if s == "" then ""
    else if IsLineBreak(s[0]) then " " + Flattened(SkipBreaks(s[1..]))
    else [s[0]] + Flattened(s[1..])
  }

  function SingleLineCell(s: string): string {
    Trim(Flattened(s))
  }

  predicate OneLine(s: string) {
    forall c :: c in s ==> !IsLineBreak(c)
  }

  lemma {:induction false} FlattenedIsOneLine(s: string)
    ensures OneLine(Flattened(s))
    ensures OneLine(s) ==> Flattened(s) == s
    decreases |s|
  {
    if s != "" {
      if IsLineBreak(s[0]) {
        FlattenedIsOneLine(SkipBreaks(s[1..]));
      } else {
        FlattenedIsOneLine(s[1..]);
        assert OneLine(s) ==> OneLine(s[1..]);
      }
    }
  }

  lemma SingleLineCellIsClean(s: string)
    ensures OneLine(SingleLineCell(s)) && Trimmed(SingleLineCell(s))
    ensures OneLine(s) && Trimmed(s) ==> SingleLineCell(s) == s
    ensures SingleLineCell(SingleLineCell(s)) == SingleLineCell(s)
  {
    FlattenedIsOneLine(s);
    TrimTrims(Flattened(s));
    FlattenedIsOneLine(SingleLineCell(s));
    TrimTrims(SingleLineCell(s));
    TrimTrims(s);
  }
}
