/** The rows of the printed register, read back through everything printed above them. */
module RegisterRowsBack {
  import opened Text
  import opened DocRules
  import opened GenRegister
  import opened RegisterPrint
  import opened RegisterRoundTrip
  import opened RegisterPreamble
  import opened RegisterReadBack

  /** A line that leaves the reader looking for the table's header. */
  ghost predicate PassedOver(line: string) {
    forall rows: Register :: ReadLine(Scan([], rows), line) == Scan([], rows)
  }

  ghost predicate AllPassed(lines: seq<string>) {
    forall i :: 0 <= i < |lines| ==> OneLine(lines[i]) && PassedOver(lines[i])
  }

  lemma {:induction false} AllPassedAppend(a: seq<string>, b: seq<string>)
    requires AllPassed(a) && AllPassed(b)
    ensures AllPassed(a + b)
  {
    hide OneLine, PassedOver;
  }

  lemma {:induction false} AllPassedOne(line: string)
    requires OneLine(line) && PassedOver(line)
    ensures AllPassed([line])
  {
    hide OneLine, PassedOver;
  }

  lemma {:induction false} WalkPasses(lines: seq<string>, rest: seq<string>, rows: Register)
    requires AllPassed(lines)
    ensures RegisterWalk(lines + rest, Scan([], rows)) == RegisterWalk(rest, Scan([], rows))
  {
    if lines == [] {
      assert lines + rest == rest;
    } else {
      var line, tail := lines[0], lines[1..];
      assert PassedOver(line) && AllPassed(tail);
      assert lines == [line] + tail;
      assert ReadLine(Scan([], rows), line) == Scan([], rows);
      hide *;
      Reassociate([line], tail, rest);
      WalkOne(line, tail + rest, Scan([], rows));
      WalkPasses(tail, rest, rows);
    }
  }

  lemma {:induction false} TextLinePassed(line: string)
    requires TextLine(line)
    ensures OneLine(line) && PassedOver(line)
  {
    var s := Strip(line);
    assert !IsTableLine(s) by {
      if line != "" {
        var a, b := TrimParts(White, line);
        assert !White.Drops(line[0]);
        assert a == 0;
        assert s != "" ==> s[0] == line[0];
      }
    }
    hide Strip, IsTableLine, OneLine;
  }

  lemma {:induction false} RowPassed(line: string)
    requires RowLine(line) && (AllDashes(Cells(line)) || !IsRegisterHeader(Cells(line)))
    ensures OneLine(line) && PassedOver(line)
  {
    var cells := Cells(line);
    forall rows: Register ensures ReadLine(Scan([], rows), line) == Scan([], rows) {
      RowLineParts(line);
      hide *;
      ReadsCells(Scan([], rows), line, cells);
    }
  }

  lemma {:induction false} RulerPassed(n: nat, row: string)
    requires n >= 1 && row == Ruler(n)
    ensures OneLine(row) && PassedOver(row)
  {
    hide *;
    CellsOfRuler(n, row);
    RulerLine(n, row);
    RowPassed(row);
  }

  lemma {:induction false} NeatRowPassed(cells: seq<string>, row: string)
    requires |cells| >= 1 && NeatCells(cells) && !IsRegisterHeader(cells) && row == Row(cells)
    ensures OneLine(row) && PassedOver(row)
  {
    assert RowLine(row) by {
      hide Row, Strip, OneLine, NeatCells, IsRegisterHeader;
      CellsOfNeatRow(cells, row);
    }
    hide *;
    CellsOfNeatRow(cells, row);
    RowPassed(row);
  }

  // ---- the control table ----

  predicate NoHeaderPairs(pairs: seq<(string, string)>) {
    forall i :: 0 <= i < |pairs| ==> !IsRegisterHeader([pairs[i].0, pairs[i].1])
  }

  lemma {:induction false} PairIsNoHeader(k: string, v: string)
    requires k != "File" && (k == "Document Identifier" ==> v != "File")
    ensures !IsRegisterHeader([k, v])
  {}

  lemma {:induction false} PairsAreNoHeader(h: Header, p: Prose, pairs: seq<(string, string)>)
    requires pairs == ControlPairs(h, p)
    ensures NoHeaderPairs(pairs)
  {
    var n := [14, 19, 7, 4, 6, 6, 8, 14, 13, 11, 7, 15, 8, 5];
    assert forall i :: 0 <= i < 14 ==> |pairs[i].0| == n[i];
    assert pairs[3].0[0] == 'D' && "File"[0] == 'F';
    assert |pairs[1].1| == 16;
    hide ControlPairs;
    forall i | 0 <= i < 14 ensures !IsRegisterHeader([pairs[i].0, pairs[i].1]) {
      assert |"Document Identifier"| == 19 && |"File"| == 4;
      PairIsNoHeader(pairs[i].0, pairs[i].1);
    }
  }

  lemma {:induction false} PairRowsPassed(pairs: seq<(string, string)>, rows: seq<string>)
    requires GoodPairs(pairs) && NoHeaderPairs(pairs) && rows == PairRows(pairs)
    ensures AllPassed(rows)
    decreases |pairs|
  {
    if pairs != [] {
      var tail, more := pairs[1..], PairRows(pairs[1..]);
      var cells := [pairs[0].0, pairs[0].1];
      assert GoodKey(pairs[0].0) && Neat(pairs[0].1);
      assert NeatCells(cells) && !IsRegisterHeader(cells);
      assert GoodPairs(tail) && NoHeaderPairs(tail);
      assert rows == [Row(cells)] + more;
      hide *;
      NeatRowPassed(cells, Row(cells));
      PairRowsPassed(tail, more);
      AllPassedOne(Row(cells));
      AllPassedAppend([Row(cells)], more);
    }
  }

  lemma {:induction false} FieldRowPassed(row: string)
    requires row == Row(["Field", "Value"])
    ensures OneLine(row) && PassedOver(row)
  {
    assert !IsRegisterHeader(["Field", "Value"]);
    hide *;
    FieldValue(row);
    RowPassed(row);
  }

  lemma {:induction false} ControlTablePassed(h: Header, p: Prose, table: seq<string>)
    requires NeatHeader(h) && GoodProse(p) && table == ControlTable(h, p)
    ensures AllPassed(table)
  {
    var pairs := ControlPairs(h, p);
    var rows := PairRows(pairs);
    var a, b := Row(["Field", "Value"]), Ruler(2);
    assert table == ([a] + [b]) + rows;
    hide *;
    PairsGood(h, p, pairs);
    PairsAreNoHeader(h, p, pairs);
    PairRowsPassed(pairs, rows);
    FieldRowPassed(a);
    RulerPassed(2, b);
    AllPassedOne(a);
    AllPassedOne(b);
    AllPassedAppend([a], [b]);
    AllPassedAppend([a] + [b], rows);
  }

  // ---- the revision history ----

  lemma {:induction false} NoteRowPassed(version: string, date: string, note: string, cells: seq<string>, row: string)
    requires NotColumn(note) && NotColumn(version)
    requires cells == [version, date, "SomaTech Engineering", note] && NeatCells(cells) && row == Row(cells)
    ensures OneLine(row) && PassedOver(row)
  {
    assert !IsRegisterHeader(cells) by {
      assert |"SomaTech Engineering"| == 20 && |"File"| == 4 && |"Document Identifier"| == 19;
    }
    assert |cells| >= 1;
    hide *;
    NeatRowPassed(cells, row);
  }

  lemma {:induction false} ColumnsRowPassed(row: string)
    requires row == Row(REVISION_COLUMNS)
    ensures OneLine(row) && PassedOver(row)
  {
    var c: seq<string> := REVISION_COLUMNS;
    assert |c| == 4 && |c[0]| == 7 && |c[1]| == 4 && |c[2]| == 6 && |c[3]| == 11;
    assert !IsRegisterHeader(c) by { assert |"Document Identifier"| == 19; }
    ColumnsNeat(c);
    hide *;
    NeatRowPassed(c, row);
  }

  lemma {:induction false} VersionsAreNoColumns()
    ensures NotColumn("1.0.0") && NotColumn("1.0.1") && NotColumn("1.1.0")
  {}

  lemma {:induction false} FivePassed(a: string, b: string, c: string, d: string, e: string, table: seq<string>)
    requires table == [a, b] + [c, d, e]
    requires OneLine(a) && PassedOver(a) && OneLine(b) && PassedOver(b) && OneLine(c) && PassedOver(c)
    requires OneLine(d) && PassedOver(d) && OneLine(e) && PassedOver(e)
    ensures AllPassed(table)
  {
    hide OneLine, PassedOver;
  }

  lemma {:induction false} HistoryTablePassed(iso: string, p: Prose, table: seq<string>)
    requires Neat(iso) && GoodProse(p) && table == HistoryTable(iso, p)
    ensures AllPassed(table)
  {
    var c0, c1, c2 := ["1.0.0", "2026-09-27", "SomaTech Engineering", p.seeded],
                      ["1.0.1", "2026-09-27", "SomaTech Engineering", p.corrected],
                      ["1.1.0", iso, "SomaTech Engineering", p.regenerated];
    var a, b := Row(REVISION_COLUMNS), Ruler(4);
    assert table == [a, b] + [Row(c0), Row(c1), Row(c2)];
    assert NotColumn(p.seeded) && NotColumn(p.corrected) && NotColumn(p.regenerated);
    hide *;
    HistoryCells(iso, p);
    VersionsAreNoColumns();
    NoteRowPassed("1.0.0", "2026-09-27", p.seeded, c0, Row(c0));
    NoteRowPassed("1.0.1", "2026-09-27", p.corrected, c1, Row(c1));
    NoteRowPassed("1.1.0", iso, p.regenerated, c2, Row(c2));
    ColumnsRowPassed(a);
    RulerPassed(4, b);
    FivePassed(a, b, Row(c0), Row(c1), Row(c2), table);
  }

  // ---- everything above the register table ----

  lemma {:induction false} HeadingsAreText()
    ensures TextLine("") && TextLine("## Document Control") && TextLine("## Revision History")
  {}

  lemma {:induction false} TitleIsText() ensures TextLine("# SOMA-01-DOCS-002 — Document Register") {}

  lemma {:induction false} TextLinesPassed(lines: seq<string>)
    requires forall i :: 0 <= i < |lines| ==> TextLine(lines[i])
    ensures AllPassed(lines)
  {
    forall i | 0 <= i < |lines| ensures OneLine(lines[i]) && PassedOver(lines[i]) {
      TextLinePassed(lines[i]);
      hide OneLine, PassedOver;
    }
  }

  function Above(heading: string, table: seq<string>): seq<string> { [heading] + [""] + table + [""] }

  lemma {:induction false} AbovePassedOver(heading: string, table: seq<string>)
    requires TextLine(heading) && AllPassed(table)
    ensures AllPassed(Above(heading, table))
  {
    assert Above(heading, table) == [heading] + [""] + table + [""];
    hide *;
    HeadingsAreText();
    TextLinePassed(heading);
    TextLinePassed("");
    AllPassedOne(heading);
    AllPassedOne("");
    AllPassedAppend([heading], [""]);
    AllPassedAppend([heading] + [""], table);
    AllPassedAppend([heading] + [""] + table, [""]);
  }

  lemma {:induction false} TitlePassed()
    ensures AllPassed(TITLE_LINES)
  {
    TitleIsText();
    HeadingsAreText();
    assert forall i :: 0 <= i < |TITLE_LINES| ==> TextLine(TITLE_LINES[i]) by { hide TextLine; }
    hide *;
    TextLinesPassed(TITLE_LINES);
  }

  function Preamble(h: Header, iso: string, p: Prose): seq<string> {
    TITLE_LINES + Above("## Document Control", ControlTable(h, p))
    + Above("## Revision History", HistoryTable(iso, p)) + p.purpose
  }

  lemma {:induction false} PreamblePassed(h: Header, iso: string, p: Prose)
    requires GoodInput(h, iso, p)
    ensures AllPassed(Preamble(h, iso, p))
  {
    var a, b := Above("## Document Control", ControlTable(h, p)), Above("## Revision History", HistoryTable(iso, p));
    assert Preamble(h, iso, p) == TITLE_LINES + a + b + p.purpose;
    assert NeatHeader(h) && Neat(iso) && GoodProse(p);
    assert forall i :: 0 <= i < |p.purpose| ==> TextLine(p.purpose[i]);
    hide *;
    TitlePassed();
    HeadingsAreText();
    ControlTablePassed(h, p, ControlTable(h, p));
    AbovePassedOver("## Document Control", ControlTable(h, p));
    HistoryTablePassed(iso, p, HistoryTable(iso, p));
    AbovePassedOver("## Revision History", HistoryTable(iso, p));
    TextLinesPassed(p.purpose);
    AllPassedAppend(TITLE_LINES, a);
    AllPassedAppend(TITLE_LINES + a, b);
    AllPassedAppend(TITLE_LINES + a + b, p.purpose);
  }

  lemma {:induction false} CutAtRegister(h: Header, iso: string, p: Prose, entries: seq<Entry>)
    ensures Lines(h, iso, p, entries)
         == Preamble(h, iso, p) + RegisterTable(entries, Summary(entries) + p.remediation)
  {
    var c, t := ControlTable(h, p), HistoryTable(iso, p);
    var r := RegisterTable(entries, Summary(entries) + p.remediation);
    hide ControlTable, HistoryTable, RegisterTable, Summary, TITLE_LINES;
    assert Below(iso, p, entries) == Above("## Revision History", t) + (p.purpose + r);
    assert Section("## Document Control", c, Below(iso, p, entries))
        == Above("## Document Control", c) + Below(iso, p, entries);
  }

  // ---- the register table ----

  lemma {:induction false} EntryRowOneLine(e: Entry, row: string)
    requires GoodEntry(e) && row == Row(EntryCells(e))
    ensures OneLine(row)
  {
    var cells := EntryCells(e);
    assert |cells| >= 1;
    hide *;
    EntryCellsPlain(e, cells);
    CellsOfRow(cells, row);
  }

  lemma {:induction false} EntryRowsOneLine(entries: seq<Entry>, rows: seq<string>)
    requires GoodEntries(entries) && rows == EntryRows(entries)
    ensures forall i :: 0 <= i < |rows| ==> OneLine(rows[i])
    decreases |entries|
  {
    if entries != [] {
      var row, tail := Row(EntryCells(entries[0])), entries[1..];
      assert GoodEntry(entries[0]) && GoodEntries(tail);
      assert rows == [row] + EntryRows(tail);
      hide *;
      EntryRowOneLine(entries[0], row);
      EntryRowsOneLine(tail, EntryRows(tail));
    }
  }

  lemma {:induction false} ColumnsAreHeader(columns: seq<string>)
    requires columns == COLUMNS
    ensures RegisterHeader(columns) && IsRegisterHeader(columns) && columns[0] == "Document Identifier"
    ensures columns[2] == "Title" && columns[3] == "Version" && columns[4] == "Status"
    ensures columns[5] == "Approver" && columns[6] == "Next Review" && columns[7] == "Compliance"
  {
    assert |columns[0]| == 19 && |columns[1]| == 4 && |columns[2]| == 5 && |columns[3]| == 7 && |columns[4]| == 6
        && |columns[5]| == 8 && |columns[6]| == 11 && |columns[7]| == 10;
    assert columns[0] in columns && columns[1] in columns;
  }

  lemma {:induction false} OtherColumnsNeat()
    ensures Neat("File") && Neat("Title") && Neat("Compliance")
  {}

  lemma {:induction false} KeyNeat(key: string)
    requires GoodKey(key)
    ensures Neat(key)
  {}

  lemma {:induction false} ColumnsAreNeat(columns: seq<string>)
    requires columns == COLUMNS
    ensures NeatCells(columns)
  {
    assert columns == ["Document Identifier", "File", "Title", "Version", "Status", "Approver", "Next Review",
                       "Compliance"];
    hide Neat, GoodKey, COLUMNS;
    KeyIdentifier(); KeyVersion(); KeyStatus(); KeyApprover(); KeyReview();
    KeyNeat("Document Identifier"); KeyNeat("Version"); KeyNeat("Status"); KeyNeat("Approver"); KeyNeat("Next Review");
    OtherColumnsNeat();
  }

  lemma {:induction false} HeaderRowRead(columns: seq<string>, row: string, ruler: string, rows: Register)
    requires columns == COLUMNS && row == Row(columns) && ruler == Ruler(8)
    ensures OneLine(row) && OneLine(ruler)
    ensures ReadLine(Scan([], rows), row) == Scan(columns, rows)
    ensures ReadLine(Scan(columns, rows), ruler) == Scan(columns, rows)
    ensures Strip(ruler) == ruler && IsTableLine(ruler)
  {
    assert columns[1] == "File" ==> !Dashes(columns[1]) by { assert "File"[0] == 'F'; }
    assert |columns| == 8;
    assert !AllDashes(columns) by { assert columns[1] == "File"; }
    hide *;
    ColumnsAreHeader(columns);
    ColumnsAreNeat(columns);
    CellsOfNeatRow(columns, row);
    CellsOfRuler(8, ruler);
    ReadsCells(Scan([], rows), row, columns);
    ReadsCells(Scan(columns, rows), ruler, Cells(ruler));
  }

  lemma {:induction false} BlankEndsRegister(lines: seq<string>, scan: Scan)
    requires lines != [] && lines[0] == "" && scan.header != []
    ensures RegisterWalk(lines, scan) == scan.rows
  {
    assert Strip("") == "";
    hide Strip, ReadLine;
  }

  lemma {:induction false} TableWalk(
      columns: seq<string>, entries: seq<Entry>, row: string, ruler: string, tail: seq<string>)
    requires columns == COLUMNS && row == Row(columns) && ruler == Ruler(8) && GoodEntries(entries)
    requires tail != [] && tail[0] == ""
    ensures RegisterWalk([row] + ([ruler] + (EntryRows(entries) + tail)), Scan([], map[]))
         == RowsOf(columns, entries, map[])
  {
    assert columns != [];
    hide *;
    HeaderRowRead(columns, row, ruler, map[]);
    WalkOne(row, [ruler] + (EntryRows(entries) + tail), Scan([], map[]));
    WalkOne(ruler, EntryRows(entries) + tail, Scan(columns, map[]));
    ColumnsAreHeader(columns);
    WalkEntries(columns, entries, tail, map[]);
    BlankEndsRegister(tail, Scan(columns, RowsOf(columns, entries, map[])));
  }

  lemma {:induction false} TableOneLine(row: string, ruler: string, rows: seq<string>, lines: seq<string>)
    requires lines == [row] + ([ruler] + (rows + [""])) && OneLine(row) && OneLine(ruler)
    requires forall i :: 0 <= i < |rows| ==> OneLine(rows[i])
    ensures forall i :: 0 <= i < |lines| ==> OneLine(lines[i])
  {
    EmptyLine();
    hide OneLine;
  }

  lemma {:induction false} BothOneLine(a: seq<string>, b: seq<string>)
    requires AllPassed(a) && forall i :: 0 <= i < |b| ==> OneLine(b[i])
    ensures forall i :: 0 <= i < |a + b| ==> OneLine((a + b)[i])
  {
    hide OneLine, PassedOver;
  }

  lemma {:induction false} RegroupTable(a: string, b: string, rows: seq<string>, c: string, rest: seq<string>)
    ensures [a] + ([b] + (rows + ([c] + rest))) == [a] + ([b] + (rows + [c])) + rest
  {}

  lemma {:induction false} RegisterRowsFrom(text: string)
    ensures RegisterRows(text) == RegisterWalk(SplitLines(text), Scan([], map[]))
  {}

  /** Parsing the printed register gives back exactly the rows that were printed. */
  lemma {:induction false} RowsReadBack(h: Header, iso: string, p: Prose, entries: seq<Entry>, text: string)
    requires GoodInput(h, iso, p) && GoodEntries(entries) && text == Print(h, iso, p, entries)
    ensures RegisterRows(text) == RowsOf(COLUMNS, entries, map[])
  {
    var rest := Summary(entries) + p.remediation;
    var row, ruler := Row(COLUMNS), Ruler(8);
    assert text == Unlines(Lines(h, iso, p, entries));
    assert RegisterTable(entries, rest) == [row] + ([ruler] + (EntryRows(entries) + ([""] + rest)));
    hide *;
    var above, rows := Preamble(h, iso, p), EntryRows(entries);
    var table, more := [row] + ([ruler] + (rows + [""])), SplitLines(Unlines(rest));
    CutAtRegister(h, iso, p, entries);
    RegroupTable(row, ruler, rows, "", rest);
    PreamblePassed(h, iso, p);
    EntryRowsOneLine(entries, rows);
    HeaderRowRead(COLUMNS, row, ruler, map[]);
    TableOneLine(row, ruler, rows, table);
    RegisterRowsFrom(text);
    SplitTwice(above, table, rest, more);
    RegroupTable(row, ruler, rows, "", more);
    WalkPasses(above, table + more, map[]);
    TableWalk(COLUMNS, entries, row, ruler, [""] + more);
  }

  lemma {:induction false} SplitTwice(above: seq<string>, table: seq<string>, rest: seq<string>, more: seq<string>)
    requires AllPassed(above) && forall i :: 0 <= i < |table| ==> OneLine(table[i])
    requires more == SplitLines(Unlines(rest))
    ensures SplitLines(Unlines(above + (table + rest))) == above + (table + more)
  {
    hide *;
    BothOneLine(above, table);
    Reassociate(above, table, rest);
    UnlinesAppend(above + table, rest);
    SplitLinesPrefix(above + table, Unlines(rest));
    Reassociate(above, table, more);
  }
}
