/** Reading the printed register: its header fields, its revision columns, its rows. */
module RegisterReadBack {
  import opened Text
  import opened DocRules
  import opened GenRegister
  import opened RegisterPrint
  import opened RegisterPreamble

  predicate GoodInput(h: Header, iso: string, p: Prose) { NeatHeader(h) && Neat(iso) && GoodProse(p) }

  // ---- headings and what stands under them ----

  lemma {:induction false} UnlinesCons(line: string, rest: seq<string>)
    ensures Unlines([line] + rest) == line + "\n" + Unlines(rest)
  {
    assert ([line] + rest)[1..] == rest;
  }

  lemma {:induction false} UnlinesBlank(rest: seq<string>)
    ensures Unlines([""] + rest) == "\n" + Unlines(rest)
  {
    UnlinesCons("", rest);
    assert "" + "\n" + Unlines(rest) == "\n" + Unlines(rest);
  }

  lemma {:induction false} UnlinesFirst(lines: seq<string>)
    requires lines != [] && lines[0] != ""
    ensures Unlines(lines) != "" && Unlines(lines)[0] == lines[0][0]
  {}

  lemma {:induction false} AbovePassed(above: seq<string>, lines: seq<string>, title: string)
    requires NoHeadings(above)
    ensures After(Unlines(above + lines), title) == After(Unlines(lines), title)
  {
    hide *;
    UnlinesAppend(above, lines);
    AfterSkipsLines(above, Unlines(lines), title);
  }

  predicate Titled(heading: string, shown: string) {
    heading == "## " + shown && shown != "" && !IsSpace(shown[0])
  }

  lemma {:induction false} FirstRow(table: seq<string>, rest: seq<string>)
    requires RowLines(table) && table != []
    ensures table + rest != [] && (table + rest)[0] != "" && (table + rest)[0][0] == '|'
  {
    assert RowLine(table[0]);
    hide OneLine, Strip;
  }

  lemma {:induction false} SectionFound(
      heading: string, shown: string, title: string, table: seq<string>, rest: seq<string>)
    requires Titled(heading, shown) && |shown| == |title| && StartsFolded(shown, title)
    requires RowLines(table) && table != []
    ensures After(Unlines(Section(heading, table, rest)), title) == Some(Unlines([""] + (table + ([""] + rest))))
  {
    var body := table + ([""] + rest);
    assert Section(heading, table, rest) == [heading] + ([""] + body);
    assert Titled(heading, shown) ==> heading == "## " + shown && shown != "" && !IsSpace(shown[0]);
    hide *;
    FirstRow(table, [""] + rest);
    UnlinesCons(heading, [""] + body);
    UnlinesBlank(body);
    UnlinesFirst(body);
    HeadingMatches(heading, shown, title, Unlines(body), Unlines([heading] + ([""] + body)));
  }

  lemma {:induction false} BlankTable(table: seq<string>, lines: seq<string>)
    requires RowLines(table) && lines == [""] + table + [""]
    ensures NoHeadings(lines) && forall i :: 0 <= i < |lines| ==> OneLine(lines[i])
  {
    forall i | 0 <= i < |lines| ensures OneLine(lines[i]) && NoHeading(lines[i]) {
      if 0 < i < |lines| - 1 { assert lines[i] == table[i - 1] && RowLine(table[i - 1]); }
      hide OneLine, Strip;
      EmptyLine();
    }
  }

  lemma {:induction false} EmptyLine() ensures OneLine("") {}

  lemma {:induction false} SectionPassed(
      heading: string, shown: string, title: string, table: seq<string>, rest: seq<string>)
    requires Titled(heading, shown) && OneLine(heading)
    requires title != "" && Fold(shown[0]) != title[0] && RowLines(table)
    ensures After(Unlines(Section(heading, table, rest)), title) == After(Unlines(rest), title)
  {
    var first := [""] + table + [""];
    var text := Unlines([heading] + (first + rest));
    assert Section(heading, table, rest) == [heading] + (first + rest);
    assert '\n' !in heading by { assert IsLineBreak('\n'); }
    assert Titled(heading, shown) ==> heading == "## " + shown && shown != "" && !IsSpace(shown[0]);
    hide *;
    BlankTable(table, first);
    UnlinesCons(heading, first + rest);
    HeadingDiffers(heading, shown, title, Unlines(first + rest), text);
    AfterSkips(heading, Unlines(first + rest), text, title);
    AbovePassed(first, rest, title);
  }

  /** The lines under a heading, split again. */
  lemma {:induction false} SplitSection(table: seq<string>, rest: seq<string>)
    requires RowLines(table)
    ensures SplitLines(Unlines([""] + (table + ([""] + rest))))
         == [""] + (table + ([""] + SplitLines(Unlines(rest))))
  {
    var first := [""] + table + [""];
    var more := SplitLines(Unlines(rest));
    assert [""] + (table + ([""] + rest)) == first + rest;
    assert [""] + (table + ([""] + more)) == first + more;
    hide *;
    BlankTable(table, first);
    UnlinesAppend(first, rest);
    SplitLinesPrefix(first, Unlines(rest));
  }

  // ---- the control table ----

  lemma {:induction false} TitleLine() ensures NoHeading("# SOMA-01-DOCS-002 — Document Register") {}

  lemma {:induction false} TitleLinesPassed()
    ensures NoHeadings(TITLE_LINES)
  {
    assert NoHeading("");
    TitleLine();
    hide NoHeading;
  }

  lemma {:induction false} ControlTitled() ensures Titled("## Document Control", "Document Control") {}
  lemma {:induction false} ControlFolded()
    ensures StartsFolded("Document Control", "document control") && |"Document Control"| == |"document control"|
  {}

  lemma {:induction false} ControlFieldsFrom(text: string, rest: string)
    requires After(text, "document control") == Some(rest)
    ensures ControlFields(text) == ControlWalk(SplitLines(rest), map[])
  {
    hide After, SplitLines, ControlWalk;
  }

  /** The header fields come back as they were printed. */
  lemma {:induction false} HeaderReadBack(h: Header, iso: string, p: Prose, entries: seq<Entry>, text: string)
    requires GoodInput(h, iso, p) && text == Print(h, iso, p, entries)
    ensures ControlFields(text) == AddPairs(map[], ControlPairs(h, p))
  {
    var table, below := ControlTable(h, p), Below(iso, p, entries);
    var under := Section("## Document Control", table, below);
    assert text == Unlines(TITLE_LINES + under);
    assert GoodInput(h, iso, p) ==> NeatHeader(h) && GoodProse(p);
    hide *;
    TitleLinesPassed();
    AbovePassed(TITLE_LINES, under, "document control");
    ControlTableLines(h, p, table);
    ControlTitled();
    ControlFolded();
    SectionFound("## Document Control", "Document Control", "document control", table, below);
    ControlFieldsFrom(text, Unlines([""] + (table + ([""] + below))));
    SplitSection(table, below);
    ControlTableRead(h, p, table, [""] + SplitLines(Unlines(below)));
  }

  // ---- the revision history ----

  lemma {:induction false} HistoryTitled() ensures Titled("## Revision History", "Revision History") {}
  lemma {:induction false} HistoryFolded()
    ensures StartsFolded("Revision History", "revision history") && |"Revision History"| == |"revision history"|
  {}
  lemma {:induction false} ControlIsNotHistory()
    ensures Fold("Document Control"[0]) != "revision history"[0] && OneLine("## Document Control")
  {}

  lemma {:induction false} HistoryRowLine(cells: seq<string>, row: string)
    requires |cells| == 4 && NeatCells(cells) && row == Row(cells)
    ensures RowLine(row) && Cells(row) == cells
  {
    CellsOfNeatRow(cells, row);
    hide Cells, Strip, OneLine, Row, NeatCells;
  }

  lemma {:induction false} HistoryLiterals()
    ensures Neat("1.0.0") && Neat("1.0.1") && Neat("1.1.0") && Neat("2026-09-27") && Neat("SomaTech Engineering")
  {
    ValueAuthor();
  }

  lemma {:induction false} HistoryCells(iso: string, p: Prose)
    requires Neat(iso) && GoodProse(p)
    ensures NeatCells(["1.0.0", "2026-09-27", "SomaTech Engineering", p.seeded])
    ensures NeatCells(["1.0.1", "2026-09-27", "SomaTech Engineering", p.corrected])
    ensures NeatCells(["1.1.0", iso, "SomaTech Engineering", p.regenerated])
  {
    HistoryLiterals();
    hide Neat;
  }

  lemma {:induction false} FourRows(a: string, b: string, c: string, d: string, e: string, table: seq<string>)
    requires table == [a, b] + [c, d, e]
    requires RowLine(a) && RowLine(b) && RowLine(c) && RowLine(d) && RowLine(e)
    ensures RowLines(table) && table == [a] + table[1..]
  {
    hide RowLine;
  }

  lemma {:induction false} RulerLine(n: nat, row: string)
    requires n >= 1 && row == Ruler(n)
    ensures RowLine(row)
  {
    CellsOfRuler(n, row);
    hide Strip, OneLine, Ruler;
  }

  lemma {:induction false} HistoryTableLines(iso: string, p: Prose, table: seq<string>)
    requires Neat(iso) && GoodProse(p) && table == HistoryTable(iso, p)
    ensures RowLines(table) && table != [] && table == [Row(REVISION_COLUMNS)] + table[1..]
  {
    var c0, c1, c2 := ["1.0.0", "2026-09-27", "SomaTech Engineering", p.seeded],
                      ["1.0.1", "2026-09-27", "SomaTech Engineering", p.corrected],
                      ["1.1.0", iso, "SomaTech Engineering", p.regenerated];
    var a, b := Row(REVISION_COLUMNS), Ruler(4);
    assert table == [a, b] + [Row(c0), Row(c1), Row(c2)];
    assert |c0| == |c1| == |c2| == 4;
    hide *;
    HistoryCells(iso, p);
    HistoryRowLine(c0, Row(c0));
    HistoryRowLine(c1, Row(c1));
    HistoryRowLine(c2, Row(c2));
    RevisionTableRead(a, []);
    RulerLine(4, b);
    FourRows(a, b, Row(c0), Row(c1), Row(c2), table);
  }

  lemma {:induction false} RevisionHistoryFrom(text: string, rest: string)
    requires After(text, "revision history") == Some(rest)
    ensures RevisionHistory(text) == Some(RevisionWalk(SplitLines(rest)))
  {
    hide After, SplitLines, RevisionWalk;
  }

  /** The revision history comes back with the columns that the rules ask for. */
  lemma {:induction false} HistoryReadBack(h: Header, iso: string, p: Prose, entries: seq<Entry>, text: string)
    requires GoodInput(h, iso, p) && text == Print(h, iso, p, entries)
    ensures RevisionHistory(text) == Some(REVISION_COLUMNS)
  {
    var control, below := ControlTable(h, p), Below(iso, p, entries);
    var under := Section("## Document Control", control, below);
    var table, rest := HistoryTable(iso, p), p.purpose + RegisterTable(entries, Summary(entries) + p.remediation);
    assert text == Unlines(TITLE_LINES + under);
    assert below == Section("## Revision History", table, rest);
    assert GoodInput(h, iso, p) ==> NeatHeader(h) && GoodProse(p) && Neat(iso);
    assert |"revision history"| == 16;
    hide *;
    TitleLinesPassed();
    AbovePassed(TITLE_LINES, under, "revision history");
    ControlTableLines(h, p, control);
    ControlTitled();
    ControlIsNotHistory();
    SectionPassed("## Document Control", "Document Control", "revision history", control, below);
    HistoryTableLines(iso, p, table);
    HistoryTitled();
    HistoryFolded();
    SectionFound("## Revision History", "Revision History", "revision history", table, rest);
    RevisionHistoryFrom(text, Unlines([""] + (table + ([""] + rest))));
    SplitSection(table, rest);
    var first, more := Row(REVISION_COLUMNS), table[1..];
    var tail := [""] + SplitLines(Unlines(rest));
    Reassociate([first], more, tail);
    RevisionTableRead(first, more + tail);
  }
}
