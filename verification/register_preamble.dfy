/** The lines above the register table: the header fields that are read back from
    them, the revision columns, and the fact that none of them opens the register. */
module RegisterPreamble {
  import opened Text
  import opened DocRules
  import opened GenRegister
  import opened RegisterPrint
  import opened RegisterRoundTrip

  // ---- well-formed parameters ----

  predicate NotColumn(s: string) { s != "File" && s != "Document Identifier" }

  /** Paragraph or section heading: a line that no reader takes for a table row. */
  predicate TextLine(s: string) { OneLine(s) && (s == "" || (s[0] != '|' && !IsSpace(s[0]))) }

  /** The wording is free, as long as it stays within its cells and opens no table of its own. */
  predicate GoodProse(p: Prose) {
    Neat(p.isoReference) && p.isoReference != "" && Neat(p.related) && Neat(p.source)
    && Neat(p.audience) && Neat(p.scope)
    && Neat(p.seeded) && Neat(p.corrected) && Neat(p.regenerated)
    && NotColumn(p.seeded) && NotColumn(p.corrected) && NotColumn(p.regenerated)
    && forall i :: 0 <= i < |p.purpose| ==> TextLine(p.purpose[i])
  }

  predicate NeatHeader(h: Header) {
    Neat(h.version) && Neat(h.date) && Neat(h.status) && Neat(h.approver) && Neat(h.nextReview)
  }

  predicate GoodDay(day: Day) { Neat(day.iso) && Neat(day.review) }

  lemma {:induction false} NeatLiterals()
    ensures Neat("1.0.1") && Neat("Draft") && Neat(DASH) && Neat("") && Neat("MISSING") && Neat("1.0.0")
  {}

  lemma {:induction false} HeaderNeat(own: Fields, day: Day)
    requires NeatFields(own) && GoodDay(day)
    ensures NeatHeader(HeaderOf(own, day))
  {
    NeatLiterals();
    assert Neat(day.iso) && Neat(day.review);
    assert HeaderOf(own, day).version == Strip(Get(own, "Version", "1.0.1"));
    assert HeaderOf(own, day).date == Strip(Get(own, "Date", day.iso));
    assert HeaderOf(own, day).status == Strip(Get(own, "Status", "Draft"));
    assert HeaderOf(own, day).approver == Strip(Get(own, "Approver", DASH));
    assert HeaderOf(own, day).nextReview == Strip(Get(own, "Next Review", day.review));
    hide Neat, NeatFields, Strip, Get, HeaderOf, GoodDay, DASH;
    GetNeat(own, "Version", "1.0.1", HeaderOf(own, day).version);
    GetNeat(own, "Date", day.iso, HeaderOf(own, day).date);
    GetNeat(own, "Status", "Draft", HeaderOf(own, day).status);
    GetNeat(own, "Approver", DASH, HeaderOf(own, day).approver);
    GetNeat(own, "Next Review", day.review, HeaderOf(own, day).nextReview);
  }

  // ---- the fourteen pairs of the control table ----

  lemma {:induction false} KeyTitle() ensures GoodKey("Document Title") {}
  lemma {:induction false} KeyIdentifier() ensures GoodKey("Document Identifier") {}
  lemma {:induction false} KeyVersion() ensures GoodKey("Version") {}
  lemma {:induction false} KeyDate() ensures GoodKey("Date") {}
  lemma {:induction false} KeyStatus() ensures GoodKey("Status") {}
  lemma {:induction false} KeyAuthor() ensures GoodKey("Author") {}
  lemma {:induction false} KeyApprover() ensures GoodKey("Approver") {}
  lemma {:induction false} KeyClassification() ensures GoodKey("Classification") {}
  lemma {:induction false} KeyIso() ensures GoodKey("ISO Reference") {}
  lemma {:induction false} KeyReview() ensures GoodKey("Next Review") {}
  lemma {:induction false} KeyRelated() ensures GoodKey("Related") {}
  lemma {:induction false} KeySource() ensures GoodKey("Source of truth") {}
  lemma {:induction false} KeyAudience() ensures GoodKey("Audience") {}
  lemma {:induction false} KeyScope() ensures GoodKey("Scope") {}
  lemma {:induction false} ValueTitle() ensures Neat("Document Register") {}
  lemma {:induction false} ValueIdentifier() ensures Neat(REGISTER_ID) {}
  lemma {:induction false} ValueAuthor() ensures Neat("SomaTech Engineering") {}
  lemma {:induction false} ValueClassification() ensures Neat("Internal") {}

  lemma {:induction false} PairsGood(h: Header, p: Prose, pairs: seq<(string, string)>)
    requires NeatHeader(h) && GoodProse(p) && pairs == ControlPairs(h, p)
    ensures GoodPairs(pairs)
  {
    KeyTitle(); KeyIdentifier(); KeyVersion(); KeyDate(); KeyStatus(); KeyAuthor(); KeyApprover();
    KeyClassification(); KeyIso(); KeyReview(); KeyRelated(); KeySource(); KeyAudience(); KeyScope();
    ValueTitle(); ValueIdentifier(); ValueAuthor(); ValueClassification();
    hide GoodKey, Neat, REGISTER_ID;
  }

  lemma {:induction false} KeysDiffer(k: seq<string>)
    requires k == ["Document Title", "Document Identifier", "Version", "Date", "Status", "Author", "Approver",
                   "Classification", "ISO Reference", "Next Review", "Related", "Source of truth", "Audience", "Scope"]
    ensures Distinct(k)
  {
    var n := [14, 19, 7, 4, 6, 6, 8, 14, 13, 11, 7, 15, 8, 5];
    assert forall i :: 0 <= i < 14 ==> |k[i]| == n[i];
    assert k[0][0] == 'D' && k[7][0] == 'C';
    assert k[2][0] == 'V' && k[10][0] == 'R';
    assert k[4][0] == 'S' && k[5][0] == 'A';
    assert k[6][1] == 'p' && k[12][1] == 'u';
  }

  lemma {:induction false} PairsDistinct(h: Header, p: Prose, pairs: seq<(string, string)>)
    requires pairs == ControlPairs(h, p)
    ensures DistinctKeys(pairs)
  {
    var k := ["Document Title", "Document Identifier", "Version", "Date", "Status", "Author", "Approver",
              "Classification", "ISO Reference", "Next Review", "Related", "Source of truth", "Audience", "Scope"];
    assert |pairs| == |k| && forall i :: 0 <= i < |pairs| ==> pairs[i].0 == k[i];
    KeysDiffer(k);
    assert Distinct(k) ==> forall i, j :: 0 <= i < j < |k| ==> k[i] != k[j];
    hide ControlPairs;
  }

  // ---- reading the two tables of the preamble ----

  /** A printed table row. */
  predicate RowLine(line: string) {
    Strip(line) == line && line != "" && line[0] == '|' && OneLine(line)
  }

  predicate RowLines(lines: seq<string>) { forall i :: 0 <= i < |lines| ==> RowLine(lines[i]) }

  lemma {:induction false} RowLinesCons(first: string, more: seq<string>, lines: seq<string>)
    requires RowLine(first) && RowLines(more) && lines == [first] + more
    ensures RowLines(lines)
  {
    hide RowLine;
  }

  lemma {:induction false} PairRowsLines(pairs: seq<(string, string)>, rows: seq<string>)
    requires GoodPairs(pairs) && rows == PairRows(pairs)
    ensures RowLines(rows)
    decreases |pairs|
  {
    if pairs != [] {
      var tail, more := pairs[1..], PairRows(pairs[1..]);
      var cells := [pairs[0].0, pairs[0].1];
      assert GoodKey(pairs[0].0) && Neat(pairs[0].1);
      assert NeatCells(cells) && GoodPairs(tail);
      assert rows == [Row(cells)] + more;
      hide PairRows, NeatCells, GoodPairs, Row, Strip, OneLine, RowLines;
      CellsOfNeatRow(cells, Row(cells));
      PairRowsLines(tail, more);
      RowLinesCons(Row(cells), more, rows);
    }
  }

  lemma {:induction false} FieldValue(row: string)
    requires row == Row(["Field", "Value"])
    ensures RowLine(row) && Cells(row) == ["Field", "Value"]
  {
    var cells := ["Field", "Value"];
    assert NeatCells(cells);
    hide Row, Cells, NeatCells, Strip, OneLine;
    CellsOfNeatRow(cells, row);
  }

  /** Printed pairs under the two header lines. */
  lemma {:induction false} FieldTableLines(pairs: seq<(string, string)>, table: seq<string>)
    requires GoodPairs(pairs) && table == [Row(["Field", "Value"]), Ruler(2)] + PairRows(pairs)
    ensures RowLines(table) && |table| >= 2
  {
    var rows := PairRows(pairs);
    var head, ruler := Row(["Field", "Value"]), Ruler(2);
    assert RowLine(ruler) by {
      hide Ruler, Strip, OneLine;
      CellsOfRuler(2, ruler);
    }
    hide *;
    PairRowsLines(pairs, rows);
    FieldValue(head);
    TwoMoreRows(head, ruler, rows, table);
  }

  lemma {:induction false} ControlTableLines(h: Header, p: Prose, table: seq<string>)
    requires NeatHeader(h) && GoodProse(p) && table == ControlTable(h, p)
    ensures RowLines(table) && |table| >= 2
  {
    hide NeatHeader, GoodProse, ControlPairs, PairRows, GoodPairs, RowLine;
    PairsGood(h, p, ControlPairs(h, p));
    FieldTableLines(ControlPairs(h, p), table);
  }

  lemma {:induction false} TwoMoreRows(a: string, b: string, rows: seq<string>, all: seq<string>)
    requires RowLine(a) && RowLine(b) && RowLines(rows) && all == [a, b] + rows
    ensures RowLines(all)
  {
    hide RowLine;
  }

  lemma {:induction false} SkipFieldRow(fields: Fields, cells: seq<string>)
    requires |cells| >= 1 && (cells[0] == "Field" || AllDashes(cells))
    ensures AddField(fields, cells) == fields
  {}

  lemma {:induction false} SkipTwoRows(head: string, ruler: string, more: seq<string>)
    requires Strip(head) == head && head != "" && head[0] == '|' && Cells(head)[0] == "Field"
    requires Strip(ruler) == ruler && ruler != "" && ruler[0] == '|' && AllDashes(Cells(ruler))
    ensures ControlWalk([head] + ([ruler] + more), map[]) == ControlWalk(more, map[])
  {
    hide *;
    WalkRow(head, [ruler] + more, map[]);
    SkipFieldRow(map[], Cells(head));
    WalkRow(ruler, more, map[]);
    SkipFieldRow(map[], Cells(ruler));
  }

  lemma {:induction false} Regroup<T>(a: T, b: T, rows: seq<T>, tail: seq<T>)
    ensures [a, b] + rows + tail == [a] + ([b] + (rows + tail))
  {}

  /** Printed pairs come back as a dictionary. */
  lemma {:induction false} FieldTableRead(pairs: seq<(string, string)>, table: seq<string>, tail: seq<string>)
    requires GoodPairs(pairs) && DistinctKeys(pairs) && pairs != []
    requires table == [Row(["Field", "Value"]), Ruler(2)] + PairRows(pairs)
    requires tail != [] && tail[0] == ""
    ensures ControlWalk([""] + (table + tail), map[]) == AddPairs(map[], pairs)
  {
    var rows := PairRows(pairs);
    var head, ruler := Row(["Field", "Value"]), Ruler(2);
    FieldValue(head);
    assert Strip(head) == head && head != "" && head[0] == '|' && Cells(head)[0] == "Field";
    hide *;
    CellsOfRuler(2, ruler);
    Regroup(head, ruler, rows, tail);
    BlankSkipped(table + tail);
    SkipTwoRows(head, ruler, rows + tail);
    WalkPairs(pairs, tail, map[]);
    AddPairsAt(map[], pairs, 0);
    BlankEnds(tail, AddPairs(map[], pairs));
  }

  /** The whole table comes back as a dictionary. */
  lemma {:induction false} ControlTableRead(h: Header, p: Prose, table: seq<string>, tail: seq<string>)
    requires NeatHeader(h) && GoodProse(p) && table == ControlTable(h, p)
    requires tail != [] && tail[0] == ""
    ensures ControlWalk([""] + (table + tail), map[]) == AddPairs(map[], ControlPairs(h, p))
  {
    var pairs := ControlPairs(h, p);
    assert |pairs| == 14 && table == [Row(["Field", "Value"]), Ruler(2)] + PairRows(pairs);
    hide *;
    PairsGood(h, p, pairs);
    PairsDistinct(h, p, pairs);
    FieldTableRead(pairs, table, tail);
  }

  lemma RowLineParts(line: string)
    requires RowLine(line)
    ensures Strip(line) == line && line != "" && line[0] == '|' && OneLine(line)
  {}

  lemma {:induction false} BlankSkipped(rest: seq<string>)
    ensures ControlWalk([""] + rest, map[]) == ControlWalk(rest, map[])
  {
    assert ([""] + rest)[1..] == rest;
    assert Strip("") == "";
    hide Strip, Cells;
  }

  lemma {:induction false} BlankEnds(lines: seq<string>, fields: Fields)
    requires lines != [] && lines[0] == "" && fields != map[]
    ensures ControlWalk(lines, fields) == fields
  {
    assert Strip("") == "";
    hide Strip, Cells;
  }

  lemma {:induction false} ColumnsNeat(columns: seq<string>)
    requires columns == ["Version", "Date", "Author", "Description"]
    ensures NeatCells(columns) && !AllDashes(columns)
  {
    assert Neat(columns[0]) && Neat(columns[1]) && Neat(columns[2]) && Neat(columns[3]);
    var first := columns[0];
    assert first[0] == 'V';
    assert !Dashes(first);
    hide Neat;
  }

  lemma {:induction false} RevisionRow(row: string, rest: seq<string>)
    requires Strip(row) == row && row != "" && row[0] == '|' && !AllDashes(Cells(row))
    ensures RevisionWalk([row] + rest) == Cells(row)
  {
    hide AllDashes, Cells, Strip;
  }

  lemma {:induction false} RevisionBlank(rest: seq<string>)
    ensures RevisionWalk([""] + rest) == RevisionWalk(rest)
  {
    assert ([""] + rest)[1..] == rest;
    assert Strip("") == "";
    hide Strip, Cells;
  }

  lemma {:induction false} RevisionTableRead(row: string, rest: seq<string>)
    requires row == Row(REVISION_COLUMNS)
    ensures RowLine(row) && RevisionWalk([""] + ([row] + rest)) == REVISION_COLUMNS
  {
    ColumnsNeat(REVISION_COLUMNS);
    assert |REVISION_COLUMNS| >= 1;
    CellsOfNeatRow(REVISION_COLUMNS, row);
    assert RowLine(row) by { hide REVISION_COLUMNS, Row, Cells, Strip, OneLine, NeatCells; }
    hide *;
    RevisionBlank([row] + rest);
    RevisionRow(row, rest);
  }
}
