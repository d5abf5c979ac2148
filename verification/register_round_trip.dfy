/** Parsing the printed register gives back the generated rows. */
module RegisterRoundTrip {
  import opened Text
  import opened DocRules
  import opened GenRegister
  import opened RegisterPrint

  // ---- what the readers return always fits into a cell again ----

  lemma {:induction false} TrimPlain(k: Trimming, s: string, t: string)
    requires t == Trim(k, s)
    ensures OneLine(s) ==> OneLine(t)
    ensures '|' !in s ==> '|' !in t
    ensures Trimmed(k, t)
  {
    var a, b := TrimParts(k, s);
    hide Trim;
  }

  lemma {:induction false} CellsNeat(line: string, cells: seq<string>)
    requires OneLine(line) && cells == Cells(line)
    ensures NeatCells(cells)
  {
    var inner := Trim(Only('|'), line);
    var parts := Split(inner, '|');
    assert cells == StripAll(parts);
    forall i | 0 <= i < |cells| ensures Neat(cells[i]) {
      assert cells[i] == Trim(White, parts[i]);
      var a, b := PartIsSlice(inner, '|', i);
      hide Trim, Split, StripAll, Cells, Trimmed;
      TrimPlain(Only('|'), line, inner);
      TrimPlain(White, parts[i], cells[i]);
    }
  }

  predicate NeatFields(fields: Fields) { forall k :: k in fields ==> Neat(fields[k]) }

  lemma {:induction false} AddFieldNeat(fields: Fields, line: string, cells: seq<string>)
    requires NeatFields(fields) && OneLine(line) && cells == Cells(Strip(line))
    ensures NeatFields(AddField(fields, cells))
  {
    assert NeatCells(cells) by {
      hide *;
      TrimPlain(White, line, Strip(line));
      CellsNeat(Strip(line), cells);
    }
    hide Cells, SkippedKey, Neat;
  }

  lemma {:induction false} ControlWalkNeat(lines: seq<string>, fields: Fields)
    requires NeatFields(fields) && forall i :: 0 <= i < |lines| ==> OneLine(lines[i])
    ensures NeatFields(ControlWalk(lines, fields))
  {
    if lines != [] {
      var cells := Cells(Strip(lines[0]));
      AddFieldNeat(fields, lines[0], cells);
      ControlWalkNeat(lines[1..], fields);
      ControlWalkNeat(lines[1..], AddField(fields, cells));
      hide NeatFields, AddField, Cells, Strip, StartsWith, IsTableLine;
    }
  }

  lemma {:induction false} ControlFieldsNeat(text: string)
    ensures NeatFields(ControlFields(text))
  {
    var rest := After(text, "document control");
    if rest.Some? { ControlWalkNeat(SplitLines(rest.value), map[]); }
    hide After, SplitLines, ControlWalk;
  }

  lemma {:induction false} GetNeat(fields: Fields, name: string, default: string, v: string)
    requires NeatFields(fields) && Neat(default) && v == Strip(Get(fields, name, default))
    ensures Neat(v) && v == Get(fields, name, default)
  {
    var g := Get(fields, name, default);
    assert Neat(g);
    assert Trimmed(White, g);
    hide *;
    TrimTrimmed(White, g);
  }

  // ---- titles and stems ----

  predicate GoodPath(path: string) {
    OneLine(path) && '|' !in path && |path| >= 8
    && StartsWith(path, "docs/") && path[|path| - 3..] == ".md"
  }

  lemma {:induction false} StemPlain(path: string, stem: string)
    requires GoodPath(path) && stem == Stem(path)
    ensures PlainCell(stem)
  {
    var parts := Split(path, '/');
    var a, b := PartIsSlice(path, '/', |parts| - 1);
    var name := path[a..b];
    assert stem == name || stem == name[..|name| - 3];
    hide Split, Stem;
  }

  lemma {:induction false} FirstHeadingOneLine(lines: seq<string>, h: string)
    requires forall i :: 0 <= i < |lines| ==> OneLine(lines[i])
    requires h == FirstHeading(lines)
    ensures OneLine(h)
  {
    if lines != [] {
      if StartsWith(lines[0], "# ") {
        TrimPlain(White, lines[0][2..], h);
      } else {
        FirstHeadingOneLine(lines[1..], h);
      }
    }
  }

  lemma {:induction false} CleanedOneLine(h: string, t: string)
    requires OneLine(h) && t == DropLeadingMarks(Strip(DropIdentifier(h)))
    ensures OneLine(t)
  {
    var d := DropIdentifier(h);
    var e := Strip(d);
    assert e == Trim(White, d);
    TrimPlain(White, d, e);
    hide DropIdentifier, DropLeadingMarks, Strip, Trim;
  }

  lemma {:induction false} TitleOneLine(text: string, fallback: string, title: string)
    requires OneLine(fallback) && title == TitleFrom(text, fallback)
    ensures OneLine(title)
  {
    var fields := ControlFields(text);
    var t := Strip(Get(fields, "Document Title", ""));
    var h := FirstHeading(SplitLines(text));
    ControlFieldsNeat(text);
    GetNeat(fields, "Document Title", "", t);
    FirstHeadingOneLine(SplitLines(text), h);
    CleanedOneLine(h, DropLeadingMarks(Strip(DropIdentifier(h))));
    hide ControlFields, FirstHeading, SplitLines, DropIdentifier, DropLeadingMarks, Strip, Get;
  }

  // ---- rows of the register ----

  predicate GoodEntry(e: Entry) {
    GoodPath(e.file) && OneLine(e.title)
    && PlainCell(e.ident) && PlainCell(e.version) && PlainCell(e.status)
    && PlainCell(e.approver) && PlainCell(e.nextReview) && PlainCell(e.compliance)
  }

  predicate GoodEntries(entries: seq<Entry>) { forall i :: 0 <= i < |entries| ==> GoodEntry(entries[i]) }

  lemma {:induction false} EntryCellsPlain(e: Entry, cells: seq<string>)
    requires GoodEntry(e) && cells == EntryCells(e)
    ensures PlainCells(cells) && |cells| == 8 && cells[1] == e.file
  {
    var title := Slashed(e.title);
    assert PlainCell(title);
    hide Slashed;
  }

  /** The row that the check reads for an entry. */
  function RowOf(header: seq<string>, e: Entry): map<string, string> {
    Zip(header, StripAll(EntryCells(e)))
  }

  predicate Distinct(names: seq<string>) {
    forall j, k :: 0 <= j < k < |names| ==> names[j] != names[k]
  }

  lemma {:induction false} ZipKeys(header: seq<string>, cells: seq<string>, k: string)
    requires k in Zip(header, cells)
    ensures k in header
  {
    if k != header[0] {
      ZipKeys(header[1..], cells[1..], k);
    }
  }

  lemma {:induction false} ZipAt(header: seq<string>, cells: seq<string>, i: int)
    requires |header| <= |cells| && 0 <= i < |header| && Distinct(header)
    ensures header[i] in Zip(header, cells) && Zip(header, cells)[header[i]] == cells[i]
  {
    var rest := header[1..];
    assert forall k :: 0 <= k < |rest| ==> rest[k] == header[k + 1];
    if i > 0 {
      ZipAt(rest, cells[1..], i - 1);
    } else if header[0] in Zip(rest, cells[1..]) {
      ZipKeys(rest, cells[1..], header[0]);
      assert false;
    }
  }

  /** A header of eight different columns whose second one is `File`. */
  predicate RegisterHeader(header: seq<string>) {
    |header| == 8 && header[1] == "File" && Distinct(header)
  }

  lemma {:induction false} RowAt(header: seq<string>, e: Entry, i: int)
    requires RegisterHeader(header) && 0 <= i < 8
    ensures header[i] in RowOf(header, e) && RowOf(header, e)[header[i]] == Strip(EntryCells(e)[i])
  {
    var cells := StripAll(EntryCells(e));
    assert cells[i] == Strip(EntryCells(e)[i]);
    hide Zip, StripAll, EntryCells, Strip;
    ZipAt(header, cells, i);
  }

  lemma {:induction false} GoodPathTrimmed(path: string)
    requires GoodPath(path)
    ensures Strip(path) == path && Trim(Only('`'), path) == path && path[0] == 'd'
  {
    var last3 := path[|path| - 3..];
    assert path[|path| - 1] == last3[2];
    assert path[0] == "docs/"[0];
    assert Trimmed(White, path) && Trimmed(Only('`'), path);
    hide *;
    TrimTrimmed(White, path);
    TrimTrimmed(Only('`'), path);
    assert Strip(path) == path;
  }

  lemma {:induction false} EntryIsAdded(header: seq<string>, e: Entry, row: map<string, string>, rows: Register)
    requires RegisterHeader(header) && GoodPath(e.file) && row == RowOf(header, e)
    ensures AddRow(rows, row) == rows[e.file := row]
  {
    var path := Get(row, "File", "");
    assert AddRow(rows, row) == if Trim(Only('`'), path) != "" then rows[Trim(Only('`'), path) := row] else rows;
    assert "File" in row ==> path == row["File"];
    assert EntryCells(e)[1] == e.file && header[1] == "File";
    hide *;
    RowAt(header, e, 1);
    GoodPathTrimmed(e.file);
  }

  lemma {:induction false} NotDashes(cells: seq<string>)
    requires |cells| >= 2 && cells[1] != "" && cells[1][0] == 'd'
    ensures !AllDashes(cells)
  {
    assert !Dashes(cells[1]);
  }

  lemma {:induction false} ReadEntry(header: seq<string>, e: Entry, row: string, rows: Register)
    requires RegisterHeader(header) && GoodEntry(e) && row == Row(EntryCells(e))
    ensures Strip(row) == row && IsTableLine(row)
    ensures ReadLine(Scan(header, rows), row) == Scan(header, rows[e.file := RowOf(header, e)])
  {
    var printed, cells, scan := EntryCells(e), Cells(row), Scan(header, rows);
    assert GoodPath(e.file);
    assert |printed| >= 1;
    assert RegisterHeader(header) ==> header != [] && |header| == 8;
    assert RowOf(header, e) == Zip(header, StripAll(printed));
    assert GoodPath(e.file) ==> |e.file| >= 8;
    hide *;
    EntryCellsPlain(e, printed);
    CellsOfRow(printed, row);
    GoodPathTrimmed(e.file);
    assert cells[1] == Strip(e.file);
    NotDashes(cells);
    EntryIsAdded(header, e, RowOf(header, e), rows);
    ReadsCells(scan, row, cells);
  }

  lemma {:induction false} ReadsCells(scan: Scan, row: string, cells: seq<string>)
    requires Strip(row) == row && row != "" && row[0] == '|' && cells == Cells(row)
    ensures IsTableLine(row)
    ensures !AllDashes(cells) && scan.header != [] && |scan.header| <= |cells| ==>
      ReadLine(scan, row) == scan.(rows := AddRow(scan.rows, Zip(scan.header, cells)))
    ensures AllDashes(cells) ==> ReadLine(scan, row) == scan
    ensures !AllDashes(cells) && scan.header == [] ==>
      ReadLine(scan, row) == scan.(header := if IsRegisterHeader(cells) then cells else [])
  {
    hide Strip, Cells, AllDashes, Zip, AddRow, IsRegisterHeader;
  }

  lemma {:induction false} WalkOne(line: string, rest: seq<string>, scan: Scan)
    requires scan.header == [] || (Strip(line) == line && IsTableLine(line))
    ensures RegisterWalk([line] + rest, scan) == RegisterWalk(rest, ReadLine(scan, line))
  {
    assert ([line] + rest)[1..] == rest;
    hide Strip, IsTableLine, ReadLine;
  }

  function RowsOf(header: seq<string>, entries: seq<Entry>, rows: Register): Register
    decreases |entries|
  {
    if entries == [] then rows
    else RowsOf(header, entries[1..], rows[entries[0].file := RowOf(header, entries[0])])
  }

  lemma {:induction false} WalkEntries(header: seq<string>, entries: seq<Entry>, rest: seq<string>, rows: Register)
    requires RegisterHeader(header) && GoodEntries(entries)
    ensures RegisterWalk(EntryRows(entries) + rest, Scan(header, rows))
         == RegisterWalk(rest, Scan(header, RowsOf(header, entries, rows)))
    decreases |entries|
  {
    if entries == [] {
      assert EntryRows(entries) + rest == rest;
    } else {
      var e, tail := entries[0], entries[1..];
      var row := Row(EntryCells(e));
      assert EntryRows(entries) == [row] + EntryRows(tail);
      assert RowsOf(header, entries, rows) == RowsOf(header, tail, rows[e.file := RowOf(header, e)]);
      assert GoodEntry(e) && GoodEntries(tail);
      hide *;
      Reassociate([row], EntryRows(tail), rest);
      ReadEntry(header, e, row, rows);
      WalkOne(row, EntryRows(tail) + rest, Scan(header, rows));
      WalkEntries(header, tail, rest, rows[e.file := RowOf(header, e)]);
    }
  }

  predicate DistinctFiles(entries: seq<Entry>) {
    forall i, j :: 0 <= i < j < |entries| ==> entries[i].file != entries[j].file
  }

  predicate Listed(entries: seq<Entry>, path: string) {
    exists i :: 0 <= i < |entries| && entries[i].file == path
  }

  /** Nothing but the entries was added. */
  lemma {:induction false} RowsOfOthers(header: seq<string>, entries: seq<Entry>, rows: Register, path: string)
    requires !Listed(entries, path)
    ensures path in RowsOf(header, entries, rows) <==> path in rows
    ensures path in rows ==> RowsOf(header, entries, rows)[path] == rows[path]
    decreases |entries|
  {
    if entries != [] {
      assert entries[0].file != path;
      assert forall i :: 0 <= i < |entries| - 1 ==> entries[1..][i] == entries[i + 1];
      hide RowOf;
      RowsOfOthers(header, entries[1..], rows[entries[0].file := RowOf(header, entries[0])], path);
    }
  }

  /** Each entry sits under its own file. */
  lemma {:induction false} RowsOfEntry(header: seq<string>, entries: seq<Entry>, rows: Register, i: int)
    requires DistinctFiles(entries) && 0 <= i < |entries|
    ensures entries[i].file in RowsOf(header, entries, rows)
    ensures RowsOf(header, entries, rows)[entries[i].file] == RowOf(header, entries[i])
    decreases |entries|
  {
    var rest, more := entries[1..], rows[entries[0].file := RowOf(header, entries[0])];
    assert forall k :: 0 <= k < |rest| ==> rest[k] == entries[k + 1];
    hide RowOf;
    if i == 0 {
      RowsOfOthers(header, rest, more, entries[0].file);
    } else {
      RowsOfEntry(header, rest, more, i - 1);
    }
  }
}
