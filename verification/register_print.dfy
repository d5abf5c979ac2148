/** What the readers of tables make of the rows that the generator prints. */
module RegisterPrint {
  import opened Text
  import opened DocRules
  import opened GenRegister

  /** A text that fits into one table cell. */
  predicate PlainCell(s: string) { OneLine(s) && '|' !in s }

  /** A cell as the readers return it. */
  predicate Neat(s: string) { PlainCell(s) && Trimmed(White, s) }

  predicate PlainCells(cells: seq<string>) { forall i :: 0 <= i < |cells| ==> PlainCell(cells[i]) }

  predicate NeatCells(cells: seq<string>) { forall i :: 0 <= i < |cells| ==> Neat(cells[i]) }

  lemma {:induction false} JoinLast(raw: seq<string>, c: char, j: string)
    requires |raw| >= 1 && raw[|raw| - 1] != "" && j == Join(raw, c)
    ensures j != "" && j[|j| - 1] == raw[|raw| - 1][|raw[|raw| - 1]| - 1]
  {
    if |raw| > 1 {
      JoinLast(raw[1..], c, Join(raw[1..], c));
    }
  }

  lemma {:induction false} JoinFirst(raw: seq<string>, c: char, j: string)
    requires |raw| >= 1 && raw[0] != "" && j == Join(raw, c)
    ensures j != "" && j[0] == raw[0][0]
  {}

  lemma {:induction false} JoinOneLine(raw: seq<string>, c: char, j: string)
    requires !IsLineBreak(c) && j == Join(raw, c) && forall i :: 0 <= i < |raw| ==> OneLine(raw[i])
    ensures OneLine(j)
  {
    if |raw| > 1 {
      JoinOneLine(raw[1..], c, Join(raw[1..], c));
    }
  }

  lemma {:induction false} Bordered(j: string, row: string)
    requires row == "|" + j + "|" && OneLine(j)
    ensures row != "" && row[0] == '|' && OneLine(row) && Trimmed(White, row)
  {}

  predicate BarsReady(raw: seq<string>) {
    |raw| >= 1 && raw[0] != "" && raw[|raw| - 1] != "" && PlainCells(raw)
  }

  lemma {:induction false} BarsShape(raw: seq<string>, row: string)
    requires BarsReady(raw) && row == Bars(raw)
    ensures Strip(row) == row && row != "" && row[0] == '|' && OneLine(row)
  {
    var j := Join(raw, '|');
    assert row == "|" + j + "|";
    assert forall i :: 0 <= i < |raw| ==> PlainCell(raw[i]) && OneLine(raw[i]);
    assert !IsLineBreak('|');
    hide *;
    JoinOneLine(raw, '|', j);
    Bordered(j, row);
    TrimTrimmed(White, row);
  }

  lemma {:induction false} NoBarEnds(raw: seq<string>, j: string)
    requires BarsReady(raw) && j == Join(raw, '|')
    ensures Trimmed(Only('|'), j)
  {
    var first, last := raw[0], raw[|raw| - 1];
    assert PlainCell(first) && PlainCell(last);
    assert first[0] in first && last[|last| - 1] in last;
    JoinFirst(raw, '|', j);
    JoinLast(raw, '|', j);
  }

  lemma {:induction false} CellsOfBars(raw: seq<string>, row: string)
    requires BarsReady(raw) && row == Bars(raw)
    ensures Cells(row) == StripAll(raw)
  {
    var j := Join(raw, '|');
    assert row == ['|'] + j + ['|'];
    assert forall i :: 0 <= i < |raw| ==> PlainCell(raw[i]) && '|' !in raw[i];
    assert |raw| >= 1;
    assert Only('|').Drops('|');
    assert Cells(row) == StripAll(Split(Trim(Only('|'), row), '|'));
    hide *;
    NoBarEnds(raw, j);
    TrimBorders(Only('|'), '|', j, '|', row);
    SplitJoin(raw, '|');
  }

  lemma {:induction false} PadPlain(s: string, padded: string)
    requires PlainCell(s) && padded == " " + s + " "
    ensures PlainCell(padded) && padded != ""
  {}

  lemma {:induction false} PadReady(cells: seq<string>)
    requires |cells| >= 1 && PlainCells(cells)
    ensures BarsReady(Pad(cells)) && StripAll(Pad(cells)) == StripAll(cells)
  {
    var pad := Pad(cells);
    forall i | 0 <= i < |cells|
      ensures PlainCell(pad[i]) && pad[i] != "" && Strip(pad[i]) == Strip(cells[i])
    {
      assert PlainCell(cells[i]) && White.Drops(' ');
      hide *;
      PadPlain(cells[i], pad[i]);
      TrimPadded(White, ' ', cells[i], ' ', pad[i]);
    }
    assert StripAll(pad) == StripAll(cells);
  }

  /** A printed row is read back cell by cell, up to white space around the cells. */
  lemma {:induction false} CellsOfRow(cells: seq<string>, row: string)
    requires |cells| >= 1 && PlainCells(cells) && row == Row(cells)
    ensures Strip(row) == row && row != "" && row[0] == '|' && OneLine(row)
    ensures Cells(row) == StripAll(cells)
  {
    var pad := Pad(cells);
    assert row == Bars(pad);
    hide *;
    PadReady(cells);
    BarsShape(pad, row);
    CellsOfBars(pad, row);
  }

  lemma {:induction false} StripAllNeat(cells: seq<string>)
    requires NeatCells(cells)
    ensures StripAll(cells) == cells
  {
    forall i | 0 <= i < |cells| ensures Strip(cells[i]) == cells[i] {
      assert Neat(cells[i]) && Trimmed(White, cells[i]);
      hide *;
      TrimTrimmed(White, cells[i]);
    }
  }

  /** Neat cells come back unchanged. */
  lemma {:induction false} CellsOfNeatRow(cells: seq<string>, row: string)
    requires |cells| >= 1 && NeatCells(cells) && row == Row(cells)
    ensures Strip(row) == row && row != "" && row[0] == '|' && OneLine(row)
    ensures Cells(row) == cells
  {
    assert PlainCells(cells) by {
      forall i | 0 <= i < |cells| ensures PlainCell(cells[i]) { assert Neat(cells[i]); }
    }
    hide *;
    CellsOfRow(cells, row);
    StripAllNeat(cells);
  }

  lemma {:induction false} DashCell(s: string)
    requires s == "---"
    ensures Neat(s) && Dashes(s)
  {}

  lemma {:induction false} CellsOfRuler(n: nat, row: string)
    requires n >= 1 && row == Ruler(n)
    ensures Strip(row) == row && row != "" && row[0] == '|' && OneLine(row)
    ensures AllDashes(Cells(row))
  {
    var raw := RulerCells(n);
    forall i | 0 <= i < n ensures Neat(raw[i]) && PlainCell(raw[i]) && raw[i] != "" && Dashes(raw[i]) {
      DashCell(raw[i]);
    }
    assert BarsReady(raw) && NeatCells(raw) && AllDashes(raw) && row == Bars(raw);
    hide *;
    BarsShape(raw, row);
    CellsOfBars(raw, row);
    StripAllNeat(raw);
  }

  // ---- control tables ----

  /** A key that no reader skips. */
  predicate GoodKey(key: string) { Neat(key) && !SkippedKey(key) }

  predicate GoodPairs(pairs: seq<(string, string)>) {
    forall i :: 0 <= i < |pairs| ==> GoodKey(pairs[i].0) && Neat(pairs[i].1)
  }

  function AddPairs(fields: Fields, pairs: seq<(string, string)>): Fields
    decreases |pairs|
  {
    if pairs == [] then fields else AddPairs(fields[pairs[0].0 := pairs[0].1], pairs[1..])
  }

  lemma {:induction false} WalkPair(key: string, value: string, row: string, rest: seq<string>, fields: Fields)
    requires GoodKey(key) && Neat(value) && row == Row([key, value])
    ensures ControlWalk([row] + rest, fields) == ControlWalk(rest, fields[key := value])
  {
    var cells := [key, value];
    assert NeatCells(cells);
    assert AddField(fields, cells) == fields[key := value];
    hide *;
    CellsOfNeatRow(cells, row);
    WalkRow(row, rest, fields);
  }

  lemma {:induction false} WalkRow(row: string, rest: seq<string>, fields: Fields)
    requires Strip(row) == row && row != "" && row[0] == '|'
    ensures ControlWalk([row] + rest, fields) == ControlWalk(rest, AddField(fields, Cells(row)))
  {
    assert ([row] + rest)[1..] == rest;
    hide Cells, Strip, AddField, StartsWith;
  }

  lemma {:induction false} WalkPairs(pairs: seq<(string, string)>, rest: seq<string>, fields: Fields)
    requires GoodPairs(pairs)
    ensures ControlWalk(PairRows(pairs) + rest, fields) == ControlWalk(rest, AddPairs(fields, pairs))
    decreases |pairs|
  {
    if pairs == [] {
      assert PairRows(pairs) + rest == rest;
    } else {
      var key, value, tail := pairs[0].0, pairs[0].1, pairs[1..];
      var row := Row([key, value]);
      assert PairRows(pairs) == [row] + PairRows(tail);
      assert AddPairs(fields, pairs) == AddPairs(fields[key := value], tail);
      assert GoodKey(key) && Neat(value);
      assert GoodPairs(tail);
      hide *;
      Reassociate([row], PairRows(tail), rest);
      WalkPair(key, value, row, PairRows(tail) + rest, fields);
      WalkPairs(tail, rest, fields[key := value]);
    }
  }

  predicate DistinctKeys(pairs: seq<(string, string)>) {
    forall i, j :: 0 <= i < j < |pairs| ==> pairs[i].0 != pairs[j].0
  }

  predicate HasKey(pairs: seq<(string, string)>, name: string) {
    exists i :: 0 <= i < |pairs| && pairs[i].0 == name
  }

  lemma {:induction false} AddPairsOther(fields: Fields, pairs: seq<(string, string)>, name: string)
    requires !HasKey(pairs, name)
    ensures name in AddPairs(fields, pairs) <==> name in fields
    ensures name in fields ==> AddPairs(fields, pairs)[name] == fields[name]
    decreases |pairs|
  {
    if pairs != [] {
      assert pairs[0].0 != name;
      assert forall i :: 0 <= i < |pairs| - 1 ==> pairs[1..][i] == pairs[i + 1];
      AddPairsOther(fields[pairs[0].0 := pairs[0].1], pairs[1..], name);
    }
  }

  lemma {:induction false} AddPairsAt(fields: Fields, pairs: seq<(string, string)>, i: int)
    requires DistinctKeys(pairs) && 0 <= i < |pairs|
    ensures pairs[i].0 in AddPairs(fields, pairs) && AddPairs(fields, pairs)[pairs[i].0] == pairs[i].1
    decreases |pairs|
  {
    var more, tail := fields[pairs[0].0 := pairs[0].1], pairs[1..];
    assert forall k :: 0 <= k < |tail| ==> tail[k] == pairs[k + 1];
    if i == 0 {
      AddPairsOther(more, tail, pairs[0].0);
    } else {
      AddPairsAt(more, tail, i - 1);
    }
  }

  // ---- headings ----

  lemma {:induction false} AfterSkips(line: string, rest: string, text: string, title: string)
    requires text == line + "\n" + rest && '\n' !in line && HeadingHere(text, title).None?
    ensures After(text, title) == After(rest, title)
  {
    IndexOfFirst(line, '\n', rest);
    assert text[|line| + 1..] == rest;
    hide HeadingHere, IndexOf;
  }

  predicate NoHeading(line: string) { OneLine(line) && (line == "" || line[0] != '#' || |line| == 1 || line[1] != '#') }

  lemma {:induction false} NotHash(line: string, rest: string, text: string, title: string)
    requires text == line + "\n" + rest && NoHeading(line)
    ensures HeadingHere(text, title).None? && '\n' !in line
  {
    assert IsLineBreak('\n');
    if |line| >= 2 {
      assert text[0] == line[0] && text[1] == line[1];
    } else {
      assert text[|line|] == '\n';
    }
    assert |text| == 1 || text[0] != '#' || text[1] != '#';
    hide *;
    NoHash(text, title);
  }

  lemma {:induction false} NoHash(text: string, title: string)
    requires text != "" && (text[0] != '#' || |text| == 1 || text[1] != '#')
    ensures HeadingHere(text, title).None?
  {
    hide TrimStart, ToLineEnd, StartsFolded;
  }

  predicate NoHeadings(lines: seq<string>) { forall i :: 0 <= i < |lines| ==> NoHeading(lines[i]) }

  lemma {:induction false} AfterSkipsLines(lines: seq<string>, rest: string, title: string)
    requires NoHeadings(lines)
    ensures After(Unlines(lines) + rest, title) == After(rest, title)
  {
    if lines == [] {
      assert Unlines(lines) + rest == rest;
    } else {
      var line, tail := lines[0], lines[1..];
      assert Unlines(lines) == line + "\n" + Unlines(tail);
      assert NoHeading(line) && NoHeadings(tail);
      hide *;
      Reassociate(line + "\n", Unlines(tail), rest);
      var text, more := Unlines(lines) + rest, Unlines(tail) + rest;
      NotHash(line, more, text, title);
      AfterSkips(line, more, text, title);
      AfterSkipsLines(tail, rest, title);
    }
  }

  /** A heading line, an empty line and the first row of a table. */
  lemma {:induction false} ToLineEndBlank(rest: string, t: string)
    requires rest != "" && rest[0] == '|' && t == "\n" + ("\n" + rest)
    ensures ToLineEnd(t) == Some("\n" + rest)
  {
    var u := "\n" + rest;
    assert ToLineEnd(rest).None?;
    assert u[1..] == rest && u[0] == '\n';
    assert ToLineEnd(u) == Some(u);
    assert t[1..] == u && t[0] == '\n';
  }

  lemma {:induction false} SkipOneSpace(s: string, u: string)
    requires s == " " + u && u != "" && !IsSpace(u[0])
    ensures TrimStart(White, s) == u
  {
    assert s[0] == ' ' && s[1] == u[0] && IsSpace(' ');
    assert Lead(White, s) == 1;
    assert s[1..] == u;
  }

  lemma {:induction false} HeadingText(line: string, shown: string, rest: string, text: string)
    requires line == "## " + shown && shown != "" && !IsSpace(shown[0]) && text == line + "\n" + rest
    ensures StartsWith(text, "##") && TrimStart(White, text[2..]) == shown + ("\n" + rest)
  {
    var u := shown + ("\n" + rest);
    assert text[2..] == " " + u;
    assert u[0] == shown[0];
    hide *;
    SkipOneSpace(text[2..], u);
  }

  /** `## ` and the title, an empty line and a table. */
  lemma {:induction false} HeadingMatches(line: string, shown: string, title: string, rest: string, text: string)
    requires line == "## " + shown && shown != "" && !IsSpace(shown[0])
    requires |shown| == |title| && StartsFolded(shown, title)
    requires rest != "" && rest[0] == '|' && text == line + "\n" + ("\n" + rest)
    ensures After(text, title) == Some("\n" + rest)
  {
    var t := "\n" + ("\n" + rest);
    var u := shown + t;
    HeadingText(line, shown, "\n" + rest, text);
    ToLineEndBlank(rest, t);
    assert StartsFolded(u, title);
    assert u[|title|..] == t;
    hide ToLineEnd, StartsFolded, TrimStart, StartsWith;
    assert HeadingHere(text, title) == Some("\n" + rest);
  }

  lemma {:induction false} HeadingDiffers(line: string, shown: string, title: string, rest: string, text: string)
    requires line == "## " + shown && shown != "" && !IsSpace(shown[0])
    requires title != "" && Fold(shown[0]) != title[0] && text == line + "\n" + rest
    ensures HeadingHere(text, title).None?
  {
    HeadingText(line, shown, rest, text);
    assert (shown + ("\n" + rest))[0] == shown[0];
  }
}
