/** What `scripts/gen_register.py` and `scripts/check_docs.py` share: the rule
    constants, the documents, and the readers of Markdown tables. */
module DocRules {
  import opened Text

  const REGISTER := "docs/iso/DOCUMENT-REGISTER.md"
  const INDEX := "docs/README.md"
  const REGISTER_ID := "SOMA-01-DOCS-002"
  const QUALITY_MANUAL := "docs/iso/SOMA-01-QMS-001.md"

  const REQUIRED_FIELDS: seq<string> :=
    ["Document Title", "Document Identifier", "Version", "Date", "Status",
     "Author", "Approver", "Classification", "ISO Reference", "Next Review"]
  const FORBIDDEN_FIELDS: seq<string> :=
    ["Effective Date", "Distribution", "Doc ID", "Document ID", "Confidentiality"]
  const REVISION_COLUMNS: seq<string> := ["Version", "Date", "Author", "Description"]

  predicate IsStatus(s: string) { s == "Draft" || s == "In Review" || s == "Approved" || s == "Obsolete" }
  predicate IsClassification(s: string) { s == "Internal" || s == "Confidential" }

  const ID_PREFIXES: seq<string> :=
    ["docs/iso", "docs/architecture", "docs/requirements", "docs/security", "docs/operations",
     "docs/design", "docs/modules", "docs/project", "docs/standards", "docs/reports",
     "docs/tasks", "docs/archive"]

  /** The regular expressions and the calendar, which both scripts consult. */
  datatype Oracle = Oracle(
    dateShaped: string -> bool,
    isoDate: string -> Option<int>,
    idMatches: (string, string) -> bool,  // directory prefix, identifier
    annexName: string -> bool,
    isoSeries: string -> bool)

  datatype Doc = Doc(path: string, text: string)

  type Fields = map<string, string>

  function Get(fields: Fields, name: string, default: string): string {
    if name in fields then fields[name] else default
  }

  predicate IsAnnex(path: string) { StartsWith(path, "docs/design/mockups/") }

  predicate FilenameExempt(path: string) { path == REGISTER || path == INDEX }

  /** `Path(path).stem` of a path that ends in `.md`. */
  function Stem(path: string): string {
    var parts := Split(path, '/');
    var name := parts[|parts| - 1];
    if |name| > 3 then name[..|name| - 3] else name
  }

  function PatternAmong(prefixes: seq<string>, path: string): Option<string> {
    if prefixes == [] then None
    else if StartsWith(path, prefixes[0]) then Some(prefixes[0])
    else PatternAmong(prefixes[1..], path)
  }

  /** The identifier has the shape its directory asks for, if it asks for one. */
  predicate IdFits(o: Oracle, path: string, ident: string) {
    var p := PatternAmong(ID_PREFIXES, path);
    p.Some? ==> o.idMatches(p.value, ident)
  }

  // ---- headings: `^##\s*TITLE\s*$`, multi-line and case-insensitive ----

  function Fold(c: char): char {
    if 'A' <= c <= 'Z' then c - 'A' + 'a'
    else if c as int == 0x130 || c as int == 0x131 then 'i'
    else if c as int == 0x17F then 's'
    else if c as int == 0x212A then 'k'
    else c
  }

  predicate StartsFolded(s: string, title: string) {
    |title| <= |s| && forall i :: 0 <= i < |title| ==> Fold(s[i]) == title[i]
  }

  /** `\s*$`: the longest run of white space that ends the text or stands before a line feed. */
  function ToLineEnd(s: string): Option<string> {
    if s == "" then Some("")
    else if !IsSpace(s[0]) then None
    else
      var longer := ToLineEnd(s[1..]);
      if longer.Some? then longer else if s[0] == '\n' then Some(s) else None
  }

  function HeadingHere(s: string, title: string): Option<string> {
    if !StartsWith(s, "##") then None
    else
      var u := TrimStart(White, s[2..]);
      if StartsFolded(u, title) then ToLineEnd(u[|title|..]) else None
  }

  /** The text behind the first heading with this title. */
  function After(text: string, title: string): Option<string>
    decreases |text|
  {
    var here := HeadingHere(text, title);
    var i := IndexOf(text, '\n');
    if here.Some? || i == |text| then here else After(text[i + 1..], title)
  }

  // ---- table cells ----

  function StripAll(parts: seq<string>): (r: seq<string>)
    ensures |r| == |parts| && forall i :: 0 <= i < |r| ==> r[i] == Strip(parts[i])
  {
    seq(|parts|, i requires 0 <= i < |parts| => Strip(parts[i]))
  }

  /** `[c.strip() for c in stripped.strip("|").split("|")]` */
  function Cells(stripped: string): (r: seq<string>)
    ensures |r| >= 1
  {
    StripAll(Split(Trim(Only('|'), stripped), '|'))
  }

  /** `set(s) <= {"-", " "}` */
  predicate Dashes(s: string) { forall i :: 0 <= i < |s| ==> s[i] == '-' || s[i] == ' ' }

  predicate AllDashes(cells: seq<string>) { forall i :: 0 <= i < |cells| ==> Dashes(cells[i]) }

  /** `dict(zip(header, cells))` */
  function Zip(header: seq<string>, cells: seq<string>): map<string, string> {
    if header == [] || cells == [] then map[]
    else map[header[0] := cells[0]] + Zip(header[1..], cells[1..])
  }

  // ---- the Document Control table ----

  predicate SkippedKey(key: string) { key == "Field" || Dashes(key) }

  predicate IsTableLine(stripped: string) { stripped != "" && stripped[0] == '|' }

  function AddField(fields: Fields, cells: seq<string>): Fields {
    if |cells| < 2 || SkippedKey(cells[0]) then fields else fields[cells[0] := cells[1]]
  }

  /** The next heading ends the table, and so does any other line once a field has been read. */
  function ControlWalk(lines: seq<string>, fields: Fields): Fields {
    if lines == [] then fields
    else
      var s := Strip(lines[0]);
      if IsTableLine(s) then ControlWalk(lines[1..], AddField(fields, Cells(s)))
      else if fields != map[] || StartsWith(s, "##") then fields
      else ControlWalk(lines[1..], fields)
  }

  function ControlFields(text: string): Fields {
    var rest := After(text, "document control");
    if rest.None? then map[] else ControlWalk(SplitLines(rest.value), map[])
  }

  method ParseControlTable(text: string) returns (fields: Fields)
    ensures fields == ControlFields(text)
  {
    fields := map[];
    var rest := After(text, "document control");
    if rest.None? { return; }
    var lines := SplitLines(rest.value);
    for i := 0 to |lines|
      invariant ControlWalk(lines[i..], fields) == ControlFields(text)
    {
      assert lines[i..][1..] == lines[i + 1..];
      var stripped := Strip(lines[i]);
      if stripped == "" {
        if fields != map[] { return; }
        continue;
      }
      if StartsWith(stripped, "##") { return; }
      if stripped[0] != '|' {
        if fields != map[] { return; }
        continue;
      }
      var cells := Cells(stripped);
      if |cells| < 2 { continue; }
      if SkippedKey(cells[0]) { continue; }
      fields := fields[cells[0] := cells[1]];
    }
  }

  // ---- the Revision History header ----

  function RevisionWalk(lines: seq<string>): seq<string> {
    if lines == [] then []
    else
      var s := Strip(lines[0]);
      if StartsWith(s, "##") then []
      else if s == "" || s[0] != '|' || AllDashes(Cells(s)) then RevisionWalk(lines[1..])
      else Cells(s)
  }

  /** None when the heading is missing, otherwise the columns of the first table row. */
  function RevisionHistory(text: string): Option<seq<string>> {
    var rest := After(text, "revision history");
    if rest.None? then None else Some(RevisionWalk(SplitLines(rest.value)))
  }

  method ParseRevisionHistory(text: string) returns (columns: Option<seq<string>>)
    ensures columns == RevisionHistory(text)
  {
    var rest := After(text, "revision history");
    if rest.None? { return None; }
    var lines := SplitLines(rest.value);
    for i := 0 to |lines|
      invariant RevisionWalk(lines[i..]) == RevisionWalk(lines)
    {
      assert lines[i..][1..] == lines[i + 1..];
      var stripped := Strip(lines[i]);
      if stripped == "" { continue; }
      if StartsWith(stripped, "##") { break; }
      if stripped[0] != '|' { continue; }
      var cells := Cells(stripped);
      if AllDashes(cells) { continue; }
      return Some(cells);
    }
    return Some([]);
  }

  // ---- the register table ----

  type Register = map<string, map<string, string>>

  predicate IsRegisterHeader(cells: seq<string>) {
    "Document Identifier" in cells && "File" in cells
  }

  /** The reader's state: `header` is empty until the table's own header row has been seen. */
  datatype Scan = Scan(header: seq<string>, rows: Register)

  function ReadCells(scan: Scan, cells: seq<string>): Scan {
    if AllDashes(cells) then scan
    else if scan.header == [] then scan.(header := if IsRegisterHeader(cells) then cells else [])
    else if |cells| < |scan.header| then scan
    else scan.(rows := AddRow(scan.rows, Zip(scan.header, cells)))
  }

  function ReadLine(scan: Scan, line: string): Scan {
    var s := Strip(line);
    if IsTableLine(s) then ReadCells(scan, Cells(s)) else scan
  }

  function RegisterWalk(lines: seq<string>, scan: Scan): Register {
    if lines == [] then scan.rows
    else if scan.header != [] && !IsTableLine(Strip(lines[0])) then scan.rows
    else RegisterWalk(lines[1..], ReadLine(scan, lines[0]))
  }

  function AddRow(rows: Register, row: map<string, string>): Register {
    var path := Trim(Only('`'), Get(row, "File", ""));
    if path != "" then rows[path := row] else rows
  }

  function RegisterRows(text: string): Register {
    RegisterWalk(SplitLines(text), Scan([], map[]))
  }

  method ParseRegister(text: string) returns (rows: Register)
    ensures rows == RegisterRows(text)
  {
    rows := map[];
    var header: seq<string> := [];  // empty stands for the source's `in_register` flag being down
    var lines := SplitLines(text);
    for i := 0 to |lines|
      invariant RegisterWalk(lines[i..], Scan(header, rows)) == RegisterRows(text)
    {
      ghost var before := Scan(header, rows);
      assert lines[i..][1..] == lines[i + 1..];
      var stripped := Strip(lines[i]);
      if !IsTableLine(stripped) {
        if header != [] { return; }
        continue;
      }
      var cells := Cells(stripped);
      header, rows := ReadRow(header, rows, cells);
      assert Scan(header, rows) == ReadLine(before, lines[i]);
    }
  }

  method ReadRow(header: seq<string>, rows: Register, cells: seq<string>)
    returns (header': seq<string>, rows': Register)
    ensures Scan(header', rows') == ReadCells(Scan(header, rows), cells)
  {
    header', rows' := header, rows;
    if AllDashes(cells) { return; }
    if header == [] {
      if IsRegisterHeader(cells) { header' := cells; }
      return;
    }
    if |cells| < |header| { return; }
    var row := Zip(header, cells);
    var path := Trim(Only('`'), Get(row, "File", ""));
    if path != "" { rows' := rows[path := row]; }
  }
}
