/** `scripts/gen_register.py`: the register computed from the tree and printed. */
module GenRegister {
  import opened Text
  import opened DocRules

  datatype Problem =
    | MissingField(name: string)
    | NonHouseField(name: string)
    | BadStatus(value: string)
    | BadClassification(value: string)
    | BlankApprover
    | MissingReview
    | ReviewNotDate(value: string)
    | ReviewOverdue(value: string)
    | ReviewInvalid(value: string)
    | NoRevisionHistory
    | RevisionColumns(columns: seq<string>)
    | FilenameNotIdentifier
    | WrongPattern(ident: string)

  datatype Entry = Entry(
    ident: string, file: string, title: string, version: string, status: string,
    approver: string, nextReview: string, compliance: string, problems: seq<Problem>)

  /** The day of the run: its ordinal, its ISO text, and the ISO text of the review date 91 days on. */
  datatype Day = Day(ordinal: int, iso: string, review: string)

  const DASH := "—"

  function Or(s: string, default: string): string { if s == "" then default else s }

  // ---- the content rules, as the generator applies them ----

  function One(broken: bool, p: Problem): seq<Problem> { if broken then [p] else [] }

  function MissingProblems(names: seq<string>, fields: Fields): seq<Problem> {
    if names == [] then []
    else
      var n := |names| - 1;
      MissingProblems(names[..n], fields)
      + One(names[n] != "Document Identifier" && (names[n] !in fields || Strip(fields[names[n]]) == ""),
            MissingField(names[n]))
  }

  function ForbiddenProblems(names: seq<string>, fields: Fields): seq<Problem> {
    if names == [] then []
    else
      var n := |names| - 1;
      ForbiddenProblems(names[..n], fields) + One(names[n] in fields, NonHouseField(names[n]))
  }

  function ReviewProblems(o: Oracle, today: int, fields: Fields): seq<Problem> {
    var nr := Strip(Get(fields, "Next Review", ""));
    if nr == "" then [MissingReview]
    else if !o.dateShaped(nr) then [ReviewNotDate(nr)]
    else
      match o.isoDate(nr)
      case None => [ReviewInvalid(nr)]
      case Some(day) => One(day < today, ReviewOverdue(nr))
  }

  function HistoryProblems(text: string): seq<Problem> {
    match RevisionHistory(text)
    case None => [NoRevisionHistory]
    case Some(columns) => One(columns != REVISION_COLUMNS, RevisionColumns(columns))
  }

  function ContentProblems(o: Oracle, today: int, doc: Doc, fields: Fields, ident: string): seq<Problem> {
    var status := Strip(Get(fields, "Status", ""));
    var classification := Strip(Get(fields, "Classification", ""));
    MissingProblems(REQUIRED_FIELDS, fields)
    + ForbiddenProblems(FORBIDDEN_FIELDS, fields)
    + One(status != "" && !IsStatus(status), BadStatus(status))
    + One(classification != "" && !IsClassification(classification), BadClassification(classification))
    + One("Approver" in fields && Strip(fields["Approver"]) == "", BlankApprover)
    + ReviewProblems(o, today, fields)
    + HistoryProblems(doc.text)
    + One(ident != "" && !FilenameExempt(doc.path) && Stem(doc.path) != ident, FilenameNotIdentifier)
    + One(ident != "" && !IdFits(o, doc.path, ident), WrongPattern(ident))
  }

  method FindMissing(fields: Fields) returns (problems: seq<Problem>)
    ensures problems == MissingProblems(REQUIRED_FIELDS, fields)
  {
    problems := [];
    for i := 0 to |REQUIRED_FIELDS|
      invariant problems == MissingProblems(REQUIRED_FIELDS[..i], fields)
    {
      assert REQUIRED_FIELDS[..i + 1][..i] == REQUIRED_FIELDS[..i];
      var name := REQUIRED_FIELDS[i];
      if name == "Document Identifier" { continue; }
      if name !in fields || Strip(fields[name]) == "" {
        problems := problems + [MissingField(name)];
      }
    }
    assert REQUIRED_FIELDS[..|REQUIRED_FIELDS|] == REQUIRED_FIELDS;
  }

  method FindForbidden(fields: Fields) returns (problems: seq<Problem>)
    ensures problems == ForbiddenProblems(FORBIDDEN_FIELDS, fields)
  {
    problems := [];
    for i := 0 to |FORBIDDEN_FIELDS|
      invariant problems == ForbiddenProblems(FORBIDDEN_FIELDS[..i], fields)
    {
      assert FORBIDDEN_FIELDS[..i + 1][..i] == FORBIDDEN_FIELDS[..i];
      if FORBIDDEN_FIELDS[i] in fields {
        problems := problems + [NonHouseField(FORBIDDEN_FIELDS[i])];
      }
    }
    assert FORBIDDEN_FIELDS[..|FORBIDDEN_FIELDS|] == FORBIDDEN_FIELDS;
  }

  method FindContentProblems(o: Oracle, today: int, doc: Doc, fields: Fields, ident: string)
    returns (problems: seq<Problem>)
    ensures problems == ContentProblems(o, today, doc, fields, ident)
  {
    problems := FindMissing(fields);
    var forbidden := FindForbidden(fields);
    problems := problems + forbidden;
    var status := Strip(Get(fields, "Status", ""));
    problems := problems + One(status != "" && !IsStatus(status), BadStatus(status));
    var classification := Strip(Get(fields, "Classification", ""));
    problems := problems
      + One(classification != "" && !IsClassification(classification), BadClassification(classification));
    problems := problems + One("Approver" in fields && Strip(fields["Approver"]) == "", BlankApprover);
    problems := problems + ReviewProblems(o, today, fields);
    problems := problems + HistoryProblems(doc.text);
    problems := problems
      + One(ident != "" && !FilenameExempt(doc.path) && Stem(doc.path) != ident, FilenameNotIdentifier);
    problems := problems + One(ident != "" && !IdFits(o, doc.path, ident), WrongPattern(ident));
  }

  // ---- titles ----

  function FirstHeading(lines: seq<string>): string {
    if lines == [] then ""
    else if StartsWith(lines[0], "# ") then Strip(lines[0][2..])
    else FirstHeading(lines[1..])
  }

  predicate IdChar(c: char) { 'A' <= c <= 'Z' || '0' <= c <= '9' || c == '-' }

  function DropIdChars(s: string): (r: string)
    ensures |r| <= |s| && r == s[|s| - |r|..]
  {
    if s != "" && IdChar(s[0]) then DropIdChars(s[1..]) else s
  }

  predicate IsSuffix(r: string, s: string) { |r| <= |s| && r == s[|s| - |r|..] }

  lemma {:induction false} SuffixOfSuffix(r: string, t: string, s: string, n: nat)
    requires IsSuffix(t, s) && n <= |t| && r == TrimStart(White, t[n..])
    ensures IsSuffix(r, s)
  {
    var u := t[n..];
    assert r == u[|u| - |r|..];
    hide TrimStart;
  }

  /** `re.sub(r"^SOMA-[A-Z0-9-]+ —\s*", "", h)` */
  function DropIdentifier(h: string): (r: string)
    ensures |r| <= |h| && r == h[|h| - |r|..]
  {
    if !StartsWith(h, "SOMA-") then h
    else
      var rest := DropIdChars(h[5..]);
      if |rest| < |h| - 5 && StartsWith(rest, " —") then
        SuffixOfSuffix(TrimStart(White, rest[2..]), rest, h, 2);
        TrimStart(White, rest[2..])
      else h
  }

  predicate Mark(c: char) { c == '🔥' || c == '⚡' }

  function DropMarks(s: string): (r: string)
    ensures |r| <= |s| && r == s[|s| - |r|..]
  {
    if s != "" && Mark(s[0]) then DropMarks(s[1..]) else s
  }

  /** `re.sub(r"^[🔥⚡]+\s*", "", h)` */
  function DropLeadingMarks(h: string): (r: string)
    ensures |r| <= |h| && r == h[|h| - |r|..]
  {
    if h != "" && Mark(h[0]) then TrimStart(White, DropMarks(h)) else h
  }

  function TitleFrom(text: string, fallback: string): string {
    var t := Strip(Get(ControlFields(text), "Document Title", ""));
    if t != "" then t
    else
      var h := FirstHeading(SplitLines(text));
      if h != "" then Or(DropLeadingMarks(Strip(DropIdentifier(h))), fallback) else fallback
  }

  // ---- rows ----

  function IdentFor(path: string, fields: Fields): string {
    Or(Strip(Get(fields, "Document Identifier", "")),
       if path == INDEX then "SOMA-STD-INDEX-001" else DASH)
  }

  function EntryFor(o: Oracle, today: int, doc: Doc): Entry {
    var stem := Stem(doc.path);
    var title := TitleFrom(doc.text, stem);
    if IsAnnex(doc.path) then Entry(stem, doc.path, title, DASH, DASH, DASH, DASH, "Annex", [])
    else
      var fields := ControlFields(doc.text);
      var ident := IdentFor(doc.path, fields);
      var problems := ContentProblems(o, today, doc, fields, ident);
      Entry(ident, doc.path, title,
            Or(Strip(Get(fields, "Version", "")), DASH),
            Or(Strip(Get(fields, "Status", "")), DASH),
            Or(Strip(Get(fields, "Approver", "")), DASH),
            Or(Strip(Get(fields, "Next Review", "")), "MISSING"),
            if problems == [] then "Compliant" else "Non-compliant",
            problems)
  }

  /** The register lists itself, always as Compliant. */
  function OwnEntry(own: Fields): Entry {
    Entry(Strip(Get(own, "Document Identifier", REGISTER_ID)), REGISTER, "Document Register",
          Or(Strip(Get(own, "Version", "")), "1.0.0"),
          Or(Strip(Get(own, "Status", "")), "Draft"),
          Or(Strip(Get(own, "Approver", "")), DASH),
          Or(Strip(Get(own, "Next Review", "")), "MISSING"),
          "Compliant", [])
  }

  function DocEntries(o: Oracle, today: int, docs: seq<Doc>): seq<Entry> {
    if docs == [] then []
    else
      var doc := docs[|docs| - 1];
      DocEntries(o, today, docs[..|docs| - 1])
      + if doc.path == REGISTER then [] else [EntryFor(o, today, doc)]
  }

  function InsertByFile(e: Entry, sorted: seq<Entry>): seq<Entry> {
    if sorted == [] || Before(e.file, sorted[0].file) then [e] + sorted
    else [sorted[0]] + InsertByFile(e, sorted[1..])
  }

  /** `rows.sort(key=lambda x: x["file"])`, a stable sort. */
  function SortByFile(entries: seq<Entry>): seq<Entry> {
    if entries == [] then []
    else InsertByFile(entries[|entries| - 1], SortByFile(entries[..|entries| - 1]))
  }

  function Entries(o: Oracle, today: int, docs: seq<Doc>, own: Fields): seq<Entry> {
    [OwnEntry(own)] + SortByFile(DocEntries(o, today, docs))
  }

  function CountOf(entries: seq<Entry>, compliance: string): nat {
    if entries == [] then 0
    else (if entries[0].compliance == compliance then 1 else 0) + CountOf(entries[1..], compliance)
  }

  // ---- printing ----

  function Pad(cells: seq<string>): (r: seq<string>)
    ensures |r| == |cells| && forall i :: 0 <= i < |r| ==> r[i] == " " + cells[i] + " "
  {
    seq(|cells|, i requires 0 <= i < |cells| => " " + cells[i] + " ")
  }

  function Bars(raw: seq<string>): string { "|" + Join(raw, '|') + "|" }

  /** `| a | b | ... |` */
  function Row(cells: seq<string>): string { Bars(Pad(cells)) }

  /** `|---|---| ... |` */
  function Ruler(n: nat): string { Bars(RulerCells(n)) }

  function RulerCells(n: nat): (r: seq<string>)
    ensures |r| == n && forall i :: 0 <= i < n ==> r[i] == "---"
  {
    seq(n, _ => "---")
  }

  function Slashed(s: string): (r: string)
    ensures |r| == |s| && '|' !in r
    ensures forall i :: 0 <= i < |s| ==> r[i] == if s[i] == '|' then '/' else s[i]
  {
    if s == "" then "" else [if s[0] == '|' then '/' else s[0]] + Slashed(s[1..])
  }

  function EntryCells(e: Entry): seq<string> {
    [e.ident, e.file, Slashed(e.title), e.version, e.status, e.approver, e.nextReview, e.compliance]
  }

  function EntryRows(entries: seq<Entry>): seq<string> {
    if entries == [] then [] else [Row(EntryCells(entries[0]))] + EntryRows(entries[1..])
  }

  const COLUMNS: seq<string> :=
    ["Document Identifier", "File", "Title", "Version", "Status", "Approver", "Next Review", "Compliance"]

  /** The wording that the script prints as it stands: fixed cells of the control
      table, revision notes, and the paragraphs around the register table. */
  datatype Prose = Prose(
    isoReference: string, related: string, source: string, audience: string, scope: string,
    seeded: string, corrected: string, regenerated: string,
    purpose: seq<string>, remediation: seq<string>)

  /** The header fields that a regeneration takes over from the previous text. */
  function Kept(own: Fields, name: string, default: string): string {
    Strip(Get(own, name, default))
  }

  datatype Header = Header(version: string, date: string, status: string, approver: string, nextReview: string)

  function HeaderOf(own: Fields, day: Day): Header {
    Header(Kept(own, "Version", "1.0.1"), Kept(own, "Date", day.iso), Kept(own, "Status", "Draft"),
           Kept(own, "Approver", DASH), Kept(own, "Next Review", day.review))
  }

  function ControlPairs(h: Header, p: Prose): seq<(string, string)> {
    [("Document Title", "Document Register"),
     ("Document Identifier", REGISTER_ID),
     ("Version", h.version),
     ("Date", h.date),
     ("Status", h.status),
     ("Author", "SomaTech Engineering"),
     ("Approver", h.approver),
     ("Classification", "Internal"),
     ("ISO Reference", p.isoReference),
     ("Next Review", h.nextReview),
     ("Related", p.related),
     ("Source of truth", p.source),
     ("Audience", p.audience),
     ("Scope", p.scope)]
  }

  function PairRows(pairs: seq<(string, string)>): seq<string> {
    if pairs == [] then [] else [Row([pairs[0].0, pairs[0].1])] + PairRows(pairs[1..])
  }

  function HistoryRows(iso: string, p: Prose): seq<string> {
    [Row(["1.0.0", "2026-09-27", "SomaTech Engineering", p.seeded]),
     Row(["1.0.1", "2026-09-27", "SomaTech Engineering", p.corrected]),
     Row(["1.1.0", iso, "SomaTech Engineering", p.regenerated])]
  }

  function ControlTable(h: Header, p: Prose): seq<string> {
    [Row(["Field", "Value"]), Ruler(2)] + PairRows(ControlPairs(h, p))
  }

  function HistoryTable(iso: string, p: Prose): seq<string> {
    [Row(REVISION_COLUMNS), Ruler(4)] + HistoryRows(iso, p)
  }

  function Summary(entries: seq<Entry>): seq<string> {
    ["## 3. Summary",
     "",
     Row(["Metric", "Count"]),
     Ruler(2),
     Row(["Registered documents", Decimal(|entries|)]),
     Row(["Compliant", Decimal(CountOf(entries, "Compliant"))]),
     Row(["Non-compliant (tracked gaps)", Decimal(CountOf(entries, "Non-compliant"))]),
     Row(["Annexes (design artefacts)", Decimal(CountOf(entries, "Annex"))]),
     ""]
  }

  const TITLE_LINES: seq<string> := ["# SOMA-01-DOCS-002 — Document Register", ""]

  /** A heading, an empty line, a table and another empty line. */
  function Section(heading: string, table: seq<string>, rest: seq<string>): seq<string> {
    [heading] + ([""] + (table + ([""] + rest)))
  }

  function RegisterTable(entries: seq<Entry>, rest: seq<string>): seq<string> {
    [Row(COLUMNS)] + ([Ruler(8)] + (EntryRows(entries) + ([""] + rest)))
  }

  function Below(iso: string, p: Prose, entries: seq<Entry>): seq<string> {
    Section("## Revision History", HistoryTable(iso, p),
            p.purpose + RegisterTable(entries, Summary(entries) + p.remediation))
  }

  function Lines(h: Header, iso: string, p: Prose, entries: seq<Entry>): seq<string> {
    TITLE_LINES + Section("## Document Control", ControlTable(h, p), Below(iso, p, entries))
  }

  function Print(h: Header, iso: string, p: Prose, entries: seq<Entry>): string {
    Unlines(Lines(h, iso, p, entries))
  }

  /** The text the generator writes, from the tree and the register's previous text. */
  function Generated(o: Oracle, p: Prose, day: Day, docs: seq<Doc>, previous: string): string {
    var own := ControlFields(previous);
    Print(HeaderOf(own, day), day.iso, p, Entries(o, day.ordinal, docs, own))
  }

  method BuildEntry(o: Oracle, today: int, doc: Doc) returns (row: Entry)
    ensures row == EntryFor(o, today, doc)
  {
    var stem := Stem(doc.path);
    var title := TitleFrom(doc.text, stem);
    if IsAnnex(doc.path) {
      return Entry(stem, doc.path, title, DASH, DASH, DASH, DASH, "Annex", []);
    }
    var fields := ParseControlTable(doc.text);
    var ident := IdentFor(doc.path, fields);
    var problems := FindContentProblems(o, today, doc, fields, ident);
    return Entry(ident, doc.path, title,
                 Or(Strip(Get(fields, "Version", "")), DASH),
                 Or(Strip(Get(fields, "Status", "")), DASH),
                 Or(Strip(Get(fields, "Approver", "")), DASH),
                 Or(Strip(Get(fields, "Next Review", "")), "MISSING"),
                 if problems == [] then "Compliant" else "Non-compliant",
                 problems);
  }

  method BuildRows(o: Oracle, today: int, docs: seq<Doc>, own: Fields) returns (rows: seq<Entry>)
    ensures rows == Entries(o, today, docs, own)
  {
    rows := [];
    for i := 0 to |docs|
      invariant rows == DocEntries(o, today, docs[..i])
    {
      assert docs[..i + 1][..i] == docs[..i];
      if docs[i].path == REGISTER { continue; }
      var row := BuildEntry(o, today, docs[i]);
      rows := rows + [row];
    }
    assert docs[..|docs|] == docs;
    rows := SortByFile(rows);
    rows := [OwnEntry(own)] + rows;
  }

  method PrintRows(rows: seq<Entry>) returns (lines: seq<string>)
    ensures lines == EntryRows(rows)
  {
    lines := [];
    for i := 0 to |rows|
      invariant lines + EntryRows(rows[i..]) == EntryRows(rows)
    {
      assert rows[i..][1..] == rows[i + 1..];
      lines := lines + [Row(EntryCells(rows[i]))];
    }
  }

  method Generate(o: Oracle, p: Prose, day: Day, docs: seq<Doc>, previous: string) returns (text: string)
    ensures text == Generated(o, p, day, docs, previous)
  {
    var own := ParseControlTable(previous);
    var rows := BuildRows(o, day.ordinal, docs, own);
    var table := PrintRows(rows);
    assert Generated(o, p, day, docs, previous) == Print(HeaderOf(own, day), day.iso, p, rows);
    var header := HeaderOf(own, day);
    hide *;
    text := PrintLines(header, day.iso, p, rows, table);
  }

  method PrintLines(h: Header, iso: string, p: Prose, rows: seq<Entry>, table: seq<string>) returns (text: string)
    requires table == EntryRows(rows)
    ensures text == Print(h, iso, p, rows)
  {
    hide ControlTable, HistoryTable, Summary, EntryRows, Unlines, Row, Ruler, COLUMNS;
    var lines := Summary(rows) + p.remediation;
    lines := [Row(COLUMNS)] + ([Ruler(8)] + (table + ([""] + lines)));
    lines := Section("## Revision History", HistoryTable(iso, p), p.purpose + lines);
    lines := TITLE_LINES + Section("## Document Control", ControlTable(h, p), lines);
    text := Unlines(lines);
  }
}
