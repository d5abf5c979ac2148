/** The promises of the register: a regeneration leaves nothing for the check to fail,
    the printed rows parse back, and a second regeneration changes nothing. */
module RegisterTheorems {
  import opened Text
  import opened DocRules
  import opened GenRegister
  import opened CheckDocs
  import opened RegisterPrint
  import opened RegisterRoundTrip
  import opened RegisterPreamble
  import opened RegisterReadBack
  import opened RegisterRowsBack
  import opened RegisterEntries
  import opened RegisterAgreement

  /** The tree after the generator has rewritten the register. */
  function Rewritten(docs: seq<Doc>, text: string): (r: seq<Doc>)
    ensures |r| == |docs|
    ensures forall i :: 0 <= i < |docs| ==> r[i] == if docs[i].path == REGISTER then Doc(REGISTER, text) else docs[i]
  {
    seq(|docs|, i requires 0 <= i < |docs| => if docs[i].path == REGISTER then Doc(REGISTER, text) else docs[i])
  }

  /** The constant pattern for `docs/iso` accepts the register's own identifier. */
  predicate AcceptsRegister(o: Oracle) { o.idMatches("docs/iso", REGISTER_ID) }

  /** Where an identifier the generator fills in passes for one: at `docs/README.md`, or where the file name is the
      dash and no pattern of the directory objects to it. */
  predicate GapPlace(o: Oracle, path: string) {
    path == INDEX || ((path == REGISTER || Stem(path) == DASH) && IdFits(o, path, DASH))
  }

  /** The one kind of document on which the two scripts disagree: in such a place, faultless, and without an
      identifier of its own. */
  predicate IdentifierGap(o: Oracle, today: int, doc: Doc) {
    var fields := ControlFields(doc.text);
    && !IsAnnex(doc.path) && GapPlace(o, doc.path)
    && Blank(fields, "Document Identifier") && Faultless(o, today, fields, doc.text)
  }

  const PATTERN_LETTERS: seq<char> := ['i', 'a', 'r', 's', 'o', 'd', 'm', 'p', 's', 'r', 't', 'a']

  lemma {:induction false} PrefixLetters(prefixes: seq<string>)
    requires prefixes == ID_PREFIXES
    ensures |prefixes| == 12 && forall i :: 0 <= i < 12 ==> |prefixes[i]| > 5 && prefixes[i][5] == PATTERN_LETTERS[i]
  {
    assert prefixes[0][5] == 'i' && prefixes[1][5] == 'a' && prefixes[2][5] == 'r' && prefixes[3][5] == 's';
    assert prefixes[4][5] == 'o' && prefixes[5][5] == 'd' && prefixes[6][5] == 'm' && prefixes[7][5] == 'p';
    assert prefixes[8][5] == 's' && prefixes[9][5] == 'r' && prefixes[10][5] == 't' && prefixes[11][5] == 'a';
  }

  lemma {:induction false} NoPatternAmong(prefixes: seq<string>, path: string)
    requires |path| > 5 && forall i :: 0 <= i < |prefixes| ==> |prefixes[i]| > 5 && prefixes[i][5] != path[5]
    ensures PatternAmong(prefixes, path).None?
  {
    if prefixes != [] {
      assert !StartsWith(path, prefixes[0]);
      NoPatternAmong(prefixes[1..], path);
    }
  }

  /** Outside the twelve directories every identifier fits. */
  lemma {:induction false} NoPattern(o: Oracle, path: string, ident: string)
    requires |path| > 5 && path[5] !in PATTERN_LETTERS
    ensures IdFits(o, path, ident)
  {
    var prefixes, letters := ID_PREFIXES, PATTERN_LETTERS;
    PrefixLetters(prefixes);
    assert forall i :: 0 <= i < 12 ==> letters[i] in letters;
    hide ID_PREFIXES, PATTERN_LETTERS, PatternAmong;
    NoPatternAmong(prefixes, path);
  }

  lemma {:induction false} UnnamedIs(path: string, fields: Fields)
    requires Blank(fields, "Document Identifier")
    ensures IdentFor(path, fields) == if path == INDEX then "SOMA-STD-INDEX-001" else DASH
  {
    assert Strip("") == "";
    hide Strip, INDEX, DASH;
  }

  lemma {:induction false} IndexLetter()
    ensures |INDEX| > 5 && INDEX[5] !in PATTERN_LETTERS && DASH != ""
  {
    assert INDEX[5] == 'R';
  }

  lemma {:induction false} UnnamedFits(o: Oracle, path: string, fields: Fields)
    requires Blank(fields, "Document Identifier")
    ensures IdentFits(o, IdentFor(path, fields), path) <==> GapPlace(o, path)
  {
    IndexLetter();
    hide INDEX, DASH, REGISTER, PATTERN_LETTERS, IdFits, Stem, Blank, IdentFor;
    UnnamedIs(path, fields);
    if path == INDEX { NoPattern(o, path, IdentFor(path, fields)); }
  }

  /** A gap is where the generator finds no problem and no identifier. */
  lemma {:induction false} GapExactly(o: Oracle, today: int, doc: Doc, fields: Fields, ident: string)
    requires fields == ControlFields(doc.text) && ident == IdentFor(doc.path, fields)
    ensures IdentifierGap(o, today, doc) <==>
      !IsAnnex(doc.path) && ContentProblems(o, today, doc, fields, ident) == [] && Blank(fields, "Document Identifier")
  {
    hide IsAnnex, GapPlace, ControlFields, Blank, Faultless, IdentFor, ContentProblems, IdentFits;
    NoProblemsExactly(o, today, doc, fields, ident);
    if Blank(fields, "Document Identifier") { UnnamedFits(o, doc.path, fields); }
  }

  /** The header the generator keeps or fills in passes the field rules. */
  predicate HeaderFits(o: Oracle, h: Header) {
    h.version != "" && h.date != "" && IsStatus(h.status) && h.approver != ""
    && h.nextReview != "" && o.dateShaped(h.nextReview) && o.isoDate(h.nextReview).Some?
  }

  // ---- rows as the check sees them ----

  lemma {:induction false} ClaimOf(e: Entry, row: map<string, string>)
    requires row == RowOf(COLUMNS, e) && Neat(e.compliance) && e.compliance != ""
    ensures row != map[] && Claim(row) == e.compliance
    ensures "Document Identifier" in row
  {
    assert EntryCells(e)[7] == e.compliance;
    var c := Get(row, "Compliance", "");
    assert "Compliance" in row ==> c == row["Compliance"];
    assert Claim(row) == Strip(if c == "" then "Non-compliant" else c);
    assert Trimmed(White, e.compliance);
    hide *;
    ColumnsAreHeader(COLUMNS);
    RowAt(COLUMNS, e, 7);
    RowAt(COLUMNS, e, 0);
    TrimTrimmed(White, e.compliance);
  }

  lemma {:induction false} IdentNamed(fields: Fields, row: map<string, string>, path: string)
    requires !Blank(fields, "Document Identifier")
    ensures IdentOf(fields, row) == IdentFor(path, fields)
  {
    hide Strip;
  }

  lemma {:induction false} ThreeClaims()
    ensures "Compliant" != "Non-compliant" && "Annex" != "Compliant" && "Compliant" != "" && "Annex" != ""
    ensures "Non-compliant" != ""
  {
    assert |"Compliant"| == 9 && |"Non-compliant"| == 13 && |"Annex"| == 5;
  }

  lemma {:induction false} EntryCompliance(o: Oracle, today: int, doc: Doc, e: Entry)
    requires e == EntryFor(o, today, doc)
    ensures IsAnnex(doc.path) ==> e.compliance == "Annex"
    ensures !IsAnnex(doc.path) ==>
      var fields := ControlFields(doc.text);
      e.compliance == if ContentProblems(o, today, doc, fields, IdentFor(doc.path, fields)) == []
                      then "Compliant" else "Non-compliant"
  {
    hide ContentProblems, ControlFields, IdentFor, TitleFrom, Stem, Strip, IsAnnex;
  }

  /** One document: the check passes it exactly when it leaves no identifier gap. */
  lemma {:induction false} DocAgrees(o: Oracle, day: int, today: int, register: Register, doc: Doc, e: Entry)
    requires GoodPath(doc.path) && e == EntryFor(o, day, doc)
    requires doc.path in register && register[doc.path] == RowOf(COLUMNS, e)
    ensures Passing(DocFindings(o, today, register, doc)) <==> !IdentifierGap(o, day, doc)
  {
    var fields, row := ControlFields(doc.text), RowOf(COLUMNS, e);
    var ident := IdentFor(doc.path, fields);
    hide *;
    GapExactly(o, day, doc, fields, ident);
    ThreeClaims();
    EntryForNeat(o, day, doc, e);
    EntryCompliance(o, day, doc, e);
    ClaimOf(e, row);
    PassingDoc(o, today, register, doc, row, e.compliance, fields);
    if !IsAnnex(doc.path) && ContentProblems(o, day, doc, fields, ident) == [] {
      NoProblems(o, day, doc, fields, ident);
      if !Blank(fields, "Document Identifier") {
        IdentNamed(fields, row, doc.path);
      }
    }
  }

  // ---- the register's own document ----

  lemma {:induction false} RegisterLocation(o: Oracle)
    requires AcceptsRegister(o)
    ensures !IsAnnex(REGISTER) && IdentFits(o, REGISTER_ID, REGISTER)
  {
    assert REGISTER[5] == 'i';
    assert ID_PREFIXES[0] == "docs/iso";
    assert StartsWith(REGISTER, "docs/iso");
    assert PatternAmong(ID_PREFIXES, REGISTER) == Some("docs/iso");
  }

  lemma {:induction false} FieldAt(fields: Fields, pairs: seq<(string, string)>, i: int, name: string, value: string)
    requires DistinctKeys(pairs) && GoodPairs(pairs) && fields == AddPairs(map[], pairs)
    requires 0 <= i < |pairs| && pairs[i] == (name, value)
    ensures name in fields && fields[name] == value && Strip(value) == value
    ensures forall d :: Get(fields, name, d) == value
  {
    assert Neat(pairs[i].1) && Trimmed(White, value);
    assert Strip(value) == Trim(White, value);
    hide Strip, Trim, Neat, GoodPairs, DistinctKeys;
    AddPairsAt(map[], pairs, i);
    TrimTrimmed(White, value);
  }

  lemma {:induction false} NotBlank(fields: Fields, pairs: seq<(string, string)>, i: int, name: string, value: string)
    requires DistinctKeys(pairs) && GoodPairs(pairs) && fields == AddPairs(map[], pairs)
    requires 0 <= i < |pairs| && pairs[i] == (name, value)
    ensures Blank(fields, name) <==> value == ""
  {
    FieldAt(fields, pairs, i, name, value);
    hide Strip, Neat, GoodPairs, DistinctKeys, AddPairs;
  }

  lemma {:induction false} KeysOfHeader(h: Header, p: Prose, pairs: seq<(string, string)>, names: seq<string>)
    requires pairs == ControlPairs(h, p) && names == REQUIRED_FIELDS
    ensures |pairs| == 14 && |names| == 10 && forall i :: 0 <= i < |names| ==> pairs[i].0 == names[i]
  {}

  lemma {:induction false} ValuesOfHeader(h: Header, p: Prose, pairs: seq<(string, string)>)
    requires pairs == ControlPairs(h, p) && p.isoReference != ""
    ensures (forall i :: 0 <= i < 10 ==> pairs[i].1 != "") <==>
      h.version != "" && h.date != "" && h.status != "" && h.approver != "" && h.nextReview != ""
  {
    assert pairs[2].1 == h.version && pairs[3].1 == h.date && pairs[4].1 == h.status && pairs[6].1 == h.approver;
    assert pairs[9].1 == h.nextReview;
  }

  lemma {:induction false} AllNamedIs(names: seq<string>, fields: Fields, pairs: seq<(string, string)>)
    requires |pairs| >= |names|
    requires forall i :: 0 <= i < |names| ==> (Blank(fields, names[i]) <==> pairs[i].1 == "")
    ensures AllNamed(names, fields) <==> forall i :: 0 <= i < |names| ==> pairs[i].1 != ""
  {
    hide Blank;
  }

  lemma {:induction false} RequiredOfHeader(h: Header, p: Prose, fields: Fields, names: seq<string>)
    requires NeatHeader(h) && GoodProse(p) && fields == AddPairs(map[], ControlPairs(h, p))
    requires names == REQUIRED_FIELDS
    ensures AllNamed(names, fields) <==>
      h.version != "" && h.date != "" && h.status != "" && h.approver != "" && h.nextReview != ""
  {
    var pairs := ControlPairs(h, p);
    assert p.isoReference != "";
    hide *;
    KeysOfHeader(h, p, pairs, names);
    ValuesOfHeader(h, p, pairs);
    PairsGood(h, p, pairs);
    PairsDistinct(h, p, pairs);
    forall i | 0 <= i < |names| ensures Blank(fields, names[i]) <==> pairs[i].1 == "" {
      NotBlank(fields, pairs, i, names[i], pairs[i].1);
    }
    AllNamedIs(names, fields, pairs);
  }

  lemma {:induction false} RestOfHeader(o: Oracle, h: Header, p: Prose, fields: Fields)
    requires NeatHeader(h) && GoodProse(p) && fields == AddPairs(map[], ControlPairs(h, p))
    ensures StatusFits(fields) <==> h.status == "" || IsStatus(h.status)
    ensures ClassificationFits(fields)
    ensures ApproverFits(fields) <==> h.approver != ""
    ensures ReviewFits(o, fields) <==> h.nextReview != "" && o.dateShaped(h.nextReview) && o.isoDate(h.nextReview).Some?
    ensures fields != map[] && "Document Identifier" in fields && fields["Document Identifier"] == REGISTER_ID
    ensures Strip(REGISTER_ID) == REGISTER_ID
  {
    var pairs := ControlPairs(h, p);
    assert |pairs| == 14 && pairs[4] == ("Status", h.status) && pairs[7] == ("Classification", "Internal")
        && pairs[6] == ("Approver", h.approver) && pairs[9] == ("Next Review", h.nextReview)
        && pairs[1] == ("Document Identifier", REGISTER_ID);
    assert IsClassification("Internal");
    hide ControlPairs, AddPairs, NeatHeader, GoodProse, GoodPairs, DistinctKeys, Strip, Get, IsStatus,
      IsClassification, REGISTER_ID;
    PairsGood(h, p, pairs);
    PairsDistinct(h, p, pairs);
    FieldAt(fields, pairs, 4, "Status", h.status);
    FieldAt(fields, pairs, 7, "Classification", "Internal");
    FieldAt(fields, pairs, 6, "Approver", h.approver);
    FieldAt(fields, pairs, 9, "Next Review", h.nextReview);
    FieldAt(fields, pairs, 1, "Document Identifier", REGISTER_ID);
  }

  lemma {:induction false} HeaderDecides(o: Oracle, h: Header, p: Prose, fields: Fields, doc: Doc)
    requires NeatHeader(h) && GoodProse(p) && fields == AddPairs(map[], ControlPairs(h, p))
    requires RevisionHistory(doc.text) == Some(REVISION_COLUMNS)
    ensures FieldsFit(o, fields, doc) <==> HeaderFits(o, h)
  {
    assert !IsStatus("");
    hide RevisionHistory, ControlPairs, AddPairs, NeatHeader, GoodProse, REQUIRED_FIELDS, REVISION_COLUMNS, IsStatus,
         AllNamed, StatusFits, ClassificationFits, ApproverFits, ReviewFits, Strip;
    RequiredOfHeader(h, p, fields, REQUIRED_FIELDS);
    RestOfHeader(o, h, p, fields);
  }

  lemma {:induction false} IdentIsRead(fields: Fields, row: map<string, string>)
    requires "Document Identifier" in fields && fields["Document Identifier"] == REGISTER_ID
    requires Strip(REGISTER_ID) == REGISTER_ID
    ensures IdentOf(fields, row) == REGISTER_ID
  {
    hide Strip, REGISTER_ID;
  }

  /** The register itself: the check passes it exactly when the header fits. */
  lemma {:induction false} RegisterAgrees(
      o: Oracle, today: int, register: Register, h: Header, iso: string, p: Prose, entries: seq<Entry>, e: Entry, doc: Doc)
    requires GoodInput(h, iso, p) && AcceptsRegister(o) && doc == Doc(REGISTER, Print(h, iso, p, entries))
    requires Neat(e.compliance) && e.compliance == "Compliant"
    requires REGISTER in register && register[REGISTER] == RowOf(COLUMNS, e)
    ensures Passing(DocFindings(o, today, register, doc)) <==> HeaderFits(o, h)
  {
    var fields, row := AddPairs(map[], ControlPairs(h, p)), RowOf(COLUMNS, e);
    assert GoodInput(h, iso, p) ==> NeatHeader(h) && GoodProse(p);
    hide *;
    HeaderReadBack(h, iso, p, entries, doc.text);
    HistoryReadBack(h, iso, p, entries, doc.text);
    ThreeClaims();
    ClaimOf(e, row);
    RegisterLocation(o);
    HeaderDecides(o, h, p, fields, doc);
    RestOfHeader(o, h, p, fields);
    IdentIsRead(fields, row);
    PassingDoc(o, today, register, doc, row, "Compliant", fields);
  }

  // ---- all documents ----

  /** The check's register holds, for each document, the row the generator built for it. */
  ghost predicate RowsMatch(o: Oracle, day: int, docs: seq<Doc>, own: Entry, register: Register) {
    && REGISTER in register && register[REGISTER] == RowOf(COLUMNS, own)
    && forall i :: 0 <= i < |docs| && docs[i].path != REGISTER ==> DocRow(o, day, docs[i], register)
  }

  lemma {:induction false} RowFound(entries: seq<Entry>, e: Entry, register: Register)
    requires DistinctFiles(entries) && e in entries && register == RowsOf(COLUMNS, entries, map[])
    ensures e.file in register && register[e.file] == RowOf(COLUMNS, e)
  {
    var k :| 0 <= k < |entries| && entries[k] == e;
    hide *;
    RowsOfEntry(COLUMNS, entries, map[], k);
  }

  lemma {:induction false} FilesOfEntries(o: Oracle, day: int, doc: Doc, own: Fields)
    ensures EntryFor(o, day, doc).file == doc.path && OwnEntry(own).file == REGISTER
  {
    hide ContentProblems, ControlFields, TitleFrom, Stem, IdentFor, Strip;
  }

  lemma {:induction false} RowsForAt(o: Oracle, day: int, docs: seq<Doc>, entries: seq<Entry>, i: int)
    requires entries != [] && RowsFor(o, day, docs, entries[1..]) && 0 <= i < |docs| && docs[i].path != REGISTER
    ensures EntryFor(o, day, docs[i]) in entries
  {
    hide EntryFor, ForSome, REGISTER;
  }

  lemma {:induction false} RowsFound(
      o: Oracle, day: int, docs: seq<Doc>, own: Fields, entries: seq<Entry>, register: Register)
    requires GoodTree(docs) && NeatFields(own) && entries == Entries(o, day, docs, own)
    requires register == RowsOf(COLUMNS, entries, map[])
    ensures RowsMatch(o, day, docs, OwnEntry(own), register)
  {
    hide *;
    EntriesGood(o, day, docs, own, entries);
    FilesOfEntries(o, day, Doc("", ""), own);
    RowFound(entries, OwnEntry(own), register);
    forall i | 0 <= i < |docs| && docs[i].path != REGISTER ensures DocRow(o, day, docs[i], register) {
      RowsForAt(o, day, docs, entries, i);
      FilesOfEntries(o, day, docs[i], own);
      RowFound(entries, EntryFor(o, day, docs[i]), register);
      DocRowIntro(o, day, docs[i], register, EntryFor(o, day, docs[i]));
    }
    RowsMatchIntro(o, day, docs, OwnEntry(own), register);
  }

  /** The check's register holds the row the generator built for this document. */
  ghost predicate DocRow(o: Oracle, day: int, doc: Doc, register: Register) {
    doc.path in register && register[doc.path] == RowOf(COLUMNS, EntryFor(o, day, doc))
  }

  lemma {:induction false} DocRowIntro(o: Oracle, day: int, doc: Doc, register: Register, e: Entry)
    requires e == EntryFor(o, day, doc) && doc.path in register && register[doc.path] == RowOf(COLUMNS, e)
    ensures DocRow(o, day, doc, register)
  {
    hide EntryFor, RowOf;
  }

  lemma {:induction false} RowsMatchIntro(o: Oracle, day: int, docs: seq<Doc>, own: Entry, register: Register)
    requires REGISTER in register && register[REGISTER] == RowOf(COLUMNS, own)
    requires forall i :: 0 <= i < |docs| && docs[i].path != REGISTER ==> DocRow(o, day, docs[i], register)
    ensures RowsMatch(o, day, docs, own, register)
  {
    hide EntryFor, RowOf, REGISTER, DocRow;
  }

  lemma {:induction false} ListedFile(o: Oracle, day: int, docs: seq<Doc>, entries: seq<Entry>, path: string)
    requires entries != [] && entries[0].file == REGISTER && RowsFor(o, day, docs, entries[1..])
    requires Listed(entries, path)
    ensures path == REGISTER || path in PathSet(docs)
  {
    var k :| 0 <= k < |entries| && entries[k].file == path;
    hide EntryFor, REGISTER;
    if k > 0 {
      assert entries[k] == entries[1..][k - 1];
      assert ForSome(o, day, docs, entries[k]);
      var i :| 0 <= i < |docs| && docs[i].path != REGISTER && entries[k] == EntryFor(o, day, docs[i]);
      FilesOfEntries(o, day, docs[i], map[]);
      assert docs[i] in docs;
    }
  }

  /** No row names a file that is not there. */
  lemma {:induction false} RowsOnDisk(
      o: Oracle, day: int, docs: seq<Doc>, own: Fields, entries: seq<Entry>, register: Register, path: string)
    requires GoodTree(docs) && NeatFields(own) && entries == Entries(o, day, docs, own)
    requires register == RowsOf(COLUMNS, entries, map[]) && path in register
    ensures path == REGISTER || path in PathSet(docs)
  {
    hide *;
    EntriesGood(o, day, docs, own, entries);
    FilesOfEntries(o, day, Doc("", ""), own);
    if !Listed(entries, path) {
      RowsOfOthers(COLUMNS, entries, map[], path);
    }
    ListedFile(o, day, docs, entries, path);
  }

  lemma {:induction false} UnregisteredNone(register: Register, docs: seq<Doc>)
    requires forall i :: 0 <= i < |docs| ==> docs[i].path in register
    ensures Unregistered(register, docs) == []
  {
    if docs != [] {
      UnregisteredNone(register, docs[..|docs| - 1]);
    }
  }

  lemma {:induction false} MissingNone(listed: seq<string>, disk: set<string>)
    requires forall x :: x in listed ==> x in disk
    ensures Missing(listed, disk) == []
  {
    if listed != [] {
      assert forall x :: x in listed[..|listed| - 1] ==> x in listed;
      MissingNone(listed[..|listed| - 1], disk);
    }
  }

  ghost predicate DocPasses(o: Oracle, today: int, register: Register, doc: Doc) {
    Passing(DocFindings(o, today, register, doc))
  }

  ghost predicate DocsPass(o: Oracle, today: int, register: Register, docs: seq<Doc>) {
    forall i :: 0 <= i < |docs| ==> DocPasses(o, today, register, docs[i])
  }

  lemma {:induction false} DocsPassOneMore(o: Oracle, today: int, register: Register, docs: seq<Doc>, n: nat)
    requires |docs| == n + 1
    ensures DocsPass(o, today, register, docs) <==>
      DocsPass(o, today, register, docs[..n]) && DocPasses(o, today, register, docs[n])
  {
    hide DocPasses;
    assert forall i :: 0 <= i < n ==> docs[..n][i] == docs[i];
  }

  lemma {:induction false} PassingAll(o: Oracle, today: int, register: Register, docs: seq<Doc>)
    ensures Passing(AllDocFindings(o, today, register, docs)) <==> DocsPass(o, today, register, docs)
  {
    if docs != [] {
      var n := |docs| - 1;
      var before, last := AllDocFindings(o, today, register, docs[..n]), DocFindings(o, today, register, docs[n]);
      assert AllDocFindings(o, today, register, docs) == before + last;
      assert DocPasses(o, today, register, docs[n]) <==> Passing(last);
      hide *;
      PassingAll(o, today, register, docs[..n]);
      PassingAppend(before, last);
      DocsPassOneMore(o, today, register, docs, n);
    }
  }

  /** The documents that keep the register from passing. */
  ghost predicate NoGaps(o: Oracle, day: int, docs: seq<Doc>) {
    forall i :: 0 <= i < |docs| && docs[i].path != REGISTER ==> !IdentifierGap(o, day, docs[i])
  }

  lemma {:induction false} RowsAre(
      o: Oracle, day: int, docs: seq<Doc>, own: Entry, register: Register, i: int)
    requires GoodTree(docs) && RowsMatch(o, day, docs, own, register) && 0 <= i < |docs|
    ensures GoodPath(docs[i].path) && REGISTER in register && register[REGISTER] == RowOf(COLUMNS, own)
    ensures docs[i].path != REGISTER ==>
      docs[i].path in register && register[docs[i].path] == RowOf(COLUMNS, EntryFor(o, day, docs[i]))
  {
    assert docs[i].path != REGISTER ==> DocRow(o, day, docs[i], register);
    hide EntryFor, RowOf, GoodPath, REGISTER, COLUMNS;
  }

  lemma {:induction false} OwnClaim(own: Fields)
    ensures OwnEntry(own).compliance == "Compliant"
  {
    hide Strip, Get, Or, REGISTER, REGISTER_ID, DASH;
  }

  lemma {:induction false} DocPassesIs(o: Oracle, today: int, register: Register, doc: Doc)
    ensures DocPasses(o, today, register, doc) <==> Passing(DocFindings(o, today, register, doc))
  {
    hide Passing, DocFindings;
  }

  /** One document of the regenerated tree. */
  lemma {:induction false} DocAfter(
      o: Oracle, day: Day, today: int, docs: seq<Doc>, own: Fields, h: Header, p: Prose, entries: seq<Entry>,
      register: Register, text: string, i: int, doc: Doc)
    requires GoodTree(docs) && NeatFields(own) && GoodInput(h, day.iso, p) && AcceptsRegister(o)
    requires text == Print(h, day.iso, p, entries) && 0 <= i < |docs|
    requires RowsMatch(o, day.ordinal, docs, OwnEntry(own), register)
    requires doc == if docs[i].path == REGISTER then Doc(REGISTER, text) else docs[i]
    ensures docs[i].path == REGISTER ==> (DocPasses(o, today, register, doc) <==> HeaderFits(o, h))
    ensures docs[i].path != REGISTER ==>
      (DocPasses(o, today, register, doc) <==> !IdentifierGap(o, day.ordinal, docs[i]))
  {
    hide *;
    RowsAre(o, day.ordinal, docs, OwnEntry(own), register, i);
    DocPassesIs(o, today, register, doc);
    if docs[i].path == REGISTER {
      OwnClaim(own);
      OwnEntryNeat(own, OwnEntry(own));
      RegisterAgrees(o, today, register, h, day.iso, p, entries, OwnEntry(own), doc);
    } else {
      DocAgrees(o, day.ordinal, today, register, docs[i], EntryFor(o, day.ordinal, docs[i]));
    }
  }

  lemma {:induction false} DocsAgree(
      o: Oracle, day: Day, today: int, docs: seq<Doc>, own: Fields, h: Header, p: Prose, entries: seq<Entry>,
      register: Register, text: string)
    requires GoodTree(docs) && NeatFields(own) && GoodInput(h, day.iso, p) && AcceptsRegister(o)
    requires text == Print(h, day.iso, p, entries)
    requires RowsMatch(o, day.ordinal, docs, OwnEntry(own), register)
    ensures forall i :: 0 <= i < |docs| ==>
      (DocPasses(o, today, register, Rewritten(docs, text)[i]) <==>
        if docs[i].path == REGISTER then HeaderFits(o, h) else !IdentifierGap(o, day.ordinal, docs[i]))
  {
    hide *;
    var docs' := Rewritten(docs, text);
    forall i | 0 <= i < |docs|
      ensures DocPasses(o, today, register, docs'[i]) <==>
        if docs[i].path == REGISTER then HeaderFits(o, h) else !IdentifierGap(o, day.ordinal, docs[i])
    {
      DocAfter(o, day, today, docs, own, h, p, entries, register, text, i, docs'[i]);
    }
  }

  lemma {:induction false} FindingsAre(
      o: Oracle, today: int, disk: set<string>, docs: seq<Doc>, text: string, register: Register)
    requires register == RegisterRows(text)
    requires (forall i :: 0 <= i < |docs| ==> docs[i].path in register) && register.Keys <= disk
    ensures Findings(o, today, disk, docs, text) == AllDocFindings(o, today, register, docs)
  {
    UnregisteredNone(register, docs);
    MissingNone(Sorted(register.Keys), disk);
    hide AllDocFindings, Unregistered, Missing, Sorted, RegisterRows;
  }

  lemma {:induction false} GeneratedIs(o: Oracle, p: Prose, day: Day, docs: seq<Doc>, previous: string, own: Fields)
    requires own == ControlFields(previous)
    ensures Generated(o, p, day, docs, previous)
         == Print(HeaderOf(own, day), day.iso, p, Entries(o, day.ordinal, docs, own))
  {
    hide ControlFields, Print, Entries, HeaderOf;
  }

  lemma {:induction false} KeptIsGood(previous: string, day: Day, p: Prose, own: Fields)
    requires GoodDay(day) && GoodProse(p) && own == ControlFields(previous)
    ensures NeatFields(own) && GoodInput(HeaderOf(own, day), day.iso, p)
  {
    assert Neat(day.iso);
    hide Neat, NeatHeader, GoodProse, HeaderOf, ControlFields, NeatFields, GoodDay;
    ControlFieldsNeat(previous);
    HeaderNeat(own, day);
  }

  lemma {:induction false} DecidedByDocs(
      o: Oracle, day: int, today: int, docs: seq<Doc>, h: Header, register: Register, docs': seq<Doc>)
    requires |docs'| == |docs| && REGISTER in PathSet(docs)
    requires forall i :: 0 <= i < |docs| ==>
      (DocPasses(o, today, register, docs'[i]) <==>
        if docs[i].path == REGISTER then HeaderFits(o, h) else !IdentifierGap(o, day, docs[i]))
    ensures DocsPass(o, today, register, docs') <==> HeaderFits(o, h) && NoGaps(o, day, docs)
  {
    hide DocPasses, HeaderFits, IdentifierGap, REGISTER;
    var d :| d in docs && d.path == REGISTER;
    var k :| 0 <= k < |docs| && docs[k] == d;
    assert DocPasses(o, today, register, docs'[k]) <==> HeaderFits(o, h);
  }

  lemma {:induction false} AllListed(
      o: Oracle, day: int, docs: seq<Doc>, own: Entry, docs': seq<Doc>, text: string, register: Register)
    requires RowsMatch(o, day, docs, own, register) && docs' == Rewritten(docs, text)
    ensures forall i :: 0 <= i < |docs'| ==> docs'[i].path in register
  {
    hide EntryFor, RowOf, REGISTER;
    forall i | 0 <= i < |docs'| ensures docs'[i].path in register {
      assert docs'[i].path == docs[i].path;
      assert docs[i].path == REGISTER || DocRow(o, day, docs[i], register);
    }
  }

  /** The register rules C-01 and C-02 find nothing, so the findings are those of the documents. */
  lemma {:induction false} OnlyContentFindings(
      o: Oracle, p: Prose, day: Day, docs: seq<Doc>, own: Fields, h: Header, entries: seq<Entry>,
      today: int, disk: set<string>, text: string, register: Register)
    requires GoodTree(docs) && NeatFields(own) && GoodInput(h, day.iso, p)
    requires REGISTER in PathSet(docs) && PathSet(docs) <= disk
    requires entries == Entries(o, day.ordinal, docs, own) && text == Print(h, day.iso, p, entries)
    requires register == RowsOf(COLUMNS, entries, map[])
    ensures Findings(o, today, disk, Rewritten(docs, text), text)
         == AllDocFindings(o, today, register, Rewritten(docs, text))
  {
    hide *;
    EntriesGood(o, day.ordinal, docs, own, entries);
    RowsReadBack(h, day.iso, p, entries, text);
    RowsFound(o, day.ordinal, docs, own, entries, register);
    AllListed(o, day.ordinal, docs, OwnEntry(own), Rewritten(docs, text), text, register);
    forall path | path in register ensures path in disk {
      RowsOnDisk(o, day.ordinal, docs, own, entries, register, path);
    }
    FindingsAre(o, today, disk, Rewritten(docs, text), text, register);
  }

  /** After a regeneration the check fails nothing but rule C-10, whatever day it runs, exactly
      when the register's kept header fits the field rules and no document leaves an identifier gap. */
  lemma {:induction false} RegenerationPasses(
      o: Oracle, p: Prose, day: Day, docs: seq<Doc>, previous: string, today: int, disk: set<string>, text: string)
    requires GoodTree(docs) && GoodProse(p) && GoodDay(day) && AcceptsRegister(o)
    requires REGISTER in PathSet(docs) && PathSet(docs) <= disk
    requires text == Generated(o, p, day, docs, previous)
    ensures Passing(Findings(o, today, disk, Rewritten(docs, text), text)) <==>
      HeaderFits(o, HeaderOf(ControlFields(previous), day)) && NoGaps(o, day.ordinal, docs)
  {
    hide *;
    var own := ControlFields(previous);
    var h, entries := HeaderOf(own, day), Entries(o, day.ordinal, docs, own);
    var register, docs' := RowsOf(COLUMNS, entries, map[]), Rewritten(docs, text);
    GeneratedIs(o, p, day, docs, previous, own);
    KeptIsGood(previous, day, p, own);
    OnlyContentFindings(o, p, day, docs, own, h, entries, today, disk, text, register);
    RowsFound(o, day.ordinal, docs, own, entries, register);
    DocsAgree(o, day, today, docs, own, h, p, entries, register, text);
    PassingAll(o, today, register, docs');
    DecidedByDocs(o, day.ordinal, today, docs, h, register, docs');
  }
}
