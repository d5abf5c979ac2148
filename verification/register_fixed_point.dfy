/** What a reader of the register may rely on: the parsed rows are the generated rows, and
    regenerating on the same day settles. */
module RegisterFixedPoint {
  import opened Text
  import opened DocRules
  import opened GenRegister
  import opened CheckDocs
  import opened RegisterPrint
  import opened RegisterRoundTrip
  import opened RegisterPreamble
  import opened RegisterReadBack
  import opened RegisterRowsBack
  import opened RegisterEntries
  import opened RegisterAgreement
  import opened RegisterTheorems

  // ---- where the two scripts can differ ----

  /** A document that names no identifier still counts as Compliant only at `docs/README.md`,
      whose identifier the generator makes up, and at a file called `—.md`. */
  lemma {:induction false} GapPlaces(o: Oracle, today: int, doc: Doc, fields: Fields)
    requires fields == ControlFields(doc.text) && Blank(fields, "Document Identifier")
    requires doc.path != REGISTER && !IsAnnex(doc.path)
    requires ContentProblems(o, today, doc, fields, IdentFor(doc.path, fields)) == []
    ensures doc.path == INDEX || Stem(doc.path) == DASH
  {
    hide ControlFields, IdFits, Stem, INDEX, REGISTER, DASH, Blank, IsAnnex, Faultless, ContentProblems, IdentFor;
    GapExactly(o, today, doc, fields, IdentFor(doc.path, fields));
  }

  /** Every document other than an annex names its own identifier. */
  predicate IdentifiersNamed(docs: seq<Doc>) {
    forall i :: 0 <= i < |docs| && docs[i].path != REGISTER && !IsAnnex(docs[i].path) ==>
      !Blank(ControlFields(docs[i].text), "Document Identifier")
  }

  lemma {:induction false} NamedLeavesNoGaps(o: Oracle, today: int, docs: seq<Doc>)
    requires IdentifiersNamed(docs)
    ensures NoGaps(o, today, docs)
  {
    hide ControlFields, Blank, IsAnnex, GapPlace, Faultless, REGISTER;
  }

  /** With identifiers named and a well-formed header kept, the check never fails after a regeneration. */
  lemma {:induction false} RegenerationNeverFails(
      o: Oracle, p: Prose, day: Day, docs: seq<Doc>, previous: string, today: int, disk: set<string>, text: string)
    requires GoodTree(docs) && GoodProse(p) && GoodDay(day) && AcceptsRegister(o)
    requires REGISTER in PathSet(docs) && PathSet(docs) <= disk
    requires IdentifiersNamed(docs) && HeaderFits(o, HeaderOf(ControlFields(previous), day))
    requires text == Generated(o, p, day, docs, previous)
    ensures Passing(Findings(o, today, disk, Rewritten(docs, text), text))
  {
    hide *;
    NamedLeavesNoGaps(o, day.ordinal, docs);
    RegenerationPasses(o, p, day, docs, previous, today, disk, text);
  }

  // ---- the parsed rows ----

  lemma {:induction false} TrimStartEnds(s: string, t: string)
    requires t == TrimStart(White, s) && t != ""
    ensures !White.Drops(t[0]) && s != "" && t[|t| - 1] == s[|s| - 1]
  {}

  lemma {:induction false} SuffixEnd(h: string, m: string)
    requires |m| <= |h| && m == h[|h| - |m|..] && m != ""
    ensures m[|m| - 1] == h[|h| - 1]
  {}

  lemma {:induction false} DropMarksEnds(h: string, t: string)
    requires Trimmed(White, h) && t == DropLeadingMarks(h)
    ensures Trimmed(White, t)
  {
    if h != "" && Mark(h[0]) && t != "" {
      var m := DropMarks(h);
      assert t == TrimStart(White, m) && !White.Drops(h[|h| - 1]);
      hide *;
      TrimStartEnds(m, t);
      SuffixEnd(h, m);
      TrimmedIntro(t);
    }
  }

  lemma {:induction false} TrimmedIntro(t: string)
    requires t != "" && !White.Drops(t[0]) && !White.Drops(t[|t| - 1])
    ensures Trimmed(White, t)
  {}

  lemma {:induction false} TitleTrimmed(text: string, fallback: string, title: string)
    requires Trimmed(White, fallback) && title == TitleFrom(text, fallback)
    ensures Trimmed(White, title)
  {
    var t := Strip(Get(ControlFields(text), "Document Title", ""));
    assert t == Trim(White, Get(ControlFields(text), "Document Title", ""));
    TrimIsTrimmed(White, Get(ControlFields(text), "Document Title", ""), t);
    var h := FirstHeading(SplitLines(text));
    var e := Strip(DropIdentifier(h));
    assert e == Trim(White, DropIdentifier(h));
    TrimIsTrimmed(White, DropIdentifier(h), e);
    DropMarksEnds(e, DropLeadingMarks(e));
    hide Strip, Trim, ControlFields, FirstHeading, DropIdentifier, DropLeadingMarks, Trimmed, SplitLines;
  }

  lemma {:induction false} SlashedNeat(title: string, t: string)
    requires OneLine(title) && Trimmed(White, title) && t == Slashed(title)
    ensures Neat(t)
  {
    assert !IsSpace('/');
    hide Slashed;
  }

  /** The file name carries no white space at its ends. */
  predicate TidyName(path: string) { Trimmed(White, Stem(path)) }

  lemma {:induction false} AnnexIdent(o: Oracle, today: int, doc: Doc, e: Entry)
    requires GoodPath(doc.path) && TidyName(doc.path) && IsAnnex(doc.path) && e == EntryFor(o, today, doc)
    ensures Neat(e.ident)
  {
    var stem := Stem(doc.path);
    assert e.ident == stem && Trimmed(White, stem);
    StemPlain(doc.path, stem);
    hide Stem, GoodPath, EntryFor, OneLine, IsAnnex;
  }

  lemma {:induction false} TitleIs(o: Oracle, today: int, doc: Doc)
    ensures EntryFor(o, today, doc).title == TitleFrom(doc.text, Stem(doc.path))
  {
    hide TitleFrom, Stem, ContentProblems, ControlFields, IdentFor, Strip;
  }

  lemma {:induction false} CellsAreNeat(e: Entry, cells: seq<string>, title: string)
    requires cells == EntryCells(e) && title == Slashed(e.title) && Neat(title) && Neat(e.ident) && Neat(e.file)
    requires Neat(e.version) && Neat(e.status) && Neat(e.approver) && Neat(e.nextReview) && Neat(e.compliance)
    ensures NeatCells(cells)
  {
    hide Slashed, Neat;
  }

  lemma {:induction false} EntryCellsNeat(o: Oracle, today: int, doc: Doc, e: Entry, cells: seq<string>)
    requires GoodPath(doc.path) && TidyName(doc.path) && e == EntryFor(o, today, doc) && cells == EntryCells(e)
    ensures NeatCells(cells)
  {
    assert Trimmed(White, Stem(doc.path));
    hide *;
    EntryForNeat(o, today, doc, e);
    if IsAnnex(doc.path) { AnnexIdent(o, today, doc, e); }
    TitleIs(o, today, doc);
    TitleTrimmed(doc.text, Stem(doc.path), e.title);
    SlashedNeat(e.title, Slashed(e.title));
    PathNeat(doc.path);
    CellsAreNeat(e, cells, Slashed(e.title));
  }

  lemma {:induction false} PathNeat(path: string)
    requires GoodPath(path)
    ensures Neat(path)
  {
    var last3 := path[|path| - 3..];
    assert path[|path| - 1] == last3[2];
    assert path[0] == "docs/"[0];
  }

  /** The register holds this document's generated cells, stripped; they are the printed ones but for an annex
      whose file name, and with it its identifier, ends in white space. */
  ghost predicate HoldsRow(o: Oracle, today: int, doc: Doc, register: Register) {
    var cells := EntryCells(EntryFor(o, today, doc));
    && doc.path in register && register[doc.path] == Zip(COLUMNS, StripAll(cells))
    && (TidyName(doc.path) ==> register[doc.path] == Zip(COLUMNS, cells))
  }

  lemma {:induction false} HoldsRowIntro(
      o: Oracle, today: int, doc: Doc, register: Register, e: Entry, cells: seq<string>)
    requires e == EntryFor(o, today, doc) && cells == EntryCells(e) && DocRow(o, today, doc, register)
    requires TidyName(doc.path) ==> StripAll(cells) == cells
    ensures HoldsRow(o, today, doc, register)
  {
    assert register[doc.path] == RowOf(COLUMNS, e) == Zip(COLUMNS, StripAll(cells));
    hide EntryFor, EntryCells, StripAll, Zip, TidyName, COLUMNS;
  }

  /** The register's own row, which the old register's fields decide. */
  predicate HoldsOwnRow(own: Fields, register: Register) {
    REGISTER in register && register[REGISTER] == Zip(COLUMNS, EntryCells(OwnEntry(own)))
  }

  lemma {:induction false} NeatIsLine(s: string)
    requires Neat(s)
    ensures OneLine(s) && Trimmed(White, s)
  {
    assert forall i :: 0 <= i < |s| ==> s[i] in s;
    hide IsSpace, IsLineBreak;
  }

  lemma {:induction false} OwnCellsNeat(own: Fields, e: Entry, cells: seq<string>)
    requires NeatFields(own) && e == OwnEntry(own) && cells == EntryCells(e)
    ensures NeatCells(cells)
  {
    hide *;
    OwnEntryNeat(own, e);
    ValueTitle();
    NeatIsLine(e.title);
    SlashedNeat(e.title, Slashed(e.title));
    RegisterPathGood();
    PathNeat(REGISTER);
    CellsAreNeat(e, cells, Slashed(e.title));
  }

  lemma {:induction false} OwnRowHolds(own: Fields, e: Entry, register: Register)
    requires NeatFields(own) && e == OwnEntry(own)
    requires REGISTER in register && register[REGISTER] == RowOf(COLUMNS, e)
    ensures HoldsOwnRow(own, register)
  {
    var cells := EntryCells(e);
    assert RowOf(COLUMNS, e) == Zip(COLUMNS, StripAll(cells));
    hide Zip, StripAll, EntryCells, OwnEntry, REGISTER, COLUMNS, NeatFields, NeatCells;
    OwnCellsNeat(own, e, cells);
    StripAllNeat(cells);
  }

  lemma {:induction false} RowsMatchHolds(
      o: Oracle, today: int, docs: seq<Doc>, own: Fields, register: Register)
    requires GoodTree(docs) && RowsMatch(o, today, docs, OwnEntry(own), register)
    ensures forall i :: 0 <= i < |docs| && docs[i].path != REGISTER ==> HoldsRow(o, today, docs[i], register)
  {
    forall i | 0 <= i < |docs| && docs[i].path != REGISTER ensures HoldsRow(o, today, docs[i], register) {
      var doc := docs[i];
      assert GoodPath(doc.path) && DocRow(o, today, doc, register);
      hide *;
      var e := EntryFor(o, today, doc);
      if TidyName(doc.path) {
        EntryCellsNeat(o, today, doc, e, EntryCells(e));
        StripAllNeat(EntryCells(e));
      }
      HoldsRowIntro(o, today, doc, register, e, EntryCells(e));
    }
  }

  /** Parsing the printed register: one row per file of the tree and one for the register itself, holding the
      generated cells (a title's bars turned into slashes), and no other row. */
  lemma {:induction false} ParsedRowsAreGenerated(
      o: Oracle, p: Prose, day: Day, docs: seq<Doc>, previous: string, text: string, register: Register)
    requires GoodTree(docs) && GoodProse(p) && GoodDay(day)
    requires text == Generated(o, p, day, docs, previous) && register == RegisterRows(text)
    ensures register.Keys == PathSet(docs) + {REGISTER}
    ensures HoldsOwnRow(ControlFields(previous), register)
    ensures forall i :: 0 <= i < |docs| && docs[i].path != REGISTER ==> HoldsRow(o, day.ordinal, docs[i], register)
  {
    hide *;
    var own := ControlFields(previous);
    var h, entries := HeaderOf(own, day), Entries(o, day.ordinal, docs, own);
    GeneratedIs(o, p, day, docs, previous, own);
    KeptIsGood(previous, day, p, own);
    EntriesGood(o, day.ordinal, docs, own, entries);
    RowsReadBack(h, day.iso, p, entries, text);
    RowsFound(o, day.ordinal, docs, own, entries, register);
    RowsMatchHolds(o, day.ordinal, docs, own, register);
    forall path | path in register ensures path in PathSet(docs) + {REGISTER} {
      RowsOnDisk(o, day.ordinal, docs, own, entries, register, path);
    }
    RowsMatchKeys(o, day.ordinal, docs, OwnEntry(own), register);
    OwnRowHolds(own, OwnEntry(own), register);
  }

  lemma {:induction false} RowsMatchKeys(
      o: Oracle, today: int, docs: seq<Doc>, own: Entry, register: Register)
    requires RowsMatch(o, today, docs, own, register)
    ensures REGISTER in register && register[REGISTER] == RowOf(COLUMNS, own)
    ensures PathSet(docs) <= register.Keys
  {
    forall path | path in PathSet(docs) ensures path in register {
      var i :| 0 <= i < |docs| && docs[i].path == path;
      assert docs[i].path == REGISTER || DocRow(o, today, docs[i], register);
    }
    hide EntryFor, RowOf, REGISTER, COLUMNS, PathSet, DocRow;
  }

  // ---- regenerating twice ----

  lemma {:induction false} DocEntriesUnchanged(o: Oracle, today: int, docs: seq<Doc>, text: string)
    ensures DocEntries(o, today, Rewritten(docs, text)) == DocEntries(o, today, docs)
  {
    if docs != [] {
      var n := |docs| - 1;
      assert Rewritten(docs, text)[..n] == Rewritten(docs[..n], text);
      DocEntriesUnchanged(o, today, docs[..n], text);
      hide EntryFor;
    }
  }

  lemma {:induction false} EntriesUnchanged(o: Oracle, today: int, docs: seq<Doc>, text: string, own: Fields)
    ensures Entries(o, today, Rewritten(docs, text), own) == [OwnEntry(own)] + Entries(o, today, docs, own)[1..]
  {
    DocEntriesUnchanged(o, today, docs, text);
    hide DocEntries, SortByFile, OwnEntry, Rewritten;
  }

  /** The fields a regeneration finds in the text it wrote itself. */
  lemma {:induction false} KeptAgain(h: Header, p: Prose, day: Day, own: Fields)
    requires NeatHeader(h) && GoodProse(p) && own == AddPairs(map[], ControlPairs(h, p))
    ensures HeaderOf(own, day) == h
    ensures OwnEntry(own) ==
      Entry(REGISTER_ID, REGISTER, "Document Register", Or(h.version, "1.0.0"), Or(h.status, "Draft"),
            Or(h.approver, DASH), Or(h.nextReview, "MISSING"), "Compliant", [])
  {
    var pairs := ControlPairs(h, p);
    assert |pairs| == 14 && pairs[1] == ("Document Identifier", REGISTER_ID) && pairs[2] == ("Version", h.version)
        && pairs[3] == ("Date", h.date) && pairs[4] == ("Status", h.status) && pairs[6] == ("Approver", h.approver)
        && pairs[9] == ("Next Review", h.nextReview);
    hide ControlPairs, AddPairs, NeatHeader, GoodProse, GoodPairs, DistinctKeys, Strip, Get, REGISTER_ID, REGISTER, DASH, Or;
    PairsGood(h, p, pairs);
    PairsDistinct(h, p, pairs);
    FieldAt(own, pairs, 1, "Document Identifier", REGISTER_ID);
    FieldAt(own, pairs, 2, "Version", h.version);
    FieldAt(own, pairs, 3, "Date", h.date);
    FieldAt(own, pairs, 4, "Status", h.status);
    FieldAt(own, pairs, 6, "Approver", h.approver);
    FieldAt(own, pairs, 9, "Next Review", h.nextReview);
  }

  /** The previous text already carried what a regeneration otherwise fills in differently
      in the header and in the register's own row. */
  predicate Settled(own: Fields) {
    "Version" in own && "Next Review" in own && Strip(Get(own, "Document Identifier", REGISTER_ID)) == REGISTER_ID
  }

  /** A review date that is neither empty nor the word the register prints for a missing one. */
  predicate RealReview(day: Day) { day.review != "" && day.review != "MISSING" }

  /** A field settles when it was there before, or when header and row agree on its default. */
  lemma {:induction false} FieldSettles(own: Fields, name: string, inHeader: string, inRow: string)
    requires Neat(inHeader) && inHeader != ""
    ensures Or(Kept(own, name, inHeader), inRow) == Or(Strip(Get(own, name, "")), inRow)
      <==> name in own || inHeader == inRow
  {
    assert Trimmed(White, inHeader);
    assert Strip(inHeader) == Trim(White, inHeader);
    TrimTrimmed(White, inHeader);
    assert Strip("") == "";
    hide Strip, Trim, Trimmed;
  }

  lemma {:induction false} EntriesEqual(own: Fields, h: Header)
    ensures (OwnEntry(own) ==
             Entry(REGISTER_ID, REGISTER, "Document Register", Or(h.version, "1.0.0"), Or(h.status, "Draft"),
                   Or(h.approver, DASH), Or(h.nextReview, "MISSING"), "Compliant", []))
        <==> (Strip(Get(own, "Document Identifier", REGISTER_ID)) == REGISTER_ID
              && Or(h.version, "1.0.0") == Or(Strip(Get(own, "Version", "")), "1.0.0")
              && Or(h.status, "Draft") == Or(Strip(Get(own, "Status", "")), "Draft")
              && Or(h.approver, DASH) == Or(Strip(Get(own, "Approver", "")), DASH)
              && Or(h.nextReview, "MISSING") == Or(Strip(Get(own, "Next Review", "")), "MISSING"))
  {
    hide Strip, Get, Or, DASH, REGISTER, REGISTER_ID;
  }

  lemma {:induction false} HeaderIs(own: Fields, day: Day, h: Header)
    requires h == HeaderOf(own, day)
    ensures h.version == Kept(own, "Version", "1.0.1") && h.status == Kept(own, "Status", "Draft")
    ensures h.approver == Kept(own, "Approver", DASH) && h.nextReview == Kept(own, "Next Review", day.review)
  {
    hide Kept, DASH;
  }

  lemma {:induction false} DefaultsDiffer()
    ensures "1.0.1" != "1.0.0" && "1.0.1" != "" && "Draft" != "" && DASH != ""
  {
    assert "1.0.1"[4] == '1' && "1.0.0"[4] == '0';
  }

  lemma {:induction false} OwnEntrySettles(own: Fields, own': Fields, day: Day, p: Prose, h: Header)
    requires NeatFields(own) && GoodDay(day) && GoodProse(p) && RealReview(day)
    requires h == HeaderOf(own, day) && own' == AddPairs(map[], ControlPairs(h, p))
    ensures OwnEntry(own') == OwnEntry(own) <==> Settled(own)
  {
    assert Neat(day.review) && day.review != "" && day.review != "MISSING";
    assert Settled(own) <==>
      "Version" in own && "Next Review" in own && Strip(Get(own, "Document Identifier", REGISTER_ID)) == REGISTER_ID;
    hide *;
    HeaderNeat(own, day);
    KeptAgain(h, p, day, own');
    EntriesEqual(own, h);
    HeaderIs(own, day, h);
    NeatLiterals();
    DefaultsDiffer();
    FieldSettles(own, "Version", "1.0.1", "1.0.0");
    FieldSettles(own, "Status", "Draft", "Draft");
    FieldSettles(own, "Approver", DASH, DASH);
    FieldSettles(own, "Next Review", day.review, "MISSING");
  }

  /** A different row of the register shows in the printed text. */
  lemma {:induction false} OwnRowShows(
      h: Header, iso: string, p: Prose, a: seq<Entry>, b: seq<Entry>, text: string)
    requires GoodInput(h, iso, p) && GoodEntries(a) && GoodEntries(b) && DistinctFiles(a) && DistinctFiles(b)
    requires a != [] && b != [] && a[0].file == b[0].file
    requires text == Print(h, iso, p, a) && text == Print(h, iso, p, b)
    ensures RowOf(COLUMNS, a[0]) == RowOf(COLUMNS, b[0])
  {
    hide *;
    RowsReadBack(h, iso, p, a, text);
    RowsReadBack(h, iso, p, b, text);
    RowsOfEntry(COLUMNS, a, map[], 0);
    RowsOfEntry(COLUMNS, b, map[], 0);
  }

  lemma {:induction false} CellsOfEntry(e: Entry)
    ensures EntryCells(e)[0] == e.ident && EntryCells(e)[3] == e.version && EntryCells(e)[4] == e.status
    ensures EntryCells(e)[5] == e.approver && EntryCells(e)[6] == e.nextReview
  {
    hide Slashed;
  }

  lemma {:induction false} NeatStays(s: string)
    requires Neat(s)
    ensures Strip(s) == s
  {
    assert Trimmed(White, s);
    TrimTrimmed(White, s);
    assert Strip(s) == Trim(White, s);
    hide Trim, Strip, Neat;
  }

  lemma {:induction false} SameRowSameEntry(own: Fields, own': Fields, a: Entry, b: Entry)
    requires NeatFields(own) && NeatFields(own') && a == OwnEntry(own) && b == OwnEntry(own')
    requires RowOf(COLUMNS, a) == RowOf(COLUMNS, b)
    ensures a == b
  {
    hide *;
    OwnEntryNeat(own, a);
    OwnEntryNeat(own', b);
    ColumnsAreHeader(COLUMNS);
    CellsOfEntry(a);
    CellsOfEntry(b);
    RowAt(COLUMNS, a, 0); RowAt(COLUMNS, b, 0);
    RowAt(COLUMNS, a, 3); RowAt(COLUMNS, b, 3);
    RowAt(COLUMNS, a, 4); RowAt(COLUMNS, b, 4);
    RowAt(COLUMNS, a, 5); RowAt(COLUMNS, b, 5);
    RowAt(COLUMNS, a, 6); RowAt(COLUMNS, b, 6);
    NeatStays(a.ident); NeatStays(b.ident);
    NeatStays(a.version); NeatStays(b.version);
    NeatStays(a.status); NeatStays(b.status);
    NeatStays(a.approver); NeatStays(b.approver);
    NeatStays(a.nextReview); NeatStays(b.nextReview);
    OwnEntryRest(own, own');
  }

  lemma {:induction false} OwnEntryRest(own: Fields, own': Fields)
    ensures var a, b := OwnEntry(own), OwnEntry(own');
      (a.ident == b.ident && a.version == b.version && a.status == b.status && a.approver == b.approver
       && a.nextReview == b.nextReview) ==> a == b
  {
    hide Strip, Get, Or, DASH, REGISTER, REGISTER_ID;
  }

  lemma {:induction false} RewrittenTree(docs: seq<Doc>, text: string)
    requires GoodTree(docs)
    ensures GoodTree(Rewritten(docs, text))
  {
    var r := Rewritten(docs, text);
    assert forall i :: 0 <= i < |r| ==> r[i].path == docs[i].path;
    hide GoodPath, Rewritten;
  }

  lemma {:induction false} EntriesSplit(o: Oracle, today: int, docs: seq<Doc>, own: Fields)
    ensures Entries(o, today, docs, own) == [OwnEntry(own)] + Entries(o, today, docs, own)[1..]
  {
    hide OwnEntry, DocEntries, SortByFile;
  }

  /** Regenerating on the same day is a fixed point exactly when the previous text carried a version,
      a next review, and the register's identifier (or no identifier at all). */
  lemma {:induction false} RegenerationIsFixedPoint(
      o: Oracle, p: Prose, day: Day, docs: seq<Doc>, previous: string, text: string)
    requires GoodTree(docs) && GoodProse(p) && GoodDay(day) && RealReview(day)
    requires text == Generated(o, p, day, docs, previous)
    ensures Generated(o, p, day, Rewritten(docs, text), text) == text <==> Settled(ControlFields(previous))
  {
    hide *;
    var own := ControlFields(previous);
    var h := HeaderOf(own, day);
    var own' := AddPairs(map[], ControlPairs(h, p));
    var a, b := Entries(o, day.ordinal, docs, own), Entries(o, day.ordinal, Rewritten(docs, text), own');
    GeneratedIs(o, p, day, docs, previous, own);
    KeptIsGood(previous, day, p, own);
    HeaderReadBack(h, day.iso, p, a, text);
    GeneratedIs(o, p, day, Rewritten(docs, text), text, own');
    HeaderNeat(own, day);
    KeptAgain(h, p, day, own');
    EntriesUnchanged(o, day.ordinal, docs, text, own');
    SameTail(o, day.ordinal, docs, own, own');
    EntriesSplit(o, day.ordinal, docs, own);
    OwnEntrySettles(own, own', day, p, h);
    if Generated(o, p, day, Rewritten(docs, text), text) == text {
      ControlFieldsNeat(text);
      RewrittenTree(docs, text);
      EntriesGood(o, day.ordinal, docs, own, a);
      EntriesGood(o, day.ordinal, Rewritten(docs, text), own', b);
      FilesOfEntries(o, day.ordinal, Doc("", ""), own);
      FilesOfEntries(o, day.ordinal, Doc("", ""), own');
      OwnRowShows(h, day.iso, p, a, b, text);
      SameRowSameEntry(own, own', OwnEntry(own), OwnEntry(own'));
    }
  }

  lemma {:induction false} SameTail(o: Oracle, today: int, docs: seq<Doc>, own: Fields, own': Fields)
    ensures Entries(o, today, docs, own)[1..] == Entries(o, today, docs, own')[1..]
  {
    hide OwnEntry, DocEntries, SortByFile;
  }

  lemma {:induction false} ReadBackSettles(h: Header, p: Prose, own: Fields)
    requires NeatHeader(h) && GoodProse(p) && own == AddPairs(map[], ControlPairs(h, p))
    ensures Settled(own)
  {
    var pairs := ControlPairs(h, p);
    assert |pairs| == 14 && pairs[1] == ("Document Identifier", REGISTER_ID) && pairs[2] == ("Version", h.version)
        && pairs[9] == ("Next Review", h.nextReview);
    hide ControlPairs, AddPairs, NeatHeader, GoodProse, GoodPairs, DistinctKeys, Strip, Get, REGISTER_ID;
    PairsGood(h, p, pairs);
    PairsDistinct(h, p, pairs);
    FieldAt(own, pairs, 1, "Document Identifier", REGISTER_ID);
    FieldAt(own, pairs, 2, "Version", h.version);
    FieldAt(own, pairs, 9, "Next Review", h.nextReview);
  }

  /** Whatever the register held before, the second regeneration of a day already settles. */
  lemma {:induction false} SecondRegenerationSettles(
      o: Oracle, p: Prose, day: Day, docs: seq<Doc>, previous: string, once: string, twice: string)
    requires GoodTree(docs) && GoodProse(p) && GoodDay(day) && RealReview(day)
    requires once == Generated(o, p, day, docs, previous)
    requires twice == Generated(o, p, day, Rewritten(docs, once), once)
    ensures Generated(o, p, day, Rewritten(Rewritten(docs, once), twice), twice) == twice
  {
    hide *;
    var own := ControlFields(previous);
    var h := HeaderOf(own, day);
    GeneratedIs(o, p, day, docs, previous, own);
    KeptIsGood(previous, day, p, own);
    HeaderReadBack(h, day.iso, p, Entries(o, day.ordinal, docs, own), once);
    HeaderNeat(own, day);
    ReadBackSettles(h, p, ControlFields(once));
    RewrittenTree(docs, once);
    RegenerationIsFixedPoint(o, p, day, Rewritten(docs, once), once, twice);
  }
}
