/** What `scripts/check_docs.py` exits with after `scripts/gen_register.py` has rewritten the
    register, rule C-10 and strict mode included. */
module RegisterVerdict {
  import opened Text
  import opened DocRules
  import opened GenRegister
  import opened CheckDocs
  import opened RegisterPrint
  import opened RegisterRoundTrip
  import opened RegisterPreamble
  import opened RegisterReadBack
  import opened RegisterRowsBack
  import opened RegisterEntries
  import opened RegisterAgreement
  import opened RegisterTheorems

  // ---- rule C-10 ----

  /** The manual lists only identifiers that documents have, and every identifier of the ISO series it leaves out
      is one whose first document is not claimed to be Compliant. */
  predicate ManualFits(o: Oracle, manual: set<string>, seen: seq<Seen>) {
    && manual <= Idents(seen)
    && forall ident :: ident in Idents(seen) && o.isoSeries(ident) && ident !in manual ==>
         FirstClaim(seen, ident) != Some("Compliant")
  }

  lemma {:induction false} ManualOnlyPasses(idents: seq<string>)
    ensures Passing(ManualOnly(idents)) <==> idents == []
  {
    if idents != [] { assert ManualOnly(idents)[0].Failing(); }
  }

  lemma {:induction false} DocumentsOnlyPasses(idents: seq<string>, seen: seq<Seen>)
    ensures Passing(DocumentsOnly(idents, seen)) <==>
      forall ident :: ident in idents ==> FirstClaim(seen, ident) != Some("Compliant")
  {
    var fs := DocumentsOnly(idents, seen);
    ThreeClaims();
    hide FirstClaim, REGISTER;
    assert forall i :: 0 <= i < |idents| ==> (fs[i].Failing() <==> FirstClaim(seen, idents[i]) == Some("Compliant"));
    if Passing(fs) {
      forall ident | ident in idents ensures FirstClaim(seen, ident) != Some("Compliant") {
        var i :| 0 <= i < |idents| && idents[i] == ident;
        assert !fs[i].Failing();
      }
    } else {
      var i :| 0 <= i < |fs| && fs[i].Failing();
      assert idents[i] in idents;
    }
  }

  lemma {:induction false} NoneMissing(a: set<string>, b: set<string>)
    ensures a - b == {} <==> a <= b
  {
    if a - b == {} {
      forall x | x in a ensures x in b { assert x !in a - b; }
    }
  }

  /** Rule C-10 fails nothing exactly when manual and documents fit. */
  lemma {:induction false} ManualPasses(o: Oracle, manual: set<string>, seen: seq<Seen>)
    ensures Passing(ManualFindings(o, manual, seen)) <==> ManualFits(o, manual, seen)
  {
    var missing, unlisted := Sorted(manual - Idents(seen)), Sorted(Unlisted(o, manual, Idents(seen)));
    assert missing == [] <==> manual - Idents(seen) == {};
    NoneMissing(manual, Idents(seen));
    assert forall ident :: ident in unlisted <==> ident in Idents(seen) && o.isoSeries(ident) && ident !in manual;
    hide Sorted, Idents, Unlisted, FirstClaim, ManualOnly, DocumentsOnly, Passing;
    ManualOnlyPasses(missing);
    DocumentsOnlyPasses(unlisted, seen);
    PassingAppend(ManualOnly(missing), DocumentsOnly(unlisted, seen));
  }

  predicate IsFirst(seen: seq<Seen>, ident: string, i: int) {
    && 0 <= i < |seen| && !seen[i].annex && seen[i].ident == ident
    && forall j :: 0 <= j < i ==> seen[j].annex || seen[j].ident != ident
  }

  /** The claim that counts is the one on the first document with the identifier, whatever later ones claim. */
  lemma {:induction false} FirstClaimIsFirst(seen: seq<Seen>, ident: string, claim: string)
    ensures FirstClaim(seen, ident) == Some(claim) <==> exists i :: IsFirst(seen, ident, i) && seen[i].claim == claim
  {
    if seen != [] {
      var n := |seen| - 1;
      var before := seen[..n];
      FirstClaimIsFirst(before, ident, claim);
      if FirstClaim(before, ident).Some? { FirstClaimIsFirst(before, ident, FirstClaim(before, ident).value); }
      assert forall i :: 0 <= i < n ==> before[i] == seen[i];
      assert forall i :: 0 <= i < n ==> (IsFirst(before, ident, i) <==> IsFirst(seen, ident, i));
      NobodyFirst(before, ident);
    }
  }

  lemma {:induction false} NobodyFirst(seen: seq<Seen>, ident: string)
    ensures FirstClaim(seen, ident).None? ==> forall i :: 0 <= i < |seen| ==> seen[i].annex || seen[i].ident != ident
  {
    if seen != [] {
      NobodyFirst(seen[..|seen| - 1], ident);
      assert forall i :: 0 <= i < |seen| - 1 ==> seen[..|seen| - 1][i] == seen[i];
    }
  }

  /** A second document with an identifier is judged by the first one's claim: the manual need not list it. */
  lemma {:induction false} DuplicatePasses(o: Oracle, a: Seen, b: Seen)
    requires !a.annex && !b.annex && a.ident == b.ident != "" && a.claim == "Non-compliant" && b.claim == "Compliant"
    ensures ManualFits(o, {}, [a, b])
    ensures o.isoSeries(b.ident) ==> !ManualFits(o, {}, [b])
  {
    ThreeClaims();
    var two, one := [a, b], [b];
    assert two[..1] == [a] && [a][..0] == [] && one[..0] == [];
    assert FirstClaim([], b.ident).None?;
    assert FirstClaim([a], b.ident) == Some(a.claim) && FirstClaim(two, b.ident) == Some(a.claim);
    assert b in one && b.ident in Idents(one) && FirstClaim(one, b.ident) == Some(b.claim);
  }

  // ---- strict mode ----

  predicate NoReasons(seen: seq<Seen>) { forall i :: 0 <= i < |seen| ==> seen[i].reasons == [] }

  lemma {:induction false} NoReasonsStep(seen: seq<Seen>, n: nat)
    requires |seen| == n + 1
    ensures NoReasons(seen) <==> NoReasons(seen[..n]) && seen[n].reasons == []
  {
    assert forall i :: 0 <= i < n ==> seen[..n][i] == seen[i];
  }

  lemma {:induction false} NothingTracked(seen: seq<Seen>)
    ensures Tracked(seen) == [] <==> NoReasons(seen)
  {
    if seen != [] {
      var n := |seen| - 1;
      var before, last := seen[..n], seen[n].reasons;
      assert Tracked(seen) == Tracked(before) + Pairs(seen[n].path, last);
      assert |Pairs(seen[n].path, last)| == |last|;
      hide *;
      NothingTracked(before);
      NoReasonsStep(seen, n);
    }
  }

  // ---- what the check takes from the regenerated tree ----

  /** The identifier the check finds: the document's own field, or the generator's entry if it has no such field. */
  function FoundIdent(doc: Doc): string {
    var fields := ControlFields(doc.text);
    if "Document Identifier" in fields then Strip(fields["Document Identifier"]) else IdentFor(doc.path, fields)
  }

  /** What the check will take from a document of the tree after a regeneration. */
  function Expected(o: Oracle, today: int, doc: Doc): Seen {
    var claim := EntryFor(o, today, doc).compliance;
    if doc.path == REGISTER then Seen(REGISTER, REGISTER_ID, false, "Compliant", [])
    else if IsAnnex(doc.path) then
      Seen(doc.path, if o.annexName(Stem(doc.path)) then Stem(doc.path) else "", true, claim, [])
    else
      Seen(doc.path, FoundIdent(doc), false, claim,
           EarlyReasons(doc.path, FoundIdent(doc)) + LateReasons(ControlFields(doc.text) == map[], false, claim))
  }

  function Expectation(o: Oracle, today: int, docs: seq<Doc>): (seen: seq<Seen>)
    ensures |seen| == |docs| && forall i :: 0 <= i < |docs| ==> seen[i] == Expected(o, today, docs[i])
  {
    seq(|docs|, i requires 0 <= i < |docs| => Expected(o, today, docs[i]))
  }

  lemma {:induction false} IdentFound(doc: Doc, fields: Fields, row: map<string, string>, e: Entry)
    requires fields == ControlFields(doc.text) && e.ident == IdentFor(doc.path, fields) && Neat(e.ident)
    requires "Document Identifier" in row && row["Document Identifier"] == Strip(e.ident)
    ensures IdentOf(fields, row) == FoundIdent(doc)
  {
    assert Trimmed(White, e.ident);
    assert Strip(e.ident) == Trim(White, e.ident);
    hide Trim, Strip, Trimmed, ControlFields, IdentFor;
    TrimTrimmed(White, e.ident);
  }

  lemma {:induction false} IdentInRow(e: Entry, row: map<string, string>)
    requires row == RowOf(COLUMNS, e)
    ensures "Document Identifier" in row && row["Document Identifier"] == Strip(e.ident)
  {
    assert EntryCells(e)[0] == e.ident;
    hide *;
    ColumnsAreHeader(COLUMNS);
    RowAt(COLUMNS, e, 0);
  }

  lemma {:induction false} EntryIdent(o: Oracle, today: int, doc: Doc, e: Entry)
    requires e == EntryFor(o, today, doc) && !IsAnnex(doc.path)
    ensures e.ident == IdentFor(doc.path, ControlFields(doc.text))
  {
    hide ContentProblems, ControlFields, IdentFor, TitleFrom, Stem, Strip, IsAnnex;
  }

  /** What the check takes from a document is what the generator's row makes it take. */
  lemma {:induction false} ViewOfDoc(o: Oracle, day: int, register: Register, doc: Doc, e: Entry)
    requires GoodPath(doc.path) && doc.path != REGISTER && e == EntryFor(o, day, doc)
    requires doc.path in register && register[doc.path] == RowOf(COLUMNS, e)
    ensures View(o, register, doc) == Expected(o, day, doc)
  {
    var fields, row := ControlFields(doc.text), RowOf(COLUMNS, e);
    hide *;
    ThreeClaims();
    EntryForNeat(o, day, doc, e);
    EntryCompliance(o, day, doc, e);
    ClaimOf(e, row);
    IdentInRow(e, row);
    if !IsAnnex(doc.path) {
      EntryIdent(o, day, doc, e);
      IdentFound(doc, fields, row, e);
    }
    ViewMatches(o, day, register, doc, row, fields, e.compliance);
  }

  lemma {:induction false} ViewMatches(
      o: Oracle, day: int, register: Register, doc: Doc, row: map<string, string>, fields: Fields, claim: string)
    requires doc.path in register && register[doc.path] == row && row != map[] && fields == ControlFields(doc.text)
    requires doc.path != REGISTER && claim == Claim(row) == EntryFor(o, day, doc).compliance
    requires !IsAnnex(doc.path) ==> IdentOf(fields, row) == FoundIdent(doc)
    ensures View(o, register, doc) == Expected(o, day, doc)
  {
    hide Claim, EntryFor, IdentOf, FoundIdent, ControlFields, IsAnnex, Stem, EarlyReasons, LateReasons, REGISTER;
  }

  lemma {:induction false} ViewOfRegister(
      o: Oracle, register: Register, h: Header, iso: string, p: Prose, entries: seq<Entry>, e: Entry, doc: Doc)
    requires GoodInput(h, iso, p) && AcceptsRegister(o) && doc == Doc(REGISTER, Print(h, iso, p, entries))
    requires Neat(e.compliance) && e.compliance == "Compliant"
    requires REGISTER in register && register[REGISTER] == RowOf(COLUMNS, e)
    ensures View(o, register, doc) == Seen(REGISTER, REGISTER_ID, false, "Compliant", [])
  {
    var fields, row := AddPairs(map[], ControlPairs(h, p)), RowOf(COLUMNS, e);
    assert GoodInput(h, iso, p) ==> NeatHeader(h) && GoodProse(p);
    assert REGISTER_ID[0] == 'S';
    hide *;
    HeaderReadBack(h, iso, p, entries, doc.text);
    ThreeClaims();
    ClaimOf(e, row);
    RegisterLocation(o);
    RestOfHeader(o, h, p, fields);
    IdentIsRead(fields, row);
    RegisterSeen(o, register, doc, row, fields);
  }

  lemma {:induction false} RegisterSeen(
      o: Oracle, register: Register, doc: Doc, row: map<string, string>, fields: Fields)
    requires REGISTER in register && register[REGISTER] == row && doc.path == REGISTER && !IsAnnex(REGISTER)
    requires fields == ControlFields(doc.text) && fields != map[] && Claim(row) == "Compliant"
    requires IdentOf(fields, row) == REGISTER_ID && REGISTER_ID != ""
    ensures View(o, register, doc) == Seen(REGISTER, REGISTER_ID, false, "Compliant", [])
  {
    hide Claim, IdentOf, ControlFields, IsAnnex, Stem, REGISTER, REGISTER_ID, StartsWith;
  }

  lemma {:induction false} ExpectedRegister(o: Oracle, day: int, doc: Doc)
    requires doc.path == REGISTER
    ensures Expected(o, day, doc) == Seen(REGISTER, REGISTER_ID, false, "Compliant", [])
  {
    hide EntryFor, REGISTER, REGISTER_ID;
  }

  lemma {:induction false} ViewAfter(
      o: Oracle, day: Day, docs: seq<Doc>, own: Fields, h: Header, p: Prose, entries: seq<Entry>,
      register: Register, text: string, i: int, doc: Doc)
    requires GoodTree(docs) && NeatFields(own) && GoodInput(h, day.iso, p) && AcceptsRegister(o)
    requires text == Print(h, day.iso, p, entries) && 0 <= i < |docs|
    requires RowsMatch(o, day.ordinal, docs, OwnEntry(own), register)
    requires doc == if docs[i].path == REGISTER then Doc(REGISTER, text) else docs[i]
    ensures View(o, register, doc) == Expected(o, day.ordinal, docs[i])
  {
    hide *;
    RowsAre(o, day.ordinal, docs, OwnEntry(own), register, i);
    if docs[i].path == REGISTER {
      OwnClaim(own);
      OwnEntryNeat(own, OwnEntry(own));
      ExpectedRegister(o, day.ordinal, docs[i]);
      ViewOfRegister(o, register, h, day.iso, p, entries, OwnEntry(own), doc);
    } else {
      ViewOfDoc(o, day.ordinal, register, docs[i], EntryFor(o, day.ordinal, docs[i]));
    }
  }

  lemma {:induction false} ViewsAfter(
      o: Oracle, day: Day, docs: seq<Doc>, own: Fields, h: Header, p: Prose, entries: seq<Entry>,
      register: Register, text: string)
    requires GoodTree(docs) && NeatFields(own) && GoodInput(h, day.iso, p) && AcceptsRegister(o)
    requires text == Print(h, day.iso, p, entries)
    requires RowsMatch(o, day.ordinal, docs, OwnEntry(own), register)
    ensures Views(o, register, Rewritten(docs, text)) == Expectation(o, day.ordinal, docs)
  {
    hide *;
    var docs' := Rewritten(docs, text);
    forall i | 0 <= i < |docs| ensures View(o, register, docs'[i]) == Expected(o, day.ordinal, docs[i]) {
      ViewAfter(o, day, docs, own, h, p, entries, register, text, i, docs'[i]);
    }
  }

  // ---- the verdict ----

  /** Every document, annexes and the register itself apart, is faultless, and its identifier fits the place. */
  predicate NoneFaulty(o: Oracle, today: int, docs: seq<Doc>) {
    forall i :: 0 <= i < |docs| && docs[i].path != REGISTER && !IsAnnex(docs[i].path) ==> Unfaulted(o, today, docs[i])
  }

  predicate Unfaulted(o: Oracle, today: int, doc: Doc) {
    var fields := ControlFields(doc.text);
    Faultless(o, today, fields, doc.text) && IdentFits(o, IdentFor(doc.path, fields), doc.path)
  }

  lemma {:induction false} UnfaultedExactly(o: Oracle, today: int, doc: Doc, fields: Fields, ident: string)
    requires fields == ControlFields(doc.text) && ident == IdentFor(doc.path, fields)
    ensures Unfaulted(o, today, doc) <==> ContentProblems(o, today, doc, fields, ident) == []
  {
    hide ControlFields, IdentFor, Faultless, IdentFits, ContentProblems;
    NoProblemsExactly(o, today, doc, fields, ident);
  }

  lemma {:induction false} NamedIsFound(doc: Doc, fields: Fields)
    requires fields == ControlFields(doc.text) && !Blank(fields, "Document Identifier")
    ensures FoundIdent(doc) != ""
  {
    hide Strip, ControlFields;
  }

  /** Without an identifier gap a document is tracked exactly when the generator finds a problem with it. */
  lemma {:induction false} TrackedExactly(o: Oracle, day: int, doc: Doc)
    requires GoodPath(doc.path) && doc.path != REGISTER && !IsAnnex(doc.path) && !IdentifierGap(o, day, doc)
    ensures Expected(o, day, doc).reasons == [] <==> Unfaulted(o, day, doc)
  {
    var fields, e := ControlFields(doc.text), EntryFor(o, day, doc);
    var ident := IdentFor(doc.path, fields);
    assert Expected(o, day, doc).reasons ==
      EarlyReasons(doc.path, FoundIdent(doc)) + LateReasons(fields == map[], false, e.compliance);
    hide *;
    GapExactly(o, day, doc, fields, ident);
    UnfaultedExactly(o, day, doc, fields, ident);
    ThreeClaims();
    EntryCompliance(o, day, doc, e);
    if Unfaulted(o, day, doc) {
      NoProblems(o, day, doc, fields, ident);
      NamedIsFound(doc, fields);
    }
    ReasonsEmpty(doc.path, FoundIdent(doc), fields == map[], e.compliance);
  }

  lemma {:induction false} ReasonsEmpty(path: string, ident: string, unread: bool, claim: string)
    requires GoodPath(path)
    ensures EarlyReasons(path, ident) + LateReasons(unread, false, claim) == [] <==>
      ident != "" && !unread && claim == "Compliant"
  {}

  lemma {:induction false} StrictExactly(o: Oracle, day: int, docs: seq<Doc>)
    requires GoodTree(docs) && NoGaps(o, day, docs)
    ensures Tracked(Expectation(o, day, docs)) == [] <==> NoneFaulty(o, day, docs)
  {
    var seen := Expectation(o, day, docs);
    forall i | 0 <= i < |docs|
      ensures seen[i].reasons == [] <==>
        docs[i].path == REGISTER || IsAnnex(docs[i].path) || Unfaulted(o, day, docs[i])
    {
      var doc := docs[i];
      assert GoodPath(doc.path) && (doc.path != REGISTER ==> !IdentifierGap(o, day, doc));
      assert doc.path == REGISTER || IsAnnex(doc.path) ==> Expected(o, day, doc).reasons == [];
      hide *;
      if doc.path != REGISTER && !IsAnnex(doc.path) { TrackedExactly(o, day, doc); }
    }
    hide Expectation, Expected, Unfaulted, IsAnnex, REGISTER, GoodTree, NoGaps, Tracked;
    NothingTracked(seen);
  }

  lemma {:induction false} ExitZero(a: seq<Finding>, b: seq<Finding>, tracked: seq<(string, Reason)>, strict: bool)
    ensures Report(a + b, tracked).Exit(strict) == 0 <==>
      Passing(a) && Passing(b) && (strict ==> tracked == [])
  {
    hide Passing;
    PassingAppend(a, b);
  }

  lemma {:induction false} ReportedIs(
      o: Oracle, today: int, disk: set<string>, docs: seq<Doc>, text: string, manual: set<string>, seen: seq<Seen>)
    requires seen == Views(o, RegisterRows(text), docs)
    ensures Reported(o, today, disk, docs, Some(text), Some(manual)) ==
      Report(Findings(o, today, disk, docs, text) + ManualFindings(o, manual, seen), Tracked(seen))
  {
    hide Findings, ManualFindings, Tracked, RegisterRows, Views;
  }

  /** After a regeneration the whole check succeeds, whatever day it runs, exactly when the register's kept header
      fits, no document leaves an identifier gap, the quality manual fits the documents and, in strict mode, the
      generator found no problem with any of them. */
  lemma {:induction false} RegenerationVerdict(
      o: Oracle, p: Prose, day: Day, docs: seq<Doc>, previous: string, today: int, disk: set<string>, text: string,
      manual: set<string>, strict: bool)
    requires GoodTree(docs) && GoodProse(p) && GoodDay(day) && AcceptsRegister(o)
    requires REGISTER in PathSet(docs) && PathSet(docs) <= disk
    requires text == Generated(o, p, day, docs, previous)
    ensures Reported(o, today, disk, Rewritten(docs, text), Some(text), Some(manual)).Exit(strict) == 0 <==>
      (HeaderFits(o, HeaderOf(ControlFields(previous), day)) && NoGaps(o, day.ordinal, docs)
       && ManualFits(o, manual, Expectation(o, day.ordinal, docs)) && (strict ==> NoneFaulty(o, day.ordinal, docs)))
  {
    hide *;
    var own := ControlFields(previous);
    var h, entries := HeaderOf(own, day), Entries(o, day.ordinal, docs, own);
    var register, docs', seen := RowsOf(COLUMNS, entries, map[]), Rewritten(docs, text), Expectation(o, day.ordinal, docs);
    GeneratedIs(o, p, day, docs, previous, own);
    KeptIsGood(previous, day, p, own);
    EntriesGood(o, day.ordinal, docs, own, entries);
    RowsReadBack(h, day.iso, p, entries, text);
    RowsFound(o, day.ordinal, docs, own, entries, register);
    ViewsAfter(o, day, docs, own, h, p, entries, register, text);
    ReportedIs(o, today, disk, docs', text, manual, seen);
    ExitZero(Findings(o, today, disk, docs', text), ManualFindings(o, manual, seen), Tracked(seen), strict);
    RegenerationPasses(o, p, day, docs, previous, today, disk, text);
    ManualPasses(o, manual, seen);
    if NoGaps(o, day.ordinal, docs) { StrictExactly(o, day.ordinal, docs); }
  }
}
