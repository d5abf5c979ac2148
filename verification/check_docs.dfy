/** `scripts/check_docs.py`: every document judged against the register. */
module CheckDocs {
  import opened Text
  import opened DocRules

  datatype Rule = C01 | C02 | C03 | C04 | C05 | C06 | C07 | C08 | C09 | C10(ident: string) | C11 | C12

  datatype Finding = Finding(rule: Rule, path: string, integrity: bool, warnOnly: bool) {
    predicate Failing() { integrity && !warnOnly }
  }

  /** No finding of the list fails the check. */
  predicate Passing(fs: seq<Finding>) { forall i :: 0 <= i < |fs| ==> !fs[i].Failing() }

  /** Fails only if the register claims the document is Compliant. */
  function ContentFinding(rule: Rule, path: string, claim: string): Finding {
    Finding(rule, path, true, claim != "Compliant")
  }

  function When(broken: bool, rule: Rule, path: string, claim: string): seq<Finding> {
    if broken then [ContentFinding(rule, path, claim)] else []
  }

  predicate Blank(fields: Fields, name: string) { name !in fields || Strip(fields[name]) == "" }

  function MissingFields(names: seq<string>, fields: Fields, path: string, claim: string): seq<Finding> {
    if names == [] then []
    else
      var n := |names| - 1;
      MissingFields(names[..n], fields, path, claim) + When(Blank(fields, names[n]), C04, path, claim)
  }

  function ForbiddenFields(names: seq<string>, fields: Fields, path: string): seq<Finding> {
    if names == [] then []
    else
      var n := |names| - 1;
      ForbiddenFields(names[..n], fields, path) + When(names[n] in fields, C04, path, "Non-compliant")
  }

  function ReviewFindings(o: Oracle, today: int, fields: Fields, path: string, claim: string): seq<Finding> {
    var nr := Strip(Get(fields, "Next Review", ""));
    if nr == "" || !o.dateShaped(nr) || o.isoDate(nr).None? then [ContentFinding(C08, path, claim)]
    else When(o.isoDate(nr).value < today, C08, path, "Non-compliant")
  }

  /** Rules C-04 to C-09 on a document that has a control table. */
  function FieldFindings(o: Oracle, today: int, fields: Fields, doc: Doc, claim: string): seq<Finding> {
    var status := Strip(Get(fields, "Status", ""));
    var classification := Strip(Get(fields, "Classification", ""));
    MissingFields(REQUIRED_FIELDS, fields, doc.path, claim)
    + ForbiddenFields(FORBIDDEN_FIELDS, fields, doc.path)
    + When(status != "" && !IsStatus(status), C05, doc.path, claim)
    + When(classification != "" && !IsClassification(classification), C06, doc.path, claim)
    + When("Approver" in fields && Strip(fields["Approver"]) == "", C07, doc.path, claim)
    + ReviewFindings(o, today, fields, doc.path, claim)
    + When(RevisionHistory(doc.text) != Some(REVISION_COLUMNS), C09, doc.path, claim)
  }

  function Claim(row: map<string, string>): string {
    var c := Get(row, "Compliance", "");
    Strip(if c == "" then "Non-compliant" else c)
  }

  function IdentOf(fields: Fields, row: map<string, string>): string {
    Strip(Get(fields, "Document Identifier", Get(row, "Document Identifier", "")))
  }

  /** Rules C-11 and C-12. */
  function IdentFindings(o: Oracle, ident: string, path: string, claim: string): seq<Finding> {
    When(ident != "" && !IdFits(o, path, ident), C11, path, claim)
    + When(ident != "" && !FilenameExempt(path) && Stem(path) != ident, C12, path, claim)
  }

  function DocFindings(o: Oracle, today: int, register: Register, doc: Doc): seq<Finding> {
    var row := if doc.path in register then register[doc.path] else map[];
    var claim := Claim(row);
    var fields := ControlFields(doc.text);
    if IsAnnex(doc.path) then When(!o.annexName(Stem(doc.path)), C11, doc.path, claim)
    else
      IdentFindings(o, IdentOf(fields, row), doc.path, claim)
      + if fields == map[] then When(row != map[], C03, doc.path, claim)
        else FieldFindings(o, today, fields, doc, claim)
  }

  function AllDocFindings(o: Oracle, today: int, register: Register, docs: seq<Doc>): seq<Finding> {
    if docs == [] then []
    else AllDocFindings(o, today, register, docs[..|docs| - 1])
         + DocFindings(o, today, register, docs[|docs| - 1])
  }

  function Unregistered(register: Register, docs: seq<Doc>): seq<Finding> {
    if docs == [] then []
    else
      var doc := docs[|docs| - 1];
      Unregistered(register, docs[..|docs| - 1])
      + if doc.path in register then [] else [Finding(C01, doc.path, true, false)]
  }

  /** `disk` holds the paths that exist, whether or not they are documents. */
  function Missing(listed: seq<string>, disk: set<string>): seq<Finding> {
    if listed == [] then []
    else
      var path := listed[|listed| - 1];
      Missing(listed[..|listed| - 1], disk)
      + if path in disk then [] else [Finding(C02, path, true, false)]
  }

  /** Everything the check reports about a tree, apart from rule C-10. */
  ghost function Findings(
      o: Oracle, today: int, disk: set<string>, docs: seq<Doc>, registerText: string): seq<Finding>
  {
    var register := RegisterRows(registerText);
    Unregistered(register, docs)
    + Missing(Sorted(register.Keys), disk)
    + AllDocFindings(o, today, register, docs)
  }

  // ---- what the check collects on the way ----

  /** Why a document is tracked as not compliant. */
  datatype Reason = NoIdentifier | NoControl | Claimed(claim: string)

  /** What the check takes from one document: its identifier (empty if none counts), whether it is an annex, the
      register's claim, and the reasons to track it. */
  datatype Seen = Seen(path: string, ident: string, annex: bool, claim: string, reasons: seq<Reason>)

  function EarlyReasons(path: string, ident: string): seq<Reason> {
    if ident == "" && StartsWith(path, "docs/") then [NoIdentifier] else []
  }

  function LateReasons(unread: bool, unlisted: bool, claim: string): seq<Reason> {
    if unread then if unlisted then [] else [NoControl]
    else if claim != "Compliant" then [Claimed(claim)] else []
  }

  function View(o: Oracle, register: Register, doc: Doc): Seen {
    var row := if doc.path in register then register[doc.path] else map[];
    var claim := Claim(row);
    if IsAnnex(doc.path) then
      Seen(doc.path, if o.annexName(Stem(doc.path)) then Stem(doc.path) else "", true, claim, [])
    else
      var fields := ControlFields(doc.text);
      var ident := IdentOf(fields, row);
      Seen(doc.path, ident, false, claim,
           EarlyReasons(doc.path, ident) + LateReasons(fields == map[], row == map[], claim))
  }

  function Views(o: Oracle, register: Register, docs: seq<Doc>): (seen: seq<Seen>)
    ensures |seen| == |docs| && forall i :: 0 <= i < |docs| ==> seen[i] == View(o, register, docs[i])
  {
    seq(|docs|, i requires 0 <= i < |docs| => View(o, register, docs[i]))
  }

  /** The identifiers of documents and annexes. */
  function Idents(seen: seq<Seen>): set<string> { set s | s in seen && s.ident != "" :: s.ident }

  /** The claim of the first document, annexes apart, that names an identifier. */
  function FirstClaim(seen: seq<Seen>, ident: string): Option<string> {
    if seen == [] then None
    else
      var n := |seen| - 1;
      var before := FirstClaim(seen[..n], ident);
      if before.Some? then before
      else if !seen[n].annex && seen[n].ident == ident then Some(seen[n].claim) else None
  }

  /** `ident_claims.get(ident, "Non-compliant")` */
  function ClaimOn(seen: seq<Seen>, ident: string): string {
    var claim := FirstClaim(seen, ident);
    if claim.Some? then claim.value else "Non-compliant"
  }

  function Pairs(path: string, reasons: seq<Reason>): seq<(string, Reason)> {
    seq(|reasons|, i requires 0 <= i < |reasons| => (path, reasons[i]))
  }

  /** The documents tracked as not compliant, with their reasons. */
  function Tracked(seen: seq<Seen>): seq<(string, Reason)> {
    if seen == [] then []
    else
      var n := |seen| - 1;
      Tracked(seen[..n]) + Pairs(seen[n].path, seen[n].reasons)
  }

  /** The three collections the loop over the documents fills. */
  datatype Tally = Tally(idents: set<string>, claims: map<string, string>, tracked: seq<(string, Reason)>) {
    function Noted(s: Seen): Tally {
      Tally(if s.ident == "" then idents else idents + {s.ident},
            if s.annex || s.ident == "" || s.ident in claims then claims else claims[s.ident := s.claim],
            tracked + Pairs(s.path, s.reasons))
    }
  }

  ghost predicate Tallies(t: Tally, seen: seq<Seen>) {
    && t.idents == Idents(seen) && t.tracked == Tracked(seen)
    && (forall ident :: ident in t.claims ==> FirstClaim(seen, ident) == Some(t.claims[ident]))
    && (forall ident :: ident != "" && ident !in t.claims ==> FirstClaim(seen, ident).None?)
  }

  lemma {:induction false} TallyGrows(t: Tally, seen: seq<Seen>, s: Seen, more: seq<Seen>)
    requires Tallies(t, seen) && more == seen + [s]
    ensures Tallies(t.Noted(s), more)
  {
    assert more[..|more| - 1] == seen && more[|more| - 1] == s;
    assert Idents(more) == t.Noted(s).idents;
  }

  /** Rule C-10: what the quality manual lists and no document is, and documents of the ISO series that the manual
      does not list. */
  ghost function ManualFindings(o: Oracle, manual: set<string>, seen: seq<Seen>): seq<Finding> {
    ManualOnly(Sorted(manual - Idents(seen)))
    + DocumentsOnly(Sorted(Unlisted(o, manual, Idents(seen))), seen)
  }

  function Unlisted(o: Oracle, manual: set<string>, idents: set<string>): set<string> {
    set ident | ident in idents && o.isoSeries(ident) && ident !in manual
  }

  function ManualOnly(idents: seq<string>): seq<Finding> {
    seq(|idents|, i requires 0 <= i < |idents| => Finding(C10(idents[i]), QUALITY_MANUAL, true, false))
  }

  function DocumentsOnly(idents: seq<string>, seen: seq<Seen>): seq<Finding> {
    seq(|idents|, i requires 0 <= i < |idents| =>
      ContentFinding(C10(idents[i]), REGISTER, ClaimOn(seen, idents[i])))
  }

  /** What the check ends with: the register or the manual could not be read, or findings and tracked documents. */
  datatype Report = Unreadable | Report(findings: seq<Finding>, tracked: seq<(string, Reason)>) {
    /** The status the script exits with. */
    function Exit(strict: bool): int {
      if Unreadable? then 2
      else if !Passing(findings) || (strict && tracked != []) then 1
      else 0
    }
  }

  ghost function Reported(
      o: Oracle, today: int, disk: set<string>, docs: seq<Doc>, register: Option<string>, manual: Option<set<string>>)
    : Report
  {
    if register.None? || manual.None? then Unreadable
    else
      var seen := Views(o, RegisterRows(register.value), docs);
      Report(Findings(o, today, disk, docs, register.value) + ManualFindings(o, manual.value, seen), Tracked(seen))
  }

  // ---- the check itself ----

  method CheckRequired(fields: Fields, path: string, claim: string) returns (findings: seq<Finding>)
    ensures findings == MissingFields(REQUIRED_FIELDS, fields, path, claim)
  {
    findings := [];
    for i := 0 to |REQUIRED_FIELDS|
      invariant findings == MissingFields(REQUIRED_FIELDS[..i], fields, path, claim)
    {
      assert REQUIRED_FIELDS[..i + 1][..i] == REQUIRED_FIELDS[..i];
      findings := findings + When(Blank(fields, REQUIRED_FIELDS[i]), C04, path, claim);
    }
    assert REQUIRED_FIELDS[..|REQUIRED_FIELDS|] == REQUIRED_FIELDS;
  }

  method CheckForbidden(fields: Fields, path: string) returns (findings: seq<Finding>)
    ensures findings == ForbiddenFields(FORBIDDEN_FIELDS, fields, path)
  {
    findings := [];
    for i := 0 to |FORBIDDEN_FIELDS|
      invariant findings == ForbiddenFields(FORBIDDEN_FIELDS[..i], fields, path)
    {
      assert FORBIDDEN_FIELDS[..i + 1][..i] == FORBIDDEN_FIELDS[..i];
      findings := findings + When(FORBIDDEN_FIELDS[i] in fields, C04, path, "Non-compliant");
    }
    assert FORBIDDEN_FIELDS[..|FORBIDDEN_FIELDS|] == FORBIDDEN_FIELDS;
  }

  method CheckReview(o: Oracle, today: int, fields: Fields, path: string, claim: string)
    returns (findings: seq<Finding>)
    ensures findings == ReviewFindings(o, today, fields, path, claim)
  {
    var nr := Strip(Get(fields, "Next Review", ""));
    if nr == "" {
      return [ContentFinding(C08, path, claim)];
    } else if !o.dateShaped(nr) {
      return [ContentFinding(C08, path, claim)];
    }
    match o.isoDate(nr)
    case None => return [ContentFinding(C08, path, claim)];
    case Some(day) => return When(day < today, C08, path, "Non-compliant");
  }

  method CheckFields(o: Oracle, today: int, fields: Fields, doc: Doc, claim: string)
    returns (findings: seq<Finding>)
    ensures findings == FieldFindings(o, today, fields, doc, claim)
  {
    findings := CheckRequired(fields, doc.path, claim);
    var more := CheckForbidden(fields, doc.path);
    findings := findings + more;
    var status := Strip(Get(fields, "Status", ""));
    findings := findings + When(status != "" && !IsStatus(status), C05, doc.path, claim);
    var classification := Strip(Get(fields, "Classification", ""));
    findings := findings
      + When(classification != "" && !IsClassification(classification), C06, doc.path, claim);
    findings := findings
      + When("Approver" in fields && Strip(fields["Approver"]) == "", C07, doc.path, claim);
    more := CheckReview(o, today, fields, doc.path, claim);
    findings := findings + more;
    var columns := ParseRevisionHistory(doc.text);
    findings := findings + When(columns != Some(REVISION_COLUMNS), C09, doc.path, claim);
  }

  lemma {:induction false} PairsOf(path: string, a: seq<Reason>, b: seq<Reason>, r: Reason)
    ensures Pairs(path, []) == [] && Pairs(path, [r]) == [(path, r)]
    ensures Pairs(path, a + b) == Pairs(path, a) + Pairs(path, b)
  {}

  /** What a document's identifier adds to the collections. */
  method NoteIdent(before: Tally, path: string, ident: string, claim: string) returns (tally: Tally)
    ensures tally == before.Noted(Seen(path, ident, false, claim, EarlyReasons(path, ident)))
  {
    hide StartsWith, Pairs;
    tally := before;
    PairsOf(path, [], [], NoIdentifier);
    if ident != "" {
      tally := tally.(idents := tally.idents + {ident});
      if ident !in tally.claims { tally := tally.(claims := tally.claims[ident := claim]); }
    } else if StartsWith(path, "docs/") {
      tally := tally.(tracked := tally.tracked + [(path, NoIdentifier)]);
    }
  }

  lemma {:induction false} NotedMore(before: Tally, s: Seen, more: seq<Reason>, t: Tally)
    requires t == before.Noted(s)
    ensures before.Noted(s.(reasons := s.reasons + more)) == t.(tracked := t.tracked + Pairs(s.path, more))
  {
    PairsOf(s.path, s.reasons, more, NoControl);
    hide Pairs;
  }

  /** The findings on the control table, if there is one, and a further reason to track the document. */
  method CheckControl(
      o: Oracle, today: int, row: map<string, string>, doc: Doc, fields: Fields, claim: string)
    returns (findings: seq<Finding>, late: seq<Reason>)
    requires fields == ControlFields(doc.text)
    ensures findings == if fields == map[] then When(row != map[], C03, doc.path, claim)
                        else FieldFindings(o, today, fields, doc, claim)
    ensures late == LateReasons(fields == map[], row == map[], claim)
  {
    findings, late := [], [];
    if fields == map[] && row == map[] { return; }
    if fields == map[] { return [ContentFinding(C03, doc.path, claim)], [NoControl]; }
    findings := CheckFields(o, today, fields, doc, claim);
    if claim != "Compliant" { late := [Claimed(claim)]; }
  }

  lemma {:induction false} DocFindingsAre(
      o: Oracle, today: int, register: Register, doc: Doc, row: map<string, string>, claim: string, fields: Fields)
    requires row == (if doc.path in register then register[doc.path] else map[])
    requires claim == Claim(row) && fields == ControlFields(doc.text) && !IsAnnex(doc.path)
    ensures DocFindings(o, today, register, doc) ==
      IdentFindings(o, IdentOf(fields, row), doc.path, claim)
      + if fields == map[] then When(row != map[], C03, doc.path, claim)
        else FieldFindings(o, today, fields, doc, claim)
    ensures View(o, register, doc) ==
      Seen(doc.path, IdentOf(fields, row), false, claim,
           EarlyReasons(doc.path, IdentOf(fields, row)) + LateReasons(fields == map[], row == map[], claim))
  {
    hide IdentFindings, IdentOf, ControlFields, When, FieldFindings, Claim, IsAnnex;
  }

  lemma {:induction false} AnnexFindingsAre(
      o: Oracle, today: int, register: Register, doc: Doc, claim: string)
    requires IsAnnex(doc.path) && claim == Claim(if doc.path in register then register[doc.path] else map[])
    ensures DocFindings(o, today, register, doc) == When(!o.annexName(Stem(doc.path)), C11, doc.path, claim)
    ensures View(o, register, doc) ==
      Seen(doc.path, if o.annexName(Stem(doc.path)) then Stem(doc.path) else "", true, claim, [])
  {
    hide IdentFindings, IdentOf, ControlFields, When, FieldFindings, Claim, IsAnnex, Stem;
  }

  method CheckAnnex(o: Oracle, doc: Doc, claim: string, before: Tally) returns (findings: seq<Finding>, tally: Tally)
    ensures findings == When(!o.annexName(Stem(doc.path)), C11, doc.path, claim)
    ensures tally == before.Noted(
      Seen(doc.path, if o.annexName(Stem(doc.path)) then Stem(doc.path) else "", true, claim, []))
  {
    var stem := Stem(doc.path);
    hide Stem, Pairs;
    PairsOf(doc.path, [], [], NoControl);
    if !o.annexName(stem) { return [ContentFinding(C11, doc.path, claim)], before; }
    return [], if stem == "" then before else before.(idents := before.idents + {stem});
  }

  method CheckIdent(o: Oracle, ident: string, path: string, claim: string) returns (findings: seq<Finding>)
    ensures findings == IdentFindings(o, ident, path, claim)
  {
    hide IdFits, FilenameExempt, Stem;
    findings := [];
    if ident != "" && !IdFits(o, path, ident) { findings := findings + [ContentFinding(C11, path, claim)]; }
    if ident != "" && !FilenameExempt(path) {
      if Stem(path) != ident { findings := findings + [ContentFinding(C12, path, claim)]; }
    }
  }

  /** The findings on one document, and the three collections after it. */
  method CheckDocument(o: Oracle, today: int, register: Register, doc: Doc, before: Tally)
    returns (findings: seq<Finding>, tally: Tally)
    ensures findings == DocFindings(o, today, register, doc)
    ensures tally == before.Noted(View(o, register, doc))
  {
    hide *;
    var row := if doc.path in register then register[doc.path] else map[];
    var claim := Claim(row);
    var fields := ParseControlTable(doc.text);
    if IsAnnex(doc.path) {
      AnnexFindingsAre(o, today, register, doc, claim);
      findings, tally := CheckAnnex(o, doc, claim, before);
      return;
    }
    DocFindingsAre(o, today, register, doc, row, claim, fields);
    var ident := IdentOf(fields, row);
    tally := NoteIdent(before, doc.path, ident, claim);
    findings := CheckIdent(o, ident, doc.path, claim);
    var more, late := CheckControl(o, today, row, doc, fields, claim);
    NotedMore(before, Seen(doc.path, ident, false, claim, EarlyReasons(doc.path, ident)), late, tally);
    findings, tally := findings + more, tally.(tracked := tally.tracked + Pairs(doc.path, late));
  }

  method CheckRegistered(register: Register, docs: seq<Doc>) returns (findings: seq<Finding>)
    ensures findings == Unregistered(register, docs)
  {
    findings := [];
    for i := 0 to |docs|
      invariant findings == Unregistered(register, docs[..i])
    {
      assert docs[..i + 1][..i] == docs[..i];
      if docs[i].path !in register {
        findings := findings + [Finding(C01, docs[i].path, true, false)];
      }
    }
    assert docs[..|docs|] == docs;
  }

  method CheckListed(register: Register, disk: set<string>) returns (findings: seq<Finding>)
    ensures findings == Missing(Sorted(register.Keys), disk)
  {
    hide Sorted;
    findings := [];
    var listed := SortedList(register.Keys);
    for i := 0 to |listed|
      invariant findings == Missing(listed[..i], disk)
    {
      assert listed[..i + 1][..i] == listed[..i];
      if listed[i] !in disk {
        findings := findings + [Finding(C02, listed[i], true, false)];
      }
    }
    assert listed[..|listed|] == listed;
  }

  method CheckContent(o: Oracle, today: int, register: Register, docs: seq<Doc>)
    returns (findings: seq<Finding>, tally: Tally)
    ensures findings == AllDocFindings(o, today, register, docs)
    ensures Tallies(tally, Views(o, register, docs))
  {
    hide DocFindings, View, Tallies;
    findings, tally := [], Tally({}, map[], []);
    assert Tallies(tally, Views(o, register, docs[..0])) by { NothingSeen(o, register); }
    for i := 0 to |docs|
      invariant findings == AllDocFindings(o, today, register, docs[..i])
      invariant Tallies(tally, Views(o, register, docs[..i]))
    {
      assert docs[..i + 1][..i] == docs[..i];
      var more, grown := CheckDocument(o, today, register, docs[i], tally);
      findings := findings + more;
      TallyGrows(tally, Views(o, register, docs[..i]), View(o, register, docs[i]), Views(o, register, docs[..i + 1]));
      tally := grown;
    }
    assert docs[..|docs|] == docs;
  }

  lemma {:induction false} NothingSeen(o: Oracle, register: Register)
    ensures Tallies(Tally({}, map[], []), Views(o, register, []))
  {}

  lemma {:induction false} ClaimRead(t: Tally, seen: seq<Seen>, ident: string)
    requires Tallies(t, seen) && ident != ""
    ensures ClaimOn(seen, ident) == if ident in t.claims then t.claims[ident] else "Non-compliant"
  {
    hide FirstClaim, Idents, Tracked;
  }

  lemma {:induction false} DocumentsOnlyStep(ids: seq<string>, seen: seq<Seen>, i: nat)
    requires i < |ids|
    ensures DocumentsOnly(ids[..i + 1], seen)
         == DocumentsOnly(ids[..i], seen) + [ContentFinding(C10(ids[i]), REGISTER, ClaimOn(seen, ids[i]))]
  {
    hide ClaimOn, REGISTER, ContentFinding;
  }

  method CheckSeries(tally: Tally, ids: seq<string>, ghost seen: seq<Seen>) returns (findings: seq<Finding>)
    requires Tallies(tally, seen) && forall i :: 0 <= i < |ids| ==> ids[i] != ""
    ensures findings == DocumentsOnly(ids, seen)
  {
    findings := [];
    hide Tallies, ClaimOn, REGISTER;
    for i := 0 to |ids|
      invariant findings == DocumentsOnly(ids[..i], seen)
    {
      ClaimRead(tally, seen, ids[i]);
      DocumentsOnlyStep(ids, seen, i);
      var claim := if ids[i] in tally.claims then tally.claims[ids[i]] else "Non-compliant";
      findings := findings + [ContentFinding(C10(ids[i]), REGISTER, claim)];
    }
    assert ids[..|ids|] == ids;
  }

  method CheckManual(o: Oracle, manual: set<string>, tally: Tally, ghost seen: seq<Seen>)
    returns (findings: seq<Finding>)
    requires Tallies(tally, seen)
    ensures findings == ManualFindings(o, manual, seen)
  {
    assert tally.idents == Idents(seen) && forall ident :: ident in tally.idents ==> ident != "";
    assert Unlisted(o, manual, tally.idents) <= tally.idents;
    hide Sorted, Unlisted, Tallies, Idents, DocumentsOnly, ManualOnly;
    var missing := SortedList(manual - tally.idents);
    var unlisted := SortedList(Unlisted(o, manual, tally.idents));
    assert forall i :: 0 <= i < |unlisted| ==> unlisted[i] in unlisted;
    var series := CheckSeries(tally, unlisted, seen);
    findings := ManualOnly(missing) + series;
  }

  /** The whole check, with what it exits with. */
  method Check(
      o: Oracle, today: int, disk: set<string>, docs: seq<Doc>, registerText: Option<string>,
      manual: Option<set<string>>, strict: bool)
    returns (report: Report, exit: int)
    ensures report == Reported(o, today, disk, docs, registerText, manual) && exit == report.Exit(strict)
  {
    if registerText.None? || manual.None? { return Unreadable, 2; }
    var register := ParseRegister(registerText.value);
    var unregistered := CheckRegistered(register, docs);
    var missing := CheckListed(register, disk);
    var content, tally := CheckContent(o, today, register, docs);
    var further := CheckManual(o, manual.value, tally, Views(o, register, docs));
    report := Report(unregistered + missing + content + further, tally.tracked);
    exit := report.Exit(strict);
  }
}
