/** After a regeneration, the check and the generator agree on every document. */
module RegisterAgreement {
  import opened Text
  import opened DocRules
  import opened GenRegister
  import opened CheckDocs

  lemma {:induction false} PassingAppend(a: seq<Finding>, b: seq<Finding>)
    ensures Passing(a + b) <==> Passing(a) && Passing(b)
  {
    if Passing(a + b) {
      assert forall i :: 0 <= i < |a| ==> a[i] == (a + b)[i];
      assert forall i :: 0 <= i < |b| ==> b[i] == (a + b)[|a| + i];
    }
  }

  lemma {:induction false} PassingWhen(broken: bool, rule: Rule, path: string, claim: string)
    ensures Passing(When(broken, rule, path, claim)) <==> !broken || claim != "Compliant"
  {
    if broken { assert When(broken, rule, path, claim)[0] == ContentFinding(rule, path, claim); }
  }

  // ---- required and forbidden fields ----

  predicate AllNamed(names: seq<string>, fields: Fields) {
    forall i :: 0 <= i < |names| ==> !Blank(fields, names[i])
  }

  lemma {:induction false} PassingMissing(names: seq<string>, fields: Fields, path: string, claim: string)
    ensures Passing(MissingFields(names, fields, path, claim)) <==> claim != "Compliant" || AllNamed(names, fields)
  {
    if names != [] {
      var n := |names| - 1;
      PassingMissing(names[..n], fields, path, claim);
      PassingWhen(Blank(fields, names[n]), C04, path, claim);
      PassingAppend(MissingFields(names[..n], fields, path, claim), When(Blank(fields, names[n]), C04, path, claim));
      assert names == names[..n] + [names[n]];
      hide Passing, When, Blank;
    }
  }

  lemma {:induction false} PassingForbidden(names: seq<string>, fields: Fields, path: string)
    ensures Passing(ForbiddenFields(names, fields, path))
  {
    if names != [] {
      var n := |names| - 1;
      PassingForbidden(names[..n], fields, path);
      PassingWhen(names[n] in fields, C04, path, "Non-compliant");
      PassingAppend(ForbiddenFields(names[..n], fields, path), When(names[n] in fields, C04, path, "Non-compliant"));
      assert |"Non-compliant"| != |"Compliant"|;
      hide Passing, When;
    }
  }

  /** All are named but perhaps the identifier. */
  predicate OthersNamed(names: seq<string>, fields: Fields) {
    forall i :: 0 <= i < |names| ==> names[i] == "Document Identifier" || !Blank(fields, names[i])
  }

  lemma {:induction false} OthersNamedStep(names: seq<string>, fields: Fields, n: nat)
    requires |names| == n + 1
    ensures OthersNamed(names, fields) <==>
      OthersNamed(names[..n], fields) && (names[n] == "Document Identifier" || !Blank(fields, names[n]))
  {
    hide Blank;
    assert forall i :: 0 <= i < n ==> names[..n][i] == names[i];
  }

  lemma {:induction false} MissingStep(names: seq<string>, fields: Fields, n: nat)
    requires |names| == n + 1
    ensures MissingProblems(names, fields) == [] <==>
      MissingProblems(names[..n], fields) == [] && (names[n] == "Document Identifier" || !Blank(fields, names[n]))
  {
    hide Strip;
  }

  /** The generator asks for the same fields, except for the identifier. */
  lemma {:induction false} NoMissingProblems(names: seq<string>, fields: Fields)
    ensures MissingProblems(names, fields) == [] <==> OthersNamed(names, fields)
  {
    if names != [] {
      var n := |names| - 1;
      hide *;
      NoMissingProblems(names[..n], fields);
      MissingStep(names, fields, n);
      OthersNamedStep(names, fields, n);
    }
  }

  // ---- one document: the check's verdict on its fields ----

  predicate ReviewFits(o: Oracle, fields: Fields) {
    var nr := Strip(Get(fields, "Next Review", ""));
    nr != "" && o.dateShaped(nr) && o.isoDate(nr).Some?
  }

  predicate StatusFits(fields: Fields) {
    var s := Strip(Get(fields, "Status", ""));
    s == "" || IsStatus(s)
  }

  predicate ClassificationFits(fields: Fields) {
    var s := Strip(Get(fields, "Classification", ""));
    s == "" || IsClassification(s)
  }

  predicate ApproverFits(fields: Fields) { "Approver" in fields ==> Strip(fields["Approver"]) != "" }

  predicate IdentFits(o: Oracle, ident: string, path: string) {
    ident == "" || (IdFits(o, path, ident) && (FilenameExempt(path) || Stem(path) == ident))
  }

  /** What a document claimed to be Compliant has to satisfy. */
  predicate FieldsFit(o: Oracle, fields: Fields, doc: Doc) {
    && AllNamed(REQUIRED_FIELDS, fields)
    && StatusFits(fields) && ClassificationFits(fields) && ApproverFits(fields) && ReviewFits(o, fields)
    && RevisionHistory(doc.text) == Some(REVISION_COLUMNS)
  }

  lemma {:induction false} PassingReview(o: Oracle, today: int, fields: Fields, path: string, claim: string)
    ensures Passing(ReviewFindings(o, today, fields, path, claim)) <==> claim != "Compliant" || ReviewFits(o, fields)
  {
    var nr := Strip(Get(fields, "Next Review", ""));
    hide Strip, Get;
    if nr == "" || !o.dateShaped(nr) || o.isoDate(nr).None? {
      assert ReviewFindings(o, today, fields, path, claim)[0] == ContentFinding(C08, path, claim);
    } else {
      PassingWhen(o.isoDate(nr).value < today, C08, path, "Non-compliant");
      assert |"Non-compliant"| != |"Compliant"|;
    }
  }

  lemma {:induction false} PassingFields(o: Oracle, today: int, fields: Fields, doc: Doc, claim: string)
    ensures Passing(FieldFindings(o, today, fields, doc, claim)) <==> claim != "Compliant" || FieldsFit(o, fields, doc)
  {
    var status, classification := Strip(Get(fields, "Status", "")), Strip(Get(fields, "Classification", ""));
    var a := MissingFields(REQUIRED_FIELDS, fields, doc.path, claim);
    var b := ForbiddenFields(FORBIDDEN_FIELDS, fields, doc.path);
    var c := When(status != "" && !IsStatus(status), C05, doc.path, claim);
    var d := When(classification != "" && !IsClassification(classification), C06, doc.path, claim);
    var e := When("Approver" in fields && Strip(fields["Approver"]) == "", C07, doc.path, claim);
    var f := ReviewFindings(o, today, fields, doc.path, claim);
    var g := When(RevisionHistory(doc.text) != Some(REVISION_COLUMNS), C09, doc.path, claim);
    assert FieldFindings(o, today, fields, doc, claim) == a + b + c + d + e + f + g;
    hide Strip, Get, IsStatus, IsClassification, RevisionHistory, REQUIRED_FIELDS, FORBIDDEN_FIELDS, REVISION_COLUMNS,
         MissingFields, ForbiddenFields, ReviewFindings, ReviewFits, When, Passing, FieldFindings, AllNamed;
    PassingMissing(REQUIRED_FIELDS, fields, doc.path, claim);
    PassingForbidden(FORBIDDEN_FIELDS, fields, doc.path);
    PassingWhen(status != "" && !IsStatus(status), C05, doc.path, claim);
    PassingWhen(classification != "" && !IsClassification(classification), C06, doc.path, claim);
    PassingWhen("Approver" in fields && Strip(fields["Approver"]) == "", C07, doc.path, claim);
    PassingReview(o, today, fields, doc.path, claim);
    PassingWhen(RevisionHistory(doc.text) != Some(REVISION_COLUMNS), C09, doc.path, claim);
    PassingAppend(a, b);
    PassingAppend(a + b, c);
    PassingAppend(a + b + c, d);
    PassingAppend(a + b + c + d, e);
    PassingAppend(a + b + c + d + e, f);
    PassingAppend(a + b + c + d + e + f, g);
  }

  lemma {:induction false} PassingIdent(o: Oracle, ident: string, path: string, claim: string)
    ensures Passing(IdentFindings(o, ident, path, claim)) <==> claim != "Compliant" || IdentFits(o, ident, path)
  {
    var a := When(ident != "" && !IdFits(o, path, ident), C11, path, claim);
    var b := When(ident != "" && !FilenameExempt(path) && Stem(path) != ident, C12, path, claim);
    hide IdFits, FilenameExempt, Stem, When, Passing;
    PassingWhen(ident != "" && !IdFits(o, path, ident), C11, path, claim);
    PassingWhen(ident != "" && !FilenameExempt(path) && Stem(path) != ident, C12, path, claim);
    PassingAppend(a, b);
  }

  /** The check's verdict on one document, claim by claim. */
  lemma {:induction false} PassingDoc(
      o: Oracle, today: int, register: Register, doc: Doc, row: map<string, string>, claim: string, fields: Fields)
    requires doc.path in register && register[doc.path] == row && row != map[]
    requires claim == Claim(row) && fields == ControlFields(doc.text)
    ensures claim != "Compliant" ==> Passing(DocFindings(o, today, register, doc))
    ensures claim == "Compliant" && !IsAnnex(doc.path) ==>
      (Passing(DocFindings(o, today, register, doc)) <==>
        fields != map[] && IdentFits(o, IdentOf(fields, row), doc.path) && FieldsFit(o, fields, doc))
  {
    var ident := IdentOf(fields, row);
    var a, b := IdentFindings(o, ident, doc.path, claim), FieldFindings(o, today, fields, doc, claim);
    var c := When(row != map[], C03, doc.path, claim);
    var annex := When(!o.annexName(Stem(doc.path)), C11, doc.path, claim);
    assert DocFindings(o, today, register, doc)
        == if IsAnnex(doc.path) then annex else a + if fields == map[] then c else b;
    hide *;
    PassingWhen(!o.annexName(Stem(doc.path)), C11, doc.path, claim);
    PassingWhen(row != map[], C03, doc.path, claim);
    PassingIdent(o, ident, doc.path, claim);
    PassingFields(o, today, fields, doc, claim);
    PassingAppend(a, b);
    PassingAppend(a, c);
  }

  // ---- one document: the generator's verdict ----

  lemma {:induction false} NineEmpty<T>(
      a: seq<T>, b: seq<T>, c: seq<T>, d: seq<T>, e: seq<T>, f: seq<T>, g: seq<T>, h: seq<T>, i: seq<T>)
    ensures a + b + c + d + e + f + g + h + i == [] <==>
      a == [] && b == [] && c == [] && d == [] && e == [] && f == [] && g == [] && h == [] && i == []
  {
    assert |a + b + c + d + e + f + g + h + i| == |a| + |b| + |c| + |d| + |e| + |f| + |g| + |h| + |i|;
  }

  lemma {:induction false} NoReviewProblems(o: Oracle, today: int, fields: Fields)
    ensures ReviewProblems(o, today, fields) == [] <==> ReviewFits(o, fields) && NotOverdue(o, today, fields)
  {
    hide Strip, Get;
  }

  lemma {:induction false} NoHistoryProblems(text: string)
    ensures HistoryProblems(text) == [] <==> RevisionHistory(text) == Some(REVISION_COLUMNS)
  {
    hide RevisionHistory, REVISION_COLUMNS;
  }

  predicate NoneNamed(names: seq<string>, fields: Fields) { forall i :: 0 <= i < |names| ==> names[i] !in fields }

  lemma {:induction false} NoForbiddenProblems(names: seq<string>, fields: Fields)
    ensures ForbiddenProblems(names, fields) == [] <==> NoneNamed(names, fields)
  {
    if names != [] {
      var n := |names| - 1;
      NoForbiddenProblems(names[..n], fields);
      assert forall i :: 0 <= i < n ==> names[..n][i] == names[i];
    }
  }

  /** The review date, if it is one, is not yet over. */
  predicate NotOverdue(o: Oracle, today: int, fields: Fields) {
    var day := o.isoDate(Strip(Get(fields, "Next Review", "")));
    day.Some? ==> day.value >= today
  }

  /** A document that satisfies every rule, the naming of its identifier apart, and whose review is not overdue. */
  predicate Faultless(o: Oracle, today: int, fields: Fields, text: string) {
    && OthersNamed(REQUIRED_FIELDS, fields) && NoneNamed(FORBIDDEN_FIELDS, fields)
    && StatusFits(fields) && ClassificationFits(fields) && ApproverFits(fields) && ReviewFits(o, fields)
    && NotOverdue(o, today, fields) && RevisionHistory(text) == Some(REVISION_COLUMNS)
  }

  lemma {:induction false} ContentProblemsAre(
      o: Oracle, today: int, doc: Doc, fields: Fields, ident: string, status: string, classification: string)
    requires status == Strip(Get(fields, "Status", "")) && classification == Strip(Get(fields, "Classification", ""))
    ensures ContentProblems(o, today, doc, fields, ident) == [] <==>
      (MissingProblems(REQUIRED_FIELDS, fields) == [] && ForbiddenProblems(FORBIDDEN_FIELDS, fields) == []
       && (status == "" || IsStatus(status)) && (classification == "" || IsClassification(classification))
       && ("Approver" in fields ==> Strip(fields["Approver"]) != "")
       && ReviewProblems(o, today, fields) == [] && HistoryProblems(doc.text) == [] && IdentFits(o, ident, doc.path))
  {
    var a, b := MissingProblems(REQUIRED_FIELDS, fields), ForbiddenProblems(FORBIDDEN_FIELDS, fields);
    var c := One(status != "" && !IsStatus(status), BadStatus(status));
    var d := One(classification != "" && !IsClassification(classification), BadClassification(classification));
    var e := One("Approver" in fields && Strip(fields["Approver"]) == "", BlankApprover);
    var f, g := ReviewProblems(o, today, fields), HistoryProblems(doc.text);
    var h := One(ident != "" && !FilenameExempt(doc.path) && Stem(doc.path) != ident, FilenameNotIdentifier);
    var i := One(ident != "" && !IdFits(o, doc.path, ident), WrongPattern(ident));
    assert ContentProblems(o, today, doc, fields, ident) == a + b + c + d + e + f + g + h + i;
    hide Strip, Get, IsStatus, IsClassification, REQUIRED_FIELDS, FORBIDDEN_FIELDS, MissingProblems, ForbiddenProblems,
         ReviewProblems, HistoryProblems, IdFits, Stem, FilenameExempt, ContentProblems;
    NineEmpty(a, b, c, d, e, f, g, h, i);
  }

  /** The generator finds no problem with exactly those documents that are faultless and whose identifier, if there is
      one, fits the place. */
  lemma {:induction false} NoProblemsExactly(o: Oracle, today: int, doc: Doc, fields: Fields, ident: string)
    ensures ContentProblems(o, today, doc, fields, ident) == [] <==>
      Faultless(o, today, fields, doc.text) && IdentFits(o, ident, doc.path)
  {
    hide Strip, Get, IsStatus, IsClassification, REQUIRED_FIELDS, FORBIDDEN_FIELDS, REVISION_COLUMNS, MissingProblems,
         ForbiddenProblems, ReviewProblems, HistoryProblems, RevisionHistory, ReviewFits, NotOverdue, OthersNamed, NoneNamed,
         IdentFits, ContentProblems;
    ContentProblemsAre(o, today, doc, fields, ident, Strip(Get(fields, "Status", "")),
                       Strip(Get(fields, "Classification", "")));
    NoMissingProblems(REQUIRED_FIELDS, fields);
    NoForbiddenProblems(FORBIDDEN_FIELDS, fields);
    NoReviewProblems(o, today, fields);
    NoHistoryProblems(doc.text);
  }

  lemma {:induction false} RequiredExceptIdent(fields: Fields)
    requires OthersNamed(REQUIRED_FIELDS, fields)
    ensures fields != map[]
    ensures AllNamed(REQUIRED_FIELDS, fields) <==> !Blank(fields, "Document Identifier")
  {
    assert |REQUIRED_FIELDS| > 1 && REQUIRED_FIELDS[1] == "Document Identifier";
    assert REQUIRED_FIELDS[0] != "Document Identifier" by { assert |"Document Title"| != |"Document Identifier"|; }
    hide Strip, REQUIRED_FIELDS;
    assert !Blank(fields, REQUIRED_FIELDS[0]);
  }

  /** A document the generator finds no fault with satisfies every rule, if it names its identifier. */
  lemma {:induction false} NoProblems(o: Oracle, today: int, doc: Doc, fields: Fields, ident: string)
    requires ContentProblems(o, today, doc, fields, ident) == []
    ensures fields != map[] && IdentFits(o, ident, doc.path)
    ensures FieldsFit(o, fields, doc) <==> !Blank(fields, "Document Identifier")
  {
    hide Strip, REQUIRED_FIELDS, FORBIDDEN_FIELDS, REVISION_COLUMNS, RevisionHistory, StatusFits, ClassificationFits,
         ApproverFits, ReviewFits, NotOverdue, OthersNamed, NoneNamed, AllNamed, Blank, IdentFits, ContentProblems;
    NoProblemsExactly(o, today, doc, fields, ident);
    RequiredExceptIdent(fields);
  }
}
