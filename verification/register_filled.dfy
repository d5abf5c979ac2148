/** A document with its fields filled in and a revision history, as text: what the
    readers find in it, and when it is faultless. */
module RegisterFilled {
  import opened Text
  import opened DocRules
  import opened GenRegister
  import opened CheckDocs
  import opened RegisterPrint
  import opened RegisterPreamble
  import opened RegisterReadBack
  import opened RegisterAgreement
  import opened RegisterTheorems

  /** The ten required fields, filled in but for the identifier. */
  function FilledPairs(h: Header, p: Prose, ident: string): seq<(string, string)> {
    assert |ControlPairs(h, p)| == 14;
    ControlPairs(h, p)[..10][1 := ("Document Identifier", ident)]
  }

  function FilledTable(h: Header, p: Prose, ident: string): seq<string> {
    [Row(["Field", "Value"]), Ruler(2)] + PairRows(FilledPairs(h, p, ident))
  }

  /** A document with these fields and a revision history. */
  function FilledText(h: Header, iso: string, p: Prose, ident: string): string {
    Unlines(Section("## Document Control", FilledTable(h, p, ident),
                    Section("## Revision History", HistoryTable(iso, p), [])))
  }

  lemma {:induction false} FilledPairsGood(h: Header, p: Prose, ident: string, pairs: seq<(string, string)>)
    requires NeatHeader(h) && GoodProse(p) && Neat(ident) && pairs == FilledPairs(h, p, ident)
    ensures GoodPairs(pairs) && DistinctKeys(pairs) && |pairs| == 10
  {
    var all := ControlPairs(h, p);
    FilledPairsAre(h, p, ident, all, pairs);
    hide *;
    PairsGood(h, p, all);
    PairsDistinct(h, p, all);
    KeyIdentifier();
    OneReplaced(all, pairs, "Document Identifier", ident);
  }

  lemma {:induction false} FilledPairsAre(
      h: Header, p: Prose, ident: string, all: seq<(string, string)>, pairs: seq<(string, string)>)
    requires all == ControlPairs(h, p) && pairs == FilledPairs(h, p, ident)
    ensures |all| == 14 && |pairs| == 10
    ensures all[1].0 == "Document Identifier" && pairs[1] == ("Document Identifier", ident)
    ensures forall i :: 0 <= i < 10 && i != 1 ==> pairs[i] == all[i]
  {}

  lemma {:induction false} OneReplaced(
      all: seq<(string, string)>, pairs: seq<(string, string)>, key: string, value: string)
    requires |all| == 14 && |pairs| == 10 && all[1].0 == key && pairs[1] == (key, value)
    requires forall i :: 0 <= i < 10 && i != 1 ==> pairs[i] == all[i]
    requires GoodPairs(all) && DistinctKeys(all) && GoodKey(key) && Neat(value)
    ensures GoodPairs(pairs) && DistinctKeys(pairs)
  {
    hide GoodKey, Neat;
    assert forall i :: 0 <= i < 10 ==> pairs[i].0 == all[i].0;
  }

  lemma {:induction false} FilledFields(h: Header, iso: string, p: Prose, ident: string)
    requires NeatHeader(h) && GoodProse(p) && Neat(iso) && Neat(ident)
    ensures ControlFields(FilledText(h, iso, p, ident)) == AddPairs(map[], FilledPairs(h, p, ident))
  {
    var pairs, table := FilledPairs(h, p, ident), FilledTable(h, p, ident);
    var below := Section("## Revision History", HistoryTable(iso, p), []);
    var text := FilledText(h, iso, p, ident);
    assert text == Unlines(Section("## Document Control", table, below));
    assert table == [Row(["Field", "Value"]), Ruler(2)] + PairRows(pairs);
    hide *;
    FilledPairsGood(h, p, ident, pairs);
    FieldTableLines(pairs, table);
    ControlTitled();
    ControlFolded();
    SectionFound("## Document Control", "Document Control", "document control", table, below);
    ControlFieldsFrom(text, Unlines([""] + (table + ([""] + below))));
    SplitSection(table, below);
    FieldTableRead(pairs, table, [""] + SplitLines(Unlines(below)));
  }

  lemma {:induction false} FilledHistory(h: Header, iso: string, p: Prose, ident: string)
    requires NeatHeader(h) && GoodProse(p) && Neat(iso) && Neat(ident)
    ensures RevisionHistory(FilledText(h, iso, p, ident)) == Some(REVISION_COLUMNS)
  {
    var pairs, control, table := FilledPairs(h, p, ident), FilledTable(h, p, ident), HistoryTable(iso, p);
    var below, text := Section("## Revision History", table, []), FilledText(h, iso, p, ident);
    assert text == Unlines(Section("## Document Control", control, below));
    assert control == [Row(["Field", "Value"]), Ruler(2)] + PairRows(pairs);
    assert |"revision history"| == 16;
    hide *;
    FilledPairsGood(h, p, ident, pairs);
    FieldTableLines(pairs, control);
    ControlTitled();
    ControlIsNotHistory();
    SectionPassed("## Document Control", "Document Control", "revision history", control, below);
    HistoryTableLines(iso, p, table);
    HistoryTitled();
    HistoryFolded();
    SectionFound("## Revision History", "Revision History", "revision history", table, []);
    RevisionHistoryFrom(text, Unlines([""] + (table + ([""] + []))));
    SplitSection(table, []);
    var first, more := Row(REVISION_COLUMNS), table[1..];
    var tail := [""] + SplitLines(Unlines([]));
    Reassociate([first], more, tail);
    RevisionTableRead(first, more + tail);
  }

  lemma {:induction false} FilledRequired(h: Header, p: Prose, ident: string, fields: Fields)
    requires NeatHeader(h) && GoodProse(p) && Neat(ident) && fields == AddPairs(map[], FilledPairs(h, p, ident))
    requires h.version != "" && h.date != "" && h.status != "" && h.approver != "" && h.nextReview != ""
    ensures Blank(fields, "Document Identifier") <==> ident == ""
    ensures "Document Identifier" in fields && Strip(fields["Document Identifier"]) == ident
    ensures OthersNamed(REQUIRED_FIELDS, fields)
  {
    var pairs, all, names := FilledPairs(h, p, ident), ControlPairs(h, p), REQUIRED_FIELDS;
    assert p.isoReference != "";
    KeysOfHeader(h, p, all, names);
    ValuesOfHeader(h, p, all);
    assert names[1] == "Document Identifier" && pairs[1] == ("Document Identifier", ident);
    assert OthersNamed(names, fields) <==>
      forall i :: 0 <= i < |names| ==> names[i] == "Document Identifier" || !Blank(fields, names[i]);
    assert forall i :: 0 <= i < 10 && i != 1 ==> pairs[i] == all[i];
    hide *;
    FilledPairsGood(h, p, ident, pairs);
    NotBlank(fields, pairs, 1, "Document Identifier", ident);
    FieldAt(fields, pairs, 1, "Document Identifier", ident);
    forall i | 0 <= i < |names| ensures names[i] == "Document Identifier" || !Blank(fields, names[i]) {
      if i != 1 { NotBlank(fields, pairs, i, names[i], pairs[i].1); }
    }
  }

  lemma {:induction false} ForbiddenDiffer(names: seq<string>, forbidden: seq<string>, i: int, j: int)
    requires names == REQUIRED_FIELDS && forbidden == FORBIDDEN_FIELDS && 0 <= i < 10 && 0 <= j < 5
    ensures names[i] != forbidden[j]
  {
    var n, f := [14, 19, 7, 4, 6, 6, 8, 14, 13, 11], [14, 12, 6, 11, 15];
    assert forall k :: 0 <= k < 10 ==> |names[k]| == n[k];
    assert forall k :: 0 <= k < 5 ==> |forbidden[k]| == f[k];
    assert names[0][0] == 'D' && names[7][0] == 'C' && forbidden[0][0] == 'E';
    assert names[4][0] == 'S' && names[5][0] == 'A' && forbidden[2][0] == 'D';
    assert names[9][0] == 'N' && forbidden[3][0] == 'D';
  }

  lemma {:induction false} FilledAllowed(h: Header, p: Prose, ident: string, fields: Fields)
    requires fields == AddPairs(map[], FilledPairs(h, p, ident)) && p.isoReference != ""
    ensures NoneNamed(FORBIDDEN_FIELDS, fields)
  {
    var pairs, names, forbidden := FilledPairs(h, p, ident), REQUIRED_FIELDS, FORBIDDEN_FIELDS;
    KeysOfHeader(h, p, ControlPairs(h, p), names);
    assert |pairs| == 10 && |forbidden| == 5 && names[1] == "Document Identifier";
    assert forall i :: 0 <= i < 10 ==> pairs[i].0 == names[i];
    hide FilledPairs, ControlPairs, REQUIRED_FIELDS, FORBIDDEN_FIELDS, AddPairs;
    forall j | 0 <= j < |forbidden| ensures forbidden[j] !in fields {
      forall i | 0 <= i < 10 ensures pairs[i].0 != forbidden[j] { ForbiddenDiffer(names, forbidden, i, j); }
      AddPairsOther(map[], pairs, forbidden[j]);
    }
  }

  lemma {:induction false} FilledRest(o: Oracle, h: Header, p: Prose, ident: string, fields: Fields)
    requires NeatHeader(h) && GoodProse(p) && Neat(ident) && HeaderFits(o, h)
    requires fields == AddPairs(map[], FilledPairs(h, p, ident))
    ensures StatusFits(fields) && ClassificationFits(fields) && ApproverFits(fields) && ReviewFits(o, fields)
    ensures Strip(Get(fields, "Next Review", "")) == h.nextReview
  {
    var pairs := FilledPairs(h, p, ident);
    assert |pairs| == 10 && pairs[4] == ("Status", h.status) && pairs[7] == ("Classification", "Internal")
        && pairs[6] == ("Approver", h.approver) && pairs[9] == ("Next Review", h.nextReview);
    assert IsClassification("Internal");
    hide FilledPairs, AddPairs, NeatHeader, GoodProse, GoodPairs, DistinctKeys, Strip, Get, IsStatus, IsClassification;
    FilledPairsGood(h, p, ident, pairs);
    FieldAt(fields, pairs, 4, "Status", h.status);
    FieldAt(fields, pairs, 7, "Classification", "Internal");
    FieldAt(fields, pairs, 6, "Approver", h.approver);
    FieldAt(fields, pairs, 9, "Next Review", h.nextReview);
  }

  /** Such a document is faultless as long as its review is not overdue, and names the identifier it was given. */
  lemma {:induction false} FilledIsFaultless(
      o: Oracle, today: int, h: Header, iso: string, p: Prose, ident: string, fields: Fields, text: string)
    requires NeatHeader(h) && GoodProse(p) && Neat(iso) && Neat(ident) && HeaderFits(o, h)
    requires text == FilledText(h, iso, p, ident) && fields == ControlFields(text)
    ensures Faultless(o, today, fields, text) <==> o.isoDate(h.nextReview).value >= today
    ensures Blank(fields, "Document Identifier") <==> ident == ""
    ensures "Document Identifier" in fields && Strip(fields["Document Identifier"]) == ident
  {
    assert h.version != "" && h.date != "" && h.approver != "" && h.nextReview != "" && IsStatus(h.status);
    assert o.isoDate(h.nextReview).Some?;
    assert h.status != "";
    assert p.isoReference != "";
    hide NeatHeader, GoodProse, Neat, HeaderFits, AddPairs, FilledPairs, FilledText, REQUIRED_FIELDS, FORBIDDEN_FIELDS,
      Strip, Get, IsStatus, RevisionHistory, REVISION_COLUMNS, StatusFits, ClassificationFits, ApproverFits, ReviewFits,
      Blank, OthersNamed, NoneNamed, ControlFields;
    FilledFields(h, iso, p, ident);
    FilledRequired(h, p, ident, fields);
    FilledAllowed(h, p, ident, fields);
    FilledRest(o, h, p, ident, fields);
    FilledHistory(h, iso, p, ident);
  }

  // ---- file names ----

  lemma {:induction false} TwoParts(a: string, b: string, s: string, c: char)
    requires c !in a && c !in b && s == a + [c] + b
    ensures Split(s, c) == [a, b]
  {
    hide Split;
    SplitAtFirst(a, c, b);
    SplitStep(b, c, IndexOf(b, c));
  }

  lemma {:induction false} StemOfParts(path: string, dir: string, name: string)
    requires Split(path, '/') == [dir, name] && |name| > 3
    ensures Stem(path) == name[..|name| - 3]
  {
    hide Split;
  }
}
