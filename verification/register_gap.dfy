/** Where the two scripts do disagree, and where a second regeneration does change
    the text: documents and a register for which it happens. */
module RegisterGap {
  import opened Text
  import opened DocRules
  import opened GenRegister
  import opened CheckDocs
  import opened RegisterPrint
  import opened RegisterRoundTrip
  import opened RegisterPreamble
  import opened RegisterEntries
  import opened RegisterAgreement
  import opened RegisterTheorems
  import opened RegisterFixedPoint
  import opened RegisterWording
  import opened RegisterPremises
  import opened RegisterFilled

  // ---- the two places ----

  const DASH_PATH := "docs/—.md"

  lemma {:induction false} DashParts(dir: string, name: string)
    requires dir == "docs" && name == "—.md"
    ensures '/' !in dir && '/' !in name && DASH_PATH == dir + ['/'] + name
  {}

  lemma {:induction false} DashStem()
    ensures Stem(DASH_PATH) == DASH
  {
    var dir, name := "docs", "—.md";
    assert |name| == 4 && name[..1] == DASH;
    hide *;
    DashParts(dir, name);
    TwoParts(dir, name, DASH_PATH, '/');
    StemOfParts(DASH_PATH, dir, name);
  }

  lemma {:induction false} DashIsGood()
    ensures GoodPath(DASH_PATH)
  {
    var path := DASH_PATH;
    assert path[|path| - 3..] == ".md" && |path| == 9;
  }

  lemma {:induction false} DashIsNoAnnex()
    ensures !IsAnnex(DASH_PATH) && DASH_PATH != INDEX && DASH_PATH != REGISTER
  {
    assert DASH_PATH[5] == '—' && INDEX[5] == 'R' && REGISTER[5] == 'i' && "docs/design/mockups/"[5] == 'd';
  }

  lemma {:induction false} IndexIsNoAnnex()
    ensures !IsAnnex(INDEX) && GoodPath(INDEX) && INDEX != REGISTER
  {
    var path := INDEX;
    assert |path| == 14 && path[11..] == ".md" && path[5] == 'R' && "docs/design/mockups/"[5] == 'd';
    assert REGISTER[5] == 'i';
  }

  lemma {:induction false} PlacesAreOpen(o: Oracle)
    ensures GapPlace(o, INDEX) && GapPlace(o, DASH_PATH)
  {
    var path := DASH_PATH;
    assert |path| > 5 && path[5] == '—' && '—' !in PATTERN_LETTERS;
    DashStem();
    hide Stem, IdFits, INDEX, DASH, REGISTER, DASH_PATH, PATTERN_LETTERS;
    NoPattern(o, path, DASH);
  }

  lemma {:induction false} EmptyNeat()
    ensures Neat("")
  {}

  /** A gap does occur at both places, whatever the patterns and the calendar: a document at `docs/README.md`, and one at
      `docs/—.md`, that has a fitting header and a review still to come, and leaves its identifier empty. */
  lemma {:induction false} GapsOccur(o: Oracle, today: int, h: Header, iso: string, p: Prose, text: string)
    requires NeatHeader(h) && GoodProse(p) && Neat(iso)
    requires HeaderFits(o, h) && o.isoDate(h.nextReview).value >= today
    requires text == FilledText(h, iso, p, "")
    ensures IdentifierGap(o, today, Doc(INDEX, text)) && IdentifierGap(o, today, Doc(DASH_PATH, text))
  {
    EmptyNeat();
    DashIsNoAnnex();
    IndexIsNoAnnex();
    hide NeatHeader, GoodProse, Neat, HeaderFits, FilledText, ControlFields, Blank, Faultless, GapPlace, IsAnnex, INDEX,
      DASH_PATH;
    PlacesAreOpen(o);
    FilledIsFaultless(o, today, h, iso, p, "", ControlFields(text), text);
  }

  // ---- what follows ----

  lemma {:induction false} IsoIsNeat(day: Day)
    requires GoodDay(day)
    ensures Neat(day.iso)
  {
    hide Neat;
  }

  /** So a tree with such a document fails the check right after a regeneration, whatever the register held before. */
  lemma {:induction false} GapFailsTheCheck(
      o: Oracle, p: Prose, day: Day, h: Header, docs: seq<Doc>, gap: Doc, previous: string, text: string, today: int,
      disk: set<string>)
    requires GoodProse(p) && GoodDay(day) && AcceptsRegister(o)
    requires NeatHeader(h) && HeaderFits(o, h) && o.isoDate(h.nextReview).value >= day.ordinal
    requires gap.path == INDEX || gap.path == DASH_PATH
    requires gap.text == FilledText(h, day.iso, p, "")
    requires docs == [Doc(REGISTER, previous), gap] && disk == PathSet(docs)
    requires text == Generated(o, p, day, docs, previous)
    ensures !Passing(Findings(o, today, disk, Rewritten(docs, text), text))
  {
    hide *;
    IsoIsNeat(day);
    GapsOccur(o, day.ordinal, h, day.iso, p, gap.text);
    DashIsGood();
    DashIsNoAnnex();
    IndexIsNoAnnex();
    RegisterPathGood();
    WholeDoc(gap);
    TwoDocuments(docs, gap);
    SomeGap(o, day.ordinal, docs, 1);
    RegenerationPasses(o, p, day, docs, previous, today, disk, text);
  }

  lemma {:induction false} WholeDoc(d: Doc)
    ensures d == Doc(d.path, d.text)
  {}

  lemma {:induction false} SomeGap(o: Oracle, today: int, docs: seq<Doc>, i: int)
    requires 0 <= i < |docs| && docs[i].path != REGISTER && IdentifierGap(o, today, docs[i])
    ensures !NoGaps(o, today, docs)
  {
    hide IdentifierGap, REGISTER;
  }

  lemma {:induction false} TwoDocuments(docs: seq<Doc>, gap: Doc)
    requires |docs| == 2 && docs[0].path == REGISTER && docs[1] == gap
    requires GoodPath(REGISTER) && GoodPath(gap.path) && gap.path != REGISTER
    ensures GoodTree(docs) && REGISTER in PathSet(docs)
  {
    hide GoodPath;
    assert docs[0] in docs && docs[0].path == REGISTER;
  }

  /** And the first regeneration of an empty register is not yet settled: a second one on the same day writes another
      text. */
  lemma {:induction false} EmptyRegisterUnsettled(o: Oracle, day: Day, docs: seq<Doc>, text: string)
    requires GoodTree(docs) && GoodDay(day) && RealReview(day)
    requires text == Generated(o, Wording(), day, docs, "")
    ensures Generated(o, Wording(), day, Rewritten(docs, text), text) != text
  {
    NothingUnsettled();
    hide *;
    NothingBefore();
    RealRegisterSettles(o, day, docs, "", text);
  }

  lemma {:induction false} NothingUnsettled()
    ensures !Settled(map[])
  {
    hide Strip, Get;
  }
}
