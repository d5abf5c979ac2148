/** The premises of the register's theorems can be met together. */
module RegisterPremises {
  import opened Text
  import opened DocRules
  import opened GenRegister
  import opened CheckDocs
  import opened RegisterPrint
  import opened RegisterRoundTrip
  import opened RegisterPreamble
  import opened RegisterEntries
  import opened RegisterTheorems
  import opened RegisterFixedPoint
  import opened RegisterWording

  function SamplePatterns(): Oracle {
    Oracle(s => s != "", s => if s == "" then None else Some(0), (prefix, ident) => ident != "", name => name != "",
           ident => false)
  }

  lemma {:induction false} NothingBefore()
    ensures ControlFields("") == map[]
  {
    assert StartsWith("", "##") == false;
    assert HeadingHere("", "document control").None?;
    hide HeadingHere, ControlWalk;
  }

  lemma {:induction false} SampleHeader(day: Day, h: Header)
    requires Neat(day.iso) && day.iso != "" && Neat(day.review) && day.review != ""
    requires h == HeaderOf(map[], day)
    ensures HeaderFits(SamplePatterns(), h)
  {
    NeatLiterals();
    var a, b, c, d := "1.0.1", "Draft", DASH, day.review;
    assert Trimmed(White, a) && Trimmed(White, b) && Trimmed(White, c) && Trimmed(White, d) && Trimmed(White, day.iso);
    assert h.version == Strip(a) && h.date == Strip(day.iso) && h.status == Strip(b) && h.approver == Strip(c)
        && h.nextReview == Strip(d);
    assert IsStatus(b) && a != "" && c != "";
    hide Strip, Trim, Trimmed, Neat, IsStatus, HeaderOf, DASH;
    assert forall s :: Strip(s) == Trim(White, s) by { StripTrims(); }
    TrimTrimmed(White, a);
    TrimTrimmed(White, b);
    TrimTrimmed(White, c);
    TrimTrimmed(White, d);
    TrimTrimmed(White, day.iso);
  }

  lemma {:induction false} StripTrims()
    ensures forall s :: Strip(s) == Trim(White, s)
  {
    hide Trim;
  }

  lemma {:induction false} OneDocument(docs: seq<Doc>)
    requires docs == [Doc(REGISTER, "")]
    ensures GoodTree(docs) && PathSet(docs) == {REGISTER} && IdentifiersNamed(docs)
  {
    RegisterPathGood();
    assert docs[0] in docs;
    hide GoodPath, ControlFields, IsAnnex;
  }

  lemma {:induction false} DayIsNeat(day: Day)
    requires GoodDay(day) && RealReview(day)
    ensures Neat(day.iso) && Neat(day.review) && day.review != ""
  {
    hide Neat;
  }

  lemma {:induction false} SampleAccepts()
    ensures AcceptsRegister(SamplePatterns())
  {}

  /** A tree that consists of an empty register, and any day with a date and a review date. */
  lemma {:induction false} PremisesCanBeMet(day: Day, docs: seq<Doc>, text: string)
    requires GoodDay(day) && day.iso != "" && RealReview(day)
    requires docs == [Doc(REGISTER, "")] && text == Generated(SamplePatterns(), Wording(), day, docs, "")
    ensures GoodTree(docs) && GoodProse(Wording()) && AcceptsRegister(SamplePatterns()) && IdentifiersNamed(docs)
    ensures REGISTER in PathSet(docs) && HeaderFits(SamplePatterns(), HeaderOf(ControlFields(""), day))
    ensures Passing(Findings(SamplePatterns(), 0, {REGISTER}, Rewritten(docs, text), text))
  {
    hide *;
    DayIsNeat(day);
    SampleAccepts();
    NothingBefore();
    SampleHeader(day, HeaderOf(map[], day));
    WordingIsGood();
    OneDocument(docs);
    RegenerationNeverFails(SamplePatterns(), Wording(), day, docs, "", 0, {REGISTER}, text);
  }
}
