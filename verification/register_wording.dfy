/** The sentences the generator prints around the tables, and that no reader of
    the register takes any of them for a row or a heading of its own. */
module RegisterWording {
  import opened Text
  import opened DocRules
  import opened GenRegister
  import opened CheckDocs
  import opened RegisterPrint
  import opened RegisterPreamble
  import opened RegisterEntries
  import opened RegisterTheorems
  import opened RegisterFixedPoint
  import opened RegisterVerdict

  /** A character that shows: neither white space nor a bar. */
  predicate Ink(c: char) { ('!' <= c <= '~' && c != '|') || c == '—' || c == '\U{00A7}' }

  predicate IsWord(s: string) { s != "" && forall c :: c in s ==> Ink(c) }

  type Word = s: string | IsWord(s) witness "x"

  /** A text for a cell: no bar, no line break, and no white space at its ends. */
  predicate Solid(s: string) {
    PlainCell(s) && s != "" && !IsSpace(s[0]) && !IsSpace(s[|s| - 1])
  }

  lemma {:induction false} WordIsSolid(s: Word)
    ensures Solid(s)
  {
    assert IsWord(s);
    forall i | 0 <= i < |s| ensures !IsSpace(s[i]) && !IsLineBreak(s[i]) && s[i] != '|' {
      assert s[i] in s && Ink(s[i]);
    }
  }

  lemma {:induction false} SpacedPlain(a: string, b: string, s: string)
    requires PlainCell(a) && PlainCell(b) && s == a + [' '] + b
    ensures PlainCell(s)
  {
    forall i | 0 <= i < |s| ensures !IsLineBreak(s[i]) && s[i] != '|' {
      if i < |a| {
        assert s[i] == a[i] && a[i] in a;
      } else if i > |a| {
        assert s[i] == b[i - |a| - 1] && b[i - |a| - 1] in b;
      }
    }
  }

  /** Two texts with a space between them. */
  lemma {:induction false} SolidSpaced(a: string, b: string, s: string)
    requires Solid(a) && Solid(b) && s == a + [' '] + b
    ensures Solid(s) && s[0] == a[0]
  {
    SpacedPlain(a, b, s);
    hide IsSpace, PlainCell;
    assert s[0] == a[0] && s[|s| - 1] == b[|b| - 1];
  }

  /** Words with single spaces between them make a text for a cell, and a line that opens no table. */
  lemma {:induction false} WordsAreSolid(words: seq<Word>, s: string)
    requires words != [] && s == Join(words, ' ')
    ensures Solid(s) && s[0] == words[0][0]
  {
    WordIsSolid(words[0]);
    if |words| > 1 {
      var rest := Join(words[1..], ' ');
      assert s == words[0] + [' '] + rest;
      hide PlainCell, IsSpace, Join, IsWord;
      WordsAreSolid(words[1..], rest);
      SolidSpaced(words[0], rest, s);
    }
  }

  /** What a sentence has to be to stand in a cell or on a line of its own. */
  predicate Harmless(s: string) { Neat(s) && TextLine(s) && s != "" }

  lemma {:induction false} SolidIsHarmless(s: string)
    requires Solid(s)
    ensures Harmless(s) && s != ""
  {
    assert s[0] in s;
    hide IsSpace, OneLine;
  }

  type Phrase = s: string | Harmless(s) witness Sentence(["x"])

  /** A revision note, which also must not read like a column of the register. */
  type Note = s: string | Harmless(s) && NotColumn(s) witness Sentence(["x"])

  /** A text that starts with another letter than the two column headings. */
  lemma {:induction false} OtherStart(s: string)
    requires s != "" && s[0] != 'F' && s[0] != 'D'
    ensures NotColumn(s)
  {
    assert "File"[0] == 'F' && "Document Identifier"[0] == 'D';
  }

  lemma {:induction false} SentenceIsHarmless(words: seq<Word>, s: string)
    requires words != [] && s == Join(words, ' ')
    ensures Harmless(s) && (words[0][0] != 'F' && words[0][0] != 'D' ==> NotColumn(s))
  {
    hide *;
    WordsAreSolid(words, s);
    SolidIsHarmless(s);
    if s[0] != 'F' && s[0] != 'D' { OtherStart(s); }
  }

  function Sentence(words: seq<Word>): (s: string)
    requires words != []
    ensures Harmless(s) && (words[0][0] != 'F' && words[0][0] != 'D' ==> NotColumn(s))
  {
    SentenceIsHarmless(words, Join(words, ' '));
    Join(words, ' ')
  }

  // ---- the sentences ----

  const ISO_REFERENCE_1: seq<Word> := ["ISO", "9001:2015", "—", "Quality", "Management"]
  const ISO_REFERENCE_2: seq<Word> := ["Systems", "—", "Requirements"]
  const ISO_REFERENCE: Phrase := Sentence(ISO_REFERENCE_1 + ISO_REFERENCE_2)

  const RELATED_1: seq<Word> := ["`SOMA-01-DOCS-001.md`,"]
  const RELATED_2: seq<Word> := ["`SOMA-01-QMS-001.md`"]
  const RELATED: Phrase := Sentence(RELATED_1 + RELATED_2)

  const SOURCE_1: seq<Word> := ["This", "file,", "regenerated", "by"]
  const SOURCE_2: seq<Word> := ["`scripts/gen_register.py`"]
  const SOURCE: Phrase := Sentence(SOURCE_1 + SOURCE_2)

  const AUDIENCE_1: seq<Word> := ["All", "contributors", "and"]
  const AUDIENCE_2: seq<Word> := ["compliance", "tooling"]
  const AUDIENCE: Phrase := Sentence(AUDIENCE_1 + AUDIENCE_2)

  const SCOPE: Phrase := Sentence(["Every", "`*.md`", "under", "`docs/`"])

  const SEEDED_1: seq<Word> := ["Initial", "issue.", "Register", "seeded"]
  const SEEDED_2: seq<Word> := ["from", "the", "working", "tree;", "pre-existing"]
  const SEEDED_3: seq<Word> := ["compliance", "gaps", "recorded", "as-is."]
  const SEEDED: Note := Sentence(SEEDED_1 + SEEDED_2 + SEEDED_3)

  const CORRECTED_1: seq<Word> := ["Identifier", "corrected", "to"]
  const CORRECTED_2: seq<Word> := ["`SOMA-01-DOCS-002`.", "Register", "lists"]
  const CORRECTED_3: seq<Word> := ["itself."]
  const CORRECTED: Note := Sentence(CORRECTED_1 + CORRECTED_2 + CORRECTED_3)

  const REGENERATED_1: seq<Word> := ["Regenerated", "by", "`scripts/gen_register.py`"]
  const REGENERATED_2: seq<Word> := ["after", "the", "documentation", "tree", "was", "renamed", "to"]
  const REGENERATED_3: seq<Word> := ["the", "`SOMA-<DOMAIN>-<TYPE>-<NNN>`"]
  const REGENERATED_4: seq<Word> := ["scheme."]
  const REGENERATED: Note := Sentence(REGENERATED_1 + REGENERATED_2 + REGENERATED_3 + REGENERATED_4)

  const PURPOSE_HEADING: Phrase := Sentence(["##", "1.", "Purpose"])

  const INVENTORY_1: seq<Word> := ["Authoritative", "inventory", "of", "every"]
  const INVENTORY_2: seq<Word> := ["`*.md`", "under", "`docs/`,", "as", "required"]
  const INVENTORY_3: seq<Word> := ["by", "`SOMA-01-DOCS-001`", "\U{00A7}4."]
  const INVENTORY: Phrase := Sentence(INVENTORY_1 + INVENTORY_2 + INVENTORY_3)

  const DATA_1: seq<Word> := ["This", "file", "is", "**data**,", "not", "analysis."]
  const DATA_2: seq<Word> := ["Interpretation", "lives", "in"]
  const DATA_3: seq<Word> := ["`SOMA-01-DOCS-001`", "and", "the", "UI/UX"]
  const DATA_4: seq<Word> := ["suite."]
  const DATA: Phrase := Sentence(DATA_1 + DATA_2 + DATA_3 + DATA_4)

  const COMPUTED_1: seq<Word> := ["`Compliance`", "is", "computed", "by"]
  const COMPUTED_2: seq<Word> := ["`scripts/gen_register.py`", "from"]
  const COMPUTED_3: seq<Word> := ["`SOMA-01-DOCS-001`", "\U{00A7}5.2", "content"]
  const COMPUTED_4: seq<Word> := ["rules."]
  const COMPUTED: Phrase := Sentence(COMPUTED_1 + COMPUTED_2 + COMPUTED_3 + COMPUTED_4)

  const VERIFIED_1: seq<Word> := ["`scripts/check_docs.py`", "then"]
  const VERIFIED_2: seq<Word> := ["verifies", "the", "claim.", "A", "row", "marked"]
  const VERIFIED_3: seq<Word> := ["`Compliant`", "has", "no", "content", "gaps;"]
  const VERIFIED: Phrase := Sentence(VERIFIED_1 + VERIFIED_2 + VERIFIED_3)

  const TRACKED_1: seq<Word> := ["a", "row", "marked", "`Non-compliant`", "is", "a"]
  const TRACKED_2: seq<Word> := ["tracked", "gap,", "not", "a", "silent", "exception."]
  const TRACKED: Phrase := Sentence(TRACKED_1 + TRACKED_2)

  const REGISTER_HEADING: Phrase := Sentence(["##", "2.", "Register"])

  /** The wording of `scripts/gen_register.py`. */
  function Wording(): Prose {
    Prose(ISO_REFERENCE, RELATED, SOURCE, AUDIENCE, SCOPE, SEEDED, CORRECTED, REGENERATED, Purpose(), Remediation())
  }

  function Purpose(): seq<string> {
    [PURPOSE_HEADING, "", INVENTORY, DATA, "", COMPUTED, VERIFIED, TRACKED, "", REGISTER_HEADING, ""]
  }

  function Remediation(): seq<string> {
    ["## 4. Tracked remediation",
     "",
     "The dominant pre-existing gap is a missing `Next Review` field and a `Status` value outside",
     "the closed set `Draft | In Review | Approved | Obsolete` — both mandated by",
     "`PLAN-TRIAD-SEAMLESS` W5-3 and `SOMA-01-DOCS-001` \U{00A7}3.1, both absent across the legacy suite.",
     "Remediation is performed at each document's next scheduled revision under",
     "`SOMA-01-QMS-001` improvement plan item IMP-C3. Non-compliant rows remain listed and visible;",
     "they are never dropped from the register.",
     "",
     "End of Document"]
  }

  lemma {:induction false} HarmlessIsText(s: string)
    requires s == "" || Harmless(s)
    ensures TextLine(s)
  {
    hide Neat, IsSpace, IsLineBreak;
  }

  lemma {:induction false} PurposeIsText(lines: seq<string>)
    requires lines == Purpose()
    ensures forall i :: 0 <= i < |lines| ==> TextLine(lines[i])
  {
    hide PURPOSE_HEADING, INVENTORY, DATA, COMPUTED, VERIFIED, TRACKED, REGISTER_HEADING, TextLine, Harmless, Sentence;
    forall i | 0 <= i < |lines| ensures TextLine(lines[i]) { HarmlessIsText(lines[i]); }
  }

  /** The generator's wording stays within its cells and opens no table and no heading of its own. */
  lemma {:induction false} WordingIsGood()
    ensures GoodProse(Wording())
  {
    hide ISO_REFERENCE, RELATED, SOURCE, AUDIENCE, SCOPE, SEEDED, CORRECTED, REGENERATED, Purpose, Remediation, Neat,
      NotColumn, TextLine;
    PurposeIsText(Purpose());
  }

  // ---- the register as it is really printed ----

  /** With the generator's own wording: after a regeneration the check fails nothing but rule C-10, whatever day it
      runs, exactly when the kept header fits the field rules and no document leaves an identifier gap. */
  lemma {:induction false} RealRegisterPasses(
      o: Oracle, day: Day, docs: seq<Doc>, previous: string, today: int, disk: set<string>, text: string)
    requires GoodTree(docs) && GoodDay(day) && AcceptsRegister(o)
    requires REGISTER in PathSet(docs) && PathSet(docs) <= disk
    requires text == Generated(o, Wording(), day, docs, previous)
    ensures Passing(Findings(o, today, disk, Rewritten(docs, text), text)) <==>
      HeaderFits(o, HeaderOf(ControlFields(previous), day)) && NoGaps(o, day.ordinal, docs)
  {
    hide *;
    WordingIsGood();
    RegenerationPasses(o, Wording(), day, docs, previous, today, disk, text);
  }

  /** With the generator's own wording: after a regeneration the check exits with success, on whatever day it runs,
      exactly when besides that the quality manual fits the documents and, in strict mode, the generator found no
      problem with any of them. */
  lemma {:induction false} RealRegisterVerdict(
      o: Oracle, day: Day, docs: seq<Doc>, previous: string, today: int, disk: set<string>, text: string,
      manual: set<string>, strict: bool)
    requires GoodTree(docs) && GoodDay(day) && AcceptsRegister(o)
    requires REGISTER in PathSet(docs) && PathSet(docs) <= disk
    requires text == Generated(o, Wording(), day, docs, previous)
    ensures Reported(o, today, disk, Rewritten(docs, text), Some(text), Some(manual)).Exit(strict) == 0 <==>
      (HeaderFits(o, HeaderOf(ControlFields(previous), day)) && NoGaps(o, day.ordinal, docs)
       && ManualFits(o, manual, Expectation(o, day.ordinal, docs)) && (strict ==> NoneFaulty(o, day.ordinal, docs)))
  {
    hide *;
    WordingIsGood();
    RegenerationVerdict(o, Wording(), day, docs, previous, today, disk, text, manual, strict);
  }

  /** With the generator's own wording: regenerating on the same day changes nothing exactly when the previous text
      carried a version, a next review and the register's identifier (or no identifier at all). */
  lemma {:induction false} RealRegisterSettles(o: Oracle, day: Day, docs: seq<Doc>, previous: string, text: string)
    requires GoodTree(docs) && GoodDay(day) && RealReview(day)
    requires text == Generated(o, Wording(), day, docs, previous)
    ensures Generated(o, Wording(), day, Rewritten(docs, text), text) == text <==> Settled(ControlFields(previous))
  {
    hide *;
    WordingIsGood();
    RegenerationIsFixedPoint(o, Wording(), day, docs, previous, text);
  }
}
