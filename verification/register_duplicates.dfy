/** One identifier, two documents: what rule C-10 makes of them. */
module RegisterDuplicates {
  import opened Text
  import opened DocRules
  import opened GenRegister
  import opened CheckDocs
  import opened RegisterPrint
  import opened RegisterPreamble
  import opened RegisterAgreement
  import opened RegisterTheorems
  import opened RegisterVerdict
  import opened RegisterFilled

  /** The file of an identifier right under `docs/`, and one further down. */
  function Upper(ident: string): string { "docs" + ['/'] + (ident + ".md") }

  function Lower(ident: string): string { "docs" + ['/'] + ("b" + ['/'] + (ident + ".md")) }

  lemma {:induction false} Markdown(ident: string, name: string)
    requires ident != "" && '/' !in ident && name == ident + ".md"
    ensures '/' !in name && |name| > 3 && name[..|name| - 3] == ident
  {
    var dot := ".md";
    assert '/' !in dot && |dot| == 3;
    forall i | 0 <= i < |name| ensures name[i] != '/' {
      if i < |ident| { assert name[i] == ident[i] && ident[i] in ident; } else { assert name[i] == dot[i - |ident|]; }
    }
  }

  lemma {:induction false} Directories(docs: string, b: string)
    requires docs == "docs" && b == "b"
    ensures '/' !in docs && '/' !in b && |docs| == 4
  {}

  lemma {:induction false} StemOfThree(path: string, dir: string, rest: string, inner: string, name: string)
    requires '/' !in dir && '/' !in inner && '/' !in name && |name| > 3
    requires path == dir + ['/'] + rest && rest == inner + ['/'] + name
    ensures Stem(path) == name[..|name| - 3]
  {
    hide Split;
    TwoParts(inner, name, rest, '/');
    SplitAtFirst(dir, '/', rest);
    var parts := Split(path, '/');
    assert parts == [dir] + [inner, name] && parts[|parts| - 1] == name;
  }

  lemma {:induction false} Stems(ident: string)
    requires ident != "" && '/' !in ident
    ensures Stem(Upper(ident)) == ident && Stem(Lower(ident)) == ident
  {
    var name, docs, b := ident + ".md", "docs", "b";
    assert Upper(ident) == docs + ['/'] + name && Lower(ident) == docs + ['/'] + (b + ['/'] + name);
    hide *;
    Markdown(ident, name);
    Directories(docs, b);
    TwoParts(docs, name, Upper(ident), '/');
    StemOfParts(Upper(ident), docs, name);
    StemOfThree(Lower(ident), docs, b + ['/'] + name, b, name);
  }

  lemma {:induction false} Fifth(path: string, rest: string)
    requires path == "docs" + ['/'] + rest && rest != ""
    ensures |path| > 5 && path[5] == rest[0]
  {}

  lemma {:induction false} NoAnnexBut(path: string)
    requires |path| > 5 && path[5] != 'd' && path[5] != 'i'
    ensures !IsAnnex(path) && path != REGISTER
  {
    assert "docs/design/mockups/"[5] == 'd' && REGISTER[5] == 'i';
  }

  /** Outside the twelve directories, not an annex, not the register, and named after the identifier. */
  ghost predicate FreePlace(path: string, ident: string) {
    |path| > 5 && path[5] !in PATTERN_LETTERS && !IsAnnex(path) && path != REGISTER && Stem(path) == ident
  }

  /** What the check takes from a filled-in document under its own name, outside the twelve directories. */
  lemma {:induction false} NamedIsExpected(
      o: Oracle, today: int, h: Header, iso: string, p: Prose, ident: string, path: string, doc: Doc)
    requires NeatHeader(h) && GoodProse(p) && Neat(iso) && Neat(ident) && HeaderFits(o, h) && ident != ""
    requires doc == Doc(path, FilledText(h, iso, p, ident)) && FreePlace(path, ident)
    ensures var seen := Expected(o, today, doc);
      && seen.ident == ident && !seen.annex
      && seen.claim == if o.isoDate(h.nextReview).value >= today then "Compliant" else "Non-compliant"
  {
    var fields, e := ControlFields(doc.text), EntryFor(o, today, doc);
    assert |path| > 5 && path[5] !in PATTERN_LETTERS && !IsAnnex(path) && path != REGISTER && Stem(path) == ident
      by { hide Stem, IsAnnex, REGISTER, PATTERN_LETTERS; }
    hide *;
    ExpectedOf(o, today, doc, e);
    NoPattern(o, path, ident);
    FilledIsFaultless(o, today, h, iso, p, ident, fields, doc.text);
    NamedFits(o, ident, path, fields, doc);
    EntryCompliance(o, today, doc, e);
    NoProblemsExactly(o, today, doc, fields, ident);
  }

  lemma {:induction false} ExpectedOf(o: Oracle, today: int, doc: Doc, e: Entry)
    requires doc.path != REGISTER && !IsAnnex(doc.path) && e == EntryFor(o, today, doc)
    ensures var seen := Expected(o, today, doc);
      seen.ident == FoundIdent(doc) && !seen.annex && seen.claim == e.compliance
  {
    hide EntryFor, FoundIdent, ControlFields, EarlyReasons, LateReasons, REGISTER, IsAnnex;
  }

  lemma {:induction false} NamedFits(o: Oracle, ident: string, path: string, fields: Fields, doc: Doc)
    requires doc.path == path && fields == ControlFields(doc.text) && ident != "" && Stem(path) == ident
    requires "Document Identifier" in fields && Strip(fields["Document Identifier"]) == ident && IdFits(o, path, ident)
    ensures FoundIdent(doc) == ident && IdentFor(path, fields) == ident && IdentFits(o, ident, path)
  {
    hide Strip, ControlFields, IdFits, Stem;
  }

  lemma {:induction false} BeforeBehind(dir: string, s: string, t: string)
    requires Before(s, t)
    ensures Before(dir + s, dir + t)
  {
    if dir == "" {
      assert dir + s == s && dir + t == t;
    } else {
      assert (dir + s)[1..] == dir[1..] + s && (dir + t)[1..] == dir[1..] + t;
      BeforeBehind(dir[1..], s, t);
    }
  }

  lemma {:induction false} UpperFirst(a: string, b: string, upper: string, lower: string)
    requires a == "docs" + ['/'] + upper && b == "docs" + ['/'] + lower
    requires upper != "" && lower != "" && upper[0] == 'S' && lower[0] == 'b'
    ensures Before(a, b)
  {
    assert Before(upper, lower);
    hide Before;
    BeforeBehind("docs" + ['/'], upper, lower);
  }

  lemma {:induction false} Paths(ident: string, upper: string, lower: string)
    requires ident != "" && ident[0] == 'S'
    requires upper == ident + ".md" && lower == "b" + ['/'] + upper
    ensures Upper(ident) == "docs" + ['/'] + upper && Lower(ident) == "docs" + ['/'] + lower
    ensures upper != "" && lower != "" && upper[0] == 'S' && lower[0] == 'b'
  {}

  lemma {:induction false} SmallLetters()
    ensures 'S' !in PATTERN_LETTERS && 'b' !in PATTERN_LETTERS
  {}

  lemma {:induction false} FreePlaceIntro(path: string, ident: string, c: char)
    requires |path| > 5 && path[5] == c && c !in PATTERN_LETTERS && c != 'd' && c != 'i' && Stem(path) == ident
    ensures FreePlace(path, ident)
  {
    hide Stem, PATTERN_LETTERS, IsAnnex, REGISTER;
    NoAnnexBut(path);
  }

  lemma {:induction false} TwoPlaces(ident: string)
    requires ident != "" && ident[0] == 'S' && '/' !in ident
    ensures FreePlace(Upper(ident), ident) && FreePlace(Lower(ident), ident) && Before(Upper(ident), Lower(ident))
  {
    hide *;
    var upper := ident + ".md";
    var lower := "b" + ['/'] + upper;
    Paths(ident, upper, lower);
    UpperFirst(Upper(ident), Lower(ident), upper, lower);
    Stems(ident);
    SmallLetters();
    Fifth(Upper(ident), upper);
    Fifth(Lower(ident), lower);
    FreePlaceIntro(Upper(ident), ident, 'S');
    FreePlaceIntro(Lower(ident), ident, 'b');
  }

  lemma {:induction false} ExpectationIs(o: Oracle, today: int, a: Doc, b: Doc)
    ensures Expectation(o, today, [a, b]) == [Expected(o, today, a), Expected(o, today, b)]
    ensures Expectation(o, today, [b]) == [Expected(o, today, b)]
  {
    hide Expected;
  }

  /** Two documents that rule C-10 judges by the first one's claim, whatever the patterns and the calendar: under one
      identifier, in this order in the tree, the first with a review that is overdue. The manual need not list the
      identifier of the second, which is Compliant, unless it stands alone. */
  lemma {:induction false} DuplicatesOccur(
      o: Oracle, today: int, late: Header, h: Header, iso: string, p: Prose, ident: string, a: Doc, b: Doc)
    requires NeatHeader(late) && NeatHeader(h) && GoodProse(p) && Neat(iso) && Neat(ident)
    requires ident != "" && ident[0] == 'S' && '/' !in ident && o.isoSeries(ident)
    requires HeaderFits(o, late) && HeaderFits(o, h)
    requires o.isoDate(late.nextReview).value < today <= o.isoDate(h.nextReview).value
    requires a == Doc(Upper(ident), FilledText(late, iso, p, ident)) && b == Doc(Lower(ident), FilledText(h, iso, p, ident))
    ensures Before(a.path, b.path)
    ensures ManualFits(o, {}, Expectation(o, today, [a, b])) && !ManualFits(o, {}, Expectation(o, today, [b]))
  {
    hide *;
    TwoPlaces(ident);
    NamedIsExpected(o, today, late, iso, p, ident, a.path, a);
    NamedIsExpected(o, today, h, iso, p, ident, b.path, b);
    DuplicatePasses(o, Expected(o, today, a), Expected(o, today, b));
    ExpectationIs(o, today, a, b);
  }
}
