/** The rows the generator builds: what they hold, their order, and that every one is printable. */
module RegisterEntries {
  import opened Text
  import opened DocRules
  import opened GenRegister
  import opened RegisterPrint
  import opened RegisterRoundTrip
  import opened RegisterPreamble

  /** Paths are distinct, lie under docs/, end in .md and contain neither `|` nor a line break. */
  predicate GoodTree(docs: seq<Doc>) {
    && (forall i :: 0 <= i < |docs| ==> GoodPath(docs[i].path))
    && (forall i, j :: 0 <= i < j < |docs| ==> docs[i].path != docs[j].path)
  }

  lemma {:induction false} GoodTreePrefix(docs: seq<Doc>, n: nat)
    requires GoodTree(docs) && n <= |docs|
    ensures GoodTree(docs[..n])
  {
    hide GoodPath;
  }

  // ---- every row is printable ----

  lemma {:induction false} OrNeat(fields: Fields, name: string, default: string, v: string)
    requires NeatFields(fields) && Neat(default) && v == Or(Strip(Get(fields, name, "")), default)
    ensures Neat(v)
  {
    var s := Strip(Get(fields, name, ""));
    assert v == s || v == default;
    NeatLiterals();
    hide *;
    GetNeat(fields, name, "", s);
  }

  lemma {:induction false} ComplianceNeat()
    ensures Neat("Compliant") && Neat("Non-compliant") && Neat("Annex")
  {}

  lemma {:induction false} IndexIdNeat()
    ensures Neat("SOMA-STD-INDEX-001")
  {}

  lemma {:induction false} NeatIsPlain(s: string)
    requires Neat(s)
    ensures PlainCell(s)
  {}

  /** Apart from the identifier of an annex and a title taken from the file name, cells are neat. */
  lemma {:induction false} EntryForNeat(o: Oracle, today: int, doc: Doc, e: Entry)
    requires GoodPath(doc.path) && e == EntryFor(o, today, doc)
    ensures e.file == doc.path && OneLine(e.title) && PlainCell(e.ident)
    ensures Neat(e.version) && Neat(e.status) && Neat(e.approver) && Neat(e.nextReview) && Neat(e.compliance)
    ensures !IsAnnex(doc.path) ==> Neat(e.ident)
  {
    var stem, fields := Stem(doc.path), ControlFields(doc.text);
    var title := TitleFrom(doc.text, stem);
    StemPlain(doc.path, stem);
    assert OneLine(stem);
    TitleOneLine(doc.text, stem, title);
    NeatLiterals();
    ComplianceNeat();
    IndexIdNeat();
    if !IsAnnex(doc.path) {
      ControlFieldsNeat(doc.text);
      hide Neat, Stem, ControlFields, TitleFrom, ContentProblems, OneLine, PlainCell, Strip, Get, Or, DASH,
        NeatFields, IsAnnex;
      OrNeat(fields, "Document Identifier", if doc.path == INDEX then "SOMA-STD-INDEX-001" else DASH, e.ident);
      OrNeat(fields, "Version", DASH, e.version);
      OrNeat(fields, "Status", DASH, e.status);
      OrNeat(fields, "Approver", DASH, e.approver);
      OrNeat(fields, "Next Review", "MISSING", e.nextReview);
      NeatIsPlain(e.ident);
    }
    hide Neat, Stem, ControlFields, TitleFrom, ContentProblems, OneLine, PlainCell, Strip, DASH;
  }

  lemma {:induction false} EntryForGood(o: Oracle, today: int, doc: Doc, e: Entry)
    requires GoodPath(doc.path) && e == EntryFor(o, today, doc)
    ensures GoodEntry(e) && e.file == doc.path
  {
    assert e.file == doc.path && OneLine(e.title) && PlainCell(e.ident)
        && Neat(e.version) && Neat(e.status) && Neat(e.approver) && Neat(e.nextReview) && Neat(e.compliance) by {
      hide *;
      EntryForNeat(o, today, doc, e);
    }
    hide EntryFor, Neat, GoodPath, OneLine, PlainCell;
    NeatIsPlain(e.version);
    NeatIsPlain(e.status);
    NeatIsPlain(e.approver);
    NeatIsPlain(e.nextReview);
    NeatIsPlain(e.compliance);
  }

  lemma {:induction false} RegisterPathGood()
    ensures GoodPath(REGISTER)
  {
    var path := REGISTER;
    assert |path| == 29;
    assert path[26..] == ".md";
  }

  lemma {:induction false} OwnEntryNeat(own: Fields, e: Entry)
    requires NeatFields(own) && e == OwnEntry(own)
    ensures Neat(e.ident) && Neat(e.version) && Neat(e.status) && Neat(e.approver) && Neat(e.nextReview)
    ensures Neat(e.compliance) && e.file == REGISTER && e.title == "Document Register"
  {
    NeatLiterals();
    ComplianceNeat();
    ValueIdentifier();
    assert e.ident == Strip(Get(own, "Document Identifier", REGISTER_ID));
    hide Neat, Strip, Get, Or, DASH, NeatFields, REGISTER_ID;
    GetNeat(own, "Document Identifier", REGISTER_ID, e.ident);
    OrNeat(own, "Version", "1.0.0", e.version);
    OrNeat(own, "Status", "Draft", e.status);
    OrNeat(own, "Approver", DASH, e.approver);
    OrNeat(own, "Next Review", "MISSING", e.nextReview);
  }

  lemma {:induction false} OwnEntryGood(own: Fields, e: Entry)
    requires NeatFields(own) && e == OwnEntry(own)
    ensures GoodEntry(e) && e.file == REGISTER
  {
    OwnEntryNeat(own, e);
    RegisterPathGood();
    ValueTitle();
    hide OwnEntry, Neat, GoodPath, OneLine, PlainCell, REGISTER;
    NeatIsPlain(e.title);
    NeatIsPlain(e.ident);
    NeatIsPlain(e.version);
    NeatIsPlain(e.status);
    NeatIsPlain(e.approver);
    NeatIsPlain(e.nextReview);
    NeatIsPlain(e.compliance);
  }

  // ---- one row per document ----

  /** The rows are exactly those of the documents other than the register. */
  ghost predicate RowsFor(o: Oracle, today: int, docs: seq<Doc>, entries: seq<Entry>) {
    && (forall e :: e in entries ==> ForSome(o, today, docs, e))
    && (forall i :: 0 <= i < |docs| && docs[i].path != REGISTER ==> EntryFor(o, today, docs[i]) in entries)
  }

  ghost predicate ForSome(o: Oracle, today: int, docs: seq<Doc>, e: Entry) {
    exists i :: 0 <= i < |docs| && docs[i].path != REGISTER && e == EntryFor(o, today, docs[i])
  }

  lemma {:induction false} RowsForOneMore(
      o: Oracle, today: int, docs: seq<Doc>, before: seq<Entry>, entries: seq<Entry>, n: nat)
    requires |docs| == n + 1 && RowsFor(o, today, docs[..n], before)
    requires entries == before + if docs[n].path == REGISTER then [] else [EntryFor(o, today, docs[n])]
    ensures RowsFor(o, today, docs, entries)
  {
    hide EntryFor, REGISTER;
    forall e | e in entries ensures ForSome(o, today, docs, e) {
      if e in before {
        assert ForSome(o, today, docs[..n], e);
        var i :| 0 <= i < n && docs[..n][i].path != REGISTER && e == EntryFor(o, today, docs[..n][i]);
        assert docs[..n][i] == docs[i];
      } else {
        assert docs[n].path != REGISTER && e == EntryFor(o, today, docs[n]);
      }
    }
    forall i | 0 <= i < |docs| && docs[i].path != REGISTER ensures EntryFor(o, today, docs[i]) in entries {
      if i < n { assert docs[..n][i] == docs[i]; }
    }
  }

  lemma {:induction false} DocEntriesOf(o: Oracle, today: int, docs: seq<Doc>, entries: seq<Entry>)
    requires entries == DocEntries(o, today, docs)
    ensures RowsFor(o, today, docs, entries)
  {
    if docs != [] {
      var n := |docs| - 1;
      var before := DocEntries(o, today, docs[..n]);
      assert entries == before + if docs[n].path == REGISTER then [] else [EntryFor(o, today, docs[n])];
      hide *;
      DocEntriesOf(o, today, docs[..n], before);
      RowsForOneMore(o, today, docs, before, entries, n);
    }
  }

  function PathSet(docs: seq<Doc>): set<string> { set d | d in docs :: d.path }

  predicate FilesIn(entries: seq<Entry>, paths: set<string>) {
    forall i :: 0 <= i < |entries| ==> entries[i].file in paths && entries[i].file != REGISTER
  }

  lemma {:induction false} PathSetPrefix(docs: seq<Doc>, n: nat)
    requires GoodTree(docs) && |docs| == n + 1
    ensures PathSet(docs) == PathSet(docs[..n]) + {docs[n].path}
    ensures docs[n].path !in PathSet(docs[..n])
  {
    assert docs == docs[..n] + [docs[n]];
    forall d | d in docs[..n] ensures d.path != docs[n].path {
      var k :| 0 <= k < n && docs[..n][k] == d;
      assert docs[k].path != docs[n].path;
    }
    hide GoodPath;
  }

  lemma {:induction false} OneMoreFile(before: seq<Entry>, e: Entry, paths: set<string>)
    requires DistinctFiles(before) && FilesIn(before, paths) && e.file !in paths && e.file != REGISTER
    ensures DistinctFiles(before + [e]) && FilesIn(before + [e], paths + {e.file})
  {
    hide REGISTER;
  }

  lemma {:induction false} FilesInMore(entries: seq<Entry>, paths: set<string>, path: string)
    requires FilesIn(entries, paths)
    ensures FilesIn(entries, paths + {path})
  {}

  lemma {:induction false} DocEntriesDistinct(o: Oracle, today: int, docs: seq<Doc>, entries: seq<Entry>)
    requires GoodTree(docs) && entries == DocEntries(o, today, docs)
    ensures DistinctFiles(entries) && FilesIn(entries, PathSet(docs))
  {
    if docs != [] {
      var n := |docs| - 1;
      var before, e := DocEntries(o, today, docs[..n]), EntryFor(o, today, docs[n]);
      assert e.file == docs[n].path;
      assert entries == if docs[n].path == REGISTER then before else before + [e];
      hide *;
      GoodTreePrefix(docs, n);
      PathSetPrefix(docs, n);
      DocEntriesDistinct(o, today, docs[..n], before);
      FilesInMore(before, PathSet(docs[..n]), docs[n].path);
      if docs[n].path != REGISTER {
        OneMoreFile(before, e, PathSet(docs[..n]));
      }
    }
  }

  // ---- sorting ----

  predicate InFileOrder(entries: seq<Entry>) {
    forall i, j :: 0 <= i < j < |entries| ==> !Before(entries[j].file, entries[i].file)
  }

  lemma {:induction false} InsertKeeps(e: Entry, sorted: seq<Entry>, r: seq<Entry>)
    requires r == InsertByFile(e, sorted)
    ensures multiset(r) == multiset(sorted) + multiset{e}
  {
    if sorted != [] && !Before(e.file, sorted[0].file) {
      var rest := InsertByFile(e, sorted[1..]);
      InsertKeeps(e, sorted[1..], rest);
      assert sorted == [sorted[0]] + sorted[1..];
      assert r == [sorted[0]] + rest;
    }
  }

  lemma {:induction false} SortKeeps(entries: seq<Entry>, r: seq<Entry>)
    requires r == SortByFile(entries)
    ensures multiset(r) == multiset(entries)
  {
    if entries != [] {
      var n := |entries| - 1;
      SortKeeps(entries[..n], SortByFile(entries[..n]));
      InsertKeeps(entries[n], SortByFile(entries[..n]), r);
      assert entries == entries[..n] + [entries[n]];
    }
  }

  lemma {:induction false} InsertOrdered(e: Entry, sorted: seq<Entry>, r: seq<Entry>)
    requires InFileOrder(sorted) && r == InsertByFile(e, sorted)
    ensures InFileOrder(r)
  {
    if sorted != [] {
      var first, tail := sorted[0], sorted[1..];
      assert InFileOrder(tail);
      if Before(e.file, first.file) {
        forall j | 0 <= j < |sorted| ensures !Before(sorted[j].file, e.file) {
          if Before(sorted[j].file, e.file) {
            BeforeTransitive(sorted[j].file, e.file, first.file);
            BeforeIrreflexive(first.file);
            assert !Before(sorted[j].file, first.file);
          }
        }
      } else {
        var rest := InsertByFile(e, tail);
        InsertOrdered(e, tail, rest);
        InsertKeeps(e, tail, rest);
        forall j | 0 <= j < |rest| ensures !Before(rest[j].file, first.file) {
          assert rest[j] in multiset(rest);
          if rest[j] != e {
            assert rest[j] in tail;
            var k :| 0 <= k < |tail| && tail[k] == rest[j];
            assert sorted[k + 1] == rest[j];
          }
        }
        assert r == [first] + rest;
      }
    }
  }

  lemma {:induction false} SortOrdered(entries: seq<Entry>, r: seq<Entry>)
    requires r == SortByFile(entries)
    ensures InFileOrder(r)
  {
    if entries != [] {
      var n := |entries| - 1;
      SortOrdered(entries[..n], SortByFile(entries[..n]));
      InsertOrdered(entries[n], SortByFile(entries[..n]), r);
    }
  }

  /** Distinct files stay distinct in any order. */
  lemma {:induction false} SortDistinct(entries: seq<Entry>, r: seq<Entry>)
    requires DistinctFiles(entries) && multiset(r) == multiset(entries)
    ensures DistinctFiles(r)
  {
    forall i, j | 0 <= i < j < |r| ensures r[i].file != r[j].file {
      if r[i].file == r[j].file {
        assert r[i] in multiset(r) && r[j] in multiset(r);
        assert r[i] in entries && r[j] in entries;
        var a :| 0 <= a < |entries| && entries[a] == r[i];
        var b :| 0 <= b < |entries| && entries[b] == r[j];
        assert a == b;
        TwiceIn(r, i, j);
        OnceIn(entries, a);
        assert false;
      }
    }
  }

  lemma {:induction false} TwiceIn(r: seq<Entry>, i: int, j: int)
    requires 0 <= i < j < |r| && r[i] == r[j]
    ensures multiset(r)[r[i]] >= 2
  {
    assert r == r[..j] + [r[j]] + r[j + 1..];
    assert r[..j][i] == r[j];
    assert r[j] in multiset(r[..j]);
  }

  lemma {:induction false} OnceIn(entries: seq<Entry>, a: int)
    requires DistinctFiles(entries) && 0 <= a < |entries|
    ensures multiset(entries)[entries[a]] == 1
  {
    var before, after := entries[..a], entries[a + 1..];
    assert entries == before + [entries[a]] + after;
    assert entries[a] !in before && entries[a] !in after;
    assert multiset(before)[entries[a]] == 0 && multiset(after)[entries[a]] == 0;
  }

  // ---- the whole list ----

  lemma {:induction false} RowsForGood(o: Oracle, today: int, docs: seq<Doc>, entries: seq<Entry>)
    requires GoodTree(docs) && RowsFor(o, today, docs, entries)
    ensures GoodEntries(entries)
  {
    hide GoodEntry, GoodPath, EntryFor, REGISTER;
    forall k | 0 <= k < |entries| ensures GoodEntry(entries[k]) {
      assert ForSome(o, today, docs, entries[k]);
      var i :| 0 <= i < |docs| && docs[i].path != REGISTER && entries[k] == EntryFor(o, today, docs[i]);
      EntryForGood(o, today, docs[i], entries[k]);
    }
  }

  lemma {:induction false} SortedRowsFor(
      o: Oracle, today: int, docs: seq<Doc>, listed: seq<Entry>, sorted: seq<Entry>, paths: set<string>)
    requires RowsFor(o, today, docs, listed) && FilesIn(listed, paths) && multiset(sorted) == multiset(listed)
    ensures RowsFor(o, today, docs, sorted) && FilesIn(sorted, paths)
  {
    hide EntryFor, ForSome, REGISTER;
    SameElements(listed, sorted);
    forall k | 0 <= k < |sorted| ensures sorted[k].file in paths && sorted[k].file != REGISTER {
      assert sorted[k] in listed;
    }
  }

  /** One row per document and one for the register; printable, with distinct files, in file order. */
  lemma {:induction false} EntriesGood(o: Oracle, today: int, docs: seq<Doc>, own: Fields, entries: seq<Entry>)
    requires GoodTree(docs) && NeatFields(own) && entries == Entries(o, today, docs, own)
    ensures GoodEntries(entries) && DistinctFiles(entries)
    ensures entries != [] && entries[0] == OwnEntry(own)
    ensures RowsFor(o, today, docs, entries[1..]) && InFileOrder(entries[1..])
  {
    var listed, first := DocEntries(o, today, docs), OwnEntry(own);
    var sorted := SortByFile(listed);
    assert entries == [first] + sorted && entries[1..] == sorted;
    hide *;
    DocEntriesOf(o, today, docs, listed);
    DocEntriesDistinct(o, today, docs, listed);
    SortKeeps(listed, sorted);
    SortOrdered(listed, sorted);
    SortDistinct(listed, sorted);
    SortedRowsFor(o, today, docs, listed, sorted, PathSet(docs));
    RowsForGood(o, today, docs, sorted);
    OwnEntryGood(own, first);
    FirstIsNew(first, sorted, entries, PathSet(docs));
  }

  lemma {:induction false} SameElements(a: seq<Entry>, b: seq<Entry>)
    requires multiset(a) == multiset(b)
    ensures forall e :: e in a <==> e in b
  {
    assert forall e :: e in a <==> e in multiset(a);
    assert forall e :: e in b <==> e in multiset(b);
  }

  lemma {:induction false} FirstIsNew(first: Entry, sorted: seq<Entry>, entries: seq<Entry>, paths: set<string>)
    requires entries == [first] + sorted && DistinctFiles(sorted) && GoodEntry(first) && first.file == REGISTER
    requires GoodEntries(sorted) && FilesIn(sorted, paths)
    ensures GoodEntries(entries) && DistinctFiles(entries)
  {
    hide GoodEntry, REGISTER;
  }

  /** The three counts of the summary add up to the number of rows. */
  lemma {:induction false} SummaryAddsUp(entries: seq<Entry>)
    requires forall e :: e in entries ==>
      e.compliance == "Compliant" || e.compliance == "Non-compliant" || e.compliance == "Annex"
    ensures CountOf(entries, "Compliant") + CountOf(entries, "Non-compliant") + CountOf(entries, "Annex") == |entries|
  {
    if entries != [] {
      assert entries[0] in entries;
      assert forall e :: e in entries[1..] ==> e in entries;
      assert |"Compliant"| == 9 && |"Non-compliant"| == 13 && |"Annex"| == 5;
      SummaryAddsUp(entries[1..]);
    }
  }
}
