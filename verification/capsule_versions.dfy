/** The version a new draft gets when an active capsule is edited. */
module CapsuleVersions {
  import opened Text

  /** `str(n)` */
  function Show(n: int): string { if n >= 0 then Decimal(n) else "-" + Decimal(-n) }

  /** What `int` reads; it reads back at least everything `str` writes. */
  ghost predicate ReadsInts(int_: string -> Option<int>) {
    forall n: int :: int_(Show(n)) == Some(n)
  }

  /** `_increment_version`: the patch of a three-part version if it is a number, else one more part. */
  function Increment(int_: string -> Option<int>, version: string): string {
    var parts := Split(version, '.');
    if |parts| == 3 && int_(parts[2]).Some? then Join([parts[0], parts[1], Show(int_(parts[2]).value + 1)], '.')
    else version + ".1"
  }

  /** How many parts a version has, and its patch if it has three and the last is a number. */
  function Parts(version: string): nat { |Split(version, '.')| }

  function Patch(int_: string -> Option<int>, version: string): int {
    var parts := Split(version, '.');
    if |parts| == 3 && int_(parts[2]).Some? then int_(parts[2]).value else 0
  }

  /** More parts, or as many and a greater patch. */
  predicate Newer(int_: string -> Option<int>, a: string, b: string) {
    Parts(a) < Parts(b) || (Parts(a) == Parts(b) && Patch(int_, a) < Patch(int_, b))
  }

  lemma {:induction false} ShowHasNoDot(n: int)
    ensures '.' !in Show(n)
  {
    var s := Decimal(if n >= 0 then n else -n);
    assert '.' !in s;
  }

  lemma {:induction false} JoinOfSplit(s: string, c: char)
    ensures Join(Split(s, c), c) == s
    decreases |s|
  {
    var k := IndexOf(s, c);
    SplitStep(s, c, k);
    if k < |s| {
      var rest := Split(s[k + 1..], c);
      JoinOfSplit(s[k + 1..], c);
      assert ([s[..k]] + rest)[1..] == rest;
      assert s == s[..k] + [c] + s[k + 1..];
    }
  }

  lemma {:induction false} OneMorePart(version: string)
    ensures Parts(version + ".1") == Parts(version) + 1
  {
    var parts := Split(version, '.');
    JoinOfSplit(version, '.');
    JoinAppend(parts, "1", '.');
    assert version + ".1" == version + ['.'] + "1";
    var more := parts + ["1"];
    hide Split, Join;
    forall i | 0 <= i < |more| ensures '.' !in more[i] {
      if i < |parts| { assert more[i] == parts[i]; }
    }
    SplitJoin(more, '.');
  }

  lemma {:induction false} JoinAppend(parts: seq<string>, last: string, c: char)
    requires parts != []
    ensures Join(parts + [last], c) == Join(parts, c) + [c] + last
  {
    var more := parts + [last];
    assert more[1..] == parts[1..] + [last];
    if |parts| == 1 {
      assert more == [parts[0], last] && more[1..] == [last];
    } else {
      JoinAppend(parts[1..], last, c);
      assert Join(more, c) == parts[0] + [c] + Join(more[1..], c);
    }
  }

  /** Every edit makes a newer version, of well-formed and malformed versions alike. */
  lemma {:induction false} IncrementIsNewer(int_: string -> Option<int>, version: string)
    requires ReadsInts(int_)
    ensures Newer(int_, version, Increment(int_, version))
  {
    var parts := Split(version, '.');
    if |parts| == 3 && int_(parts[2]).Some? {
      var n := int_(parts[2]).value + 1;
      var next := [parts[0], parts[1], Show(n)];
      ShowHasNoDot(n);
      assert int_(Show(n)) == Some(n);
      hide Split, Join, Show, ReadsInts;
      SplitJoin(next, '.');
    } else {
      OneMorePart(version);
      hide Split;
    }
  }

  lemma {:induction false} IncrementOfThree(
      int_: string -> Option<int>, version: string, major: string, minor: string, last: string, n: int)
    requires Split(version, '.') == [major, minor, last] && int_(last) == Some(n)
    ensures Increment(int_, version) == Join([major, minor, Show(n + 1)], '.')
  {
    hide Split, Join, Show;
  }

  /** Three parts with a number at the end: the number goes up by one and the rest stays. */
  lemma {:induction false} PatchGoesUp(int_: string -> Option<int>, major: string, minor: string, patch: int)
    requires ReadsInts(int_) && '.' !in major && '.' !in minor
    ensures Increment(int_, Join([major, minor, Show(patch)], '.')) == Join([major, minor, Show(patch + 1)], '.')
  {
    var parts := [major, minor, Show(patch)];
    assert int_(Show(patch)) == Some(patch);
    hide *;
    ShowHasNoDot(patch);
    SplitJoin(parts, '.');
    IncrementOfThree(int_, Join(parts, '.'), major, minor, Show(patch), patch);
  }

  /** The version after n edits in a row. */
  function Edited(int_: string -> Option<int>, version: string, n: nat): string {
    if n == 0 then version else Increment(int_, Edited(int_, version, n - 1))
  }

  lemma {:induction false} EditedStep(int_: string -> Option<int>, version: string, n: nat)
    requires n > 0
    ensures Edited(int_, version, n) == Increment(int_, Edited(int_, version, n - 1))
  {
    hide Increment;
  }

  lemma {:induction false} LaterIsNewer(int_: string -> Option<int>, version: string, a: nat, b: nat)
    requires ReadsInts(int_) && a < b
    ensures Newer(int_, Edited(int_, version, a), Edited(int_, version, b))
    decreases b
  {
    hide *;
    var last := Edited(int_, version, b - 1);
    EditedStep(int_, version, b);
    IncrementIsNewer(int_, last);
    if a < b - 1 {
      LaterIsNewer(int_, version, a, b - 1);
      NewerTransitive(int_, Edited(int_, version, a), last, Increment(int_, last));
    }
  }

  lemma {:induction false} NewerTransitive(int_: string -> Option<int>, a: string, b: string, c: string)
    requires Newer(int_, a, b) && Newer(int_, b, c)
    ensures Newer(int_, a, c)
  {
    hide Parts, Patch;
  }

  /** No version repeats along a chain of edits. */
  lemma {:induction false} VersionsNeverRepeat(int_: string -> Option<int>, version: string, a: nat, b: nat)
    requires ReadsInts(int_) && a < b
    ensures Edited(int_, version, a) != Edited(int_, version, b)
  {
    LaterIsNewer(int_, version, a, b);
    hide Parts, Patch, Edited, ReadsInts;
  }
}
