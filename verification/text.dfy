/** Python's string operations used by the document scripts and the capsule
    services: trimming, splitting on a character, joining, splitting into
    lines, and the code-point order of `sorted`. */
module Text {

  datatype Option<+T> = None | Some(value: T)

  /** The line boundaries of `str.splitlines`. */
  predicate IsLineBreak(c: char) {
    var n := c as int;
    10 <= n <= 13 || 28 <= n <= 30 || n == 0x85 || n == 0x2028 || n == 0x2029
  }

  /** `str.isspace`, which `str.strip` and the regular-expression class `\s` share. */
  predicate IsSpace(c: char) {
    var n := c as int;
    || IsLineBreak(c) || n == 9 || n == 31 || n == 32 || n == 0xA0 || n == 0x1680
    || 0x2000 <= n <= 0x200A || n == 0x202F || n == 0x205F || n == 0x3000
  }

  /** What a call of `strip` removes: white space, or the one character it was given. */
  datatype Trimming = White | Only(c: char) {
    predicate Drops(x: char) {
      match this
      case White => IsSpace(x)
      case Only(c) => x == c
    }
  }

  /** How many characters at the front are dropped. */
  function Lead(k: Trimming, s: string): (n: nat)
    ensures n <= |s| && forall i :: 0 <= i < n ==> k.Drops(s[i])
    ensures n < |s| ==> !k.Drops(s[n])
  {
    if s == "" || !k.Drops(s[0]) then 0 else 1 + Lead(k, s[1..])
  }

  /** How many characters are left when the dropped ones at the back are gone. */
  function Trail(k: Trimming, s: string): (n: nat)
    ensures n <= |s| && forall i :: n <= i < |s| ==> k.Drops(s[i])
    ensures n > 0 ==> !k.Drops(s[n - 1])
  {
    if s == "" || !k.Drops(s[|s| - 1]) then |s| else Trail(k, s[..|s| - 1])
  }

  function TrimStart(k: Trimming, s: string): string { s[Lead(k, s)..] }

  function Trim(k: Trimming, s: string): string {
    var a, b := Lead(k, s), Trail(k, s);
    if a < b then s[a..b] else ""
  }

  function Strip(s: string): string { Trim(White, s) }

  predicate Trimmed(k: Trimming, s: string) {
    s != "" ==> !k.Drops(s[0]) && !k.Drops(s[|s| - 1])
  }

  /** The trimmed text is the part between the first and the last character that stays. */
  lemma {:induction false} TrimIs(k: Trimming, s: string, a: int, b: int)
    requires 0 <= a < b <= |s| && !k.Drops(s[a]) && !k.Drops(s[b - 1])
    requires forall i :: 0 <= i < a || b <= i < |s| ==> k.Drops(s[i])
    ensures Trim(k, s) == s[a..b]
  {
    assert Lead(k, s) == a;
    assert Trail(k, s) == b;
  }

  lemma {:induction false} TrimAll(k: Trimming, s: string)
    requires forall i :: 0 <= i < |s| ==> k.Drops(s[i])
    ensures Trim(k, s) == ""
  {
    assert Lead(k, s) == |s|;
  }

  lemma {:induction false} TrimIsTrimmed(k: Trimming, s: string, t: string)
    requires t == Trim(k, s)
    ensures Trimmed(k, t)
  {}

  lemma {:induction false} TrimTrimmed(k: Trimming, s: string)
    requires Trimmed(k, s)
    ensures Trim(k, s) == s
  {
    if s != "" {
      TrimIs(k, s, 0, |s|);
      assert s[0..|s|] == s;
    }
  }

  lemma {:induction false} TrimParts(k: Trimming, s: string) returns (a: nat, b: nat)
    ensures a <= b <= |s| && forall i :: 0 <= i < |s| && (i < a || b <= i) ==> k.Drops(s[i])
    ensures a < b ==> !k.Drops(s[a]) && !k.Drops(s[b - 1]) && Trim(k, s) == s[a..b]
    ensures a == b ==> a == |s| && Trim(k, s) == ""
  {
    a, b := Lead(k, s), Trail(k, s);
    if a >= b { a, b := |s|, |s|; }
  }

  /** One more dropped character at either end changes nothing. */
  lemma {:induction false} TrimPadded(k: Trimming, a: char, s: string, b: char, padded: string)
    requires k.Drops(a) && k.Drops(b) && padded == [a] + s + [b]
    ensures Trim(k, padded) == Trim(k, s)
  {
    hide *;
    var i, j := TrimParts(k, s);
    forall q | 0 <= q < |padded| && (q < i + 1 || j + 1 <= q) ensures k.Drops(padded[q]) {
      if 0 < q <= |s| { assert padded[q] == s[q - 1]; }
    }
    if i < j {
      assert padded[i + 1] == s[i] && padded[j] == s[j - 1];
      TrimIs(k, padded, i + 1, j + 1);
      assert padded[i + 1..j + 1] == s[i..j];
    } else {
      TrimAll(k, padded);
    }
  }

  /** One border character on each side of a text that has none of its own. */
  lemma {:induction false} TrimBorders(k: Trimming, a: char, s: string, b: char, bordered: string)
    requires k.Drops(a) && k.Drops(b) && Trimmed(k, s) && bordered == [a] + s + [b]
    ensures Trim(k, bordered) == s
  {
    hide *;
    TrimPadded(k, a, s, b, bordered);
    TrimTrimmed(k, s);
  }

  predicate StartsWith(s: string, prefix: string) { prefix <= s }

  function IndexOf(s: string, c: char): (i: nat)
    ensures i <= |s| && c !in s[..i]
    ensures i < |s| <==> c in s
    ensures i < |s| ==> s[i] == c
  {
    if s == "" || s[0] == c then 0
    else
      var i := 1 + IndexOf(s[1..], c);
      assert s[..i] == [s[0]] + s[1..][..i - 1];
      i
  }

  /** `str.split(c)`. */
  function Split(s: string, c: char): (parts: seq<string>)
    ensures |parts| >= 1
    ensures forall i :: 0 <= i < |parts| ==> c !in parts[i]
    decreases |s|
  {
    var i := IndexOf(s, c);
    if i == |s| then [s] else [s[..i]] + Split(s[i + 1..], c)
  }

  /** `c.join(parts)`. */
  function Join(parts: seq<string>, c: char): string {
    if parts == [] then ""
    else if |parts| == 1 then parts[0]
    else parts[0] + [c] + Join(parts[1..], c)
  }

  lemma {:induction false} IndexOfFirst(a: string, c: char, b: string)
    requires c !in a
    ensures IndexOf(a + [c] + b, c) == |a|
  {
    var s := a + [c] + b;
    assert s[|a|] == c;
    var i := IndexOf(s, c);
    assert i <= |a| by {
      assert forall j :: 0 <= j < i ==> s[..i][j] == s[j];
    }
  }

  lemma {:induction false} SplitAtFirst(a: string, c: char, b: string)
    requires c !in a
    ensures Split(a + [c] + b, c) == [a] + Split(b, c)
  {
    var s := a + [c] + b;
    IndexOfFirst(a, c, b);
    assert s[..|a|] == a && s[|a| + 1..] == b;
  }

  lemma {:induction false} SplitJoin(parts: seq<string>, c: char)
    requires |parts| >= 1
    requires forall i :: 0 <= i < |parts| ==> c !in parts[i]
    ensures Split(Join(parts, c), c) == parts
  {
    if |parts| > 1 {
      SplitAtFirst(parts[0], c, Join(parts[1..], c));
      SplitJoin(parts[1..], c);
    }
  }

  lemma {:induction false} SplitStep(s: string, c: char, k: int)
    requires k == IndexOf(s, c)
    ensures k == |s| ==> Split(s, c) == [s]
    ensures k < |s| ==> Split(s, c) == [s[..k]] + Split(s[k + 1..], c)
  {}

  lemma {:induction false} PartIsSlice(s: string, c: char, i: int) returns (a: nat, b: nat)
    requires 0 <= i < |Split(s, c)|
    ensures a <= b <= |s| && Split(s, c)[i] == s[a..b]
    decreases |s|
  {
    hide *;
    var k := IndexOf(s, c);
    SplitStep(s, c, k);
    if i == 0 || k == |s| {
      a, b := 0, k;
      assert k == |s| ==> s[0..k] == s;
    } else {
      var tail := s[k + 1..];
      a, b := PartIsSlice(tail, c, i - 1);
      assert tail[a..b] == s[k + 1 + a..k + 1 + b];
      a, b := k + 1 + a, k + 1 + b;
    }
  }

  // ---- lines ----

  predicate OneLine(s: string) { forall i :: 0 <= i < |s| ==> !IsLineBreak(s[i]) }

  function LineEnd(s: string): (i: nat)
    ensures i <= |s| && OneLine(s[..i])
    ensures i < |s| ==> IsLineBreak(s[i])
  {
    if s == "" || IsLineBreak(s[0]) then 0
    else
      var i := 1 + LineEnd(s[1..]);
      assert s[..i] == [s[0]] + s[1..][..i - 1];
      i
  }

  /** `str.splitlines`: a carriage return and the line feed behind it count once. */
  function SplitLines(s: string): (lines: seq<string>)
    ensures forall i :: 0 <= i < |lines| ==> OneLine(lines[i])
    decreases |s|
  {
    var i := LineEnd(s);
    if s == "" then []
    else if i == |s| then [s]
    else if s[i] == '\r' && i + 1 < |s| && s[i + 1] == '\n' then [s[..i]] + SplitLines(s[i + 2..])
    else [s[..i]] + SplitLines(s[i + 1..])
  }

  /** `"\n".join(lines) + "\n"`. */
  function Unlines(lines: seq<string>): string {
    if lines == [] then "" else lines[0] + "\n" + Unlines(lines[1..])
  }

  lemma {:induction false} SplitLinesAt(a: string, b: string)
    requires OneLine(a)
    ensures SplitLines(a + "\n" + b) == [a] + SplitLines(b)
  {
    var s := a + "\n" + b;
    assert s[|a|] == '\n';
    var i := LineEnd(s);
    assert i <= |a| by {
      assert forall j :: 0 <= j < i ==> s[..i][j] == s[j];
    }
    assert i == |a|;
    assert s[..i] == a && s[i + 1..] == b;
  }

  lemma {:induction false} SplitLinesPrefix(lines: seq<string>, rest: string)
    requires forall i :: 0 <= i < |lines| ==> OneLine(lines[i])
    ensures SplitLines(Unlines(lines) + rest) == lines + SplitLines(rest)
  {
    if lines == [] {
      assert Unlines(lines) + rest == rest;
    } else {
      var a, b := lines[0], Unlines(lines[1..]) + rest;
      Reassociate(a + "\n", Unlines(lines[1..]), rest);
      SplitLinesAt(a, b);
      SplitLinesPrefix(lines[1..], rest);
      HeadAndTail(lines, SplitLines(rest));
    }
  }

  lemma {:induction false} Reassociate<T>(a: seq<T>, b: seq<T>, c: seq<T>)
    ensures a + b + c == a + (b + c)
  {}

  lemma {:induction false} HeadAndTail<T>(a: seq<T>, b: seq<T>)
    requires a != []
    ensures [a[0]] + (a[1..] + b) == a + b
  {}

  lemma {:induction false} UnlinesAppend(a: seq<string>, b: seq<string>)
    ensures Unlines(a + b) == Unlines(a) + Unlines(b)
  {
    if a == [] {
      assert a + b == b;
    } else {
      assert (a + b)[1..] == a[1..] + b;
      UnlinesAppend(a[1..], b);
    }
  }

  // ---- code-point order ----

  predicate Before(a: string, b: string) {
    b != "" && (a == "" || a[0] < b[0] || (a[0] == b[0] && Before(a[1..], b[1..])))
  }

  lemma {:induction false} BeforeTotal(a: string, b: string)
    ensures Before(a, b) || a == b || Before(b, a)
  {
    if a != "" && b != "" && a[0] == b[0] {
      BeforeTotal(a[1..], b[1..]);
      assert a[1..] == b[1..] ==> [a[0]] + a[1..] == [b[0]] + b[1..];
    }
  }

  lemma {:induction false} BeforeTransitive(a: string, b: string, c: string)
    requires Before(a, b) && Before(b, c)
    ensures Before(a, c)
  {
    if a != "" && a[0] == b[0] && b[0] == c[0] {
      BeforeTransitive(a[1..], b[1..], c[1..]);
    }
  }

  lemma {:induction false} BeforeIrreflexive(a: string)
    ensures !Before(a, a)
  {
    if a != "" { BeforeIrreflexive(a[1..]); }
  }

  ghost predicate IsLeast(m: string, s: set<string>) {
    m in s && forall x :: x in s ==> !Before(x, m)
  }

  lemma {:induction false} LeastExists(s: set<string>)
    requires s != {}
    ensures exists m :: IsLeast(m, s)
  {
    var x :| x in s;
    if s == {x} {
      BeforeIrreflexive(x);
      assert IsLeast(x, s);
    } else {
      LeastExists(s - {x});
      var m :| IsLeast(m, s - {x});
      BeforeIrreflexive(x);
      if Before(x, m) {
        forall y | y in s ensures !Before(y, x) {
          if Before(y, x) { BeforeTransitive(y, x, m); }
        }
        assert IsLeast(x, s);
      } else {
        assert IsLeast(m, s);
      }
    }
  }

  /** `sorted(s)` for a set of strings. */
  ghost function Sorted(s: set<string>): (r: seq<string>)
    ensures forall x :: x in r <==> x in s
    ensures s != {} ==> r != [] && IsLeast(r[0], s) && r == [r[0]] + Sorted(s - {r[0]})
  {
    if s == {} then []
    else
      LeastExists(s);
      var m :| IsLeast(m, s);
      [m] + Sorted(s - {m})
  }

  predicate Ascending(r: seq<string>) {
    forall i, j :: 0 <= i < j < |r| ==> Before(r[i], r[j])
  }

  /** There is one way only to list a set in ascending order. */
  lemma {:induction false} AscendingIsSorted(r: seq<string>, s: set<string>)
    requires Ascending(r) && forall x :: x in r <==> x in s
    ensures r == Sorted(s)
    decreases |r|
  {
    if r == [] {
      assert s == {};
    } else {
      assert r[0] in s;
      var m, rest := Sorted(s)[0], r[1..];
      assert IsLeast(m, s) && Sorted(s) == [m] + Sorted(s - {m});
      AscendingStartsLeast(r, s, m);
      AscendingTail(r, s);
      hide Ascending, Sorted, IsLeast;
      AscendingIsSorted(rest, s - {m});
      assert r == [m] + rest;
    }
  }

  lemma {:induction false} SortedAscending(s: set<string>)
    ensures Ascending(Sorted(s))
    decreases |s|
  {
    if s != {} {
      var r := Sorted(s);
      var rest := s - {r[0]};
      assert r == [r[0]] + Sorted(rest);
      SortedAscending(rest);
      hide Before;
      forall i, j | 0 <= i < j < |r| ensures Before(r[i], r[j]) {
        if i == 0 {
          assert r[j] in Sorted(rest) && r[j] in rest;
          BeforeTotal(r[0], r[j]);
        }
      }
    }
  }

  lemma {:induction false} AscendingStartsLeast(r: seq<string>, s: set<string>, m: string)
    requires Ascending(r) && IsLeast(m, s) && forall x :: x in r <==> x in s
    ensures r != [] && r[0] == m
  {
    assert m in r;
    assert r[0] in r && !Before(r[0], m);
  }

  lemma {:induction false} AscendingTail(r: seq<string>, s: set<string>)
    requires r != [] && Ascending(r) && forall x :: x in r <==> x in s
    ensures Ascending(r[1..]) && forall x :: x in r[1..] <==> x in s - {r[0]}
  {
    var t := r[1..];
    assert forall i :: 0 <= i < |t| ==> t[i] == r[i + 1];
    forall i | 0 <= i < |t| ensures t[i] != r[0] {
      BeforeIrreflexive(r[0]);
      assert Before(r[0], r[i + 1]);
    }
    assert r == [r[0]] + t;
  }

  method InsertSorted(r: seq<string>, x: string) returns (r': seq<string>)
    requires Ascending(r) && x !in r
    ensures Ascending(r') && forall y :: y in r' <==> y == x || y in r
  {
    var i := 0;
    while i < |r| && Before(r[i], x)
      invariant 0 <= i <= |r|
      invariant forall k :: 0 <= k < i ==> Before(r[k], x)
    {
      i := i + 1;
    }
    forall k | i <= k < |r| ensures Before(x, r[k]) {
      BeforeTotal(r[i], x);
      assert r[i] in r;
      if i < k { BeforeTransitive(x, r[i], r[k]); }
    }
    assert r == r[..i] + r[i..];
    r' := r[..i] + [x] + r[i..];
  }

  /** Python's `sorted` over the elements of a set, by insertion. */
  method SortedList(s: set<string>) returns (r: seq<string>)
    ensures r == Sorted(s)
    ensures Ascending(r)
  {
    r := [];
    var rest := s;
    while rest != {}
      invariant rest <= s && Ascending(r)
      invariant forall x :: x in r <==> x in s - rest
      decreases |rest|
    {
      var x :| x in rest;
      r := InsertSorted(r, x);
      rest := rest - {x};
    }
    AscendingIsSorted(r, s);
  }

  /** `str.lower` as far as a comparison with a lower-case ASCII word can tell. */
  function AsciiLower(s: string): string {
    seq(|s|, i requires 0 <= i < |s| => if 'A' <= s[i] <= 'Z' then 'a' + (s[i] - 'A') else s[i])
  }

  // ---- decimal numbers ----

  function Digit(d: int): char
    requires 0 <= d < 10
  {
    '0' + d as char
  }

  /** `str(n)` for a natural number. */
  function Decimal(n: nat): (s: string)
    ensures s != "" && forall i :: 0 <= i < |s| ==> '0' <= s[i] <= '9'
  {
    if n < 10 then [Digit(n)] else Decimal(n / 10) + [Digit(n % 10)]
  }

  lemma {:induction false} DecimalInjective(m: nat, n: nat)
    requires Decimal(m) == Decimal(n)
    ensures m == n
  {
    var s, t := Decimal(m), Decimal(n);
    assert |s| == 1 <==> m < 10;
    assert |t| == 1 <==> n < 10;
    assert s[|s| - 1] == Digit(m % 10) && t[|t| - 1] == Digit(n % 10);
    assert m % 10 == n % 10;
    if m >= 10 && n >= 10 {
      assert s[..|s| - 1] == Decimal(m / 10) && t[..|t| - 1] == Decimal(n / 10);
      DecimalInjective(m / 10, n / 10);
    }
  }
}
