/** Base64 in the two alphabets the code uses: groups of three bytes as four
    characters, a shorter last group with or without its padding. */
module Base64 {
  import opened Text

  type Byte = b: int | 0 <= b < 256

  type Sextet = v: int | 0 <= v < 64

  /** Three bytes as four six-bit values; one or two bytes as two or three. */
  function Sextets(b: seq<Byte>): (v: seq<Sextet>)
    ensures |v| == (8 * |b| + 5) / 6
  {
    if |b| == 0 then []
    else if |b| == 1 then [b[0] / 4, (b[0] % 4) * 16]
    else if |b| == 2 then [b[0] / 4, (b[0] % 4) * 16 + b[1] / 16, (b[1] % 16) * 4]
    else
      [b[0] / 4, (b[0] % 4) * 16 + b[1] / 16, (b[1] % 16) * 4 + b[2] / 64, b[2] % 64] + Sextets(b[3..])
  }

  function First(p: int, q: int): int { p * 4 + q / 16 }

  function Second(q: int, r: int): int { (q % 16) * 16 + r / 4 }

  function Third(r: int, t: int): int { (r % 4) * 64 + t }

  /** The bytes behind the values; leftover bits of the last one are dropped. */
  function Bytes(v: seq<Sextet>): (b: seq<Byte>)
    ensures |b| == 6 * |v| / 8
  {
    if |v| < 2 then []
    else if |v| == 2 then [First(v[0], v[1])]
    else if |v| == 3 then [First(v[0], v[1]), Second(v[1], v[2])]
    else [First(v[0], v[1]), Second(v[1], v[2]), Third(v[2], v[3])] + Bytes(v[4..])
  }

  lemma {:induction false} BytesOfSextets(b: seq<Byte>)
    ensures Bytes(Sextets(b)) == b
  {
    if |b| >= 3 {
      var v := Sextets(b);
      BytesOfSextets(b[3..]);
      assert v[4..] == Sextets(b[3..]);
      GroupReadBack(b[0], b[1], b[2]);
      assert b == [b[0], b[1], b[2]] + b[3..];
    }
  }

  lemma {:induction false} GroupReadBack(x: Byte, y: Byte, z: Byte)
    ensures (x / 4) * 4 + ((x % 4) * 16 + y / 16) / 16 == x
    ensures (((x % 4) * 16 + y / 16) % 16) * 16 + ((y % 16) * 4 + z / 64) / 4 == y
    ensures (((y % 16) * 4 + z / 64) % 4) * 64 + z % 64 == z
  {}

  // ---- characters ----

  /** The two characters after letters and digits: `+/` or, safe in URLs, `-_`. */
  datatype Alphabet = Standard | UrlSafe {
    function Char(v: Sextet): char {
      if v < 26 then 'A' + v as char
      else if v < 52 then 'a' + (v - 26) as char
      else if v < 62 then '0' + (v - 52) as char
      else match this
        case Standard => if v == 62 then '+' else '/'
        case UrlSafe => if v == 62 then '-' else '_'
    }

    function Value(c: char): (v: Option<int>)
      ensures v.Some? ==> 0 <= v.value < 64
    {
      if 'A' <= c <= 'Z' then Some((c - 'A') as int)
      else if 'a' <= c <= 'z' then Some((c - 'a') as int + 26)
      else if '0' <= c <= '9' then Some((c - '0') as int + 52)
      else match this
        case Standard => if c == '+' then Some(62) else if c == '/' then Some(63) else None
        case UrlSafe => if c == '-' then Some(62) else if c == '_' then Some(63) else None
    }

    predicate Has(c: char) { Value(c).Some? }
  }

  lemma {:induction false} ValueOfChar(a: Alphabet, v: Sextet)
    ensures a.Value(a.Char(v)) == Some(v) && a.Char(v) != '='
  {}

  lemma {:induction false} CharOfValue(a: Alphabet, c: char)
    requires a.Has(c)
    ensures a.Char(a.Value(c).value) == c && c != '='
  {}

  function Chars(a: Alphabet, v: seq<Sextet>): (s: string)
    ensures |s| == |v| && forall i :: 0 <= i < |s| ==> s[i] == a.Char(v[i])
  {
    seq(|v|, i requires 0 <= i < |v| => a.Char(v[i]))
  }

  function Values(a: Alphabet, s: string): (v: seq<Sextet>)
    requires forall i :: 0 <= i < |s| ==> a.Has(s[i])
    ensures |v| == |s| && forall i :: 0 <= i < |s| ==> a.Has(s[i]) && a.Value(s[i]) == Some(v[i])
  {
    seq(|s|, i requires 0 <= i < |s| && a.Has(s[i]) => a.Value(s[i]).value)
  }

  /** How many `=` fill the last group up. */
  function Padding(n: nat): nat { (4 - n % 4) % 4 }

  function Fill(n: nat): (s: string)
    ensures |s| == n && forall i :: 0 <= i < n ==> s[i] == '='
  {
    seq(n, i => '=')
  }

  function Encode(a: Alphabet, b: seq<Byte>): string {
    var data := Chars(a, Sextets(b));
    data + Fill(Padding(|data|))
  }

  /** A strict reading: characters of the alphabet and then exactly the padding they call for. */
  predicate WellPadded(a: Alphabet, s: string, n: nat) {
    n <= |s| && n % 4 != 1 && |s| == n + Padding(n)
    && (forall i :: 0 <= i < n ==> a.Has(s[i])) && forall i :: n <= i < |s| ==> s[i] == '='
  }

  /** How many characters come before the padding. */
  function DataLength(s: string): (n: nat)
    ensures n <= |s| && forall i :: n <= i < |s| ==> s[i] == '='
    ensures n > 0 ==> s[n - 1] != '='
  {
    Trail(Only('='), s)
  }

  function Decode(a: Alphabet, s: string): Option<seq<Byte>> {
    var n := DataLength(s);
    if WellPadded(a, s, n) then Some(Bytes(Values(a, s[..n]))) else None
  }

  /** Base64 without its padding. */
  function Bare(a: Alphabet, b: seq<Byte>): string {
    var s := Encode(a, b);
    s[..DataLength(s)]
  }

  lemma {:induction false} DataIs(a: Alphabet, s: string, n: nat)
    requires n <= |s| && (forall i :: 0 <= i < n ==> s[i] != '=') && forall i :: n <= i < |s| ==> s[i] == '='
    ensures DataLength(s) == n
  {
    var m := DataLength(s);
    var i := if m < n || m == 0 then m else m - 1;
    var c := if i < |s| then s[i] else ' ';
  }

  /** Dropping the trailing `=` leaves exactly the data characters. */
  lemma {:induction false} BareIsData(a: Alphabet, b: seq<Byte>)
    ensures Bare(a, b) == Chars(a, Sextets(b))
    ensures DataLength(Encode(a, b)) == |Sextets(b)|
    ensures forall i :: 0 <= i < |Bare(a, b)| ==> a.Has(Bare(a, b)[i])
  {
    var v := Sextets(b);
    var data := Chars(a, v);
    hide Sextets;
    var s := data + Fill(Padding(|data|));
    assert s == Encode(a, b);
    forall i | 0 <= i < |data| ensures s[i] != '=' && a.Has(s[i]) { ValueOfChar(a, v[i]); }
    DataIs(a, s, |data|);
    assert s[..|data|] == data;
  }

  lemma {:induction false} ValuesOfChars(a: Alphabet, v: seq<Sextet>)
    ensures forall i :: 0 <= i < |v| ==> a.Has(Chars(a, v)[i])
    ensures Values(a, Chars(a, v)) == v
  {
    var s := Chars(a, v);
    forall i | 0 <= i < |v| ensures a.Value(s[i]) == Some(v[i]) { ValueOfChar(a, v[i]); }
  }

  lemma {:induction false} EncodedWell(a: Alphabet, v: seq<Sextet>, s: string)
    requires |v| % 4 != 1 && s == Chars(a, v) + Fill(Padding(|v|))
    ensures WellPadded(a, s, |v|) && s[..|v|] == Chars(a, v)
  {
    ValuesOfChars(a, v);
    var data := Chars(a, v);
    hide Chars, Fill, Padding;
    forall i | 0 <= i < |v| ensures a.Has(s[i]) { assert s[i] == data[i]; }
  }

  lemma {:induction false} DecodeWell(a: Alphabet, s: string, n: nat)
    requires n == DataLength(s) && WellPadded(a, s, n)
    ensures Decode(a, s) == Some(Bytes(Values(a, s[..n])))
  {
    hide Bytes, Values;
  }

  /** Decoding gives back what was encoded. */
  lemma {:induction false} DecodeEncode(a: Alphabet, b: seq<Byte>)
    ensures Decode(a, Encode(a, b)) == Some(b)
  {
    var v, s := Sextets(b), Encode(a, b);
    assert s == Chars(a, v) + Fill(Padding(|v|));
    hide *;
    assert |v| % 4 != 1;
    BareIsData(a, b);
    BytesOfSextets(b);
    ValuesOfChars(a, v);
    EncodedWell(a, v, s);
    DecodeWell(a, s, |v|);
  }

  /** Different bytes have different encodings, with and without padding. */
  lemma {:induction false} EncodeInjective(a: Alphabet, b: seq<Byte>, c: seq<Byte>)
    ensures Encode(a, b) == Encode(a, c) ==> b == c
    ensures Bare(a, b) == Bare(a, c) ==> b == c
  {
    DecodeEncode(a, b);
    DecodeEncode(a, c);
    BareIsData(a, b);
    BareIsData(a, c);
    ValuesOfChars(a, Sextets(b));
    ValuesOfChars(a, Sextets(c));
    BytesOfSextets(b);
    BytesOfSextets(c);
    hide *;
  }
}
