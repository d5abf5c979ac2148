/** Reading the registry's 32-byte signing seed, given in base64 (section 4 of
    RFC 4648) or hexadecimal (section 8). */
module RegistrySeed {
  import opened Text
  import opened Base64

  datatype Result = Seed(bytes: seq<Byte>) | Rejected

  /** The white space `bytes.fromhex` skips. */
  predicate HexSpace(c: char) { '\t' <= c <= '\r' || c == ' ' }

  function Nibble(c: char): (v: Option<int>)
    ensures v.Some? ==> 0 <= v.value < 16 && !HexSpace(c) && c != '='
  {
    if '0' <= c <= '9' then Some((c - '0') as int)
    else if 'a' <= c <= 'f' then Some((c - 'a') as int + 10)
    else if 'A' <= c <= 'F' then Some((c - 'A') as int + 10)
    else None
  }

  /** `bytes.fromhex`: pairs of digits, white space allowed between pairs and around them. */
  function FromHex(s: string): Option<seq<Byte>> {
    if s == "" then Some([])
    else if HexSpace(s[0]) then FromHex(s[1..])
    else if |s| < 2 || Nibble(s[0]).None? || Nibble(s[1]).None? then None
    else
      match FromHex(s[2..])
      case None => None
      case Some(rest) => Some([Nibble(s[0]).value * 16 + Nibble(s[1]).value] + rest)
  }

  /** `_parse_seed`: base64 first, then hexadecimal; only 32 bytes are accepted. */
  function ParseSeed(secret: string): Result {
    var candidate := Strip(secret);
    var base64, hex := Decode(Standard, candidate), FromHex(candidate);
    if candidate == "" then Rejected
    else if base64.Some? && |base64.value| == 32 then Seed(base64.value)
    else if hex.Some? && |hex.value| == 32 then Seed(hex.value)
    else Rejected
  }

  // ---- what is accepted ----

  /** 43 characters of the standard alphabet and one `=`. */
  predicate Base64Shape(s: string) {
    |s| == 44 && s[43] == '=' && forall i :: 0 <= i < 43 ==> Standard.Has(s[i])
  }

  /** One piece of a hexadecimal text: a gap of white space and a pair of digits. */
  datatype Piece = Piece(gap: string, high: char, low: char) {
    predicate Fits(b: Byte) {
      && (forall i :: 0 <= i < |gap| ==> HexSpace(gap[i]))
      && Nibble(high).Some? && Nibble(low).Some? && b == Nibble(high).value * 16 + Nibble(low).value
    }
  }

  function Written(pieces: seq<Piece>, end: string): string {
    if pieces == [] then end
    else pieces[0].gap + [pieces[0].high, pieces[0].low] + Written(pieces[1..], end)
  }

  /** The text consists of the bytes' pairs of digits, in order, with white space only between them and at the ends. */
  ghost predicate Spells(s: string, bytes: seq<Byte>) {
    exists pieces: seq<Piece>, end: string :: SpelledBy(s, bytes, pieces, end)
  }

  predicate SpelledBy(s: string, bytes: seq<Byte>, pieces: seq<Piece>, end: string) {
    && |pieces| == |bytes| && (forall i :: 0 <= i < |pieces| ==> pieces[i].Fits(bytes[i]))
    && (forall i :: 0 <= i < |end| ==> HexSpace(end[i])) && s == Written(pieces, end)
  }

  lemma {:induction false} HexOfSpaces(s: string)
    requires forall i :: 0 <= i < |s| ==> HexSpace(s[i])
    ensures FromHex(s) == Some([])
  {
    if s != "" { HexOfSpaces(s[1..]); }
  }

  lemma {:induction false} HexSkips(gap: string, s: string)
    requires forall i :: 0 <= i < |gap| ==> HexSpace(gap[i])
    ensures FromHex(gap + s) == FromHex(s)
  {
    if gap == "" {
      assert gap + s == s;
    } else {
      assert (gap + s)[0] == gap[0] && (gap + s)[1..] == gap[1..] + s;
      HexSkips(gap[1..], s);
    }
  }

  /** A byte's two digits in front of what reads as the other bytes. */
  lemma {:induction false} PairRead(s: string, rest: string, bytes: seq<Byte>, high: int, low: int)
    requires bytes != [] && |s| >= 2 && rest == s[2..] && FromHex(rest) == Some(bytes[1..])
    requires Nibble(s[0]) == Some(high) && Nibble(s[1]) == Some(low) && bytes[0] == high * 16 + low
    ensures FromHex(s) == Some(bytes)
  {
    assert bytes == [bytes[0]] + bytes[1..];
    hide Nibble, HexSpace;
  }

  lemma {:induction false} SpelledIsRead(s: string, bytes: seq<Byte>, pieces: seq<Piece>, end: string)
    requires SpelledBy(s, bytes, pieces, end)
    ensures FromHex(s) == Some(bytes)
    decreases |pieces|
  {
    if pieces == [] {
      HexOfSpaces(s);
      assert bytes == [];
    } else {
      var p, rest := pieces[0], Written(pieces[1..], end);
      SpelledIsRead(rest, bytes[1..], pieces[1..], end);
      assert p.Fits(bytes[0]);
      assert bytes[0] == Nibble(p.high).value * 16 + Nibble(p.low).value;
      assert forall i :: 0 <= i < |p.gap| ==> HexSpace(p.gap[i]);
      var pair := [p.high, p.low] + rest;
      assert s == p.gap + pair by { hide Nibble, HexSpace; }
      hide *;
      HexSkips(p.gap, pair);
      assert pair[2..] == rest && pair[0] == p.high && pair[1] == p.low;
      PairRead(pair, rest, bytes, Nibble(p.high).value, Nibble(p.low).value);
    }
  }

  lemma {:induction false} WrittenCons(p: Piece, pieces: seq<Piece>, end: string)
    ensures Written([p] + pieces, end) == p.gap + [p.high, p.low] + Written(pieces, end)
  {
    assert ([p] + pieces)[1..] == pieces;
  }

  lemma {:induction false} PairSpelled(s: string, b: Byte, bytes: seq<Byte>, pieces: seq<Piece>, end: string)
    requires |s| >= 2 && SpelledBy(s[2..], bytes, pieces, end) && Piece("", s[0], s[1]).Fits(b)
    ensures SpelledBy(s, [b] + bytes, [Piece("", s[0], s[1])] + pieces, end)
  {
    WrittenCons(Piece("", s[0], s[1]), pieces, end);
    hide Written, Nibble, HexSpace;
    assert s == "" + [s[0], s[1]] + s[2..];
  }

  lemma {:induction false} SpaceSpelled(s: string, bytes: seq<Byte>, pieces: seq<Piece>, end: string)
    requires s != "" && HexSpace(s[0]) && pieces != [] && SpelledBy(s[1..], bytes, pieces, end)
    ensures var p := pieces[0];
      SpelledBy(s, bytes, [Piece([s[0]] + p.gap, p.high, p.low)] + pieces[1..], end)
  {
    var p := pieces[0];
    var q, rest := Piece([s[0]] + p.gap, p.high, p.low), pieces[1..];
    WrittenCons(q, rest, end);
    assert p.Fits(bytes[0]) && Written(pieces, end) == p.gap + [p.high, p.low] + Written(rest, end);
    hide Written, Nibble, HexSpace;
    assert q.Fits(bytes[0]);
    assert s == [s[0]] + s[1..];
    assert [s[0]] + (p.gap + [p.high, p.low] + Written(rest, end))
        == ([s[0]] + p.gap) + [p.high, p.low] + Written(rest, end);
  }

  lemma {:induction false} ReadIsSpelled(s: string, bytes: seq<Byte>) returns (pieces: seq<Piece>, end: string)
    requires FromHex(s) == Some(bytes)
    ensures SpelledBy(s, bytes, pieces, end)
  {
    if s == "" {
      pieces, end := [], "";
    } else if HexSpace(s[0]) {
      pieces, end := ReadIsSpelled(s[1..], bytes);
      if pieces == [] {
        end := s;
      } else {
        hide *;
        SpaceSpelled(s, bytes, pieces, end);
        pieces := [Piece([s[0]] + pieces[0].gap, pieces[0].high, pieces[0].low)] + pieces[1..];
      }
    } else {
      pieces, end := ReadIsSpelled(s[2..], bytes[1..]);
      assert Piece("", s[0], s[1]).Fits(bytes[0]) && [bytes[0]] + bytes[1..] == bytes;
      hide *;
      PairSpelled(s, bytes[0], bytes[1..], pieces, end);
      pieces := [Piece("", s[0], s[1])] + pieces;
    }
  }

  lemma {:induction false} HexAccepts(s: string, bytes: seq<Byte>)
    ensures FromHex(s) == Some(bytes) <==> Spells(s, bytes)
  {
    hide FromHex, SpelledBy;
    if FromHex(s) == Some(bytes) { var pieces, end := ReadIsSpelled(s, bytes); }
    if Spells(s, bytes) {
      var pieces, end :| SpelledBy(s, bytes, pieces, end);
      SpelledIsRead(s, bytes, pieces, end);
    }
  }

  lemma {:induction false} ShapeDecodes(s: string)
    requires Base64Shape(s)
    ensures Decode(Standard, s) == Some(Bytes(Values(Standard, s[..43])))
  {
    forall i | 0 <= i < 43 ensures s[i] != '=' { CharOfValue(Standard, s[i]); }
    DataIs(Standard, s, 43);
    hide Bytes, Values;
    DecodeWell(Standard, s, 43);
  }

  lemma {:induction false} DecodedShape(s: string)
    requires Decode(Standard, s).Some? && |Decode(Standard, s).value| == 32
    ensures Base64Shape(s)
  {
    var n := DataLength(s);
    hide Bytes, Values, Trail;
    assert WellPadded(Standard, s, n) && |Bytes(Values(Standard, s[..n]))| == 6 * n / 8;
    hide Decode, DataLength;
    assert n == 43;
  }

  lemma {:induction false} Base64Accepts(s: string, bytes: seq<Byte>)
    requires |bytes| == 32
    ensures Decode(Standard, s) == Some(bytes) <==>
      Base64Shape(s) && bytes == Bytes(Values(Standard, s[..43]))
  {
    if Decode(Standard, s) == Some(bytes) { DecodedShape(s); }
    if Base64Shape(s) { ShapeDecodes(s); }
    hide Decode, Bytes, Values;
  }

  /** What a text means as a seed: 43 base64 characters and one `=`, or 32 pairs of hexadecimal digits that white
      space may separate. */
  ghost predicate Means(s: string, bytes: seq<Byte>) {
    |bytes| == 32 &&
    ((Base64Shape(s) && bytes == Bytes(Values(Standard, s[..43]))) || Spells(s, bytes))
  }

  /** A seed is accepted exactly when, trimmed, it means these 32 bytes in base64 or in hexadecimal. */
  lemma {:induction false} AcceptedExactly(secret: string, bytes: seq<Byte>)
    ensures ParseSeed(secret) == Seed(bytes) <==> Means(Strip(secret), bytes)
  {
    var s := Strip(secret);
    var base64, hex := Decode(Standard, s), FromHex(s);
    assert s == "" ==> hex == Some([]);
    assert Means(s, bytes) <==>
      |bytes| == 32 && ((Base64Shape(s) && bytes == Bytes(Values(Standard, s[..43]))) || Spells(s, bytes))
    by { hide Base64Shape, Bytes, Values, Spells; }
    hide Decode, FromHex, Strip, Bytes, Values, Spells, Base64Shape, Means;
    if |bytes| == 32 { Base64Accepts(s, bytes); }
    HexAccepts(s, bytes);
    if base64.Some? && |base64.value| == 32 {
      DecodedShape(s);
      ReadingsApart(s);
    }
    EmptyIsNoBase64(s);
  }

  lemma {:induction false} EmptyIsNoBase64(s: string)
    ensures Base64Shape(s) ==> s != ""
  {}

  lemma {:induction false} HexHasNoPadding(s: string, i: nat)
    requires i < |s| && s[i] == '='
    ensures FromHex(s).None?
  {
    if HexSpace(s[0]) {
      HexHasNoPadding(s[1..], i - 1);
    } else if i >= 2 {
      HexHasNoPadding(s[2..], i - 2);
    }
  }

  /** No text is a 32-byte seed under both readings. */
  lemma {:induction false} ReadingsApart(s: string)
    requires Base64Shape(s)
    ensures FromHex(s).None?
  {
    HexHasNoPadding(s, 43);
  }

  // ---- round trips ----

  function HexDigit(v: int, upper: bool): char
    requires 0 <= v < 16
  {
    if v < 10 then '0' + v as char else if upper then 'A' + (v - 10) as char else 'a' + (v - 10) as char
  }

  function Hex(bytes: seq<Byte>, upper: bool): string {
    if bytes == [] then "" else [HexDigit(bytes[0] / 16, upper), HexDigit(bytes[0] % 16, upper)] + Hex(bytes[1..], upper)
  }

  lemma {:induction false} DigitRead(v: int, upper: bool)
    requires 0 <= v < 16
    ensures Nibble(HexDigit(v, upper)) == Some(v) && !IsSpace(HexDigit(v, upper))
  {}

  lemma {:induction false} HexStep(bytes: seq<Byte>, upper: bool, s: string, rest: string)
    requires bytes != [] && s == Hex(bytes, upper) && rest == Hex(bytes[1..], upper)
    ensures |s| == 2 + |rest| && s[2..] == rest
    ensures s[0] == HexDigit(bytes[0] / 16, upper) && s[1] == HexDigit(bytes[0] % 16, upper)
  {
    hide HexDigit;
  }

  lemma {:induction false} HexLength(bytes: seq<Byte>, upper: bool)
    ensures |Hex(bytes, upper)| == 2 * |bytes|
  {
    if bytes != [] {
      HexStep(bytes, upper, Hex(bytes, upper), Hex(bytes[1..], upper));
      hide *;
      HexLength(bytes[1..], upper);
    }
  }

  lemma {:induction false} HexUnspaced(bytes: seq<Byte>, upper: bool, s: string, i: nat)
    requires s == Hex(bytes, upper) && i < |s|
    ensures !IsSpace(s[i])
  {
    if bytes != [] {
      var rest := Hex(bytes[1..], upper);
      hide *;
      HexStep(bytes, upper, s, rest);
      DigitRead(bytes[0] / 16, upper);
      DigitRead(bytes[0] % 16, upper);
      if i >= 2 {
        HexUnspaced(bytes[1..], upper, rest, i - 2);
        assert s[i] == s[2..][i - 2];
      }
    }
  }

  lemma {:induction false} FromHexOfHex(bytes: seq<Byte>, upper: bool, s: string)
    requires s == Hex(bytes, upper)
    ensures FromHex(s) == Some(bytes)
  {
    if bytes != [] {
      var rest, b := Hex(bytes[1..], upper), bytes[0];
      hide *;
      FromHexOfHex(bytes[1..], upper, rest);
      HexStep(bytes, upper, s, rest);
      var high, low := b / 16, b % 16;
      DigitRead(high, upper);
      DigitRead(low, upper);
      PairRead(s, rest, bytes, high, low);
    }
  }

  lemma {:induction false} AlphabetUnspaced(c: char)
    requires Standard.Has(c) || c == '='
    ensures !IsSpace(c)
  {}

  /** The encodings themselves hold no white space. */
  lemma {:induction false} EncodingsUnspaced(bytes: seq<Byte>, upper: bool)
    ensures forall i :: 0 <= i < |Encode(Standard, bytes)| ==> !IsSpace(Encode(Standard, bytes)[i])
    ensures forall i :: 0 <= i < |Hex(bytes, upper)| ==> !IsSpace(Hex(bytes, upper)[i])
  {
    var s, h := Encode(Standard, bytes), Hex(bytes, upper);
    BareIsData(Standard, bytes);
    var n := DataLength(s);
    assert forall i :: 0 <= i < n ==> s[i] == Bare(Standard, bytes)[i];
    hide Encode, Bare, IsSpace;
    forall i | 0 <= i < |s| ensures !IsSpace(s[i]) { AlphabetUnspaced(s[i]); }
    forall i | 0 <= i < |h| ensures !IsSpace(h[i]) { HexUnspaced(bytes, upper, h, i); }
  }

  lemma {:induction false} StrippedSeed(bytes: seq<Byte>, upper: bool, secret: string)
    requires |bytes| == 32
    requires Strip(secret) == Encode(Standard, bytes) || Strip(secret) == Hex(bytes, upper)
    ensures ParseSeed(secret) == Seed(bytes)
  {
    var s := Strip(secret);
    if s == Encode(Standard, bytes) {
      DecodeEncode(Standard, bytes);
      assert s != "" by { BareIsData(Standard, bytes); }
      hide Encode, Decode, FromHex, Strip;
    } else {
      FromHexOfHex(bytes, upper, s);
      HexLength(bytes, upper);
      if Decode(Standard, s).Some? && |Decode(Standard, s).value| == 32 {
        Base64Accepts(s, Decode(Standard, s).value);
      }
      hide Hex, Decode, FromHex, Strip, Base64Shape;
    }
  }

  predicate Blank(s: string) { forall i :: 0 <= i < |s| ==> IsSpace(s[i]) }

  /** White space around a text without any is what `strip` takes off. */
  lemma {:induction false} PaddingStripped(before: string, s: string, after: string)
    requires Blank(before) && Blank(after) && s != "" && forall i :: 0 <= i < |s| ==> !IsSpace(s[i])
    ensures Strip(before + s + after) == s
  {
    var padded, a := before + s + after, |before|;
    assert padded[a] == s[0] && padded[a + |s| - 1] == s[|s| - 1];
    hide IsSpace;
    TrimIs(White, padded, a, a + |s|);
  }

  /** For every 32-byte seed, its base64 and its 64-digit hexadecimal text, in either case and with any white
      space around it, parse to it. */
  lemma {:induction false} SeedRoundTrip(bytes: seq<Byte>, upper: bool, before: string, after: string)
    requires |bytes| == 32 && Blank(before) && Blank(after)
    ensures ParseSeed(before + Encode(Standard, bytes) + after) == Seed(bytes)
    ensures ParseSeed(before + Hex(bytes, upper) + after) == Seed(bytes)
  {
    EncodingsUnspaced(bytes, upper);
    HexLength(bytes, upper);
    assert Encode(Standard, bytes) != "" by { BareIsData(Standard, bytes); }
    hide Encode, Hex, ParseSeed, Strip, Blank, IsSpace;
    PaddingStripped(before, Encode(Standard, bytes), after);
    PaddingStripped(before, Hex(bytes, upper), after);
    StrippedSeed(bytes, upper, before + Encode(Standard, bytes) + after);
    StrippedSeed(bytes, upper, before + Hex(bytes, upper) + after);
  }
}
