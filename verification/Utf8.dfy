/** UTF-8 as RFC 3629 lays it out, with `?` for what it cannot encode, and its lengths. */
module Utf8 {
  import opened Prelude
  import opened CodePoints

  type Byte = b: int | 0 <= b < 0x100

  predicate IsSurrogate(c: CodePoint) {
    0xd800 <= c <= 0xdfff
  }

  // ----- the encoding -----

  /** Six more bits. */
  function Following(bits: int): Byte
    requires 0 <= bits < 0x40
  {
    0x80 + bits
  }

  /** The bytes of one code point: section 3 of RFC 3629; `str.encode` with `errors="replace"` writes `?` for a
      surrogate. */
  function Encoded(c: CodePoint): (bytes: seq<Byte>)
    ensures bytes != []
  {
    if IsSurrogate(c) then ['?' as int]
    else if c <= 0x7f then [c]
    else if c <= 0x7ff then [0xc0 + c / 0x40, Following(c % 0x40)]
    else if c <= 0xffff then [0xe0 + c / 0x40 / 0x40, Following(c / 0x40 % 0x40), Following(c % 0x40)]
    else [0xf0 + c / 0x40 / 0x40 / 0x40, Following(c / 0x40 / 0x40 % 0x40), Following(c / 0x40 % 0x40), Following(c % 0x40)]
  }

  function Utf8(s: Text): seq<Byte> {
    if s == [] then [] else Encoded(s[0]) + Utf8(s[1..])
  }

  // ----- reading it -----

  function Bits(b: int, mark: int): int {
    b - mark
  }

  /** Six more bits, from a byte that follows. */
  function More(high: int, b: int): int {
    high * 0x40 + Bits(b, 0x80)
  }

  predicate Follows(bytes: seq<Byte>, n: nat) {
    |bytes| > n && forall i :: 1 <= i <= n ==> 0x80 <= bytes[i] <= 0xbf
  }

  /** The first code point and the number of its bytes; nothing if the bytes are malformed, not the shortest form,
      a surrogate, or beyond the last code point. */
  function DecodeOne(bytes: seq<Byte>): (r: Option<(CodePoint, nat)>)
    ensures r.Some? ==> 0 < r.value.1 <= |bytes|
  {
    if bytes == [] then None
    else if bytes[0] <= 0x7f then Some((bytes[0], 1))
    else if 0xc0 <= bytes[0] <= 0xdf && Follows(bytes, 1) then Checked(More(Bits(bytes[0], 0xc0), bytes[1]), 0x80, 2)
    else if 0xe0 <= bytes[0] <= 0xef && Follows(bytes, 2) then
      Checked(More(More(Bits(bytes[0], 0xe0), bytes[1]), bytes[2]), 0x800, 3)
    else if 0xf0 <= bytes[0] <= 0xf7 && Follows(bytes, 3) then
      Checked(More(More(More(Bits(bytes[0], 0xf0), bytes[1]), bytes[2]), bytes[3]), 0x1_0000, 4)
    else None
  }

  function Checked(c: int, least: int, n: nat): (r: Option<(CodePoint, nat)>)
    requires 0 <= least
    ensures r.Some? ==> r.value == (c, n)
  {
    if c < least || c >= 0x11_0000 || IsSurrogate(c) then None else Some((c, n))
  }

  function Decode(bytes: seq<Byte>): Option<Text>
    decreases |bytes|
  {
    if bytes == [] then Some([])
    else
      var first := DecodeOne(bytes);
      if first.None? then None
      else
        var rest := Decode(bytes[first.value.1..]);
        if rest.None? then None else Some([first.value.0] + rest.value)
  }

  // ----- they are inverse -----

  function Replaced(s: Text): Text {
    seq(|s|, i requires 0 <= i < |s| => if IsSurrogate(s[i]) then '?' as int else s[i])
  }

  lemma SixBits(c: int)
    requires 0 <= c
    ensures More(c / 0x40, Following(c % 0x40)) == c
  {}

  lemma DecodesOne(c: CodePoint, rest: seq<Byte>)
    ensures DecodeOne(Encoded(c) + rest) == Some((if IsSurrogate(c) then '?' as int else c, |Encoded(c)|))
  {
    hide More;
    var bytes := Encoded(c) + rest;
    assert forall i :: 0 <= i < |Encoded(c)| ==> bytes[i] == Encoded(c)[i];
    SixBits(c);
    SixBits(c / 0x40);
    SixBits(c / 0x40 / 0x40);
    assert Following(c % 0x40) >= 0x80;
  }

  lemma SixBitsBack(high: int, b: int)
    requires 0 <= high && 0x80 <= b <= 0xbf
    ensures var c := More(high, b); c >= 0 && c / 0x40 == high && Following(c % 0x40) == b
  {}

  /** What was encoded reads as the text, with `?` for its surrogates. */
  lemma {:induction false} DecodeUtf8(s: Text)
    ensures Decode(Utf8(s)) == Some(Replaced(s))
  {
    hide DecodeOne, Encoded, IsSurrogate;
    assert s == [] ==> Replaced(s) == [];
    if s != [] {
      var rest := Utf8(s[1..]);
      DecodesOne(s[0], rest);
      assert Utf8(s)[|Encoded(s[0])|..] == rest;
      DecodeUtf8(s[1..]);
      assert Replaced(s) == [Replaced(s)[0]] + Replaced(s[1..]);
    }
  }

  lemma EncodesOne(bytes: seq<Byte>)
    requires DecodeOne(bytes).Some?
    ensures var (c, n) := DecodeOne(bytes).value; !IsSurrogate(c) && Encoded(c) == bytes[..n]
  {
    hide More;
    var n := DecodeOne(bytes).value.1;
    if n > 1 {
      var high := Bits(bytes[0], if n == 2 then 0xc0 else if n == 3 then 0xe0 else 0xf0);
      SixBitsBack(high, bytes[1]);
      if n > 2 {
        SixBitsBack(More(high, bytes[1]), bytes[2]);
      }
      if n > 3 {
        SixBitsBack(More(More(high, bytes[1]), bytes[2]), bytes[3]);
      }
    }
  }

  /** No other bytes read as the text. */
  lemma {:induction false} Utf8Decode(bytes: seq<Byte>)
    requires Decode(bytes).Some?
    ensures Utf8(Decode(bytes).value) == bytes
    decreases |bytes|
  {
    hide DecodeOne, Encoded, IsSurrogate;
    if bytes != [] {
      var (c, n) := DecodeOne(bytes).value;
      EncodesOne(bytes);
      Utf8Decode(bytes[n..]);
      assert bytes == bytes[..n] + bytes[n..];
    }
  }

  // ----- lengths -----

  /** What a text takes in UTF-8. */
  ghost function ByteCount(s: Text): nat {
    |Utf8(s)|
  }

  function Utf8Size(c: CodePoint): (n: nat)
    ensures n == |Encoded(c)|
  {
    if c < 0x80 then 1
    else if c < 0x800 then 2
    else if 0xd800 <= c <= 0xdfff then 1
    else if c < 0x1_0000 then 3
    else 4
  }

  /** `_utf8_length`. */
  function Utf8Length(s: Text): (n: nat)
    ensures n == ByteCount(s)
  {
    if s == [] then 0 else Utf8Size(s[0]) + Utf8Length(s[1..])
  }
}
