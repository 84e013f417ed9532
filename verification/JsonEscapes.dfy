/** The characters that the JSON parsers tell apart, and an encoder that names each of them: what it
    writes for a text reads as that text again. */
module JsonEscapes {
  import opened Prelude
  import opened CodePoints
  import opened PartialJson
  import opened JsonText
  import opened StrictJson
  import opened StreamingJson
  import JsonPrefix
  import StrictText

  function Ascii(s: string): (t: Text)
    requires forall c :: c in s ==> c < '\U{80}'
    ensures |t| == |s| && forall i :: 0 <= i < |s| ==> t[i] == s[i] as int
  {
    seq(|s|, i requires 0 <= i < |s| => s[i] as int)
  }

  // ----- the characters -----

  predicate IsOneOf(c: CodePoint, s: string) {
    c < 0x80 && c as char in s
  }

  lemma Alphabet(c: CodePoint)
    ensures IsAsciiDigit(c) <==> IsOneOf(c, "0123456789")
    ensures IsHexDigit(c) <==> IsOneOf(c, "0123456789abcdefABCDEF")
    ensures IsExponentLetter(c) <==> IsOneOf(c, "eE")
    ensures Dangling(c) <==> IsOneOf(c, ".eE+-")
    ensures JsonSpace(c) <==> IsOneOf(c, " \t\n\r")
    ensures ShortEscape(c) <==> IsOneOf(c, "\"\\/bfnrt")
    ensures ZERO == '0' as int && MINUS == '-' as int && PLUS == '+' as int && DOT == '.' as int
  {
  }

  /** The 29 code points that `str.isspace` accepts. */
  lemma Spaces(c: CodePoint)
    ensures IsSpace(c) <==>
      c in [0x09, 0x0a, 0x0b, 0x0c, 0x0d, 0x1c, 0x1d, 0x1e, 0x1f, 0x20, 0x85, 0xa0, 0x1680, 0x2000, 0x2001, 0x2002, 0x2003, 0x2004, 0x2005,
            0x2006, 0x2007, 0x2008, 0x2009, 0x200a, 0x2028, 0x2029, 0x202f, 0x205f, 0x3000]
  {}

  lemma Words()
    ensures TRUE_WORD == Ascii("true") && FALSE_WORD == Ascii("false") && NULL_WORD == Ascii("null")
    ensures NAN_WORD == Ascii("NaN") && INFINITY_WORD == Ascii("Infinity")
    ensures [QUOTE, BACKSLASH, LETTER_U, COLON, COMMA] == Ascii("\"\\u:,")
    ensures [OPEN_BRACE, CLOSE_BRACE, OPEN_BRACKET, CLOSE_BRACKET] == Ascii("{}[]")
  {}

  // ----- an encoder -----

  function HexDigitOf(upper: bool, d: int): CodePoint
    requires 0 <= d < 16
  {
    (if upper then "0123456789ABCDEF" else "0123456789abcdef")[d] as int
  }

  function Hex4(upper: bool, c: int): (h: Text)
    requires 0 <= c < 0x1_0000
    ensures |h| == 4
  {
    [HexDigitOf(upper, c / 0x1000), HexDigitOf(upper, c / 0x100 % 16), HexDigitOf(upper, c / 16 % 16), HexDigitOf(upper, c % 16)]
  }

  /** The code units of UTF-16: two for a code point beyond the first 65536. */
  function Units(c: CodePoint): (units: Text)
    ensures |units| > 1 <==> c >= 0x1_0000
    ensures |units| > 1 ==> |units| == 2 && IsHighSurrogate(units[0]) && IsLowSurrogate(units[1])
  {
    if c < 0x1_0000 then [c] else [0xd800 + (c - 0x1_0000) / 0x400, 0xdc00 + (c - 0x1_0000) % 0x400]
  }

  function UnitsOf(s: Text): Text {
    if s == [] then [] else Units(s[0]) + UnitsOf(s[1..])
  }

  /** A code point as section 7 of RFC 8259 lets it be written: by a short escape if it has one, as itself if
      it is printable or a surrogate, and otherwise as an escape for each of its code units. */
  function EscapeOne(upper: bool, c: CodePoint): Text {
    if c == '"' as int then Ascii("\\\"")
    else if c == '\\' as int then Ascii("\\\\")
    else if c == 0x08 then Ascii("\\b")
    else if c == 0x0c then Ascii("\\f")
    else if c == 0x0a then Ascii("\\n")
    else if c == 0x0d then Ascii("\\r")
    else if c == 0x09 then Ascii("\\t")
    else if ' ' as int <= c <= '~' as int || 0xd800 <= c < 0xe000 then [c]
    else if c < 0x1_0000 then Ascii("\\u") + Hex4(upper, c)
    else Ascii("\\u") + Hex4(upper, Units(c)[0]) + (Ascii("\\u") + Hex4(upper, Units(c)[1]))
  }

  function Escape(upper: bool, s: Text): Text {
    if s == [] then [] else EscapeOne(upper, s[0]) + Escape(upper, s[1..])
  }

  // ----- what it writes, as items of the grammar -----

  function ItemsOf(upper: bool, c: CodePoint): seq<Item> {
    if |EscapeOne(upper, c)| == 1 then [Plain(c)]
    else if |EscapeOne(upper, c)| == 2 then [Short(EscapeOne(upper, c)[1])]
    else if c < 0x1_0000 then [Hex(Hex4(upper, c))]
    else [Hex(Hex4(upper, Units(c)[0])), Hex(Hex4(upper, Units(c)[1]))]
  }

  function ItemsFor(upper: bool, s: Text): seq<Item> {
    if s == [] then [] else ItemsOf(upper, s[0]) + ItemsFor(upper, s[1..])
  }

  lemma HexDigitReads(upper: bool, d: int)
    requires 0 <= d < 16
    ensures IsHexDigit(HexDigitOf(upper, d)) && HexDigitValue(HexDigitOf(upper, d)) == d
  {}

  lemma FourDigits(c: int)
    requires 0 <= c < 0x1_0000
    ensures ((c / 0x1000 * 16 + c / 0x100 % 16) * 16 + c / 16 % 16) * 16 + c % 16 == c
  {
    assert c / 0x1000 * 16 + c / 0x100 % 16 == c / 0x100;
    assert c / 0x100 * 16 + c / 16 % 16 == c / 16;
  }

  lemma HexReads(upper: bool, c: int)
    requires 0 <= c < 0x1_0000
    ensures ItemOk(Hex(Hex4(upper, c))) && HexValue(Hex4(upper, c)) == c
  {
    hide HexDigitOf, HexDigitValue, IsHexDigit;
    FourDigits(c);
    HexDigitReads(upper, c / 0x1000);
    HexDigitReads(upper, c / 0x100 % 16);
    HexDigitReads(upper, c / 16 % 16);
    HexDigitReads(upper, c % 16);
  }

  /** One item, or the two of a surrogate pair. */
  lemma ItemsOfOne(upper: bool, c: CodePoint)
    ensures var items := ItemsOf(upper, c);
            if c < 0x1_0000 then
              && |items| == 1 && ItemOk(items[0]) && ItemValue(items[0]) == c && EscapeOne(upper, c) == ItemText(items[0])
              && (items[0].Hex? ==> !IsHighSurrogate(c))
            else
              && |items| == 2 && (forall k :: 0 <= k < 2 ==> items[k].Hex? && ItemOk(items[k]) && ItemValue(items[k]) == Units(c)[k])
              && EscapeOne(upper, c) == ItemText(items[0]) + ItemText(items[1]) && Join(Units(c)[0], Units(c)[1]) == c
  {
    hide HexValue, Hex4, ShortEscape, EscapedCharacter;
    if c >= 0x1_0000 {
      PairOne(upper, c);
    } else if |EscapeOne(upper, c)| == 2 {
      ShortOne(upper, c);
    } else {
      HexReads(upper, c);
    }
  }

  lemma PairOne(upper: bool, c: CodePoint)
    requires c >= 0x1_0000
    ensures var items := ItemsOf(upper, c);
            && |items| == 2 && (forall k :: 0 <= k < 2 ==> items[k].Hex? && ItemOk(items[k]) && ItemValue(items[k]) == Units(c)[k])
            && EscapeOne(upper, c) == ItemText(items[0]) + ItemText(items[1]) && Join(Units(c)[0], Units(c)[1]) == c
  {
    hide HexValue, Hex4;
    HexReads(upper, Units(c)[0]);
    HexReads(upper, Units(c)[1]);
    assert Ascii("\\u") == [BACKSLASH, LETTER_U];
  }

  lemma ShortOne(upper: bool, c: CodePoint)
    requires |EscapeOne(upper, c)| == 2
    ensures c < 0x1_0000 && var e := EscapeOne(upper, c)[1];
            EscapeOne(upper, c)[0] == BACKSLASH && ShortEscape(e) && EscapedCharacter(e) == c
  {
    hide Hex4;
  }

  lemma OneMore(i: Item, rest: seq<Item>)
    requires ItemOk(i) && ItemsOk(rest) && (i.Hex? ==> !IsHighSurrogate(ItemValue(i)))
    ensures var items := [i] + rest;
            && ItemsOk(items) && ItemsText(items) == ItemText(i) + ItemsText(rest)
            && ItemsValue(items) == [ItemValue(i)] + ItemsValue(rest) && RfcValue(items) == [ItemValue(i)] + RfcValue(rest)
  {
    hide ItemValue, ItemText;
    assert ([i] + rest)[1..] == rest;
  }

  lemma PairMore(i: Item, j: Item, rest: seq<Item>)
    requires ItemOk(i) && ItemOk(j) && ItemsOk(rest) && i.Hex? && j.Hex? && IsHighSurrogate(ItemValue(i)) && IsLowSurrogate(ItemValue(j))
    ensures var items := [i, j] + rest;
            && ItemsOk(items) && ItemsText(items) == ItemText(i) + ItemText(j) + ItemsText(rest)
            && ItemsValue(items) == [ItemValue(i), ItemValue(j)] + ItemsValue(rest)
            && RfcValue(items) == [Join(ItemValue(i), ItemValue(j))] + RfcValue(rest)
  {
    hide ItemValue, ItemText;
    var items := [i, j] + rest;
    assert items[1..] == [j] + rest && items[1..][1..] == rest && items[2..] == rest;
  }

  lemma ItemsOfMore(upper: bool, c: CodePoint, rest: seq<Item>)
    requires ItemsOk(rest)
    ensures var items := ItemsOf(upper, c) + rest;
            && ItemsOk(items) && ItemsText(items) == EscapeOne(upper, c) + ItemsText(rest)
            && ItemsValue(items) == Units(c) + ItemsValue(rest) && RfcValue(items) == [c] + RfcValue(rest)
  {
    hide ItemsOf, EscapeOne, ItemValue, ItemText, ItemsText, ItemsValue, RfcValue, ItemOk, Join;
    ItemsOfOne(upper, c);
    var items := ItemsOf(upper, c);
    if c < 0x1_0000 {
      assert items == [items[0]];
      OneMore(items[0], rest);
    } else {
      assert items == [items[0], items[1]];
      PairMore(items[0], items[1], rest);
    }
  }

  lemma {:induction false} EscapeIsText(upper: bool, s: Text)
    ensures var items := ItemsFor(upper, s);
            ItemsOk(items) && ItemsText(items) == Escape(upper, s) && ItemsValue(items) == UnitsOf(s) && RfcValue(items) == s
  {
    hide ItemsOf, EscapeOne, Units, ItemValue, ItemText, StartsWithPair;
    if s != [] {
      EscapeIsText(upper, s[1..]);
      ItemsOfMore(upper, s[0], ItemsFor(upper, s[1..]));
    }
  }

  // ----- the round trips -----

  /** Both parsers read back what the encoder writes for any text: `json.loads` the text itself, the streaming
      parser its code units. */
  lemma EscapedStringIsRead(upper: bool, s: Text, rest: Text)
    ensures LoadString([], Escape(upper, s) + [QUOTE] + rest) == Chars(s, rest)
    ensures ParseString([], Escape(upper, s) + [QUOTE] + rest) == Quoted(UnitsOf(s), true, rest)
  {
    hide ItemsFor, Escape, RfcValue, ItemsText, ItemsValue, LoadString, ParseString;
    EscapeIsText(upper, s);
    StrictText.LoadFullString([], ItemsFor(upper, s), rest);
    JsonPrefix.FullString([], ItemsFor(upper, s), rest);
    assert [] + s == s && [] + UnitsOf(s) == UnitsOf(s);
  }

  /** The same of the whole call: with its closing quote the string is the text, and without it its code units. */
  lemma EscapedStringIsStreamed(upper: bool, s: Text)
    ensures Streamed([QUOTE] + Escape(upper, s) + [QUOTE]) == Some(JString(s))
    ensures Streamed([QUOTE] + Escape(upper, s)) == Some(JString(UnitsOf(s)))
  {
    hide Streamed, ItemsFor, Escape, RfcValue, ItemsText, ItemsValue, CutItems;
    EscapeIsText(upper, s);
    var items := ItemsFor(upper, s);
    var d, n := Str(items), 1 + |Escape(upper, s)|;
    CompleteStreamed([], d, []);
    assert [] + DocText(d) + [] == [QUOTE] + Escape(upper, s) + [QUOTE];
    ArrivedStreamed([], d, n);
    assert [] + DocText(d)[..n] == [QUOTE] + Escape(upper, s);
    AllCut(items);
  }

  lemma {:induction false} AllCut(items: seq<Item>)
    requires ItemsOk(items)
    ensures CutItems(items, |ItemsText(items)|) == ItemsValue(items)
  {
    hide ItemText, ItemValue;
    if items != [] {
      AllCut(items[1..]);
    }
  }

  /** Without code points beyond the first 65536 both are the text. */
  lemma {:induction false} UnitsOfPlain(s: Text)
    requires forall i :: 0 <= i < |s| ==> s[i] < 0x1_0000
    ensures UnitsOf(s) == s
  {
    if s != [] {
      UnitsOfPlain(s[1..]);
    }
  }

  /** A surrogate is told by its six highest bits of sixteen. */
  lemma SurrogatesByBits(c: CodePoint)
    ensures IsHighSurrogate(c) <==> c / 0x400 == 54
    ensures IsLowSurrogate(c) <==> c / 0x400 == 55
  {}
}
