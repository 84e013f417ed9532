/** What `json.loads` decodes: texts of RFC 8259 and, besides, the three number words of Python. */
module StrictOnly {
  import opened Prelude
  import opened CodePoints
  import opened PartialJson
  import opened JsonText
  import opened StrictJson
  import StrictText

  predicate NumberWord(s: Text) {
    s == NAN_WORD || s == INFINITY_WORD || s == [MINUS] + INFINITY_WORD
  }

  /** The text follows the grammar, with the words of Python among its numbers. */
  predicate Lenient(d: Doc) {
    match d
    case Word(_) => true
    case Number(numeral) => NumeralOk(numeral) || NumberWord(numeral)
    case Str(chars) => ItemsOk(chars)
    case EmptyArray(inner) => Blank(inner)
    case Array(elems) => LenientElems(elems)
    case EmptyObject(inner) => Blank(inner)
    case Object(pairs) => LenientPairs(pairs)
  }

  predicate LenientElems(e: Elems) {
    Blank(e.before) && Lenient(e.value) && Blank(e.after) && (e.MoreElems? ==> LenientElems(e.tail))
  }

  predicate LenientPairs(p: Pairs) {
    && Blank(p.before) && ItemsOk(p.key) && Blank(p.afterKey)
    && Blank(p.beforeValue) && Lenient(p.value) && Blank(p.after)
    && (p.MorePairs? ==> LenientPairs(p.tail))
  }

  // ----- whitespace, numbers and words -----

  lemma {:induction false} Skipped(s: Text) returns (w: Text)
    ensures Blank(w) && s == w + SkipJson(s)
  {
    if s != [] && JsonSpace(s[0]) {
      w := Skipped(s[1..]);
      w := [s[0]] + w;
    } else {
      w := [];
    }
  }

  lemma {:induction false} LongestAccepts(state: Numeral, s: Text)
    requires Longest(state, s).Some?
    ensures var n := Longest(state, s).value; NumeralRun(state, s[..n]).Some? && Accepting(NumeralRun(state, s[..n]).value)
    decreases |s|
  {
    var step := if s == [] then None else NumeralStep(state, s[0]);
    if step.Some? && Longest(step.value, s[1..]).Some? {
      LongestAccepts(step.value, s[1..]);
      var n := Longest(state, s).value;
      assert s[..n][1..] == s[1..][..n - 1];
    }
  }

  lemma BeginsWith(word: Text, s: Text)
    requires word <= s
    ensures s == word + s[|word|..]
  {}

  lemma WordAccepted(s: Text) returns (d: Doc)
    requires LoadWord(s).Loaded?
    ensures Lenient(d) && s == DocText(d) + LoadWord(s).rest
  {
    hide Longest, NumeralRun;
    if NULL_WORD <= s {
      d := Word(NullWord);
      BeginsWith(NULL_WORD, s);
    } else if TRUE_WORD <= s {
      d := Word(TrueWord);
      BeginsWith(TRUE_WORD, s);
    } else if FALSE_WORD <= s {
      d := Word(FalseWord);
      BeginsWith(FALSE_WORD, s);
    } else if NAN_WORD <= s {
      d := Number(NAN_WORD);
      BeginsWith(NAN_WORD, s);
    } else if INFINITY_WORD <= s {
      d := Number(INFINITY_WORD);
      BeginsWith(INFINITY_WORD, s);
    } else if [MINUS] + INFINITY_WORD <= s {
      d := Number([MINUS] + INFINITY_WORD);
      BeginsWith([MINUS] + INFINITY_WORD, s);
    } else {
      LongestAccepts(AtStart, s);
      d := Number(s[..Longest(AtStart, s).value]);
    }
  }

  // ----- strings -----

  lemma ItemsCons(i: Item, items: seq<Item>)
    ensures ItemsText([i] + items) == ItemText(i) + ItemsText(items)
  {
    assert ([i] + items)[1..] == items;
  }

  lemma HexAccepted(s: Text) returns (i: Item)
    requires |s| >= 2 && s[0] == BACKSLASH && s[1] == LETTER_U && FourHexDigits(s[2..])
    ensures ItemOk(i) && s == ItemText(i) + s[2..][4..]
  {
    i := Hex(s[2..][..4]);
    assert s == [BACKSLASH, LETTER_U] + (s[2..][..4] + s[2..][4..]);
  }

  lemma {:induction false} StringAccepted(acc: Text, s: Text) returns (items: seq<Item>)
    requires LoadString(acc, s).Chars?
    ensures ItemsOk(items) && s == ItemsText(items) + ([QUOTE] + LoadString(acc, s).rest)
    decreases |s|
  {
    hide HexValue, Join, Unescape, ShortEscape, IsHighSurrogate, IsLowSurrogate;
    if s[0] == QUOTE {
      items := [];
    } else if s[0] != BACKSLASH {
      items := StringAccepted(acc + [s[0]], s[1..]);
      assert s == ItemText(Plain(s[0])) + s[1..];
      items := OneMore(Plain(s[0]), items, s, s[1..], LoadString(acc, s).rest);
    } else if s[1] != LETTER_U {
      items := StringAccepted(acc + [Unescape(s[1])], s[2..]);
      assert s == ItemText(Short(s[1])) + s[2..];
      items := OneMore(Short(s[1]), items, s, s[2..], LoadString(acc, s).rest);
    } else {
      var i := HexAccepted(s);
      var c, t := HexValue(s[2..][..4]), s[2..][4..];
      if IsHighSurrogate(c) && LowEscape(t) {
        var j := HexAccepted(t);
        items := StringAccepted(acc + [Join(c, HexValue(t[2..][..4]))], t[2..][4..]);
        items := OneMore(j, items, t, t[2..][4..], LoadString(acc, s).rest);
      } else {
        items := StringAccepted(acc + [c], t);
      }
      items := OneMore(i, items, s, t, LoadString(acc, s).rest);
    }
  }

  /** One more item before those that are there. */
  lemma OneMore(i: Item, items: seq<Item>, s: Text, t: Text, rest: Text) returns (more: seq<Item>)
    requires ItemsOk(items) && t == ItemsText(items) + ([QUOTE] + rest)
    requires ItemOk(i) && s == ItemText(i) + t
    ensures ItemsOk(more) && s == ItemsText(more) + ([QUOTE] + rest)
  {
    hide ItemText;
    more := [i] + items;
    ItemsCons(i, items);
  }

  // ----- whole texts -----

  lemma KeyAccepted(s: Text) returns (key: seq<Item>, afterKey: Text, beforeValue: Text)
    requires LoadKey(s).Chars?
    ensures ItemsOk(key) && Blank(afterKey) && Blank(beforeValue)
    ensures s == ItemsText(key) + [QUOTE] + (afterKey + [COLON]) + (beforeValue + LoadKey(s).rest)
  {
    hide LoadString, ItemsText;
    key := StringAccepted([], s);
    var q := LoadString([], s).rest;
    afterKey := Skipped(q);
    var u := SkipJson(q);
    beforeValue := Skipped(u[1..]);
    assert u == [COLON] + u[1..];
    assert s == ItemsText(key) + [QUOTE] + (afterKey + [COLON]) + (beforeValue + LoadKey(s).rest);
  }

  /** What a value is read from is a document's text. */
  lemma {:induction false} ValueAccepted(s: Text) returns (d: Doc)
    requires LoadValue(s).Loaded?
    ensures Lenient(d) && s == DocText(d) + LoadValue(s).rest
    decreases |s|, 1
  {
    hide LoadString, LoadMembers, LoadItems, LoadWord, ItemsText, SkipJson;
    if s[0] == QUOTE {
      var items := StringAccepted([], s[1..]);
      d := Str(items);
      assert s == [QUOTE] + s[1..];
    } else if s[0] == OPEN_BRACE {
      d := ObjectAccepted(s);
    } else if s[0] == OPEN_BRACKET {
      d := ArrayAccepted(s);
    } else {
      d := WordAccepted(s);
    }
  }

  lemma {:induction false} ObjectAccepted(s: Text) returns (d: Doc)
    requires LoadValue(s).Loaded? && s[0] == OPEN_BRACE
    ensures Lenient(d) && s == DocText(d) + LoadValue(s).rest
    decreases |s|, 0
  {
    hide LoadString, LoadMembers, LoadItems, LoadWord, ItemsText, SkipJson, Blank, PairsText, LenientPairs;
    var w := Skipped(s[1..]);
    var t := SkipJson(s[1..]);
    assert s == [OPEN_BRACE] + (w + t);
    if t != [] && t[0] == CLOSE_BRACE {
      d := EmptyObject(w);
      assert t == [CLOSE_BRACE] + LoadValue(s).rest;
    } else {
      var p := PairsAccepted(w, [], t);
      d := Object(p);
    }
  }

  lemma {:induction false} ArrayAccepted(s: Text) returns (d: Doc)
    requires LoadValue(s).Loaded? && s[0] == OPEN_BRACKET
    ensures Lenient(d) && s == DocText(d) + LoadValue(s).rest
    decreases |s|, 0
  {
    hide LoadString, LoadMembers, LoadItems, LoadWord, ItemsText, SkipJson, Blank, ElemsText, LenientElems;
    var w := Skipped(s[1..]);
    var t := SkipJson(s[1..]);
    assert s == [OPEN_BRACKET] + (w + t);
    if t != [] && t[0] == CLOSE_BRACKET {
      d := EmptyArray(w);
      assert t == [CLOSE_BRACKET] + LoadValue(s).rest;
    } else {
      var e := ElemsAccepted(w, [], t);
      d := Array(e);
    }
  }

  lemma {:induction false} ElemsAccepted(w: Text, acc: seq<Json>, s: Text) returns (e: Elems)
    requires Blank(w) && LoadItems(acc, s).Loaded?
    ensures LenientElems(e) && w + s == ElemsText(e) + LoadItems(acc, s).rest
    decreases |s|, 2
  {
    hide LoadValue, DocText, SkipJson, Blank;
    var rest := LoadItems(acc, s).rest;
    var d := ValueAccepted(s);
    var v := LoadValue(s);
    var after := Skipped(v.rest);
    var t := SkipJson(v.rest);
    if t[0] == CLOSE_BRACKET {
      e := OneElem(w, d, after);
      assert t == [CLOSE_BRACKET] + rest;
      assert w + s == ElemsText(e) + rest;
    } else {
      var before := Skipped(t[1..]);
      var tail := ElemsAccepted(before, acc + [v.value], SkipJson(t[1..]));
      e := MoreElems(w, d, after, tail);
      assert t == [COMMA] + (ElemsText(tail) + rest);
      assert w + s == ElemsText(e) + rest;
    }
  }

  /** The parts of a member and what follows it, put together. */
  lemma MemberText(w: Text, key: Text, before: Text, value: Text, after: Text, end: Text, rest: Text)
    ensures w + ([QUOTE] + (key + (before + (value + (after + (end + rest))))))
         == w + ([QUOTE] + (key + (before + (value + (after + end))))) + rest
  {}

  lemma {:induction false} PairsAccepted(w: Text, acc: seq<Member>, s: Text) returns (p: Pairs)
    requires Blank(w) && LoadMembers(acc, s).Loaded?
    ensures LenientPairs(p) && w + s == PairsText(p) + LoadMembers(acc, s).rest
    decreases |s|, 2
  {
    hide LoadValue, LoadKey, DocText, SkipJson, Blank, ItemsText, Lenient, ItemsOk;
    var rest := LoadMembers(acc, s).rest;
    var key, afterKey, beforeValue := KeyAccepted(s[1..]);
    var k := LoadKey(s[1..]);
    var d := ValueAccepted(k.rest);
    var v := LoadValue(k.rest);
    var after := Skipped(v.rest);
    var t := SkipJson(v.rest);
    var end: Text;
    if t[0] == CLOSE_BRACE {
      p := OnePair(w, key, afterKey, beforeValue, d, after);
      end := [CLOSE_BRACE];
    } else {
      var before := Skipped(t[1..]);
      var tail := PairsAccepted(before, Put(acc, k.text, v.value), SkipJson(t[1..]));
      p := MorePairs(w, key, afterKey, beforeValue, d, after, tail);
      end := [COMMA] + PairsText(tail);
    }
    assert t == end + rest;
    assert s == [QUOTE] + s[1..];
    MemberText(w, KeyText(p), beforeValue, DocText(d), after, end, rest);
  }

  /** Whatever is decoded is a text of the grammar, the three words apart, between whitespace; without them the
      value is the standard one. */
  lemma DecodedIsText(raw: Text) returns (before: Text, d: Doc, after: Text)
    requires Loads(raw).Decoded?
    ensures Blank(before) && Lenient(d) && Blank(after) && raw == before + DocText(d) + after
    ensures Formed(d) ==> Converts(d) && Loads(raw) == Decoded(RfcDenote(d))
  {
    hide LoadValue, DocText, Lenient, Formed, Converts, RfcDenote;
    before := Skipped(raw);
    d := ValueAccepted(SkipJson(raw));
    after := Skipped(LoadValue(SkipJson(raw)).rest);
    assert after + [] == after;
    if Formed(d) {
      StrictText.CompleteLoads(before, d, after);
    }
  }
}
