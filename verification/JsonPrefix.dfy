/** The streaming parser against RFC 8259: a complete text gives its value, and any beginning of a
    text gives exactly what that beginning tells, which approximates the value. */
module JsonPrefix {
  import opened Prelude
  import opened CodePoints
  import opened PartialJson
  import opened JsonText

  // ----- whitespace and ends -----

  /** Nothing here lets an enclosing array or object go on. */
  predicate Stuck(s: Text) {
    var t := SkipSpace(s);
    t == [] || (t[0] != COMMA && t[0] != CLOSE_BRACKET && t[0] != CLOSE_BRACE)
  }

  /** What may follow a value inside a text. */
  predicate Delimits(s: Text) {
    s == [] || JsonSpace(s[0]) || s[0] == COMMA || s[0] == CLOSE_BRACKET || s[0] == CLOSE_BRACE
  }

  lemma {:induction false} SkipBlank(w: Text, s: Text)
    requires Blank(w)
    ensures SkipSpace(w + s) == SkipSpace(s)
  {
    if w != [] {
      assert (w + s)[1..] == w[1..] + s;
      SkipBlank(w[1..], s);
    } else {
      assert w + s == s;
    }
  }

  lemma SkipAllBlank(w: Text)
    requires Blank(w)
    ensures SkipSpace(w) == []
  {
    SkipBlank(w, []);
    assert w + [] == w;
  }

  lemma {:induction false} SkipTwice(s: Text)
    ensures SkipSpace(SkipSpace(s)) == SkipSpace(s)
  {
    if s != [] && IsSpace(s[0]) { SkipTwice(s[1..]); }
  }

  lemma BlankPrefix(p: Text, w: Text)
    requires p <= w && Blank(w)
    ensures Blank(p)
  {
  }

  /** A prefix of a concatenation either stops in the first part or contains it. */
  lemma SplitPrefix(p: Text, a: Text, b: Text)
    requires p <= a + b
    ensures |p| <= |a| ==> p <= a
    ensures |p| >= |a| ==> p == a + p[|a|..] && p[|a|..] <= b
  {
    if |p| >= |a| {
      assert p[..|a|] == (a + b)[..|a|] == a;
      assert p[|a|..] == (a + b)[|a|..|p|];
      assert (a + b)[|a|..] == b;
    }
  }

  // ----- numbers -----

  function Loose(state: Numeral): Scan {
    match state
    case AtStart => AtSign
    case AfterMinus => AtWhole
    case LoneZero => InZero
    case Whole => InWhole
    case AfterDot => InFraction
    case Fraction => InFraction
    case AfterE => AtExponent
    case AfterESign => AtExponentDigits
    case Exponent => InExponent
  }

  lemma {:induction false} ScanNumeral(state: Numeral, s: Text, rest: Text)
    requires NumeralRun(state, s).Some? && Delimits(rest)
    ensures ScanLength(Loose(state), s + rest) == |s|
    decreases |s|
  {
    if s != [] {
      assert (s + rest)[1..] == s[1..] + rest;
      ScanNumeral(NumeralStep(state, s[0]).value, s[1..], rest);
    } else {
      assert s + rest == rest;
    }
  }

  lemma {:induction false} NumeralPrefix(state: Numeral, s: Text, n: nat)
    requires NumeralRun(state, s).Some? && n <= |s|
    ensures NumeralRun(state, s[..n]).Some?
    decreases |s|
  {
    if n > 0 {
      NumeralPrefix(NumeralStep(state, s[0]).value, s[1..], n - 1);
      assert s[..n][1..] == s[1..][..n - 1];
    }
  }

  lemma {:induction false} EndsInDigit(state: Numeral, s: Text)
    requires s != [] && NumeralRun(state, s).Some? && Accepting(NumeralRun(state, s).value)
    ensures IsAsciiDigit(s[|s| - 1])
    decreases |s|
  {
    if |s| > 1 {
      EndsInDigit(NumeralStep(state, s[0]).value, s[1..]);
    } else {
      assert s[1..] == [];
    }
  }

  lemma {:induction false} TrimKeeps(token: Text, i: nat)
    requires i < |token| && !Dangling(token[i])
    ensures |Trim(token)| > i
  {
    if Dangling(token[|token| - 1]) {
      TrimKeeps(token[..|token| - 1], i);
    }
  }

  /** A numeral's beginning has a digit first, or second after a minus. */
  lemma FirstDigit(s: Text)
    requires NumeralRun(AtStart, s).Some? && s != [] && s != [MINUS]
    ensures IsAsciiDigit(s[0]) || (s[0] == MINUS && |s| > 1 && IsAsciiDigit(s[1]))
  {
    if s[0] == MINUS {
      assert NumeralRun(AtStart, s) == NumeralRun(AfterMinus, s[1..]);
      assert s == [s[0]] + s[1..];
    }
  }

  lemma FullNumeral(s: Text, rest: Text)
    requires NumeralOk(s) && Convertible(s) && Delimits(rest)
    ensures s != [] && ParseNumber(s + rest) == Parsed(Some(JNumber(s)), rest)
  {
    ScanNumeral(AtStart, s, rest);
    FirstDigit(s);
    EndsInDigit(AtStart, s);
    assert (s + rest)[..|s|] == s && (s + rest)[|s|..] == rest;
  }

  lemma NumeralCut(s: Text, n: nat)
    requires NumeralOk(s) && 0 < n < |s|
    ensures var r := ParseNumber(s[..n]); r.value == CutNumeral(s, n) && (r.rest == [] || r.rest == s[..n])
  {
    var p := s[..n];
    NumeralPrefix(AtStart, s, n);
    ScanNumeral(AtStart, p, []);
    assert p + [] == p && p[..n] == p && p[n..] == [];
    if p != [MINUS] {
      FirstDigit(p);
      TrimKeeps(p, if IsAsciiDigit(p[0]) then 0 else 1);
    }
  }

  // ----- strings -----

  lemma {:induction false} FullString(acc: Text, items: seq<Item>, rest: Text)
    requires ItemsOk(items)
    ensures ParseString(acc, ItemsText(items) + [QUOTE] + rest) == Quoted(acc + ItemsValue(items), true, rest)
    decreases |items|
  {
    var s := ItemsText(items) + [QUOTE] + rest;
    if items == [] {
      assert s == [QUOTE] + rest && acc + [] == acc;
    } else {
      var i, tail := items[0], ItemsText(items[1..]) + [QUOTE] + rest;
      assert s == ItemText(i) + tail;
      ItemRead(acc, i, tail);
      FullString(acc + [ItemValue(i)], items[1..], rest);
      assert acc + [ItemValue(i)] + ItemsValue(items[1..]) == acc + ItemsValue(items);
    }
  }

  lemma ItemRead(acc: Text, i: Item, tail: Text)
    requires ItemOk(i)
    ensures ParseString(acc, ItemText(i) + tail) == ParseString(acc + [ItemValue(i)], tail)
  {
    var s := ItemText(i) + tail;
    match i
    case Plain(c) => assert s[1..] == tail;
    case Short(e) =>
      assert s[1..] == [e] + tail && ([e] + tail)[1..] == tail;
    case Hex(h) =>
      assert s[1..] == [LETTER_U] + h + tail;
      assert s[1..][1..] == h + tail && (h + tail)[..4] == h && (h + tail)[4..] == tail;
  }

  lemma {:induction false} CutString(acc: Text, items: seq<Item>, p: Text)
    requires ItemsOk(items) && p < ItemsText(items) + [QUOTE]
    ensures var q := ParseString(acc, p);
            q.text == acc + CutItems(items, |p|) && !q.complete && Stuck(q.rest)
    decreases |items|
  {
    hide ParseString, Stuck, ItemText, ItemValue, SkipSpace;
    if items == [] {
      assert p == [] && acc + [] == acc;
      NothingToRead(acc);
    } else {
      var i, tail := items[0], ItemsText(items[1..]) + [QUOTE];
      assert ItemsText(items) + [QUOTE] == ItemText(i) + tail;
      SplitPrefix(p, ItemText(i), tail);
      if |p| < |ItemText(i)| {
        PartOfItem(acc, i, p);
        assert acc + [] == acc;
      } else {
        var q := p[|ItemText(i)|..];
        ItemRead(acc, i, q);
        CutString(acc + [ItemValue(i)], items[1..], q);
        assert acc + [ItemValue(i)] + CutItems(items[1..], |q|) == acc + CutItems(items, |p|);
      }
    }
  }

  lemma NothingToRead(acc: Text)
    ensures ParseString(acc, []) == Quoted(acc, false, []) && Stuck([])
  {
  }

  /** Half an escape ends the string; at most hexadecimal digits are left over. */
  lemma PartOfItem(acc: Text, i: Item, p: Text)
    requires ItemOk(i) && p < ItemText(i)
    ensures var q := ParseString(acc, p); q.text == acc && !q.complete && Stuck(q.rest)
  {
    if |p| > 0 {
      assert p[0] == BACKSLASH;
      if |p| == 1 {
        assert p[1..] == [];
      } else {
        assert i.Hex? && p[1] == LETTER_U;
        var digits := p[1..][1..];
        assert digits <= i.h && |digits| < 4;
        assert ParseString(acc, p) == Quoted(acc, false, digits);
        assert digits != [] ==> digits[0] == i.h[0] && digits[0] in i.h;
      }
    }
  }

  // ----- heads -----

  predicate OpensValue(c: CodePoint) {
    && !IsSpace(c) && c != COMMA && c != COLON && c != CLOSE_BRACKET && c != CLOSE_BRACE
  }

  lemma HeadOf(d: Doc)
    requires Formed(d)
    ensures DocText(d) != [] && OpensValue(DocText(d)[0])
    ensures d.Number? ==> DocText(d)[0] == MINUS || IsAsciiDigit(DocText(d)[0])
  {
    if d.Number? {
      FirstDigit(d.numeral);
      EndsInDigit(AtStart, d.numeral);
    }
  }

  // ----- one step of the parser -----

  lemma ValueOfArray(w: Text, s: Text)
    requires Blank(w)
    ensures ParseValue(w + ([OPEN_BRACKET] + s)) == Parsed(Some(JArray(ParseItems([], s).0)), ParseItems([], s).1)
  {
    SkipBlank(w, [OPEN_BRACKET] + s);
    assert ([OPEN_BRACKET] + s)[1..] == s;
  }

  lemma ValueOfObject(w: Text, s: Text)
    requires Blank(w)
    ensures ParseValue(w + ([OPEN_BRACE] + s)) == Parsed(Some(JObject(ParseMembers([], s).0)), ParseMembers([], s).1)
  {
    SkipBlank(w, [OPEN_BRACE] + s);
    assert ([OPEN_BRACE] + s)[1..] == s;
  }

  lemma ValueOfString(w: Text, s: Text)
    requires Blank(w)
    ensures ParseValue(w + ([QUOTE] + s)) == Parsed(Some(JString(ParseString([], s).text)), ParseString([], s).rest)
  {
    SkipBlank(w, [QUOTE] + s);
    assert ([QUOTE] + s)[1..] == s;
  }

  lemma ValueOfNumber(w: Text, s: Text)
    requires Blank(w) && s != [] && (s[0] == MINUS || IsAsciiDigit(s[0]))
    ensures ParseValue(w + s) == ParseNumber(s)
  {
    hide ParseWord, ParseNumber, ParseString, ParseItems, ParseMembers;
    SkipBlank(w, s);
    assert SkipSpace(s) == s;
  }

  lemma ValueOfWord(w: Text, kind: WordKind, s: Text)
    requires Blank(w) && s != [] && s[0] == WordText(kind)[0]
    ensures ParseValue(w + s) == ParseWord(s)
  {
    hide ParseWord, ParseNumber, ParseString, ParseItems, ParseMembers;
    SkipBlank(w, s);
    assert SkipSpace(s) == s;
  }

  lemma NoValue(w: Text)
    requires Blank(w)
    ensures ParseValue(w) == Parsed(None, []) && Stuck(w) && Stuck([])
  {
    SkipAllBlank(w);
  }

  lemma ItemsClose(items: seq<Json>, w: Text, rest: Text)
    requires Blank(w)
    ensures ItemsAfter(items, w + ([CLOSE_BRACKET] + rest)) == (items, rest)
    ensures ParseItems(items, w + ([CLOSE_BRACKET] + rest)) == (items, rest)
  {
    SkipBlank(w, [CLOSE_BRACKET] + rest);
    assert ([CLOSE_BRACKET] + rest)[1..] == rest;
  }

  lemma ItemsContinue(items: seq<Json>, w: Text, rest: Text)
    requires Blank(w)
    ensures ItemsAfter(items, w + ([COMMA] + rest)) == ParseItems(items, rest)
  {
    SkipBlank(w, [COMMA] + rest);
    assert ([COMMA] + rest)[1..] == rest;
  }

  lemma ItemsStop(items: seq<Json>, s: Text)
    requires Stuck(s)
    ensures ItemsAfter(items, s).0 == items && Stuck(ItemsAfter(items, s).1)
  {
    SkipTwice(s);
  }

  /** The next element's value is read, or is missing. */
  lemma ItemsNext(items: seq<Json>, w: Text, s: Text)
    requires Blank(w) && s != [] && OpensValue(s[0])
    ensures var v := ParseValue(s);
            ParseItems(items, w + s) == if v.value.None? then (items, v.rest) else ItemsAfter(items + [v.value.value], v.rest)
  {
    SkipBlank(w, s);
    assert SkipSpace(s) == s;
  }

  lemma MembersClose(members: seq<Member>, w: Text, rest: Text)
    requires Blank(w)
    ensures MembersAfter(members, w + ([CLOSE_BRACE] + rest)) == (members, rest)
    ensures ParseMembers(members, w + ([CLOSE_BRACE] + rest)) == (members, rest)
  {
    SkipBlank(w, [CLOSE_BRACE] + rest);
    assert ([CLOSE_BRACE] + rest)[1..] == rest;
  }

  lemma MembersContinue(members: seq<Member>, w: Text, rest: Text)
    requires Blank(w)
    ensures MembersAfter(members, w + ([COMMA] + rest)) == ParseMembers(members, rest)
  {
    SkipBlank(w, [COMMA] + rest);
    assert ([COMMA] + rest)[1..] == rest;
  }

  lemma MembersStop(members: seq<Member>, s: Text)
    requires Stuck(s)
    ensures MembersAfter(members, s).0 == members && Stuck(MembersAfter(members, s).1)
  {
    SkipTwice(s);
  }

  lemma MembersNext(members: seq<Member>, w: Text, s: Text)
    requires Blank(w)
    ensures var k := ParseKey(s);
            ParseMembers(members, w + ([QUOTE] + s))
            == if k.complete then MembersAfterColon(members, k.text, k.rest) else (members, k.rest)
  {
    SkipBlank(w, [QUOTE] + s);
    assert ([QUOTE] + s)[1..] == s;
  }

  lemma KeyColon(s: Text, key: Text, w: Text, rest: Text)
    requires ParseString([], s) == Quoted(key, true, w + ([COLON] + rest)) && Blank(w)
    ensures ParseKey(s) == Quoted(key, true, rest)
  {
    SkipBlank(w, [COLON] + rest);
    assert ([COLON] + rest)[1..] == rest;
  }

  // ----- keys -----

  lemma FullKey(p: Pairs, rest: Text)
    requires FormedPairs(p)
    ensures ParseKey(KeyText(p) + rest) == Quoted(ItemsValue(p.key), true, rest)
  {
    hide ParseString, ParseKey, ItemsText, ItemsValue, SkipSpace;
    var after := p.afterKey + ([COLON] + rest);
    assert KeyText(p) + rest == ItemsText(p.key) + [QUOTE] + after;
    FullString([], p.key, after);
    assert [] + ItemsValue(p.key) == ItemsValue(p.key);
    KeyColon(KeyText(p) + rest, ItemsValue(p.key), p.afterKey, rest);
  }

  lemma CutKey(p: Pairs, q: Text)
    requires FormedPairs(p) && q < KeyText(p)
    ensures !ParseKey(q).complete && Stuck(ParseKey(q).rest)
  {
    var quoted := ItemsText(p.key) + [QUOTE];
    SplitPrefix(q, quoted, p.afterKey + [COLON]);
    if |q| < |quoted| {
      CutString([], p.key, q);
    } else {
      var r := q[|quoted|..];
      assert q == ItemsText(p.key) + [QUOTE] + r;
      FullString([], p.key, r);
      SplitPrefix(r, p.afterKey, [COLON]);
      BlankPrefix(r, p.afterKey);
      SkipAllBlank(r);
    }
  }

  // ----- complete texts -----

  /** A complete text gives its value, and the parser stops right after it. */
  lemma {:induction false} FullDoc(d: Doc, w: Text, rest: Text)
    requires DocOk(d) && Blank(w) && Delimits(rest)
    ensures ParseValue(w + (DocText(d) + rest)) == Parsed(Some(Denote(d)), rest)
    decreases d
  {
    hide ParseValue, ParseItems, ParseMembers, ParseString, ParseNumber, ParseWord, ItemsText, ItemsValue, ElemsText, PairsText,
         DenoteElems, DenotePairs, SkipSpace, NumeralOk, Convertible;
    match d
    case Word(kind) =>
      ValueOfWord(w, kind, WordText(kind) + rest);
      FullWord(kind, rest);
    case Number(numeral) =>
      HeadOf(d);
      FullNumeral(numeral, rest);
      ValueOfNumber(w, numeral + rest);
    case Str(chars) =>
      var s := ItemsText(chars) + [QUOTE] + rest;
      assert DocText(d) + rest == [QUOTE] + s;
      FullString([], chars, rest);
      ValueOfString(w, s);
      assert [] + ItemsValue(chars) == ItemsValue(chars);
    case EmptyArray(inner) =>
      assert DocText(d) + rest == [OPEN_BRACKET] + (inner + ([CLOSE_BRACKET] + rest));
      ValueOfArray(w, inner + ([CLOSE_BRACKET] + rest));
      ItemsClose([], inner, rest);
    case Array(elems) =>
      assert DocText(d) + rest == [OPEN_BRACKET] + (ElemsText(elems) + rest);
      ValueOfArray(w, ElemsText(elems) + rest);
      FullElems(elems, [], rest);
      assert [] + DenoteElems(elems) == DenoteElems(elems);
    case EmptyObject(inner) =>
      assert DocText(d) + rest == [OPEN_BRACE] + (inner + ([CLOSE_BRACE] + rest));
      ValueOfObject(w, inner + ([CLOSE_BRACE] + rest));
      MembersClose([], inner, rest);
    case Object(pairs) =>
      assert DocText(d) + rest == [OPEN_BRACE] + (PairsText(pairs) + rest);
      ValueOfObject(w, PairsText(pairs) + rest);
      FullPairs(pairs, [], rest);
  }

  lemma FullWord(kind: WordKind, rest: Text)
    ensures ParseWord(WordText(kind) + rest) == Parsed(Some(WordValue(kind)), rest)
  {
    var s := WordText(kind) + rest;
    assert s[|WordText(kind)|..] == rest;
    assert WordText(kind) <= s;
    assert s[0] == WordText(kind)[0];
  }

  lemma RestDelimits(after: Text, c: CodePoint, s: Text)
    requires Blank(after) && (c == COMMA || c == CLOSE_BRACKET || c == CLOSE_BRACE)
    ensures Delimits(after + ([c] + s))
  {
    if after == [] { assert after + ([c] + s) == [c] + s; }
  }

  lemma {:induction false} FullElem(e: Elems, acc: seq<Json>, tail: Text)
    requires FormedElems(e) && Converts(e.value) && Delimits(tail)
    ensures ParseItems(acc, e.before + (DocText(e.value) + tail)) == ItemsAfter(acc + [Denote(e.value)], tail)
    decreases e, 0
  {
    hide ParseItems, ParseValue, ItemsAfter, Denote, DocText;
    var s := DocText(e.value) + tail;
    HeadOf(e.value);
    ItemsNext(acc, e.before, s);
    FullDoc(e.value, [], tail);
    assert [] + s == s;
  }

  lemma {:induction false} FullElems(e: Elems, acc: seq<Json>, rest: Text)
    requires ElemsOk(e)
    ensures ParseItems(acc, ElemsText(e) + rest) == (acc + DenoteElems(e), rest)
    decreases e, 1
  {
    hide ParseItems, ItemsAfter, Denote, DocText;
    var tail := ElemsRest(e) + rest;
    var items := acc + [Denote(e.value)];
    assert ElemsText(e) + rest == e.before + (DocText(e.value) + tail);
    if e.OneElem? {
      assert tail == e.after + ([CLOSE_BRACKET] + rest);
      RestDelimits(e.after, CLOSE_BRACKET, rest);
      FullElem(e, acc, tail);
      ItemsClose(items, e.after, rest);
      assert items == acc + DenoteElems(e);
    } else {
      var next := ElemsText(e.tail) + rest;
      assert tail == e.after + ([COMMA] + next);
      RestDelimits(e.after, COMMA, next);
      FullElem(e, acc, tail);
      ItemsContinue(items, e.after, next);
      FullElems(e.tail, items, rest);
      assert items + DenoteElems(e.tail) == acc + DenoteElems(e);
    }
  }

  lemma {:induction false} FullPair(p: Pairs, acc: seq<Member>, tail: Text)
    requires FormedPairs(p) && Converts(p.value) && Delimits(tail)
    ensures ParseMembers(acc, p.before + ([QUOTE] + (KeyText(p) + (p.beforeValue + (DocText(p.value) + tail)))))
         == MembersAfter(Put(acc, ItemsValue(p.key), Denote(p.value)), tail)
    decreases p, 0
  {
    hide ParseMembers, ParseValue, ParseKey, MembersAfter, Denote, DocText, KeyText, Put;
    var valueText := p.beforeValue + (DocText(p.value) + tail);
    MembersNext(acc, p.before, KeyText(p) + valueText);
    FullKey(p, valueText);
    FullDoc(p.value, p.beforeValue, tail);
  }

  lemma {:induction false} FullPairs(p: Pairs, acc: seq<Member>, rest: Text)
    requires PairsOk(p)
    ensures ParseMembers(acc, PairsText(p) + rest) == (DenotePairs(acc, p), rest)
    decreases p, 1
  {
    hide ParseMembers, MembersAfter, Denote, DocText, KeyText, Put, ItemsValue;
    var tail := PairsRest(p) + rest;
    var members := Put(acc, ItemsValue(p.key), Denote(p.value));
    assert PairsText(p) + rest == p.before + ([QUOTE] + (KeyText(p) + (p.beforeValue + (DocText(p.value) + tail))));
    if p.OnePair? {
      assert tail == p.after + ([CLOSE_BRACE] + rest);
      RestDelimits(p.after, CLOSE_BRACE, rest);
      FullPair(p, acc, tail);
      MembersClose(members, p.after, rest);
    } else {
      var next := PairsText(p.tail) + rest;
      assert tail == p.after + ([COMMA] + next);
      RestDelimits(p.after, COMMA, next);
      FullPair(p, acc, tail);
      MembersContinue(members, p.after, next);
      FullPairs(p.tail, members, rest);
    }
  }

  // ----- beginnings of texts -----

  /** The parser on a proper beginning of a text: it returns what the beginning tells, and stops
      where nothing around it can go on.  When nothing is told, even the input as a whole is such
      a place, so that the cursor may go back over it. */
  lemma {:induction false} CutDoc(d: Doc, w: Text, p: Text)
    requires Formed(d) && !Refused(d, |p|) && Blank(w) && p < DocText(d)
    ensures var r := ParseValue(w + p);
            r.value == Cut(d, |p|) && Stuck(r.rest) && (r.value.None? ==> Stuck(w + p))
    decreases d
  {
    hide ParseValue, ParseItems, ParseMembers, ParseString, ParseNumber, ParseWord, ItemsText, ItemsValue, ElemsText, PairsText,
         CutItems, CutElems, CutPairs, CutNumeral, NumeralOk, Convertible, SkipSpace, Stuck;
    if p == [] {
      NoValue(w);
      assert w + p == w;
      HeadOf(d);
      CutNothing(d);
    } else {
      var s := p[1..];
      assert p == [p[0]] + s && p[0] == DocText(d)[0] && s < DocText(d)[1..];
      match d
      case Word(kind) => CutWord(kind, w, p);
      case Number(numeral) => CutNumber(numeral, w, p);
      case Str(chars) =>
        ValueOfString(w, s);
        assert DocText(d)[1..] == ItemsText(chars) + [QUOTE];
        CutString([], chars, s);
        assert [] + CutItems(chars, |s|) == CutItems(chars, |s|);
      case EmptyArray(inner) =>
        ValueOfArray(w, s);
        assert s < inner + [CLOSE_BRACKET];
        SplitPrefix(s, inner, [CLOSE_BRACKET]);
        CutEmpty(s, inner);
      case Array(elems) =>
        ValueOfArray(w, s);
        assert DocText(d)[1..] == ElemsText(elems);
        CutElemsText(elems, [], s);
        assert [] + CutElems(elems, |s|) == CutElems(elems, |s|);
      case EmptyObject(inner) =>
        ValueOfObject(w, s);
        assert s < inner + [CLOSE_BRACE];
        SplitPrefix(s, inner, [CLOSE_BRACE]);
        CutEmpty(s, inner);
      case Object(pairs) =>
        ValueOfObject(w, s);
        assert DocText(d)[1..] == PairsText(pairs);
        CutPairsText(pairs, [], s);
    }
  }

  lemma CutNothing(d: Doc)
    requires Formed(d)
    ensures Cut(d, 0) == None
  {
    if d.Number? { HeadOf(d); assert d.numeral[..0] == []; }
  }

  lemma CutEmpty(s: Text, inner: Text)
    requires s <= inner && Blank(inner)
    ensures ParseItems([], s) == ([], []) && ParseMembers([], s) == ([], []) && Stuck([])
  {
    SkipAllBlank(s);
  }

  lemma CutWord(kind: WordKind, w: Text, p: Text)
    requires Blank(w) && p < WordText(kind) && p != []
    ensures ParseValue(w + p) == Parsed(None, []) && Stuck([]) && Stuck(w + p)
  {
    ValueOfWord(w, kind, p);
    SkipBlank(w, p);
    assert SkipSpace(p) == p && p[0] == WordText(kind)[0];
    assert !(TRUE_WORD <= p) && !(FALSE_WORD <= p) && !(NULL_WORD <= p);
  }

  lemma CutNumber(numeral: Text, w: Text, p: Text)
    requires NumeralOk(numeral) && Blank(w) && p < numeral && p != []
    ensures var r := ParseValue(w + p);
            r.value == CutNumeral(numeral, |p|) && Stuck(r.rest) && Stuck(w + p)
  {
    assert p == numeral[..|p|];
    FirstDigit(numeral);
    EndsInDigit(AtStart, numeral);
    ValueOfNumber(w, p);
    NumeralCut(numeral, |p|);
    SkipBlank(w, p);
    assert SkipSpace(p) == p && SkipSpace([]) == [];
  }

  /** Where a beginning of an element's text stops. */
  lemma {:induction false} CutElemsText(e: Elems, acc: seq<Json>, p: Text)
    requires FormedElems(e) && !RefusedElems(e, |p|) && p < ElemsText(e)
    ensures ParseItems(acc, p).0 == acc + CutElems(e, |p|) && Stuck(ParseItems(acc, p).1)
    decreases e, 1
  {
    hide ParseItems, ParseValue, ItemsAfter, Denote, DocText, Cut, SkipSpace, Stuck, ElemsRest, Refused, Converts, Formed;
    var start, end := |e.before|, |e.before| + |DocText(e.value)|;
    SplitPrefix(p, e.before, DocText(e.value) + ElemsRest(e));
    if |p| <= start {
      BlankItems(acc, p);
      assert acc + [] == acc;
    } else {
      var q := p[start..];
      SplitPrefix(q, DocText(e.value), ElemsRest(e));
      HeadOf(e.value);
      assert q[0] == DocText(e.value)[0];
      if |p| < end {
        assert [] + q == q && |q| == |p| - start;
        CutDoc(e.value, [], q);
        CutElem(acc, e.before, q, Cut(e.value, |q|));
      } else {
        var tail := q[|DocText(e.value)|..];
        assert p == e.before + (DocText(e.value) + tail);
        CutElemsRest(e, acc, tail);
      }
    }
  }

  lemma CutElem(acc: seq<Json>, w: Text, q: Text, value: Option<Json>)
    requires Blank(w) && q != [] && OpensValue(q[0]) && ParseValue(q).value == value && Stuck(ParseValue(q).rest)
    ensures ParseItems(acc, w + q).0 == acc + Told(value) && Stuck(ParseItems(acc, w + q).1)
  {
    hide ParseItems, ParseValue, ItemsAfter, Stuck, SkipSpace;
    ItemsNext(acc, w, q);
    if value.Some? {
      ItemsStop(acc + [value.value], ParseValue(q).rest);
    }
    assert acc + [] == acc;
  }

  /** The same when the first element's text is complete. */
  lemma {:induction false} CutElemsRest(e: Elems, acc: seq<Json>, tail: Text)
    requires FormedElems(e) && tail < ElemsRest(e)
    requires !RefusedElems(e, |e.before| + |DocText(e.value)| + |tail|)
    ensures var r := ParseItems(acc, e.before + (DocText(e.value) + tail));
            r.0 == acc + CutElems(e, |e.before| + |DocText(e.value)| + |tail|) && Stuck(r.1)
    decreases e, 0
  {
    hide ParseItems, ParseValue, ItemsAfter, Denote, DocText, Cut, SkipSpace, Stuck;
    var items := acc + [Denote(e.value)];
    HeadOf(e.value);
    PrefixDelimits(e.after, if e.OneElem? then [CLOSE_BRACKET] else [COMMA] + ElemsText(e.tail), tail);
    FullElem(e, acc, tail);
    if |tail| <= |e.after| {
      BlankIsStuck(tail);
      ItemsStop(items, tail);
    } else {
      var next := tail[|e.after| + 1..];
      assert tail == e.after + ([COMMA] + next) && next < ElemsText(e.tail) by {
        SplitPrefix(tail, e.after, [COMMA] + ElemsText(e.tail));
        var t := tail[|e.after|..];
        assert t == [COMMA] + next && ([COMMA] + ElemsText(e.tail))[1..] == ElemsText(e.tail);
      }
      ItemsContinue(items, e.after, next);
      CutElemsText(e.tail, items, next);
      assert items + CutElems(e.tail, |next|) == acc + ([Denote(e.value)] + CutElems(e.tail, |next|));
    }
  }

  lemma BlankItems(acc: seq<Json>, p: Text)
    requires Blank(p)
    ensures ParseItems(acc, p) == (acc, []) && Stuck([])
  {
    SkipAllBlank(p);
  }

  lemma BlankIsStuck(s: Text)
    requires Blank(s)
    ensures Stuck(s)
  {
    SkipAllBlank(s);
  }

  /** A beginning of what follows a value delimits the value; short enough, it is blank. */
  lemma PrefixDelimits(after: Text, close: Text, p: Text)
    requires Blank(after) && close != [] && (close[0] == COMMA || close[0] == CLOSE_BRACKET || close[0] == CLOSE_BRACE)
    requires p <= after + close
    ensures Delimits(p) && (|p| <= |after| ==> Blank(p))
  {
    SplitPrefix(p, after, close);
    if p != [] { assert p[0] == (after + close)[0]; }
  }

  /** Where a beginning of a member's text stops. */
  lemma {:induction false} CutPairsText(p: Pairs, acc: seq<Member>, q: Text)
    requires FormedPairs(p) && !RefusedPairs(p, |q|) && q < PairsText(p)
    ensures ParseMembers(acc, q).0 == CutPairs(acc, p, |q|) && Stuck(ParseMembers(acc, q).1)
    decreases p, 2
  {
    hide ParseMembers, ParseKey, MembersAfterColon, Denote, DocText, KeyText, Cut, SkipSpace, Stuck, Put, ItemsValue, PairsRest;
    var valueText := p.beforeValue + (DocText(p.value) + PairsRest(p));
    SplitPrefix(q, p.before, [QUOTE] + (KeyText(p) + valueText));
    if |q| <= |p.before| {
      BlankMembers(acc, q);
    } else {
      var r := q[|p.before| + 1..];
      assert q == p.before + ([QUOTE] + r) && r < KeyText(p) + valueText by {
        var t := q[|p.before|..];
        assert t == [QUOTE] + r && ([QUOTE] + (KeyText(p) + valueText))[1..] == KeyText(p) + valueText;
      }
      MembersNext(acc, p.before, r);
      SplitPrefix(r, KeyText(p), valueText);
      if |r| < |KeyText(p)| {
        CutKey(p, r);
      } else {
        var v := r[|KeyText(p)|..];
        FullKey(p, v);
        CutValueText(p, acc, v);
      }
    }
  }

  /** The same when the key and the colon are complete. */
  lemma {:induction false} CutValueText(p: Pairs, acc: seq<Member>, v: Text)
    requires FormedPairs(p) && v < p.beforeValue + (DocText(p.value) + PairsRest(p))
    requires !RefusedPairs(p, |p.before| + 1 + |KeyText(p)| + |v|)
    ensures var r := MembersAfterColon(acc, ItemsValue(p.key), v);
            r.0 == CutPairs(acc, p, |p.before| + 1 + |KeyText(p)| + |v|) && Stuck(r.1)
    decreases p, 1
  {
    hide ParseMembers, ParseValue, MembersAfter, Denote, DocText, KeyText, Cut, SkipSpace, Stuck, Put, ItemsValue, PairsRest;
    SplitPrefix(v, p.beforeValue, DocText(p.value) + PairsRest(p));
    if |v| <= |p.beforeValue| {
      BlankPrefix(v, p.beforeValue);
      NoValue(v);
    } else {
      var x := v[|p.beforeValue|..];
      SplitPrefix(x, DocText(p.value), PairsRest(p));
      if |x| < |DocText(p.value)| {
        CutDoc(p.value, p.beforeValue, x);
        var parsed := ParseValue(v);
        if parsed.value.Some? {
          MembersStop(Put(acc, ItemsValue(p.key), parsed.value.value), parsed.rest);
        }
      } else {
        var tail := x[|DocText(p.value)|..];
        assert v == p.beforeValue + (DocText(p.value) + tail);
        CutPairsRest(p, acc, tail);
      }
    }
  }

  /** The same when the value is complete, too. */
  lemma {:induction false} CutPairsRest(p: Pairs, acc: seq<Member>, tail: Text)
    requires FormedPairs(p) && tail < PairsRest(p)
    requires !RefusedPairs(p, |p.before| + 1 + |KeyText(p)| + |p.beforeValue| + |DocText(p.value)| + |tail|)
    ensures var r := MembersAfterColon(acc, ItemsValue(p.key), p.beforeValue + (DocText(p.value) + tail));
            r.0 == CutPairs(acc, p, |p.before| + 1 + |KeyText(p)| + |p.beforeValue| + |DocText(p.value)| + |tail|) && Stuck(r.1)
    decreases p, 0
  {
    hide ParseMembers, ParseValue, MembersAfter, Denote, DocText, KeyText, Cut, SkipSpace, Stuck, Put, ItemsValue;
    var members := Put(acc, ItemsValue(p.key), Denote(p.value));
    HeadOf(p.value);
    PrefixDelimits(p.after, if p.OnePair? then [CLOSE_BRACE] else [COMMA] + PairsText(p.tail), tail);
    FullDoc(p.value, p.beforeValue, tail);
    if |tail| <= |p.after| {
      BlankIsStuck(tail);
      MembersStop(members, tail);
    } else {
      var next := tail[|p.after| + 1..];
      assert tail == p.after + ([COMMA] + next) && next < PairsText(p.tail) by {
        SplitPrefix(tail, p.after, [COMMA] + PairsText(p.tail));
        var t := tail[|p.after|..];
        assert t == [COMMA] + next && ([COMMA] + PairsText(p.tail))[1..] == PairsText(p.tail);
      }
      MembersContinue(members, p.after, next);
      CutPairsText(p.tail, members, next);
    }
  }

  lemma BlankMembers(acc: seq<Member>, q: Text)
    requires Blank(q)
    ensures ParseMembers(acc, q) == (acc, []) && Stuck([])
  {
    SkipAllBlank(q);
  }

  // ----- approximation -----

  /** The arrived value is the final one but for its rightmost leaf, which may be shortened: an
      array has its first elements, all final but the last; likewise an object. */
  ghost predicate Approximates(a: Json, v: Json)
    decreases v
  {
    match (a, v)
    case (JNumber(x), JNumber(y)) => x <= y && (x != [] || y == [])
    case (JString(x), JString(y)) => x <= y
    case (JArray(xs), JArray(ys)) =>
      && |xs| <= |ys|
      && (forall i :: 0 <= i < |xs| - 1 ==> xs[i] == ys[i])
      && (xs != [] ==> Approximates(xs[|xs| - 1], ys[|xs| - 1]))
    case (JObject(xs), JObject(ys)) =>
      && |xs| <= |ys|
      && (forall i :: 0 <= i < |xs| - 1 ==> xs[i] == ys[i])
      && (xs != [] ==> xs[|xs| - 1].key == ys[|xs| - 1].key && Approximates(xs[|xs| - 1].value, ys[|xs| - 1].value))
    case _ => a == v
  }

  /** No object has two members of one name, as section 4 recommends. */
  ghost predicate DistinctKeys(d: Doc)
    requires Formed(d)
    decreases d, 1
  {
    match d
    case Array(elems) => DistinctInElems(elems)
    case Object(pairs) => DistinctInPairs(pairs) && KeysDistinct(pairs)
    case _ => true
  }

  ghost predicate DistinctInElems(e: Elems)
    requires FormedElems(e)
    decreases e, 0
  {
    DistinctKeys(e.value) && (e.MoreElems? ==> DistinctInElems(e.tail))
  }

  ghost predicate DistinctInPairs(p: Pairs)
    requires FormedPairs(p)
    decreases p, 0
  {
    DistinctKeys(p.value) && (p.MorePairs? ==> DistinctInPairs(p.tail))
  }

  /** The members in the order of the text, repeated names included. */
  function PairList(p: Pairs): seq<Member>
    requires FormedPairs(p)
  {
    [Member(ItemsValue(p.key), Denote(p.value))] + if p.OnePair? then [] else PairList(p.tail)
  }

  predicate Apart(ms: seq<Member>) {
    forall i, j :: 0 <= i < j < |ms| ==> ms[i].key != ms[j].key
  }

  ghost predicate KeysDistinct(p: Pairs)
    requires FormedPairs(p)
  {
    Apart(PairList(p))
  }

  function PutAll(acc: seq<Member>, ms: seq<Member>): seq<Member>
    decreases |ms|
  {
    if ms == [] then acc else PutAll(Put(acc, ms[0].key, ms[0].value), ms[1..])
  }

  lemma {:induction false} PutApart(acc: seq<Member>, ms: seq<Member>)
    requires Apart(acc + ms)
    ensures PutAll(acc, ms) == acc + ms
    decreases |ms|
  {
    if ms == [] {
      assert acc + ms == acc;
    } else {
      assert (acc + ms)[|acc|] == ms[0];
      forall m | m in acc ensures m.key != ms[0].key {
        var i :| 0 <= i < |acc| && acc[i] == m;
        assert (acc + ms)[i] == m;
      }
      PutNew(acc, ms[0].key, ms[0].value);
      assert acc + [ms[0]] + ms[1..] == acc + ms && [Member(ms[0].key, ms[0].value)] == [ms[0]];
      PutApart(acc + [ms[0]], ms[1..]);
    }
  }

  lemma {:induction false} PutNew(acc: seq<Member>, key: Text, value: Json)
    requires forall m :: m in acc ==> m.key != key
    ensures Put(acc, key, value) == acc + [Member(key, value)]
  {
    if acc != [] { PutNew(acc[1..], key, value); }
  }

  lemma {:induction false} ApproximatesItself(j: Json)
    ensures Approximates(j, j)
  {
    match j
    case JArray(xs) => if xs != [] { ApproximatesItself(xs[|xs| - 1]); }
    case JObject(xs) => if xs != [] { ApproximatesItself(xs[|xs| - 1].value); }
    case _ =>
  }

  /** Whatever has arrived of a text without repeated names, the parser's answer approximates the
      value of the whole text. */
  lemma {:induction false} CutApproximates(d: Doc, n: nat)
    requires Formed(d) && DistinctKeys(d) && Cut(d, n).Some?
    ensures Approximates(Cut(d, n).value, Denote(d))
    decreases d
  {
    match d
    case Word(_) =>
    case Number(numeral) => if n < |numeral| { TrimmedNumeral(numeral, n); }
    case Str(chars) => CutItemsPrefix(chars, n - 1);
    case EmptyArray(_) =>
    case Array(elems) => FrontElems(elems, n - 1);
    case EmptyObject(_) =>
    case Object(pairs) =>
      FrontPairs(pairs, n - 1);
      MembersAppend(pairs, n - 1);
  }

  lemma TrimmedNumeral(numeral: Text, n: nat)
    requires NumeralOk(numeral) && n < |numeral| && CutNumeral(numeral, n).Some?
    ensures var seen := Trim(numeral[..n]); seen != [] && seen <= numeral
  {
    var p := numeral[..n];
    NumeralPrefix(AtStart, numeral, n);
    FirstDigit(p);
    TrimKeeps(p, if IsAsciiDigit(p[0]) then 0 else 1);
  }

  lemma {:induction false} CutItemsPrefix(items: seq<Item>, n: nat)
    requires ItemsOk(items)
    ensures CutItems(items, n) <= ItemsValue(items)
  {
    if items != [] && n >= |ItemText(items[0])| {
      CutItemsPrefix(items[1..], n - |ItemText(items[0])|);
    }
  }

  lemma {:induction false} FrontElems(e: Elems, n: nat)
    requires FormedElems(e) && DistinctInElems(e)
    ensures Approximates(JArray(CutElems(e, n)), JArray(DenoteElems(e)))
    decreases e
  {
    var start, end := |e.before|, |e.before| + |DocText(e.value)|;
    if start < n < end {
      if Cut(e.value, n - start).Some? { CutApproximates(e.value, n - start); }
    } else if n >= end {
      ApproximatesItself(Denote(e.value));
      if e.MoreElems? && n > end + |e.after| {
        var m := n - end - |e.after| - 1;
        FrontElems(e.tail, m);
        ArrayGrows(Denote(e.value), CutElems(e.tail, m), DenoteElems(e.tail));
      }
    }
  }

  lemma ArrayGrows(x: Json, xs: seq<Json>, ys: seq<Json>)
    requires Approximates(JArray(xs), JArray(ys)) && Approximates(x, x)
    ensures Approximates(JArray([x] + xs), JArray([x] + ys))
  {
    var us, vs := [x] + xs, [x] + ys;
    forall i | 0 <= i < |us| - 1 ensures us[i] == vs[i] {
      if i > 0 { assert us[i] == xs[i - 1] && vs[i] == ys[i - 1]; }
    }
    if xs != [] { assert us[|us| - 1] == xs[|xs| - 1] && vs[|us| - 1] == ys[|xs| - 1]; }
  }

  function CutList(p: Pairs, n: nat): seq<Member>
    requires FormedPairs(p)
    decreases p
  {
    var start := |p.before| + 1 + |KeyText(p)| + |p.beforeValue|;
    var end := start + |DocText(p.value)|;
    if n <= start then []
    else if n < end then
      var value := Cut(p.value, n - start);
      if value.None? then [] else [Member(ItemsValue(p.key), value.value)]
    else
      [Member(ItemsValue(p.key), Denote(p.value))]
      + if p.MorePairs? && n > end + |p.after| then CutList(p.tail, n - end - |p.after| - 1) else []
  }

  lemma {:induction false} DenoteIsPut(acc: seq<Member>, p: Pairs)
    requires FormedPairs(p)
    ensures DenotePairs(acc, p) == PutAll(acc, PairList(p))
    decreases p
  {
    hide Denote, ItemsValue, Put;
    if p.MorePairs? {
      DenoteIsPut(Put(acc, ItemsValue(p.key), Denote(p.value)), p.tail);
      assert PairList(p)[1..] == PairList(p.tail);
    }
  }

  lemma {:induction false} CutIsPut(acc: seq<Member>, p: Pairs, n: nat)
    requires FormedPairs(p)
    ensures CutPairs(acc, p, n) == PutAll(acc, CutList(p, n))
    decreases p
  {
    hide Cut, Denote, DocText, KeyText, ItemsValue, Put;
    var start := |p.before| + 1 + |KeyText(p)| + |p.beforeValue|;
    var end := start + |DocText(p.value)|;
    if p.MorePairs? && n > end + |p.after| {
      var m := n - end - |p.after| - 1;
      CutIsPut(Put(acc, ItemsValue(p.key), Denote(p.value)), p.tail, m);
      assert CutList(p, n)[1..] == CutList(p.tail, m);
    }
  }

  lemma {:induction false} FrontPairs(p: Pairs, n: nat)
    requires FormedPairs(p) && DistinctInPairs(p)
    ensures Approximates(JObject(CutList(p, n)), JObject(PairList(p)))
    decreases p
  {
    hide Approximates, Denote, Cut, DocText, KeyText, ItemsValue, DistinctKeys;
    var start := |p.before| + 1 + |KeyText(p)| + |p.beforeValue|;
    var end := start + |DocText(p.value)|;
    NoMembers(PairList(p));
    if start < n < end {
      if Cut(p.value, n - start).Some? {
        CutApproximates(p.value, n - start);
        OneMember(ItemsValue(p.key), Cut(p.value, n - start).value, PairList(p));
      }
    } else if n >= end && n > start {
      ApproximatesItself(Denote(p.value));
      OneMember(ItemsValue(p.key), Denote(p.value), PairList(p));
      if p.MorePairs? && n > end + |p.after| {
        var m := n - end - |p.after| - 1;
        FrontPairs(p.tail, m);
        ObjectGrows(Member(ItemsValue(p.key), Denote(p.value)), CutList(p.tail, m), PairList(p.tail));
      } else {
        assert CutList(p, n) == [Member(ItemsValue(p.key), Denote(p.value))];
      }
    }
  }

  lemma NoMembers(ys: seq<Member>)
    ensures Approximates(JObject([]), JObject(ys))
  {
  }

  lemma OneMember(key: Text, x: Json, ys: seq<Member>)
    requires ys != [] && ys[0].key == key && Approximates(x, ys[0].value)
    ensures Approximates(JObject([Member(key, x)]), JObject(ys))
  {
  }

  /** With distinct names, assignments only append. */
  lemma MembersAppend(p: Pairs, n: nat)
    requires FormedPairs(p) && KeysDistinct(p) && Approximates(JObject(CutList(p, n)), JObject(PairList(p)))
    ensures DenotePairs([], p) == PairList(p) && CutPairs([], p, n) == CutList(p, n)
  {
    hide CutList, PairList, Approximates, DenotePairs, CutPairs, PutAll, Apart;
    var cut, all := CutList(p, n), PairList(p);
    FrontApart(cut, all);
    assert [] + cut == cut && [] + all == all;
    DenoteIsPut([], p);
    CutIsPut([], p, n);
    PutApart([], cut);
    PutApart([], all);
  }

  lemma FrontApart(xs: seq<Member>, ys: seq<Member>)
    requires Approximates(JObject(xs), JObject(ys)) && Apart(ys)
    ensures Apart(xs)
  {
    assert forall i :: 0 <= i < |xs| ==> xs[i].key == ys[i].key;
  }

  lemma ObjectGrows(x: Member, xs: seq<Member>, ys: seq<Member>)
    requires Approximates(JObject(xs), JObject(ys)) && Approximates(x.value, x.value)
    ensures Approximates(JObject([x] + xs), JObject([x] + ys))
  {
    var us, vs := [x] + xs, [x] + ys;
    forall i | 0 <= i < |us| - 1 ensures us[i] == vs[i] {
      if i > 0 { assert us[i] == xs[i - 1] && vs[i] == ys[i - 1]; }
    }
    if xs != [] { assert us[|us| - 1] == xs[|xs| - 1] && vs[|us| - 1] == ys[|xs| - 1]; }
  }

  // ----- the theorems -----

  /** The streaming parser on a complete JSON text, whitespace around it included. */
  lemma CompleteText(before: Text, d: Doc, after: Text)
    requires Blank(before) && DocOk(d) && Blank(after)
    ensures ParseValue(before + DocText(d) + after) == Parsed(Some(Denote(d)), after)
  {
    FullDoc(d, before, after);
    assert before + DocText(d) + after == before + (DocText(d) + after);
  }

  /** The streaming parser on what has arrived of a JSON text when it is cut anywhere inside. */
  lemma ArrivedText(before: Text, d: Doc, n: nat)
    requires Blank(before) && Formed(d) && n < |DocText(d)| && !Refused(d, n)
    ensures ParseValue(before + DocText(d)[..n]).value == Cut(d, n)
    ensures DistinctKeys(d) && Cut(d, n).Some? ==> Approximates(Cut(d, n).value, Denote(d))
  {
    CutDoc(d, before, DocText(d)[..n]);
    if DistinctKeys(d) && Cut(d, n).Some? { CutApproximates(d, n); }
  }

  /** An integer of more digits than `int` converts is missing, even when it is complete. */
  lemma LongIntegerIsMissing(before: Text, numeral: Text, after: Text)
    requires Blank(before) && NumeralOk(numeral) && Delimits(after)
    ensures ParseValue(before + (numeral + after)).value.Some? <==> Convertible(numeral)
  {
    ScanNumeral(AtStart, numeral, after);
    FirstDigit(numeral);
    EndsInDigit(AtStart, numeral);
    ValueOfNumber(before, numeral + after);
    assert (numeral + after)[..|numeral|] == numeral;
  }

  // ----- surrogate pairs -----

  predicate HasPair(items: seq<Item>)
    requires ItemsOk(items)
  {
    exists i :: 0 <= i < |items| && PairAt(items, i)
  }

  predicate PairAt(items: seq<Item>, i: nat)
    requires ItemsOk(items) && i < |items|
  {
    StartsWithPair(items[i..])
  }

  lemma PairHereOrLater(items: seq<Item>)
    requires ItemsOk(items) && items != []
    ensures HasPair(items) <==> StartsWithPair(items) || HasPair(items[1..])
  {
    assert items[0..] == items;
    assert StartsWithPair(items) <==> PairAt(items, 0);
    forall i | 1 <= i < |items| ensures PairAt(items, i) <==> PairAt(items[1..], i - 1) {
      assert items[i..] == items[1..][i - 1..];
    }
    if HasPair(items[1..]) {
      var j :| 0 <= j < |items[1..]| && PairAt(items[1..], j);
      assert PairAt(items, j + 1);
    }
  }

  lemma {:induction false} RfcIsShorter(items: seq<Item>)
    requires ItemsOk(items)
    ensures |ItemsValue(items)| == |items|
    ensures |RfcValue(items)| <= |items| && (HasPair(items) ==> |RfcValue(items)| < |items|)
    ensures !HasPair(items) ==> RfcValue(items) == ItemsValue(items)
    decreases |items|
  {
    hide HasPair, ItemValue;
    if items == [] {
      NoPairInNothing();
    } else {
      PairHereOrLater(items);
      RfcIsShorter(items[1..]);
      if StartsWithPair(items) {
        RfcIsShorter(items[2..]);
      }
    }
  }

  lemma NoPairInNothing()
    ensures !HasPair([])
  {
  }

  /** A string, or a name, somewhere in the text has a surrogate pair of `\u` escapes. */
  ghost predicate PairIn(d: Doc)
    requires Formed(d)
  {
    match d
    case Str(chars) => HasPair(chars)
    case Array(elems) => PairInElems(elems)
    case Object(pairs) => PairInPairs(pairs)
    case _ => false
  }

  ghost predicate PairInElems(e: Elems)
    requires FormedElems(e)
  {
    PairIn(e.value) || (e.MoreElems? && PairInElems(e.tail))
  }

  ghost predicate PairInPairs(p: Pairs)
    requires FormedPairs(p)
  {
    HasPair(p.key) || PairIn(p.value) || (p.MorePairs? && PairInPairs(p.tail))
  }

  function RfcList(p: Pairs): seq<Member>
    requires FormedPairs(p)
  {
    [Member(RfcValue(p.key), RfcDenote(p.value))] + if p.OnePair? then [] else RfcList(p.tail)
  }

  lemma {:induction false} RfcIsPut(acc: seq<Member>, p: Pairs)
    requires FormedPairs(p)
    ensures RfcPairs(acc, p) == PutAll(acc, RfcList(p))
    decreases p
  {
    hide RfcDenote, RfcValue, Put;
    if p.MorePairs? {
      RfcIsPut(Put(acc, RfcValue(p.key), RfcDenote(p.value)), p.tail);
      assert RfcList(p)[1..] == RfcList(p.tail);
    }
  }

  lemma {:induction false} PutLength(acc: seq<Member>, key: Text, value: Json)
    ensures var after := Put(acc, key, value); |after| == |acc| || after == acc + [Member(key, value)]
  {
    if acc != [] {
      PutLength(acc[1..], key, value);
      assert [acc[0]] + (acc[1..] + [Member(key, value)]) == acc + [Member(key, value)];
    }
  }

  /** Assignments that lose no member only append. */
  lemma {:induction false} PutAllLength(acc: seq<Member>, ms: seq<Member>)
    ensures |PutAll(acc, ms)| <= |acc| + |ms|
    ensures |PutAll(acc, ms)| == |acc| + |ms| ==> PutAll(acc, ms) == acc + ms
    decreases |ms|
  {
    if ms == [] {
      assert acc + ms == acc;
    } else {
      PutLength(acc, ms[0].key, ms[0].value);
      PutAllLength(Put(acc, ms[0].key, ms[0].value), ms[1..]);
      assert acc + [ms[0]] + ms[1..] == acc + ms;
    }
  }

  lemma {:induction false} ValuesAgree(d: Doc)
    requires Formed(d)
    ensures !PairIn(d) ==> Denote(d) == RfcDenote(d)
    ensures DistinctKeys(d) && Denote(d) == RfcDenote(d) ==> !PairIn(d)
    decreases d
  {
    hide HasPair, PutAll, PairList, RfcList, DenotePairs, RfcPairs, RfcElems, DenoteElems, ItemsValue, RfcValue, Apart;
    match d
    case Str(chars) => RfcIsShorter(chars);
    case Array(elems) => ElemsAgree(elems);
    case Object(pairs) =>
      MembersAgree(pairs);
      DenoteIsPut([], pairs);
      RfcIsPut([], pairs);
      if KeysDistinct(pairs) {
        SamePuts(PairList(pairs), RfcList(pairs));
      }
    case _ =>
  }

  lemma SamePuts(ms: seq<Member>, ns: seq<Member>)
    requires |ms| == |ns| && Apart(ms)
    ensures PutAll([], ms) == PutAll([], ns) ==> ms == ns
  {
    assert [] + ms == ms && [] + ns == ns;
    PutApart([], ms);
    PutAllLength([], ns);
  }

  lemma {:induction false} ElemsAgree(e: Elems)
    requires FormedElems(e)
    ensures !PairInElems(e) ==> DenoteElems(e) == RfcElems(e)
    ensures DistinctInElems(e) && DenoteElems(e) == RfcElems(e) ==> !PairInElems(e)
    decreases e
  {
    hide PairIn, Denote, RfcDenote, DistinctKeys;
    ValuesAgree(e.value);
    assert DenoteElems(e)[0] == Denote(e.value) && RfcElems(e)[0] == RfcDenote(e.value);
    if e.MoreElems? {
      ElemsAgree(e.tail);
      assert DenoteElems(e)[1..] == DenoteElems(e.tail) && RfcElems(e)[1..] == RfcElems(e.tail);
    }
  }

  lemma {:induction false} MembersAgree(p: Pairs)
    requires FormedPairs(p)
    ensures |PairList(p)| == |RfcList(p)|
    ensures !PairInPairs(p) ==> PairList(p) == RfcList(p)
    ensures DistinctInPairs(p) && PairList(p) == RfcList(p) ==> !PairInPairs(p)
    decreases p
  {
    hide PairIn, Denote, RfcDenote, DistinctKeys, HasPair, ItemsValue, RfcValue;
    RfcIsShorter(p.key);
    ValuesAgree(p.value);
    assert PairList(p)[0] == Member(ItemsValue(p.key), Denote(p.value)) && RfcList(p)[0] == Member(RfcValue(p.key), RfcDenote(p.value));
    if p.MorePairs? {
      MembersAgree(p.tail);
      assert PairList(p)[1..] == PairList(p.tail) && RfcList(p)[1..] == RfcList(p.tail);
    }
  }

  /** The streaming parser gives a complete text without repeated names its value under RFC 8259 exactly
      when no string in it, names included, has a surrogate pair of `\u` escapes; the two halves stay
      apart. */
  lemma WholeIsRfcValue(before: Text, d: Doc, after: Text)
    requires Blank(before) && DocOk(d) && Blank(after)
    ensures !PairIn(d) ==> ParseValue(before + DocText(d) + after).value == Some(RfcDenote(d))
    ensures DistinctKeys(d) ==> (ParseValue(before + DocText(d) + after).value == Some(RfcDenote(d)) <==> !PairIn(d))
  {
    hide ParseValue, Denote, RfcDenote, PairIn, DistinctKeys;
    CompleteText(before, d, after);
    ValuesAgree(d);
  }

  /** U+1F600 written as two escapes comes out as two code points. */
  lemma PairStaysApart()
    ensures var high, low := Hex([0x64, 0x38, 0x33, 0x64]), Hex([0x64, 0x65, 0x30, 0x30]);
            && RfcValue([high, low]) == [0x1f600]
            && ParseValue(DocText(Str([high, low]))).value == Some(JString([0xd83d, 0xde00]))
  {
    var high, low := Hex([0x64, 0x38, 0x33, 0x64]), Hex([0x64, 0x65, 0x30, 0x30]);
    var items := [high, low];
    assert ItemValue(high) == 0xd83d && ItemValue(low) == 0xde00;
    assert items[1..] == [low] && items[2..] == [] && [low][1..] == [];
    assert ItemsValue([]) == [] && ItemsValue([low]) == [0xde00];
    assert ItemsValue(items) == [0xd83d, 0xde00];
    assert StartsWithPair(items) && RfcValue([]) == [];
    FullDoc(Str(items), [], []);
    assert [] + (DocText(Str(items)) + []) == DocText(Str(items));
  }
}
