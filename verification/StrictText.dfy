/** `json.loads` against RFC 8259: a complete text gives its standard value, and what has arrived of one
    is refused, unless an integer of too many digits is met first. */
module StrictText {
  import opened Prelude
  import opened CodePoints
  import opened PartialJson
  import opened JsonText
  import opened StrictJson
  import JsonPrefix

  // ----- whitespace -----

  lemma {:induction false} SkipJsonBlank(w: Text, s: Text)
    requires Blank(w)
    ensures SkipJson(w + s) == SkipJson(s)
  {
    if w != [] {
      assert (w + s)[1..] == w[1..] + s;
      SkipJsonBlank(w[1..], s);
    } else {
      assert w + s == s;
    }
  }

  lemma BlankIsSkipped(w: Text)
    requires Blank(w)
    ensures SkipJson(w) == []
  {
    SkipJsonBlank(w, []);
    assert w + [] == w;
  }

  /** Blanks, and then something else. */
  lemma SkipTo(w: Text, c: CodePoint, s: Text)
    requires Blank(w) && !JsonSpace(c)
    ensures SkipJson(w + ([c] + s)) == [c] + s && ([c] + s)[1..] == s
  {
    SkipJsonBlank(w, [c] + s);
  }

  // ----- numbers -----

  lemma {:induction false} LongestIsAll(state: Numeral, s: Text, rest: Text)
    requires NumeralRun(state, s).Some? && Accepting(NumeralRun(state, s).value) && JsonPrefix.Delimits(rest)
    ensures Longest(state, s + rest) == Some(|s|)
    decreases |s|
  {
    if s != [] {
      assert (s + rest)[1..] == s[1..] + rest;
      LongestIsAll(NumeralStep(state, s[0]).value, s[1..], rest);
    } else {
      assert s + rest == rest;
      assert rest != [] ==> NumeralStep(state, rest[0]).None?;
    }
  }

  /** What a beginning of a numeral leaves over is nothing, or begins with a dot or an exponent. */
  predicate LeftOver(s: Text) {
    s != [] ==> s[0] == DOT || IsExponentLetter(s[0])
  }

  lemma {:induction false} LongestLeaves(state: Numeral, s: Text)
    requires NumeralRun(state, s).Some? && Longest(state, s).Some?
    ensures LeftOver(s[Longest(state, s).value..])
    decreases |s|
  {
    if s != [] {
      var next := NumeralStep(state, s[0]).value;
      if Longest(next, s[1..]).Some? {
        LongestLeaves(next, s[1..]);
        assert s[1..][Longest(next, s[1..]).value..] == s[Longest(state, s).value..];
      } else {
        StopsBeforeDot(state, s);
      }
    }
  }

  lemma StopsBeforeDot(state: Numeral, s: Text)
    requires s != [] && NumeralRun(state, s).Some? && Accepting(state)
    requires Longest(NumeralStep(state, s[0]).value, s[1..]).None?
    ensures s[0] == DOT || IsExponentLetter(s[0])
  {
    assert !Accepting(NumeralStep(state, s[0]).value);
  }

  lemma HeadOfNumeral(s: Text, rest: Text)
    requires NumeralRun(AtStart, s).Some? && s != []
    requires NumeralOk(s) || rest == []
    ensures LoadValue(s + rest) == LoadNumber(s + rest)
  {
    hide LoadMembers, LoadItems, LoadString;
    var t := s + rest;
    assert t[0] == s[0];
    if |s| > 1 {
      assert NumeralRun(AtStart, s) == NumeralRun(NumeralStep(AtStart, s[0]).value, s[1..]);
      assert t[1] == s[1] == s[1..][0];
    } else {
      assert s[1..] == [] && t == [s[0]] + rest;
    }
    assert INFINITY_WORD[0] == 0x49 && ([MINUS] + INFINITY_WORD)[1] == 0x49;
  }

  lemma LoadFullNumber(s: Text, rest: Text)
    requires NumeralOk(s) && JsonPrefix.Delimits(rest)
    ensures s != [] && LoadValue(s + rest) == if Convertible(s) then Loaded(JNumber(s), rest) else Overlong
  {
    HeadOfNumeral(s, rest);
    LongestIsAll(AtStart, s, rest);
    assert (s + rest)[..|s|] == s && (s + rest)[|s|..] == rest;
  }

  lemma LoadCutNumber(numeral: Text, p: Text)
    requires NumeralOk(numeral) && p < numeral && p != []
    ensures LoadValue(p) == LoadNumber(p)
    ensures LoadNumber(p).Overlong? <==> TooLong(p)
    ensures LoadNumber(p).Loaded? ==> LeftOver(LoadNumber(p).rest)
  {
    hide LoadValue;
    JsonPrefix.NumeralPrefix(AtStart, numeral, |p|);
    assert numeral[..|p|] == p && p + [] == p;
    HeadOfNumeral(p, []);
    if Longest(AtStart, p).Some? {
      LongestLeaves(AtStart, p);
    }
  }

  // ----- strings -----

  lemma {:induction false} LoadFullString(acc: Text, items: seq<Item>, rest: Text)
    requires ItemsOk(items)
    ensures LoadString(acc, ItemsText(items) + [QUOTE] + rest) == Chars(acc + RfcValue(items), rest)
    decreases |items|
  {
    hide LoadString, ItemText, ItemValue, StartsWithPair;
    var s := ItemsText(items) + [QUOTE] + rest;
    if items == [] {
      assert s == [QUOTE] + rest && acc + [] == acc;
      StringEnds(acc, rest);
    } else {
      var tail := ItemsText(items[1..]) + [QUOTE] + rest;
      assert s == ItemText(items[0]) + tail;
      if StartsWithPair(items) {
        PairOfItems(items);
        var after := ItemsText(items[2..]) + [QUOTE] + rest;
        assert items[1..][1..] == items[2..] && tail == ItemText(items[1]) + after;
        LoadPair(acc, items, after);
        var joined := acc + [Join(ItemValue(items[0]), ItemValue(items[1]))];
        LoadFullString(joined, items[2..], rest);
        assert joined + RfcValue(items[2..]) == acc + RfcValue(items);
      } else {
        LoadItem(acc, items, rest);
        LoadFullString(acc + [ItemValue(items[0])], items[1..], rest);
        assert acc + [ItemValue(items[0])] + RfcValue(items[1..]) == acc + RfcValue(items);
      }
    }
  }

  lemma StringEnds(acc: Text, rest: Text)
    ensures LoadString(acc, [QUOTE] + rest) == Chars(acc, rest)
  {
    assert ([QUOTE] + rest)[1..] == rest;
  }

  lemma PairOfItems(items: seq<Item>)
    requires ItemsOk(items) && StartsWithPair(items)
    ensures |items| >= 2 && items[0].Hex? && items[1].Hex?
    ensures IsHighSurrogate(ItemValue(items[0])) && IsLowSurrogate(ItemValue(items[1]))
  {
  }

  lemma EscapeRead(h: Text, tail: Text)
    requires ItemOk(Hex(h))
    ensures var s := ItemText(Hex(h)) + tail;
            && |s| >= 6 && s[0] == BACKSLASH && s[1] == LETTER_U && FourHexDigits(s[2..])
            && s[2..][..4] == h && s[2..][4..] == tail
  {
    var s := ItemText(Hex(h)) + tail;
    assert s[2..] == h + tail;
  }

  lemma LoadPair(acc: Text, items: seq<Item>, after: Text)
    requires ItemsOk(items) && StartsWithPair(items)
    ensures LoadString(acc, ItemText(items[0]) + (ItemText(items[1]) + after))
         == LoadString(acc + [Join(ItemValue(items[0]), ItemValue(items[1]))], after)
  {
    var t := ItemText(items[1]) + after;
    EscapeRead(items[0].h, t);
    EscapeRead(items[1].h, after);
  }

  lemma LoadItem(acc: Text, items: seq<Item>, rest: Text)
    requires ItemsOk(items) && items != [] && !StartsWithPair(items)
    ensures var tail := ItemsText(items[1..]) + [QUOTE] + rest;
            LoadString(acc, ItemText(items[0]) + tail) == LoadString(acc + [ItemValue(items[0])], tail)
  {
    hide ItemsText;
    var i, tail := items[0], ItemsText(items[1..]) + [QUOTE] + rest;
    var s := ItemText(i) + tail;
    match i
    case Plain(c) => assert s[1..] == tail;
    case Short(e) => assert s[2..] == tail;
    case Hex(h) =>
      EscapeRead(h, tail);
      if LowEscape(tail) {
        NextIsLow(items[1..], rest);
      }
  }

  lemma NextIsLow(items: seq<Item>, rest: Text)
    requires ItemsOk(items)
    ensures LowEscape(ItemsText(items) + [QUOTE] + rest) ==> items != [] && items[0].Hex? && IsLowSurrogate(ItemValue(items[0]))
  {
    hide ItemText, ItemValue;
    if items == [] {
      assert ([] + [QUOTE] + rest)[0] == QUOTE;
    } else {
      var tail := ItemsText(items[1..]) + [QUOTE] + rest;
      assert ItemsText(items) + [QUOTE] + rest == ItemText(items[0]) + tail;
      LowItem(items[0], tail);
    }
  }

  lemma LowItem(i: Item, tail: Text)
    requires ItemOk(i)
    ensures LowEscape(ItemText(i) + tail) ==> i.Hex? && IsLowSurrogate(ItemValue(i))
  {
    var s := ItemText(i) + tail;
    match i
    case Plain(c) => assert s[0] == c;
    case Short(e) => assert s[1] == e;
    case Hex(h) => EscapeRead(h, tail);
  }

  /** A string that can be read in a text is read in the same way when more follows. */
  lemma {:induction false} LoadExtends(acc: Text, s: Text, more: Text)
    requires LoadString(acc, s).Chars?
    ensures var q := LoadString(acc, s); LoadString(acc, s + more) == Chars(q.text, q.rest + more)
    decreases |s|
  {
    var t := s + more;
    if s[0] == QUOTE {
      assert t[1..] == s[1..] + more;
    } else if s[0] != BACKSLASH {
      assert t[1..] == s[1..] + more;
      LoadExtends(acc + [s[0]], s[1..], more);
    } else if s[1] != LETTER_U {
      assert t[2..] == s[2..] + more;
      LoadExtends(acc + [Unescape(s[1])], s[2..], more);
    } else {
      EscapeExtends(acc, s, more);
      var c, u := HexValue(s[2..][..4]), s[2..][4..];
      if IsHighSurrogate(c) && LowEscape(u) {
        LoadExtends(acc + [Join(c, HexValue(u[2..][..4]))], u[2..][4..], more);
      } else {
        LoadExtends(acc + [c], u, more);
      }
    }
  }

  lemma HexExtends(s: Text, more: Text)
    requires |s| >= 6
    ensures (s + more)[2..][..4] == s[2..][..4] && (s + more)[2..][4..] == s[2..][4..] + more
  {
  }

  /** What a `\u` escape and the text after it read as does not change, either. */
  lemma EscapeExtends(acc: Text, s: Text, more: Text)
    requires |s| > 1 && s[0] == BACKSLASH && s[1] == LETTER_U && FourHexDigits(s[2..])
    requires LoadString(acc, s).Chars?
    ensures var c, u := HexValue(s[2..][..4]), s[2..][4..];
            if IsHighSurrogate(c) && LowEscape(u)
            then LoadString(acc, s + more) == LoadString(acc + [Join(c, HexValue(u[2..][..4]))], u[2..][4..] + more)
                 && LoadString(acc + [Join(c, HexValue(u[2..][..4]))], u[2..][4..]) == LoadString(acc, s)
            else LoadString(acc, s + more) == LoadString(acc + [c], u + more) && LoadString(acc + [c], u) == LoadString(acc, s)
  {
    HexExtends(s, more);
    var c, u := HexValue(s[2..][..4]), s[2..][4..];
    if |u| >= 6 {
      HexExtends(u, more);
    } else if IsHighSurrogate(c) {
      if LowEscape(u + more) {
        HalfEscape(acc + [c], u, more);
      }
    }
  }

  lemma HalfEscape(acc: Text, u: Text, more: Text)
    requires |u| < 6 && LowEscape(u + more)
    ensures LoadString(acc, u).Unreadable?
  {
    if u != [] {
      assert u[0] == (u + more)[0];
      if |u| > 1 {
        assert u[1] == (u + more)[1];
      }
    }
  }

  lemma LoadCutString(acc: Text, items: seq<Item>, p: Text)
    requires ItemsOk(items) && p < ItemsText(items) + [QUOTE]
    ensures LoadString(acc, p).Unreadable?
  {
    var s := ItemsText(items) + [QUOTE];
    if LoadString(acc, p).Chars? {
      var more := s[|p|..];
      assert p + more == s && s + [] == s;
      LoadExtends(acc, p, more);
      LoadFullString(acc, items, []);
    }
  }

  // ----- steps -----

  lemma LoadsArray(s: Text)
    ensures var t := SkipJson(s);
            LoadValue([OPEN_BRACKET] + s)
            == if t != [] && t[0] == CLOSE_BRACKET then Loaded(JArray([]), t[1..]) else LoadItems([], t)
  {
    assert ([OPEN_BRACKET] + s)[1..] == s;
  }

  lemma LoadsObject(s: Text)
    ensures var t := SkipJson(s);
            LoadValue([OPEN_BRACE] + s)
            == if t != [] && t[0] == CLOSE_BRACE then Loaded(JObject([]), t[1..]) else LoadMembers([], t)
  {
    assert ([OPEN_BRACE] + s)[1..] == s;
  }

  lemma LoadsString(s: Text)
    ensures var q := LoadString([], s);
            LoadValue([QUOTE] + s) == if q.Chars? then Loaded(JString(q.text), q.rest) else Malformed
  {
    assert ([QUOTE] + s)[1..] == s;
  }

  lemma LoadsWord(kind: WordKind, rest: Text)
    ensures LoadValue(WordText(kind) + rest) == Loaded(WordValue(kind), rest)
  {
    hide LoadMembers, LoadItems, LoadString, LoadNumber;
    var s := WordText(kind) + rest;
    assert s[|WordText(kind)|..] == rest && WordText(kind) <= s;
    assert s[0] == WordText(kind)[0];
  }

  /** The text of a document stands after whitespace as it is. */
  lemma SkipToDoc(w: Text, d: Doc, tail: Text)
    requires Blank(w) && Formed(d)
    ensures var s := DocText(d) + tail;
            SkipJson(w + s) == s && s != [] && s[0] == DocText(d)[0] && s[0] != CLOSE_BRACKET && s[0] != CLOSE_BRACE
  {
    JsonPrefix.HeadOf(d);
    var s := DocText(d) + tail;
    SkipTo(w, s[0], s[1..]);
    assert [s[0]] + s[1..] == s;
  }

  // ----- complete texts -----

  lemma {:induction false} LoadDoc(d: Doc, rest: Text)
    requires Formed(d) && JsonPrefix.Delimits(rest)
    ensures LoadValue(DocText(d) + rest) == if Converts(d) then Loaded(RfcDenote(d), rest) else Overlong
    decreases d
  {
    hide LoadValue, LoadItems, LoadMembers, LoadString, LoadNumber, LoadWord, ItemsText, RfcValue, ElemsText, PairsText,
         RfcElems, RfcPairs, SkipJson, NumeralOk, Convertible;
    match d
    case Word(kind) => LoadsWord(kind, rest);
    case Number(numeral) => LoadFullNumber(numeral, rest);
    case Str(chars) =>
      var s := ItemsText(chars) + [QUOTE] + rest;
      assert DocText(d) + rest == [QUOTE] + s;
      LoadFullString([], chars, rest);
      LoadsString(s);
      assert [] + RfcValue(chars) == RfcValue(chars);
    case EmptyArray(inner) =>
      assert DocText(d) + rest == [OPEN_BRACKET] + (inner + ([CLOSE_BRACKET] + rest));
      LoadsArray(inner + ([CLOSE_BRACKET] + rest));
      SkipTo(inner, CLOSE_BRACKET, rest);
    case Array(elems) =>
      assert DocText(d) + rest == [OPEN_BRACKET] + (ElemsText(elems) + rest);
      LoadsArray(ElemsText(elems) + rest);
      LoadElems(elems, [], rest);
      assert [] + RfcElems(elems) == RfcElems(elems);
    case EmptyObject(inner) =>
      assert DocText(d) + rest == [OPEN_BRACE] + (inner + ([CLOSE_BRACE] + rest));
      LoadsObject(inner + ([CLOSE_BRACE] + rest));
      SkipTo(inner, CLOSE_BRACE, rest);
    case Object(pairs) =>
      assert DocText(d) + rest == [OPEN_BRACE] + (PairsText(pairs) + rest);
      LoadsObject(PairsText(pairs) + rest);
      LoadPairs(pairs, [], rest);
  }

  lemma {:induction false} LoadElems(e: Elems, acc: seq<Json>, rest: Text)
    requires FormedElems(e)
    ensures var s := SkipJson(ElemsText(e) + rest);
            && s != [] && s[0] != CLOSE_BRACKET
            && LoadItems(acc, s) == if ConvertsElems(e) then Loaded(JArray(acc + RfcElems(e)), rest) else Overlong
    decreases e
  {
    hide LoadValue, RfcDenote, DocText, SkipJson, Converts;
    var tail := ElemsRest(e) + rest;
    var s := DocText(e.value) + tail;
    assert ElemsText(e) + rest == e.before + s;
    SkipToDoc(e.before, e.value, tail);
    var items := acc + [RfcDenote(e.value)];
    if e.OneElem? {
      assert tail == e.after + ([CLOSE_BRACKET] + rest);
      JsonPrefix.RestDelimits(e.after, CLOSE_BRACKET, rest);
      LoadDoc(e.value, tail);
      SkipTo(e.after, CLOSE_BRACKET, rest);
      assert items == acc + RfcElems(e);
    } else {
      var next := ElemsText(e.tail) + rest;
      assert tail == e.after + ([COMMA] + next);
      JsonPrefix.RestDelimits(e.after, COMMA, next);
      LoadDoc(e.value, tail);
      SkipTo(e.after, COMMA, next);
      LoadElems(e.tail, items, rest);
      assert items + RfcElems(e.tail) == acc + RfcElems(e);
    }
  }

  lemma {:induction false} LoadPairs(p: Pairs, acc: seq<Member>, rest: Text)
    requires FormedPairs(p)
    ensures var s := SkipJson(PairsText(p) + rest);
            && s != [] && s[0] != CLOSE_BRACE
            && LoadMembers(acc, s) == if ConvertsPairs(p) then Loaded(JObject(RfcPairs(acc, p)), rest) else Overlong
    decreases p
  {
    hide LoadValue, LoadKey, LoadMembersAfter, RfcDenote, RfcValue, DocText, KeyText, SkipJson, Converts, Put;
    var tail := PairsRest(p) + rest;
    var value := p.beforeValue + (DocText(p.value) + tail);
    assert PairsText(p) + rest == p.before + ([QUOTE] + (KeyText(p) + value));
    SkipTo(p.before, QUOTE, KeyText(p) + value);
    LoadFullKey(p, value);
    SkipToDoc(p.beforeValue, p.value, tail);
    var members := Put(acc, RfcValue(p.key), RfcDenote(p.value));
    if p.OnePair? {
      assert tail == p.after + ([CLOSE_BRACE] + rest);
      JsonPrefix.RestDelimits(p.after, CLOSE_BRACE, rest);
      LoadDoc(p.value, tail);
      MembersEnd(members, p.after, rest);
    } else {
      var next := PairsText(p.tail) + rest;
      assert tail == p.after + ([COMMA] + next);
      JsonPrefix.RestDelimits(p.after, COMMA, next);
      LoadDoc(p.value, tail);
      MembersGoOn(members, p.after, next);
      LoadPairs(p.tail, members, rest);
    }
  }

  lemma MembersEnd(members: seq<Member>, w: Text, rest: Text)
    requires Blank(w)
    ensures LoadMembersAfter(members, w + ([CLOSE_BRACE] + rest)) == Loaded(JObject(members), rest)
  {
    SkipTo(w, CLOSE_BRACE, rest);
  }

  lemma MembersGoOn(members: seq<Member>, w: Text, next: Text)
    requires Blank(w)
    ensures LoadMembersAfter(members, w + ([COMMA] + next)) == LoadMembers(members, SkipJson(next))
  {
    SkipTo(w, COMMA, next);
  }

  lemma ItemsGoOn(items: seq<Json>, w: Text, next: Text)
    requires Blank(w)
    ensures LoadItemsAfter(items, w + ([COMMA] + next)) == LoadItems(items, SkipJson(next))
  {
    SkipTo(w, COMMA, next);
  }

  lemma LoadFullKey(p: Pairs, rest: Text)
    requires FormedPairs(p)
    ensures LoadKey(KeyText(p) + rest) == Chars(RfcValue(p.key), SkipJson(rest))
  {
    hide LoadString, ItemsText, RfcValue, SkipJson;
    var after := p.afterKey + ([COLON] + rest);
    assert KeyText(p) + rest == ItemsText(p.key) + [QUOTE] + after;
    LoadFullString([], p.key, after);
    assert [] + RfcValue(p.key) == RfcValue(p.key);
    SkipTo(p.afterKey, COLON, rest);
  }

  lemma LoadCutKey(p: Pairs, q: Text)
    requires FormedPairs(p) && q < KeyText(p)
    ensures LoadKey(q).Unreadable?
  {
    var quoted := ItemsText(p.key) + [QUOTE];
    JsonPrefix.SplitPrefix(q, quoted, p.afterKey + [COLON]);
    if |q| < |quoted| {
      LoadCutString([], p.key, q);
    } else {
      var r := q[|quoted|..];
      assert q == ItemsText(p.key) + [QUOTE] + r;
      LoadFullString([], p.key, r);
      JsonPrefix.SplitPrefix(r, p.afterKey, [COLON]);
      JsonPrefix.BlankPrefix(r, p.afterKey);
      BlankIsSkipped(r);
    }
  }

  // ----- beginnings of texts -----

  /** What has arrived of a text is no value; of a numeral it may be one, with something left over. */
  predicate NoValueYet(r: Loading, refused: bool) {
    && (refused <==> r.Overlong?)
    && (r.Loaded? ==> LeftOver(r.rest))
  }

  lemma {:induction false} LoadCut(d: Doc, p: Text)
    requires Formed(d) && p < DocText(d)
    ensures NoValueYet(LoadValue(p), Refused(d, |p|)) && (LoadValue(p).Loaded? ==> d.Number?)
    decreases d
  {
    hide LoadValue, LoadItems, LoadMembers, LoadString, LoadNumber, LoadWord, ItemsText, ElemsText, PairsText,
         SkipJson, NumeralOk, Convertible, RefusedElems, RefusedPairs;
    if p == [] {
      NothingLoads(d);
    } else {
      var s := p[1..];
      assert p == [p[0]] + s && p[0] == DocText(d)[0] && s < DocText(d)[1..];
      match d
      case Word(kind) => LoadCutWord(kind, p);
      case Number(numeral) =>
        assert numeral[..|p|] == p;
        LoadCutNumber(numeral, p);
      case Str(chars) =>
        LoadsString(s);
        assert DocText(d)[1..] == ItemsText(chars) + [QUOTE];
        LoadCutString([], chars, s);
      case EmptyArray(inner) =>
        LoadsArray(s);
        assert s < inner + [CLOSE_BRACKET];
        JsonPrefix.SplitPrefix(s, inner, [CLOSE_BRACKET]);
        NothingInside(s, inner);
      case Array(elems) =>
        LoadsArray(s);
        assert DocText(d)[1..] == ElemsText(elems);
        LoadCutElems(elems, [], s);
      case EmptyObject(inner) =>
        LoadsObject(s);
        assert s < inner + [CLOSE_BRACE];
        JsonPrefix.SplitPrefix(s, inner, [CLOSE_BRACE]);
        NothingInside(s, inner);
      case Object(pairs) =>
        LoadsObject(s);
        assert DocText(d)[1..] == PairsText(pairs);
        LoadCutPairs(pairs, [], s);
    }
  }

  lemma NothingLoads(d: Doc)
    requires Formed(d)
    ensures LoadValue([]) == Malformed && !Refused(d, 0)
  {
    JsonPrefix.HeadOf(d);
    if d.Number? {
      assert d.numeral[..0] == [];
    }
  }

  lemma NothingInside(s: Text, inner: Text)
    requires s <= inner && Blank(inner)
    ensures SkipJson(s) == [] && LoadItems([], []) == LoadMembers([], []) == Malformed
  {
    JsonPrefix.BlankPrefix(s, inner);
    BlankIsSkipped(s);
  }

  lemma LoadCutWord(kind: WordKind, p: Text)
    requires p < WordText(kind) && p != []
    ensures LoadValue(p) == Malformed
  {
    hide LoadMembers, LoadItems, LoadString;
    assert p[0] == WordText(kind)[0];
  }

  lemma {:induction false} LoadCutElems(e: Elems, acc: seq<Json>, p: Text)
    requires FormedElems(e) && p < ElemsText(e)
    ensures var s := SkipJson(p);
            && (s != [] ==> s[0] != CLOSE_BRACKET)
            && LoadItems(acc, s) == if RefusedElems(e, |p|) then Overlong else Malformed
    decreases e, 1
  {
    hide LoadValue, LoadItemsAfter, DocText, SkipJson, Refused, Converts, ElemsRest;
    var start, end := |e.before|, |e.before| + |DocText(e.value)|;
    JsonPrefix.SplitPrefix(p, e.before, DocText(e.value) + ElemsRest(e));
    if |p| <= start {
      BlankIsSkipped(p);
      NothingLoads(e.value);
    } else {
      var q := p[start..];
      JsonPrefix.SplitPrefix(q, DocText(e.value), ElemsRest(e));
      JsonPrefix.HeadOf(e.value);
      assert q[0] == DocText(e.value)[0] && q == [q[0]] + q[1..];
      SkipTo(e.before, q[0], q[1..]);
      if |p| < end {
        LoadCut(e.value, q);
        var v := LoadValue(q);
        if v.Loaded? {
          LeftOverEnds(v.rest);
        }
      } else {
        var tail := q[|DocText(e.value)|..];
        assert q == DocText(e.value) + tail && |p| == end + |tail|;
        LoadCutElemsRest(e, acc, tail);
      }
    }
  }

  /** Nothing goes on after what a numeral leaves over. */
  lemma LeftOverEnds(s: Text)
    requires LeftOver(s)
    ensures forall items: seq<Json> :: LoadItemsAfter(items, s) == Malformed
    ensures forall members: seq<Member> :: LoadMembersAfter(members, s) == Malformed
    ensures SkipJson(s) == s
  {
  }

  lemma {:induction false} LoadCutElemsRest(e: Elems, acc: seq<Json>, tail: Text)
    requires FormedElems(e) && tail < ElemsRest(e)
    ensures var n := |e.before| + |DocText(e.value)| + |tail|;
            LoadItems(acc, DocText(e.value) + tail) == if RefusedElems(e, n) then Overlong else Malformed
    decreases e, 0
  {
    hide LoadValue, LoadItemsAfter, DocText, SkipJson, Refused, RfcDenote, Converts;
    JsonPrefix.HeadOf(e.value);
    JsonPrefix.PrefixDelimits(e.after, if e.OneElem? then [CLOSE_BRACKET] else [COMMA] + ElemsText(e.tail), tail);
    LoadDoc(e.value, tail);
    var items := acc + [RfcDenote(e.value)];
    if |tail| <= |e.after| {
      BlankEnds(tail);
    } else {
      var next := tail[|e.after| + 1..];
      assert tail == e.after + ([COMMA] + next) && next < ElemsText(e.tail) by {
        JsonPrefix.SplitPrefix(tail, e.after, [COMMA] + ElemsText(e.tail));
        var t := tail[|e.after|..];
        assert t == [COMMA] + next && ([COMMA] + ElemsText(e.tail))[1..] == ElemsText(e.tail);
      }
      ItemsGoOn(items, e.after, next);
      LoadCutElems(e.tail, items, next);
    }
  }

  lemma BlankEnds(s: Text)
    requires Blank(s)
    ensures forall items: seq<Json> :: LoadItemsAfter(items, s) == Malformed
    ensures forall members: seq<Member> :: LoadMembersAfter(members, s) == Malformed
  {
    BlankIsSkipped(s);
  }

  lemma {:induction false} LoadCutPairs(p: Pairs, acc: seq<Member>, q: Text)
    requires FormedPairs(p) && q < PairsText(p)
    ensures var s := SkipJson(q);
            && (s != [] ==> s[0] != CLOSE_BRACE)
            && LoadMembers(acc, s) == if RefusedPairs(p, |q|) then Overlong else Malformed
    decreases p, 2
  {
    hide LoadValue, LoadKey, LoadMembersAfter, DocText, KeyText, SkipJson, Refused, Converts, PairsRest, Put;
    var valueText := p.beforeValue + (DocText(p.value) + PairsRest(p));
    JsonPrefix.SplitPrefix(q, p.before, [QUOTE] + (KeyText(p) + valueText));
    if |q| <= |p.before| {
      BlankIsSkipped(q);
    } else {
      var r := q[|p.before| + 1..];
      assert q == p.before + ([QUOTE] + r) && r < KeyText(p) + valueText by {
        var t := q[|p.before|..];
        assert t == [QUOTE] + r && ([QUOTE] + (KeyText(p) + valueText))[1..] == KeyText(p) + valueText;
      }
      SkipTo(p.before, QUOTE, r);
      JsonPrefix.SplitPrefix(r, KeyText(p), valueText);
      if |r| < |KeyText(p)| {
        LoadCutKey(p, r);
      } else {
        var v := r[|KeyText(p)|..];
        LoadFullKey(p, v);
        LoadCutMember(p, acc, v);
      }
    }
  }

  /** A member whose key and colon are complete. */
  function LoadMember(acc: seq<Member>, key: Text, s: Text): Loading {
    var v := LoadValue(s);
    if v.Loaded? then LoadMembersAfter(Put(acc, key, v.value), v.rest) else v
  }

  lemma {:induction false} LoadCutMember(p: Pairs, acc: seq<Member>, v: Text)
    requires FormedPairs(p) && v < p.beforeValue + (DocText(p.value) + PairsRest(p))
    ensures var n := |p.before| + 1 + |KeyText(p)| + |v|;
            LoadMember(acc, RfcValue(p.key), SkipJson(v)) == if RefusedPairs(p, n) then Overlong else Malformed
    decreases p, 1
  {
    hide LoadValue, LoadMembersAfter, DocText, KeyText, SkipJson, Refused, Converts, PairsRest, Put, RfcValue;
    JsonPrefix.SplitPrefix(v, p.beforeValue, DocText(p.value) + PairsRest(p));
    if |v| <= |p.beforeValue| {
      JsonPrefix.BlankPrefix(v, p.beforeValue);
      BlankIsSkipped(v);
      NothingLoads(p.value);
    } else {
      var x := v[|p.beforeValue|..];
      JsonPrefix.SplitPrefix(x, DocText(p.value), PairsRest(p));
      JsonPrefix.HeadOf(p.value);
      assert x[0] == DocText(p.value)[0] && x == [x[0]] + x[1..];
      SkipTo(p.beforeValue, x[0], x[1..]);
      if |x| < |DocText(p.value)| {
        LoadCut(p.value, x);
        var parsed := LoadValue(x);
        if parsed.Loaded? {
          LeftOverEnds(parsed.rest);
        }
      } else {
        var tail := x[|DocText(p.value)|..];
        assert x == DocText(p.value) + tail;
        LoadCutPairsRest(p, acc, tail);
      }
    }
  }

  lemma {:induction false} LoadCutPairsRest(p: Pairs, acc: seq<Member>, tail: Text)
    requires FormedPairs(p) && tail < PairsRest(p)
    ensures var n := |p.before| + 1 + |KeyText(p)| + |p.beforeValue| + |DocText(p.value)| + |tail|;
            LoadMember(acc, RfcValue(p.key), DocText(p.value) + tail) == if RefusedPairs(p, n) then Overlong else Malformed
    decreases p, 0
  {
    hide LoadValue, LoadMembersAfter, DocText, KeyText, SkipJson, Refused, Converts, Put, RfcValue, RfcDenote;
    JsonPrefix.HeadOf(p.value);
    JsonPrefix.PrefixDelimits(p.after, if p.OnePair? then [CLOSE_BRACE] else [COMMA] + PairsText(p.tail), tail);
    LoadDoc(p.value, tail);
    var members := Put(acc, RfcValue(p.key), RfcDenote(p.value));
    if |tail| <= |p.after| {
      BlankEnds(tail);
    } else {
      var next := tail[|p.after| + 1..];
      assert tail == p.after + ([COMMA] + next) && next < PairsText(p.tail) by {
        JsonPrefix.SplitPrefix(tail, p.after, [COMMA] + PairsText(p.tail));
        var t := tail[|p.after|..];
        assert t == [COMMA] + next && ([COMMA] + PairsText(p.tail))[1..] == PairsText(p.tail);
      }
      MembersGoOn(members, p.after, next);
      LoadCutPairs(p.tail, members, next);
    }
  }

  // ----- the theorems -----

  /** A complete text gives its standard value, unless an integer has too many digits. */
  lemma CompleteLoads(before: Text, d: Doc, after: Text)
    requires Blank(before) && Formed(d) && Blank(after)
    ensures Loads(before + DocText(d) + after) == if Converts(d) then Decoded(RfcDenote(d)) else ValueError
  {
    hide LoadValue, DocText, RfcDenote, Converts;
    assert before + DocText(d) + after == before + (DocText(d) + after);
    SkipToDoc(before, d, after);
    LoadDoc(d, after);
    BlankIsSkipped(after);
  }

  /** What has arrived of a text is refused, unless an integer of too many digits is met first; what
      has arrived of a numeral may itself be a numeral. */
  lemma ArrivedLoads(before: Text, d: Doc, n: nat)
    requires Blank(before) && Formed(d) && n < |DocText(d)|
    ensures var r := Loads(before + DocText(d)[..n]);
            && (r.ValueError? <==> Refused(d, n))
            && (r.Decoded? ==> d.Number? && NumeralOk(d.numeral[..n]) && r.value == JNumber(d.numeral[..n]))
  {
    hide LoadValue, LoadNumber, Refused, NumeralOk, SkipJson;
    var p := DocText(d)[..n];
    LoadCut(d, p);
    SkipToPart(before, d, p);
    var r := LoadValue(p);
    if r.Loaded? {
      LeftOverEnds(r.rest);
      LoadedNumeral(d.numeral, p);
    }
  }

  lemma SkipToPart(w: Text, d: Doc, p: Text)
    requires Blank(w) && Formed(d) && p <= DocText(d)
    ensures SkipJson(w + p) == p
  {
    JsonPrefix.HeadOf(d);
    if p == [] {
      assert w + p == w;
      BlankIsSkipped(w);
    } else {
      assert p == [p[0]] + p[1..] && p[0] == DocText(d)[0];
      SkipTo(w, p[0], p[1..]);
    }
  }

  lemma LoadedNumeral(numeral: Text, p: Text)
    requires NumeralOk(numeral) && p < numeral && LoadValue(p).Loaded?
    ensures LoadValue(p).rest == [] ==> NumeralOk(p) && LoadValue(p).value == JNumber(p)
  {
    hide LoadValue;
    if p == [] {
      NothingLoads(Number(numeral));
    } else {
      LoadCutNumber(numeral, p);
      LongestRuns(AtStart, p);
    }
  }

  lemma {:induction false} LongestRuns(state: Numeral, s: Text)
    ensures Longest(state, s) == Some(|s|) ==> NumeralRun(state, s).Some? && Accepting(NumeralRun(state, s).value)
    decreases |s|
  {
    if s != [] && NumeralStep(state, s[0]).Some? {
      LongestRuns(NumeralStep(state, s[0]).value, s[1..]);
    }
  }
}
