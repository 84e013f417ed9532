/** JSON texts as RFC 8259 defines them, with any whitespace and any choice of escapes, what they
    denote, and what is known of them when only their first code points have arrived. */
module JsonText {
  import opened Prelude
  import opened CodePoints
  import opened PartialJson

  // ----- the grammar of RFC 8259, sections 2 to 7 -----

  datatype Item = Plain(c: CodePoint) | Short(e: CodePoint) | Hex(h: Text)

  datatype WordKind = TrueWord | FalseWord | NullWord

  datatype Doc =
    | Word(kind: WordKind)
    | Number(numeral: Text)
    | Str(chars: seq<Item>)
    | EmptyArray(inner: Text)
    | Array(elems: Elems)
    | EmptyObject(inner: Text)
    | Object(pairs: Pairs)

  /** The elements of a non-empty array, each between its whitespace. */
  datatype Elems =
    | OneElem(before: Text, value: Doc, after: Text)
    | MoreElems(before: Text, value: Doc, after: Text, tail: Elems)

  /** The members of a non-empty object. */
  datatype Pairs =
    | OnePair(before: Text, key: seq<Item>, afterKey: Text, beforeValue: Text, value: Doc, after: Text)
    | MorePairs(before: Text, key: seq<Item>, afterKey: Text, beforeValue: Text, value: Doc, after: Text, tail: Pairs)

  predicate JsonSpace(c: CodePoint) {
    c == 0x20 || c == 0x09 || c == 0x0a || c == 0x0d
  }

  predicate Blank(s: Text) {
    forall i :: 0 <= i < |s| ==> JsonSpace(s[i])
  }

  predicate ShortEscape(e: CodePoint) {
    e == QUOTE || e == BACKSLASH || e == 0x2f || e == 0x62 || e == 0x66 || e == 0x6e || e == 0x72 || e == 0x74
  }

  /** Section 7: what the short escapes stand for. */
  function EscapedCharacter(e: CodePoint): CodePoint
    requires ShortEscape(e)
  {
    if e == 'n' as int then 0x0a
    else if e == 't' as int then 0x09
    else if e == 'r' as int then 0x0d
    else if e == 'f' as int then 0x0c
    else if e == 'b' as int then 0x08
    else e
  }

  lemma ShortRead(e: CodePoint)
    requires ShortEscape(e)
    ensures Unescape(e) == EscapedCharacter(e)
  {}

  predicate ItemOk(i: Item) {
    match i
    case Plain(c) => c >= 0x20 && c != QUOTE && c != BACKSLASH
    case Short(e) => ShortEscape(e)
    case Hex(h) => |h| == 4 && forall c :: c in h ==> IsHexDigit(c)
  }

  predicate ItemsOk(items: seq<Item>) {
    forall i :: 0 <= i < |items| ==> ItemOk(items[i])
  }

  /** Section 6: a minus, a whole part without leading zeros, a dot and at least one digit, an
      exponent letter, a sign and at least one digit; all but the whole part optional. */
  datatype Numeral = AtStart | AfterMinus | LoneZero | Whole | AfterDot | Fraction | AfterE | AfterESign | Exponent

  function NumeralStep(state: Numeral, c: CodePoint): Option<Numeral> {
    match state
    case AtStart => if c == MINUS then Some(AfterMinus) else if c == ZERO then Some(LoneZero)
                    else if IsAsciiDigit(c) then Some(Whole) else None
    case AfterMinus => if c == ZERO then Some(LoneZero) else if IsAsciiDigit(c) then Some(Whole) else None
    case LoneZero => if c == DOT then Some(AfterDot) else if IsExponentLetter(c) then Some(AfterE) else None
    case Whole => if IsAsciiDigit(c) then Some(Whole) else if c == DOT then Some(AfterDot)
                  else if IsExponentLetter(c) then Some(AfterE) else None
    case AfterDot => if IsAsciiDigit(c) then Some(Fraction) else None
    case Fraction => if IsAsciiDigit(c) then Some(Fraction) else if IsExponentLetter(c) then Some(AfterE) else None
    case AfterE => if c == PLUS || c == MINUS then Some(AfterESign) else if IsAsciiDigit(c) then Some(Exponent) else None
    case AfterESign => if IsAsciiDigit(c) then Some(Exponent) else None
    case Exponent => if IsAsciiDigit(c) then Some(Exponent) else None
  }

  function NumeralRun(state: Numeral, s: Text): Option<Numeral>
    decreases |s|
  {
    if s == [] then Some(state)
    else match NumeralStep(state, s[0])
         case None => None
         case Some(next) => NumeralRun(next, s[1..])
  }

  predicate Accepting(state: Numeral) {
    state == LoneZero || state == Whole || state == Fraction || state == Exponent
  }

  predicate NumeralOk(s: Text) {
    NumeralRun(AtStart, s).Some? && Accepting(NumeralRun(AtStart, s).value)
  }

  /** The longest beginning of a text that the grammar accepts as a numeral, from a state. */
  function Longest(state: Numeral, s: Text): (n: Option<nat>)
    ensures n.Some? ==> n.value <= |s|
    decreases |s|
  {
    var step := if s == [] then None else NumeralStep(state, s[0]);
    var further := if step.None? then None else Longest(step.value, s[1..]);
    if further.Some? then Some(further.value + 1) else if Accepting(state) then Some(0) else None
  }

  /** What has arrived of a numeral reads as an integer of more digits than `int` converts. */
  predicate TooLong(seen: Text) {
    var n := Longest(AtStart, seen);
    n.Some? && !Convertible(seen[..n.value])
  }

  /** The text follows the grammar. */
  predicate Formed(d: Doc) {
    match d
    case Word(_) => true
    case Number(numeral) => NumeralOk(numeral)
    case Str(chars) => ItemsOk(chars)
    case EmptyArray(inner) => Blank(inner)
    case Array(elems) => FormedElems(elems)
    case EmptyObject(inner) => Blank(inner)
    case Object(pairs) => FormedPairs(pairs)
  }

  predicate FormedElems(e: Elems) {
    Blank(e.before) && Formed(e.value) && Blank(e.after) && (e.MoreElems? ==> FormedElems(e.tail))
  }

  predicate FormedPairs(p: Pairs) {
    && Blank(p.before) && ItemsOk(p.key) && Blank(p.afterKey)
    && Blank(p.beforeValue) && Formed(p.value) && Blank(p.after)
    && (p.MorePairs? ==> FormedPairs(p.tail))
  }

  /** No integer has more digits than `int` converts. */
  predicate Converts(d: Doc) {
    match d
    case Number(numeral) => Convertible(numeral)
    case Array(elems) => ConvertsElems(elems)
    case Object(pairs) => ConvertsPairs(pairs)
    case _ => true
  }

  predicate ConvertsElems(e: Elems) {
    Converts(e.value) && (e.MoreElems? ==> ConvertsElems(e.tail))
  }

  predicate ConvertsPairs(p: Pairs) {
    Converts(p.value) && (p.MorePairs? ==> ConvertsPairs(p.tail))
  }

  predicate DocOk(d: Doc) {
    Formed(d) && Converts(d)
  }

  predicate ElemsOk(e: Elems) {
    FormedElems(e) && ConvertsElems(e)
  }

  predicate PairsOk(p: Pairs) {
    FormedPairs(p) && ConvertsPairs(p)
  }

  // ----- the text and the value of a document -----

  function WordText(kind: WordKind): Text {
    match kind case TrueWord => TRUE_WORD case FalseWord => FALSE_WORD case NullWord => NULL_WORD
  }

  function WordValue(kind: WordKind): Json {
    match kind case TrueWord => JBool(true) case FalseWord => JBool(false) case NullWord => JNull
  }

  function ItemText(i: Item): Text {
    match i
    case Plain(c) => [c]
    case Short(e) => [BACKSLASH, e]
    case Hex(h) => [BACKSLASH, LETTER_U] + h
  }

  /** The code point one item stands for; a `\u` escape stands for its own code unit. */
  function ItemValue(i: Item): CodePoint
    requires ItemOk(i)
  {
    match i
    case Plain(c) => c
    case Short(e) => EscapedCharacter(e)
    case Hex(h) => HexValue(h)
  }

  function ItemsText(items: seq<Item>): Text {
    if items == [] then [] else ItemText(items[0]) + ItemsText(items[1..])
  }

  function ItemsValue(items: seq<Item>): Text
    requires ItemsOk(items)
  {
    if items == [] then [] else [ItemValue(items[0])] + ItemsValue(items[1..])
  }

  function DocText(d: Doc): Text {
    match d
    case Word(kind) => WordText(kind)
    case Number(numeral) => numeral
    case Str(chars) => [QUOTE] + (ItemsText(chars) + [QUOTE])
    case EmptyArray(inner) => [OPEN_BRACKET] + (inner + [CLOSE_BRACKET])
    case Array(elems) => [OPEN_BRACKET] + ElemsText(elems)
    case EmptyObject(inner) => [OPEN_BRACE] + (inner + [CLOSE_BRACE])
    case Object(pairs) => [OPEN_BRACE] + PairsText(pairs)
  }

  function ElemsText(e: Elems): Text
    decreases e, 1
  {
    e.before + (DocText(e.value) + ElemsRest(e))
  }

  function ElemsRest(e: Elems): Text
    decreases e, 0
  {
    e.after + if e.OneElem? then [CLOSE_BRACKET] else [COMMA] + ElemsText(e.tail)
  }

  function KeyText(p: Pairs): Text {
    ItemsText(p.key) + [QUOTE] + (p.afterKey + [COLON])
  }

  function PairsText(p: Pairs): Text
    decreases p, 1
  {
    p.before + ([QUOTE] + (KeyText(p) + (p.beforeValue + (DocText(p.value) + PairsRest(p)))))
  }

  function PairsRest(p: Pairs): Text
    decreases p, 0
  {
    p.after + if p.OnePair? then [CLOSE_BRACE] else [COMMA] + PairsText(p.tail)
  }

  function Denote(d: Doc): Json
    requires Formed(d)
  {
    match d
    case Word(kind) => WordValue(kind)
    case Number(numeral) => JNumber(numeral)
    case Str(chars) => JString(ItemsValue(chars))
    case EmptyArray(_) => JArray([])
    case Array(elems) => JArray(DenoteElems(elems))
    case EmptyObject(_) => JObject([])
    case Object(pairs) => JObject(DenotePairs([], pairs))
  }

  function DenoteElems(e: Elems): seq<Json>
    requires FormedElems(e)
  {
    [Denote(e.value)] + if e.OneElem? then [] else DenoteElems(e.tail)
  }

  function DenotePairs(acc: seq<Member>, p: Pairs): seq<Member>
    requires FormedPairs(p)
    decreases p
  {
    var members := Put(acc, ItemsValue(p.key), Denote(p.value));
    if p.OnePair? then members else DenotePairs(members, p.tail)
  }

  /** Section 7: an escaped high surrogate and the escaped low surrogate after it are one character. */
  function RfcValue(items: seq<Item>): Text
    requires ItemsOk(items)
  {
    if items == [] then []
    else if StartsWithPair(items) then [Join(ItemValue(items[0]), ItemValue(items[1]))] + RfcValue(items[2..])
    else [ItemValue(items[0])] + RfcValue(items[1..])
  }

  function Join(high: CodePoint, low: CodePoint): CodePoint
    requires IsHighSurrogate(high) && IsLowSurrogate(low)
  {
    0x1_0000 + (high - 0xd800) * 0x400 + (low - 0xdc00)
  }

  predicate StartsWithPair(items: seq<Item>)
    requires ItemsOk(items)
  {
    && |items| >= 2 && items[0].Hex? && items[1].Hex?
    && IsHighSurrogate(ItemValue(items[0])) && IsLowSurrogate(ItemValue(items[1]))
  }

  /** The value of a text under RFC 8259; a name that comes again replaces the value. */
  function RfcDenote(d: Doc): Json
    requires Formed(d)
  {
    match d
    case Word(kind) => WordValue(kind)
    case Number(numeral) => JNumber(numeral)
    case Str(chars) => JString(RfcValue(chars))
    case EmptyArray(_) => JArray([])
    case Array(elems) => JArray(RfcElems(elems))
    case EmptyObject(_) => JObject([])
    case Object(pairs) => JObject(RfcPairs([], pairs))
  }

  function RfcElems(e: Elems): seq<Json>
    requires FormedElems(e)
  {
    [RfcDenote(e.value)] + if e.OneElem? then [] else RfcElems(e.tail)
  }

  function RfcPairs(acc: seq<Member>, p: Pairs): seq<Member>
    requires FormedPairs(p)
    decreases p
  {
    var members := Put(acc, RfcValue(p.key), RfcDenote(p.value));
    if p.OnePair? then members else RfcPairs(members, p.tail)
  }

  // ----- what the first n code points tell -----

  /** The characters whose text is complete. */
  function CutItems(items: seq<Item>, n: nat): Text
    requires ItemsOk(items)
  {
    if items == [] || n < |ItemText(items[0])| then []
    else [ItemValue(items[0])] + CutItems(items[1..], n - |ItemText(items[0])|)
  }

  /** The digits so far, without a dangling dot or exponent; nothing until there is a digit. */
  function CutNumeral(numeral: Text, n: nat): Option<Json>
    requires n <= |numeral|
  {
    var seen := numeral[..n];
    if seen == [] || seen == [MINUS] || !Convertible(Trim(seen)) then None else Some(JNumber(Trim(seen)))
  }

  /** What a document's first `n` code points tell of it: nothing of a word until it is complete,
      the beginning of a string or a number, the complete elements of an array and what is told of
      the next one, and likewise the members of an object. */
  function Cut(d: Doc, n: nat): Option<Json>
    requires Formed(d)
  {
    match d
    case Word(kind) => if n < |WordText(kind)| then None else Some(WordValue(kind))
    case Number(numeral) => if n < |numeral| then CutNumeral(numeral, n) else Some(JNumber(numeral))
    case Str(chars) => if n == 0 then None else Some(JString(CutItems(chars, n - 1)))
    case EmptyArray(_) => if n == 0 then None else Some(JArray([]))
    case Array(elems) => if n == 0 then None else Some(JArray(CutElems(elems, n - 1)))
    case EmptyObject(_) => if n == 0 then None else Some(JObject([]))
    case Object(pairs) => if n == 0 then None else Some(JObject(CutPairs([], pairs, n - 1)))
  }

  function CutElems(e: Elems, n: nat): seq<Json>
    requires FormedElems(e)
  {
    var start, end := |e.before|, |e.before| + |DocText(e.value)|;
    if n <= start then []
    else if n < end then Told(Cut(e.value, n - start))
    else [Denote(e.value)] + if e.MoreElems? && n > end + |e.after| then CutElems(e.tail, n - end - |e.after| - 1) else []
  }

  function Told(value: Option<Json>): seq<Json> {
    if value.None? then [] else [value.value]
  }

  function CutPairs(acc: seq<Member>, p: Pairs, n: nat): seq<Member>
    requires FormedPairs(p)
    decreases p
  {
    var start := |p.before| + 1 + |KeyText(p)| + |p.beforeValue|;
    var end := start + |DocText(p.value)|;
    if n <= start then acc
    else if n < end then
      var value := Cut(p.value, n - start);
      if value.None? then acc else Put(acc, ItemsValue(p.key), value.value)
    else
      var members := Put(acc, ItemsValue(p.key), Denote(p.value));
      if p.MorePairs? && n > end + |p.after| then CutPairs(members, p.tail, n - end - |p.after| - 1) else members
  }

  /** An integer that `int` refuses is among the first `n` code points. */
  predicate Refused(d: Doc, n: nat) {
    match d
    case Number(numeral) => if n < |numeral| then TooLong(numeral[..n]) else !Convertible(numeral)
    case Array(elems) => n > 0 && RefusedElems(elems, n - 1)
    case Object(pairs) => n > 0 && RefusedPairs(pairs, n - 1)
    case _ => false
  }

  predicate RefusedElems(e: Elems, n: nat) {
    var start, end := |e.before|, |e.before| + |DocText(e.value)|;
    n > start &&
    if n < end then Refused(e.value, n - start)
    else !Converts(e.value) || (e.MoreElems? && n > end + |e.after| && RefusedElems(e.tail, n - end - |e.after| - 1))
  }

  predicate RefusedPairs(p: Pairs, n: nat) {
    var start := |p.before| + 1 + |KeyText(p)| + |p.beforeValue|;
    var end := start + |DocText(p.value)|;
    n > start &&
    if n < end then Refused(p.value, n - start)
    else !Converts(p.value) || (p.MorePairs? && n > end + |p.after| && RefusedPairs(p.tail, n - end - |p.after| - 1))
  }
}
