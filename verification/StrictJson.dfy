/** `json.loads` on code points: the value of a text, a decoding error, or the plain `ValueError` that
    `int` raises on an integer of too many digits. */
module StrictJson {
  import opened Prelude
  import opened CodePoints
  import opened PartialJson
  import opened JsonText

  // ----- the decoder -----

  datatype Loading = Loaded(value: Json, rest: Text) | Malformed | Overlong

  datatype Chars = Chars(text: Text, rest: Text) | Unreadable

  const NAN_WORD: Text := [0x4e, 0x61, 0x4e]
  const INFINITY_WORD: Text := [0x49, 0x6e, 0x66, 0x69, 0x6e, 0x69, 0x74, 0x79]

  function SkipJson(s: Text): (r: Text)
    ensures |r| <= |s|
    ensures r != [] ==> !JsonSpace(r[0])
  {
    if s != [] && JsonSpace(s[0]) then SkipJson(s[1..]) else s
  }

  /** An escaped low surrogate. */
  predicate LowEscape(s: Text) {
    && |s| >= 6 && s[0] == BACKSLASH && s[1] == LETTER_U
    && FourHexDigits(s[2..]) && IsLowSurrogate(HexValue(s[2..][..4]))
  }

  /** The inside of a string and its closing quote: `acc` is what was read so far. */
  function LoadString(acc: Text, s: Text): (q: Chars)
    ensures q.Chars? ==> |q.rest| < |s|
    decreases |s|
  {
    if s == [] || s[0] < 0x20 then Unreadable
    else if s[0] == QUOTE then Chars(acc, s[1..])
    else if s[0] != BACKSLASH then LoadString(acc + [s[0]], s[1..])
    else if |s| == 1 then Unreadable
    else if s[1] != LETTER_U then
      if ShortEscape(s[1]) then LoadString(acc + [Unescape(s[1])], s[2..]) else Unreadable
    else if !FourHexDigits(s[2..]) then Unreadable
    else
      var c, t := HexValue(s[2..][..4]), s[2..][4..];
      if IsHighSurrogate(c) && LowEscape(t) then LoadString(acc + [Join(c, HexValue(t[2..][..4]))], t[2..][4..])
      else LoadString(acc + [c], t)
  }

  function LoadNumber(s: Text): (r: Loading)
    ensures r.Loaded? ==> |r.rest| < |s|
  {
    var n := Longest(AtStart, s);
    if n.None? || n.value == 0 then Malformed
    else if Convertible(s[..n.value]) then Loaded(JNumber(s[..n.value]), s[n.value..])
    else Overlong
  }

  function LoadWord(s: Text): (r: Loading)
    ensures r.Loaded? ==> |r.rest| < |s|
  {
    if NULL_WORD <= s then Loaded(JNull, s[4..])
    else if TRUE_WORD <= s then Loaded(JBool(true), s[4..])
    else if FALSE_WORD <= s then Loaded(JBool(false), s[5..])
    else if NAN_WORD <= s then Loaded(JNumber(NAN_WORD), s[3..])
    else if INFINITY_WORD <= s then Loaded(JNumber(INFINITY_WORD), s[8..])
    else if [MINUS] + INFINITY_WORD <= s then Loaded(JNumber([MINUS] + INFINITY_WORD), s[9..])
    else LoadNumber(s)
  }

  /** `scan_once`. */
  function LoadValue(s: Text): (r: Loading)
    ensures r.Loaded? ==> |r.rest| < |s|
    decreases |s|, 1
  {
    if s == [] then Malformed
    else if s[0] == QUOTE then
      var q := LoadString([], s[1..]);
      if q.Chars? then Loaded(JString(q.text), q.rest) else Malformed
    else if s[0] == OPEN_BRACE then
      var t := SkipJson(s[1..]);
      if t != [] && t[0] == CLOSE_BRACE then Loaded(JObject([]), t[1..]) else LoadMembers([], t)
    else if s[0] == OPEN_BRACKET then
      var t := SkipJson(s[1..]);
      if t != [] && t[0] == CLOSE_BRACKET then Loaded(JArray([]), t[1..]) else LoadItems([], t)
    else LoadWord(s)
  }

  /** A member and what follows it. */
  function LoadMembers(acc: seq<Member>, s: Text): (r: Loading)
    ensures r.Loaded? ==> |r.rest| <= |s|
    decreases |s|, 2
  {
    if s == [] || s[0] != QUOTE then Malformed
    else
      var k := LoadKey(s[1..]);
      if k.Unreadable? then Malformed
      else
        var v := LoadValue(k.rest);
        if v.Loaded? then LoadMembersAfter(Put(acc, k.text, v.value), v.rest) else v
  }

  /** A key, its closing quote, the colon after it, and the whitespace before the value. */
  function LoadKey(s: Text): (k: Chars)
    ensures k.Chars? ==> |k.rest| < |s|
  {
    var q := LoadString([], s);
    if q.Unreadable? then q
    else
      var u := SkipJson(q.rest);
      if u == [] || u[0] != COLON then Unreadable else Chars(q.text, SkipJson(u[1..]))
  }

  function LoadMembersAfter(members: seq<Member>, s: Text): (r: Loading)
    ensures r.Loaded? ==> |r.rest| <= |s|
    decreases |s|, 0
  {
    var w := SkipJson(s);
    if w == [] then Malformed
    else if w[0] == CLOSE_BRACE then Loaded(JObject(members), w[1..])
    else if w[0] != COMMA then Malformed
    else LoadMembers(members, SkipJson(w[1..]))
  }

  function LoadItems(acc: seq<Json>, s: Text): (r: Loading)
    ensures r.Loaded? ==> |r.rest| <= |s|
    decreases |s|, 2
  {
    var v := LoadValue(s);
    if v.Loaded? then LoadItemsAfter(acc + [v.value], v.rest) else v
  }

  function LoadItemsAfter(items: seq<Json>, s: Text): (r: Loading)
    ensures r.Loaded? ==> |r.rest| <= |s|
    decreases |s|, 0
  {
    var w := SkipJson(s);
    if w == [] then Malformed
    else if w[0] == CLOSE_BRACKET then Loaded(JArray(items), w[1..])
    else if w[0] != COMMA then Malformed
    else LoadItems(items, SkipJson(w[1..]))
  }

  datatype Strict = Decoded(value: Json) | DecodeError | ValueError

  /** `json.loads`. */
  function Loads(raw: Text): Strict {
    match LoadValue(SkipJson(raw))
    case Malformed => DecodeError
    case Overlong => ValueError
    case Loaded(value, rest) => if SkipJson(rest) == [] then Decoded(value) else DecodeError
  }
}
