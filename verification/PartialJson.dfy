/** The parser of JSON that is still streaming in. */
module PartialJson {
  import opened Prelude
  import opened CodePoints

  /** A number is kept as the numeral that `int` or `float` is applied to. */
  datatype Json =
    | JNull
    | JBool(b: bool)
    | JNumber(numeral: Text)
    | JString(s: Text)
    | JArray(items: seq<Json>)
    | JObject(members: seq<Member>)

  datatype Member = Member(key: Text, value: Json)

  const QUOTE: CodePoint := 0x22
  const PLUS: CodePoint := 0x2b
  const COMMA: CodePoint := 0x2c
  const MINUS: CodePoint := 0x2d
  const DOT: CodePoint := 0x2e
  const ZERO: CodePoint := 0x30
  const COLON: CodePoint := 0x3a
  const OPEN_BRACKET: CodePoint := 0x5b
  const BACKSLASH: CodePoint := 0x5c
  const CLOSE_BRACKET: CodePoint := 0x5d
  const LETTER_U: CodePoint := 0x75
  const OPEN_BRACE: CodePoint := 0x7b
  const CLOSE_BRACE: CodePoint := 0x7d
  const TRUE_WORD: Text := [0x74, 0x72, 0x75, 0x65]
  const FALSE_WORD: Text := [0x66, 0x61, 0x6c, 0x73, 0x65]
  const NULL_WORD: Text := [0x6e, 0x75, 0x6c, 0x6c]

  /** `int` refuses a numeral of more digits than this (`sys.get_int_max_str_digits`). */
  const MAX_INT_DIGITS := 4300

  // ----- what the parser computes, on the text from its cursor on -----

  function SkipSpace(s: Text): (r: Text)
    ensures |r| <= |s|
    ensures r != [] ==> !IsSpace(r[0])
  {
    if s != [] && IsSpace(s[0]) then SkipSpace(s[1..]) else s
  }

  /** `dict` assignment: a new key goes last, a known one keeps its place. */
  function Put(members: seq<Member>, key: Text, value: Json): seq<Member> {
    if members == [] then [Member(key, value)]
    else if members[0].key == key then [Member(key, value)] + members[1..]
    else [members[0]] + Put(members[1..], key, value)
  }

  lemma {:induction false} PutKnown(members: seq<Member>, key: Text, value: Json, i: nat)
    requires i < |members| && members[i].key == key && forall j :: 0 <= j < i ==> members[j].key != key
    ensures Put(members, key, value) == members[i := Member(key, value)]
  {
    if i > 0 {
      assert members[1..][i - 1] == members[i];
      PutKnown(members[1..], key, value, i - 1);
    }
  }

  datatype Quoted = Quoted(text: Text, complete: bool, rest: Text)

  function Unescape(e: CodePoint): CodePoint {
    if e == 0x62 then 0x08       // \b
    else if e == 0x66 then 0x0c  // \f
    else if e == 0x6e then 0x0a  // \n
    else if e == 0x72 then 0x0d  // \r
    else if e == 0x74 then 0x09  // \t
    else e
  }

  predicate FourHexDigits(s: Text) {
    |s| >= 4 && forall c :: c in s[..4] ==> IsHexDigit(c)
  }

  /** The inside of a string: `acc` is what was read so far. */
  function ParseString(acc: Text, s: Text): (q: Quoted)
    ensures |q.rest| <= |s|
    decreases |s|
  {
    if s == [] then Quoted(acc, false, [])
    else if s[0] == QUOTE then Quoted(acc, true, s[1..])
    else if s[0] != BACKSLASH then ParseString(acc + [s[0]], s[1..])
    else ParseEscape(acc, s[1..])
  }

  /** What follows a backslash. */
  function ParseEscape(acc: Text, s: Text): (q: Quoted)
    ensures |q.rest| <= |s|
    decreases |s|
  {
    if s == [] then Quoted(acc, false, [])
    else if s[0] != LETTER_U then ParseString(acc + [Unescape(s[0])], s[1..])
    else if FourHexDigits(s[1..]) then ParseString(acc + [HexValue(s[1..][..4])], s[1..][4..])
    else Quoted(acc, false, s[1..])
  }

  /** The states of the number pattern: an optional sign, a whole part without leading zeros, and
      perhaps a dot with digits and an exponent, both possibly cut short. */
  datatype Scan = AtSign | AtWhole | InZero | InWhole | InFraction | AtExponent | AtExponentDigits | InExponent

  function ScanStep(state: Scan, c: CodePoint): Option<Scan> {
    match state
    case AtSign => if c == MINUS then Some(AtWhole) else if c == ZERO then Some(InZero)
                   else if IsAsciiDigit(c) then Some(InWhole) else None
    case AtWhole => if c == ZERO then Some(InZero) else if IsAsciiDigit(c) then Some(InWhole) else None
    case InZero => if c == DOT then Some(InFraction) else if IsExponentLetter(c) then Some(AtExponent) else None
    case InWhole => if IsDigit(c) then Some(InWhole) else if c == DOT then Some(InFraction)
                    else if IsExponentLetter(c) then Some(AtExponent) else None
    case InFraction => if IsDigit(c) then Some(InFraction) else if IsExponentLetter(c) then Some(AtExponent) else None
    case AtExponent => if c == PLUS || c == MINUS then Some(AtExponentDigits)
                       else if IsDigit(c) then Some(InExponent) else None
    case AtExponentDigits => if IsDigit(c) then Some(InExponent) else None
    case InExponent => if IsDigit(c) then Some(InExponent) else None
  }

  predicate IsExponentLetter(c: CodePoint) {
    c == 0x65 || c == 0x45
  }

  /** How far the pattern matches, from a state. */
  function ScanLength(state: Scan, s: Text): (n: nat)
    ensures n <= |s|
    decreases |s|
  {
    if s == [] || ScanStep(state, s[0]).None? then 0
    else 1 + ScanLength(ScanStep(state, s[0]).value, s[1..])
  }

  /** `_NUMBER.match`: nothing matches unless the whole part has a digit. */
  function MatchNumber(s: Text): (n: nat)
    ensures n <= |s|
  {
    var n := ScanLength(AtSign, s);
    if n == 1 && s[0] == MINUS then 0 else n
  }

  predicate Dangling(c: CodePoint) {
    c == DOT || IsExponentLetter(c) || c == PLUS || c == MINUS
  }

  /** `rstrip(".eE+-")`. */
  function Trim(token: Text): (t: Text)
    ensures |t| <= |token| && t == token[..|t|]
  {
    if token != [] && Dangling(token[|token| - 1]) then Trim(token[..|token| - 1]) else token
  }

  predicate IsFloat(token: Text) {
    exists i :: 0 <= i < |token| && (token[i] == DOT || IsExponentLetter(token[i]))
  }

  predicate Convertible(token: Text) {
    IsFloat(token) || |token| - (if token != [] && token[0] == MINUS then 1 else 0) <= MAX_INT_DIGITS
  }

  datatype Parsed = Parsed(value: Option<Json>, rest: Text)

  function ParseNumber(s: Text): (r: Parsed)
    ensures |r.rest| <= |s|
    ensures r.value.Some? ==> |r.rest| < |s|
  {
    var n := MatchNumber(s);
    var token := Trim(s[..n]);
    if n == 0 || token == [] || token == [MINUS] then Parsed(None, s)
    else if Convertible(token) then Parsed(Some(JNumber(token)), s[n..])
    else Parsed(None, s[n..])
  }

  function ParseWord(s: Text): (r: Parsed)
    requires s != []
    ensures |r.rest| <= |s|
    ensures r.value.Some? ==> |r.rest| < |s|
  {
    if TRUE_WORD <= s then Parsed(Some(JBool(true)), s[4..])
    else if s <= TRUE_WORD then Parsed(None, [])
    else if FALSE_WORD <= s then Parsed(Some(JBool(false)), s[5..])
    else if s <= FALSE_WORD then Parsed(None, [])
    else if NULL_WORD <= s then Parsed(Some(JNull), s[4..])
    else if s <= NULL_WORD then Parsed(None, [])
    else Parsed(None, s)
  }

  /** The words in the order in which they are tried. */
  function Literal(k: nat): (Text, Json)
    requires k < 3
  {
    if k == 0 then (TRUE_WORD, JBool(true)) else if k == 1 then (FALSE_WORD, JBool(false)) else (NULL_WORD, JNull)
  }

  /** None of the first words begins the text, or is begun by it. */
  predicate NoneOf(s: Text, k: nat)
    requires k <= 3
  {
    forall j :: 0 <= j < k ==> !(Literal(j).0 <= s) && !(s <= Literal(j).0)
  }

  lemma WordAt(s: Text, k: nat)
    requires k < 3 && s != [] && NoneOf(s, k)
    ensures Literal(k).0 <= s ==> ParseWord(s) == Parsed(Some(Literal(k).1), s[|Literal(k).0|..])
    ensures !(Literal(k).0 <= s) && s <= Literal(k).0 ==> ParseWord(s) == Parsed(None, [])
  {
    assert Literal(0).0 == TRUE_WORD && Literal(1).0 == FALSE_WORD && Literal(2).0 == NULL_WORD;
  }

  lemma NoWord(s: Text)
    requires s != [] && NoneOf(s, 3)
    ensures ParseWord(s) == Parsed(None, s)
  {
    assert Literal(0).0 == TRUE_WORD && Literal(1).0 == FALSE_WORD && Literal(2).0 == NULL_WORD;
  }

  /** `parse_value`: nothing is the missing value. */
  function ParseValue(s: Text): (r: Parsed)
    ensures |r.rest| <= |s|
    ensures r.value.Some? ==> |r.rest| < |s|
    decreases |s|, 1
  {
    var t := SkipSpace(s);
    if t == [] then Parsed(None, t)
    else if t[0] == OPEN_BRACE then
      var (members, rest) := ParseMembers([], t[1..]);
      Parsed(Some(JObject(members)), rest)
    else if t[0] == OPEN_BRACKET then
      var (items, rest) := ParseItems([], t[1..]);
      Parsed(Some(JArray(items)), rest)
    else if t[0] == QUOTE then
      var q := ParseString([], t[1..]);
      Parsed(Some(JString(q.text)), q.rest)
    else if t[0] == MINUS || IsAsciiDigit(t[0]) then ParseNumber(t)
    else ParseWord(t)
  }

  /** The inside of an object: `acc` are the members read so far. */
  function ParseMembers(acc: seq<Member>, s: Text): (r: (seq<Member>, Text))
    ensures |r.1| <= |s|
    decreases |s|, 1
  {
    var t := SkipSpace(s);
    if t == [] then (acc, t)
    else if t[0] == CLOSE_BRACE then (acc, t[1..])
    else if t[0] != QUOTE then (acc, t)
    else
      var k := ParseKey(t[1..]);
      if k.complete then MembersAfterColon(acc, k.text, k.rest) else (acc, k.rest)
  }

  /** A key, its closing quote and the colon after it. */
  function ParseKey(s: Text): (k: Quoted)
    ensures |k.rest| <= |s|
  {
    var q := ParseString([], s);
    var u := SkipSpace(q.rest);
    if !q.complete then q
    else if u == [] || u[0] != COLON then Quoted(q.text, false, u)
    else Quoted(q.text, true, u[1..])
  }

  /** When the value is missing, the cursor goes back to just after the colon. */
  function MembersAfterColon(acc: seq<Member>, key: Text, s: Text): (r: (seq<Member>, Text))
    ensures |r.1| <= |s|
    decreases |s|, 2
  {
    var v := ParseValue(s);
    if v.value.None? then (acc, s) else MembersAfter(Put(acc, key, v.value.value), v.rest)
  }

  /** What follows a member: the end of the object, or a comma and the next one. */
  function MembersAfter(members: seq<Member>, s: Text): (r: (seq<Member>, Text))
    ensures |r.1| <= |s|
    decreases |s|, 0
  {
    var w := SkipSpace(s);
    if w == [] then (members, w)
    else if w[0] == CLOSE_BRACE then (members, w[1..])
    else if w[0] != COMMA then (members, w)
    else ParseMembers(members, w[1..])
  }

  function ParseItems(acc: seq<Json>, s: Text): (r: (seq<Json>, Text))
    ensures |r.1| <= |s|
    decreases |s|, 2
  {
    var t := SkipSpace(s);
    if t == [] then (acc, t)
    else if t[0] == CLOSE_BRACKET then (acc, t[1..])
    else
      var v := ParseValue(t);
      if v.value.None? then (acc, v.rest) else ItemsAfter(acc + [v.value.value], v.rest)
  }

  /** What follows an element: the end of the array, or a comma and the next one. */
  function ItemsAfter(items: seq<Json>, s: Text): (r: (seq<Json>, Text))
    ensures |r.1| <= |s|
    decreases |s|, 0
  {
    var w := SkipSpace(s);
    if w == [] then (items, w)
    else if w[0] == CLOSE_BRACKET then (items, w[1..])
    else if w[0] != COMMA then (items, w)
    else ParseItems(items, w[1..])
  }

  // ----- the parser itself -----

  class PartialJsonParser {
    const raw: Text
    var index: nat

    constructor (raw: Text)
      ensures this.raw == raw && index == 0
    {
      this.raw, index := raw, 0;
    }

    ghost predicate Valid()
      reads this
    {
      index <= |raw|
    }

    ghost function Rest(): Text
      reads this
      requires Valid()
    {
      raw[index..]
    }

    method SkipWhitespace()
      requires Valid()
      modifies this`index
      ensures Valid() && Rest() == SkipSpace(old(Rest())) && index >= old(index)
    {
      while index < |raw| && IsSpace(raw[index])
        invariant old(index) <= index <= |raw|
        invariant SkipSpace(Rest()) == SkipSpace(old(Rest()))
      {
        assert raw[index..][1..] == raw[index + 1..];
        index := index + 1;
      }
    }

    /** Reads what follows a backslash; nothing if the escape is cut short or malformed. */
    method ReadEscape(ghost acc: Text) returns (c: Option<CodePoint>)
      requires Valid()
      modifies this`index
      ensures Valid() && index >= old(index) && (c.Some? ==> index > old(index))
      ensures c.Some? ==> ParseEscape(acc, old(Rest())) == ParseString(acc + [c.value], Rest())
      ensures c.None? ==> ParseEscape(acc, old(Rest())) == Quoted(acc, false, Rest())
    {
      hide HexValue, Unescape, ParseString;
      if index >= |raw| {
        return None;
      }
      var escaped := raw[index];
      assert Rest()[1..] == raw[index + 1..];
      index := index + 1;
      if escaped != LETTER_U {
        return Some(Unescape(escaped));
      }
      if !FourHexDigits(raw[index..]) {
        return None;
      }
      assert Rest()[4..] == raw[index + 4..];
      c := Some(HexValue(raw[index..][..4]));
      index := index + 4;
    }

    /** Reads a string, the cursor on its opening quote. */
    method ReadString() returns (text: Text, complete: bool)
      requires Valid() && index < |raw|
      modifies this`index
      ensures Valid() && index > old(index)
      ensures Quoted(text, complete, Rest()) == ParseString([], old(Rest())[1..])
    {
      hide ParseEscape;
      index := index + 1;
      text := [];
      assert old(Rest())[1..] == raw[index..];
      ghost var expected := ParseString([], raw[index..]);
      while index < |raw|
        invariant old(index) < index <= |raw|
        invariant ParseString(text, Rest()) == expected
      {
        var c := raw[index];
        assert Rest()[1..] == raw[index + 1..];
        index := index + 1;
        if c == QUOTE {
          return text, true;
        }
        if c != BACKSLASH {
          text := text + [c];
        } else {
          var escape := ReadEscape(text);
          if escape.None? {
            return text, false;
          }
          text := text + [escape.value];
        }
      }
      return text, false;
    }

    method ReadNumber() returns (value: Option<Json>)
      requires Valid()
      modifies this`index
      ensures Valid() && Parsed(value, Rest()) == ParseNumber(old(Rest()))
    {
      var end := index + MatchNumber(raw[index..]);
      if end == index {
        return None;
      }
      assert raw[index..][..end - index] == raw[index..end] && raw[index..][end - index..] == raw[end..];
      var token := Trim(raw[index..end]);
      if token == [] || token == [MINUS] {
        return None;
      }
      index := end;
      return if Convertible(token) then Some(JNumber(token)) else None;
    }

    method ReadWord() returns (value: Option<Json>)
      requires Valid() && index < |raw|
      modifies this`index
      ensures Valid() && Parsed(value, Rest()) == ParseWord(old(Rest()))
    {
      hide ParseWord;
      ghost var before := Rest();
      for k := 0 to 3
        invariant index == old(index) && NoneOf(before, k)
      {
        var remainder := raw[index..];
        WordAt(before, k);
        var literal := Literal(k);
        if literal.0 <= remainder {
          assert remainder[|literal.0|..] == raw[index + |literal.0|..];
          index := index + |literal.0|;
          return Some(literal.1);
        }
        if remainder <= literal.0 {
          index := |raw|;
          assert Rest() == [];
          return None;
        }
      }
      NoWord(before);
      return None;
    }

    method ReadValue() returns (value: Option<Json>)
      requires Valid()
      modifies this`index
      ensures Valid() && Parsed(value, Rest()) == ParseValue(old(Rest()))
      decreases |raw| - index, 1
    {
      SkipWhitespace();
      if index >= |raw| {
        return None;
      }
      var c := raw[index];
      if c == OPEN_BRACE {
        var members := ReadObject();
        return Some(JObject(members));
      }
      if c == OPEN_BRACKET {
        var items := ReadArray();
        return Some(JArray(items));
      }
      if c == QUOTE {
        var text, complete := ReadString();
        return Some(JString(text));
      }
      if c == MINUS || IsAsciiDigit(c) {
        value := ReadNumber();
      } else {
        value := ReadWord();
      }
    }

    /** Reads a key and its colon, the cursor on the opening quote. */
    method ReadKey() returns (key: Text, found: bool)
      requires Valid() && index < |raw|
      modifies this`index
      ensures Valid() && index > old(index) && Quoted(key, found, Rest()) == ParseKey(old(Rest())[1..])
    {
      hide ParseString, SkipSpace, IsSpace;
      var complete;
      key, complete := ReadString();
      if !complete {
        return key, false;
      }
      SkipWhitespace();
      if index >= |raw| || raw[index] != COLON {
        return key, false;
      }
      assert Rest()[1..] == raw[index + 1..];
      index := index + 1;
      return key, true;
    }

    /** Reads an object, the cursor on its opening brace. */
    method ReadObject() returns (result: seq<Member>)
      requires Valid() && index < |raw|
      modifies this`index
      ensures Valid() && (result, Rest()) == ParseMembers([], old(Rest())[1..])
      decreases |raw| - index, 0
    {
      hide ParseValue, ParseItems, ParseString, ParseKey, SkipSpace, Put, IsSpace;
      result := [];
      assert old(Rest())[1..] == raw[index + 1..];
      index := index + 1;
      ghost var expected := ParseMembers([], raw[index..]);
      while true
        invariant old(index) < index <= |raw|
        invariant ParseMembers(result, Rest()) == expected
        decreases |raw| - index
      {
        SkipWhitespace();
        if index >= |raw| || raw[index] == CLOSE_BRACE {
          if index < |raw| {
            assert Rest()[1..] == raw[index + 1..];
            index := index + 1;
          }
          return;
        }
        if raw[index] != QUOTE {
          return;
        }
        var key, found := ReadKey();
        if !found {
          return;
        }
        assert expected == MembersAfterColon(result, key, Rest());
        var goesOn;
        result, goesOn := ReadMember(result, key);
        if !goesOn {
          return;
        }
      }
    }

    /** The value of a member, and the end of the object or the comma after it. */
    method ReadMember(before: seq<Member>, key: Text) returns (result: seq<Member>, goesOn: bool)
      requires Valid()
      modifies this`index
      ensures Valid() && index >= old(index) && (goesOn ==> index > old(index))
      ensures MembersAfterColon(before, key, old(Rest())) == if goesOn then ParseMembers(result, Rest()) else (result, Rest())
      decreases |raw| - index, 2
    {
      hide ParseValue, ParseMembers, SkipSpace, Put;
      var beforeValue := index;
      var value := ReadValue();
      if value.None? {
        index := beforeValue;
        return before, false;
      }
      result := Put(before, key, value.value);
      ghost var rest := Rest();
      SkipWhitespace();
      if index >= |raw| {
        return result, false;
      }
      assert Rest()[1..] == raw[index + 1..];
      if raw[index] == CLOSE_BRACE {
        index := index + 1;
        return result, false;
      }
      if raw[index] != COMMA {
        return result, false;
      }
      index := index + 1;
      return result, true;
    }

    /** Reads an array, the cursor on its opening bracket. */
    method ReadArray() returns (result: seq<Json>)
      requires Valid() && index < |raw|
      modifies this`index
      ensures Valid() && (result, Rest()) == ParseItems([], old(Rest())[1..])
      decreases |raw| - index, 0
    {
      hide ParseValue, ParseMembers, ParseString, ParseEscape, SkipSpace, IsSpace;
      result := [];
      assert old(Rest())[1..] == raw[index + 1..];
      index := index + 1;
      ghost var expected := ParseItems([], raw[index..]);
      while true
        invariant old(index) < index <= |raw|
        invariant ParseItems(result, Rest()) == expected
        decreases |raw| - index
      {
        SkipWhitespace();
        if index >= |raw| || raw[index] == CLOSE_BRACKET {
          if index < |raw| {
            assert Rest()[1..] == raw[index + 1..];
            index := index + 1;
          }
          return;
        }
        var value := ReadValue();
        if value.None? {
          return;
        }
        result := result + [value.value];
        assert expected == ItemsAfter(result, Rest());
        SkipWhitespace();
        if index >= |raw| {
          return;
        }
        assert Rest()[1..] == raw[index + 1..];
        if raw[index] == CLOSE_BRACKET {
          index := index + 1;
          return;
        }
        if raw[index] != COMMA {
          return;
        }
        index := index + 1;
      }
    }
  }
}
