/** `parse_streaming_json`: `json.loads` when it answers, and otherwise the streaming parser. */
module StreamingJson {
  import opened Prelude
  import opened CodePoints
  import opened PartialJson
  import opened JsonText
  import opened JsonPrefix
  import opened StrictJson
  import StrictText

  /** None is a `ValueError` that is not a decoding error; the source does not catch it. */
  function Streamed(raw: Text): Option<Json> {
    if SkipSpace(raw) == [] then Some(JObject([]))
    else
      match Loads(raw)
      case Decoded(value) => Some(value)
      case ValueError => None
      case DecodeError => Some(OrEmpty(ParseValue(raw).value))
  }

  function OrEmpty(value: Option<Json>): Json {
    if value.Some? then value.value else JObject([])
  }

  method ParseStreamingJson(raw: Text) returns (value: Option<Json>)
    ensures value == Streamed(raw)
  {
    hide ParseValue, Loads;
    if SkipSpace(raw) == [] {
      return Some(JObject([]));
    }
    match Loads(raw)
    case Decoded(decoded) => return Some(decoded);
    case ValueError => return None;
    case DecodeError =>
      var parser := new PartialJsonParser(raw);
      assert parser.Rest() == raw;
      var parsed := parser.ReadValue();
      return Some(OrEmpty(parsed));
  }

  /** A complete text gives its value under RFC 8259, surrogate pairs joined, unless it has an integer
      of too many digits: then the call raises. */
  lemma CompleteStreamed(before: Text, d: Doc, after: Text)
    requires Blank(before) && Formed(d) && Blank(after)
    ensures Streamed(before + DocText(d) + after) == if Converts(d) then Some(RfcDenote(d)) else None
  {
    hide Loads, ParseValue, DocText, RfcDenote, Converts, SkipSpace;
    StrictText.CompleteLoads(before, d, after);
    assert before + DocText(d) + after == before + (DocText(d) + after);
    HeadOf(d);
    NotBlank(before, d, DocText(d) + after);
  }

  lemma NotBlank(before: Text, d: Doc, s: Text)
    requires Blank(before) && Formed(d) && s != [] && DocText(d) != [] && s[0] == DocText(d)[0]
    ensures SkipSpace(before + s) != []
  {
    HeadOf(d);
    SkipBlank(before, s);
  }

  /** A text that is still arriving gives exactly what has arrived tells, an empty object for nothing,
      unless an integer of too many digits is in it: then the call raises. */
  lemma ArrivedStreamed(before: Text, d: Doc, n: nat)
    requires Blank(before) && Formed(d) && n < |DocText(d)|
    ensures Streamed(before + DocText(d)[..n]) 
            == if Refused(d, n) then None else if Cut(d, n).Some? then Cut(d, n) else Some(JObject([]))
    ensures !Refused(d, n) && DistinctKeys(d) && Cut(d, n).Some? ==> Approximates(Cut(d, n).value, Denote(d))
  {
    hide Loads, ParseValue, Refused, Cut, SkipSpace, Approximates, DistinctKeys, Denote, NumeralOk;
    var p := DocText(d)[..n];
    StrictText.ArrivedLoads(before, d, n);
    HeadOf(d);
    if !Refused(d, n) {
      ArrivedText(before, d, n);
    }
    if n == 0 {
      assert before + p == before;
      NoValue(before);
      SkipAllBlank(before);
      CutNothing(d);
      StrictText.NothingLoads(d);
    } else {
      NotBlank(before, d, p);
      if Loads(before + p).Decoded? {
        CutOfNumeral(d.numeral, n);
      }
    }
  }

  lemma CutOfNumeral(numeral: Text, n: nat)
    requires NumeralOk(numeral) && n < |numeral| && NumeralOk(numeral[..n]) && !Refused(Number(numeral), n)
    ensures Cut(Number(numeral), n) == Some(JNumber(numeral[..n]))
  {
    var p := numeral[..n];
    StrictText.LongestIsAll(AtStart, p, []);
    assert p + [] == p && p[..n] == p && p != [];
    EndsInDigit(AtStart, p);
  }

  /** An integer of 4301 digits raises, complete or not.  So does a float whose dot comes after as many
      digits, until the first digit after the dot has arrived. */
  lemma LongIntegerRaises()
    ensures Streamed(Ones(MAX_INT_DIGITS + 1)) == None
    ensures var float := Ones(MAX_INT_DIGITS + 1) + [DOT, 0x35];
            Streamed(float) == Some(JNumber(float)) && Streamed(float[..MAX_INT_DIGITS + 2]) == None
  {
    hide Streamed, Longest;
    var ones := Ones(MAX_INT_DIGITS + 1);
    var float := ones + [DOT, 0x35];
    OnesRun(MAX_INT_DIGITS + 1, []);
    OnesRun(MAX_INT_DIGITS + 1, [DOT, 0x35]);
    assert ones + [] == ones;
    CompleteStreamed([], Number(ones), []);
    assert [] + ones + [] == ones;
    assert float[MAX_INT_DIGITS + 1] == DOT;
    assert [DOT, 0x35][1..] == [0x35] && [0x35][1..] == [];
    CompleteStreamed([], Number(float), []);
    assert [] + float + [] == float;
    ArrivedStreamed([], Number(float), MAX_INT_DIGITS + 2);
    assert [] + float[..MAX_INT_DIGITS + 2] == float[..MAX_INT_DIGITS + 2] == ones + [DOT];
    OnesThenDot(MAX_INT_DIGITS + 1);
  }

  function Ones(n: nat): (s: Text)
    ensures |s| == n && forall i :: 0 <= i < n ==> s[i] == 0x31
  {
    seq(n, _ => 0x31)
  }

  lemma {:induction false} OnesRun(n: nat, rest: Text)
    ensures n > 0 ==> NumeralRun(AtStart, Ones(n) + rest) == NumeralRun(Whole, rest)
    ensures NumeralRun(Whole, Ones(n) + rest) == NumeralRun(Whole, rest)
  {
    if n == 0 {
      assert Ones(n) + rest == rest;
    } else {
      OnesRun(n - 1, rest);
      assert (Ones(n) + rest)[1..] == Ones(n - 1) + rest;
    }
  }

  lemma OnesThenDot(n: nat)
    requires n > MAX_INT_DIGITS
    ensures TooLong(Ones(n) + [DOT])
  {
    LongestOnes(n);
    assert (Ones(n) + [DOT])[..n] == Ones(n);
  }

  lemma {:induction false} LongestOnes(n: nat)
    ensures n > 0 ==> Longest(AtStart, Ones(n) + [DOT]) == Some(n)
    ensures Longest(Whole, Ones(n) + [DOT]) == Some(n)
  {
    if n == 0 {
      assert Ones(n) + [DOT] == [DOT] && [DOT][1..] == [];
    } else {
      LongestOnes(n - 1);
      assert (Ones(n) + [DOT])[1..] == Ones(n - 1) + [DOT];
    }
  }
}
