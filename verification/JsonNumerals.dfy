/** Numerals of JSON as section 6 of RFC 8259 writes them down, part by part, and what of them is left when
    only a beginning has arrived. */
module JsonNumerals {
  import opened Prelude
  import opened CodePoints
  import opened PartialJson
  import opened JsonText
  import JsonPrefix
  import StrictText

  // ----- the parts of a numeral -----

  ghost predicate AllDigits(s: Text) {
    forall i :: 0 <= i < |s| ==> '0' as int <= s[i] <= '9' as int
  }

  /** A zero alone, or digits of which the first is not zero. */
  ghost predicate IsWhole(s: Text) {
    s != [] && AllDigits(s) && (s[0] == '0' as int ==> |s| == 1)
  }

  /** Nothing, or a dot and digits. */
  ghost predicate IsFraction(s: Text) {
    s == [] || (s[0] == '.' as int && |s| > 1 && AllDigits(s[1..]))
  }

  /** Nothing, or a letter, perhaps a sign, and digits. */
  ghost predicate IsExponent(s: Text) {
    s == [] || ((s[0] == 'e' as int || s[0] == 'E' as int) && (SignedDigits(s[1..]) || (|s| > 1 && AllDigits(s[1..]))))
  }

  ghost predicate SignedDigits(s: Text) {
    |s| > 1 && (s[0] == '+' as int || s[0] == '-' as int) && AllDigits(s[1..])
  }

  ghost predicate IsSign(s: Text) {
    s == [] || s == ['-' as int]
  }

  ghost predicate HasParts(s: Text, sign: Text, whole: Text, fraction: Text, exponent: Text) {
    && s == sign + (whole + (fraction + exponent))
    && IsSign(sign) && IsWhole(whole) && IsFraction(fraction) && IsExponent(exponent)
  }

  ghost predicate IsNumeral(s: Text) {
    exists sign, whole, fraction, exponent :: HasParts(s, sign, whole, fraction, exponent)
  }

  // ----- the automaton accepts what has these parts -----

  predicate Accepted(state: Numeral, s: Text) {
    NumeralRun(state, s).Some? && Accepting(NumeralRun(state, s).value)
  }

  lemma OneStep(state: Numeral, s: Text)
    ensures s == [] ==> (Accepted(state, s) <==> Accepting(state))
    ensures s != [] ==> (Accepted(state, s) <==> NumeralStep(state, s[0]).Some? && Accepted(NumeralStep(state, s[0]).value, s[1..]))
  {}

  lemma {:induction false} RunsOn(state: Numeral, s: Text, rest: Text)
    requires NumeralRun(state, s).Some?
    ensures NumeralRun(state, s + rest) == NumeralRun(NumeralRun(state, s).value, rest)
    decreases |s|
  {
    if s == [] {
      assert s + rest == rest;
    } else {
      assert (s + rest)[1..] == s[1..] + rest;
      RunsOn(NumeralStep(state, s[0]).value, s[1..], rest);
    }
  }

  lemma {:induction false} RunsThroughDigits(state: Numeral, s: Text)
    requires AllDigits(s) && (state == Whole || state == Fraction || state == Exponent)
    ensures NumeralRun(state, s) == Some(state)
    decreases |s|
  {
    if s != [] {
      RunsThroughDigits(state, s[1..]);
    }
  }

  lemma ExponentRuns(state: Numeral, s: Text)
    requires IsExponent(s) && (state == LoneZero || state == Whole || state == Fraction)
    ensures Accepted(state, s)
  {
    hide NumeralRun;
    OneStep(state, s);
    if s != [] {
      var t := s[1..];
      OneStep(AfterE, t);
      if SignedDigits(t) {
        OneStep(AfterESign, t[1..]);
        RunsThroughDigits(Exponent, t[1..][1..]);
      } else {
        RunsThroughDigits(Exponent, t[1..]);
      }
    }
  }

  lemma FractionRuns(state: Numeral, s: Text)
    requires IsFraction(s) && (state == LoneZero || state == Whole)
    ensures NumeralRun(state, s) == Some(if s == [] then state else Fraction)
  {
    if s != [] {
      RunsThroughDigits(Fraction, s[1..][1..]);
    }
  }

  lemma WholeRuns(state: Numeral, s: Text)
    requires IsWhole(s) && (state == AtStart || state == AfterMinus)
    ensures NumeralRun(state, s) == Some(if s[0] == ZERO then LoneZero else Whole)
  {
    if s[0] != ZERO {
      RunsThroughDigits(Whole, s[1..]);
    } else {
      assert s[1..] == [];
    }
  }

  lemma PartsRun(s: Text, sign: Text, whole: Text, fraction: Text, exponent: Text)
    requires HasParts(s, sign, whole, fraction, exponent)
    ensures NumeralOk(s)
  {
    hide NumeralStep;
    var start := if sign == [] then AtStart else AfterMinus;
    assert NumeralRun(AtStart, sign) == Some(start) by { SignRuns(sign); }
    RunsOn(AtStart, sign, whole + (fraction + exponent));
    WholeRuns(start, whole);
    var middle := NumeralRun(start, whole).value;
    RunsOn(start, whole, fraction + exponent);
    FractionRuns(middle, fraction);
    RunsOn(middle, fraction, exponent);
    ExponentRuns(NumeralRun(middle, fraction).value, exponent);
  }

  lemma SignRuns(sign: Text)
    requires IsSign(sign)
    ensures NumeralRun(AtStart, sign) == Some(if sign == [] then AtStart else AfterMinus)
  {
    if sign != [] {
      assert sign[1..] == [];
    }
  }

  // ----- and nothing else -----

  lemma {:induction false} DigitsOnly(s: Text)
    requires Accepted(Exponent, s)
    ensures AllDigits(s)
    decreases |s|
  {
    if s != [] {
      DigitsOnly(s[1..]);
      assert s == [s[0]] + s[1..];
    }
  }

  lemma AfterLetter(s: Text)
    requires s != [] && IsExponentLetter(s[0]) && Accepted(AfterE, s[1..])
    ensures IsExponent(s)
  {
    hide NumeralRun;
    var t := s[1..];
    OneStep(AfterE, t);
    if t[0] == PLUS || t[0] == MINUS {
      OneStep(AfterESign, t[1..]);
      DigitsOnly(t[1..][1..]);
      assert t[1..] == [t[1]] + t[1..][1..];
    } else {
      DigitsOnly(t[1..]);
      assert t == [t[0]] + t[1..];
    }
  }

  lemma {:induction false} SplitFraction(s: Text) returns (digits: Text, exponent: Text)
    requires Accepted(Fraction, s)
    ensures s == digits + exponent && AllDigits(digits) && IsExponent(exponent)
    decreases |s|
  {
    if s != [] && IsAsciiDigit(s[0]) {
      digits, exponent := SplitFraction(s[1..]);
      digits := [s[0]] + digits;
    } else {
      digits, exponent := [], s;
      if s != [] {
        AfterLetter(s);
      }
    }
  }

  /** What follows the whole part. */
  lemma SplitTail(state: Numeral, s: Text) returns (fraction: Text, exponent: Text)
    requires Accepted(state, s) && (state == LoneZero || state == Whole) && (s == [] || !IsAsciiDigit(s[0]))
    ensures s == fraction + exponent && IsFraction(fraction) && IsExponent(exponent)
  {
    hide NumeralRun;
    OneStep(state, s);
    if s == [] {
      fraction, exponent := [], [];
    } else if s[0] == DOT {
      var t := s[1..];
      OneStep(AfterDot, t);
      var digits: Text;
      digits, exponent := SplitFraction(t[1..]);
      fraction := [s[0], t[0]] + digits;
      assert fraction[1..] == [t[0]] + digits;
      assert s == [s[0]] + ([t[0]] + t[1..]);
    } else {
      fraction, exponent := [], s;
      AfterLetter(s);
    }
  }

  lemma {:induction false} SplitWhole(s: Text) returns (digits: Text, fraction: Text, exponent: Text)
    requires Accepted(Whole, s)
    ensures s == digits + (fraction + exponent) && AllDigits(digits) && IsFraction(fraction) && IsExponent(exponent)
    decreases |s|
  {
    if s != [] && IsAsciiDigit(s[0]) {
      digits, fraction, exponent := SplitWhole(s[1..]);
      digits := [s[0]] + digits;
    } else {
      digits := [];
      fraction, exponent := SplitTail(Whole, s);
    }
  }

  lemma SplitUnsigned(state: Numeral, s: Text) returns (whole: Text, fraction: Text, exponent: Text)
    requires Accepted(state, s) && (state == AfterMinus || (state == AtStart && (s == [] || s[0] != MINUS)))
    ensures s == whole + (fraction + exponent) && IsWhole(whole) && IsFraction(fraction) && IsExponent(exponent)
  {
    if s[0] == ZERO {
      whole := [ZERO];
      fraction, exponent := SplitTail(LoneZero, s[1..]);
    } else {
      whole, fraction, exponent := SplitWhole(s[1..]);
      whole := [s[0]] + whole;
    }
  }

  /** The grammar's numerals are the texts with these parts. */
  lemma NumeralsHaveParts(s: Text)
    ensures NumeralOk(s) <==> IsNumeral(s)
  {
    if NumeralOk(s) {
      if s != [] && s[0] == MINUS {
        var whole, fraction, exponent := SplitUnsigned(AfterMinus, s[1..]);
        assert HasParts(s, [MINUS], whole, fraction, exponent);
      } else {
        var whole, fraction, exponent := SplitUnsigned(AtStart, s);
        assert HasParts(s, [], whole, fraction, exponent);
      }
    }
    if IsNumeral(s) {
      var sign, whole, fraction, exponent :| HasParts(s, sign, whole, fraction, exponent);
      PartsRun(s, sign, whole, fraction, exponent);
    }
  }

  /** `int` refuses exactly the numerals that have more than 4300 digits and nothing after them. */
  lemma ConvertibleByDigits(s: Text, sign: Text, whole: Text, fraction: Text, exponent: Text)
    requires HasParts(s, sign, whole, fraction, exponent)
    ensures Convertible(s) <==> fraction != [] || exponent != [] || |whole| <= 4300
  {
    var n := |sign| + |whole|;
    if fraction != [] {
      assert s[n] == fraction[0];
    } else if exponent != [] {
      assert s[n] == exponent[0];
    } else {
      assert forall i :: |sign| <= i < |s| ==> s[i] == whole[i - |sign|];
      assert sign != [] ==> s[0] == sign[0];
    }
  }

  // ----- a numeral that is still arriving -----

  lemma {:induction false} TrimDrops(token: Text)
    ensures forall i :: |Trim(token)| <= i < |token| ==> Dangling(token[i])
    ensures Trim(token) != [] ==> !Dangling(Trim(token)[|Trim(token)| - 1])
  {
    if token != [] && Dangling(token[|token| - 1]) {
      TrimDrops(token[..|token| - 1]);
    }
  }

  lemma {:induction false} DigitLast(state: Numeral, s: Text)
    requires s != [] && NumeralRun(state, s).Some? && !Dangling(s[|s| - 1])
    ensures Accepted(state, s)
    decreases |s|
  {
    if |s| > 1 {
      DigitLast(NumeralStep(state, s[0]).value, s[1..]);
    } else {
      assert s[1..] == [];
    }
  }

  /** What is shown of a numeral is the longest numeral that has arrived; nothing if none has. */
  lemma ArrivedNumeral(numeral: Text, n: nat)
    requires NumeralOk(numeral) && n <= |numeral|
    ensures var m := |Trim(numeral[..n])|;
            && m <= n && Trim(numeral[..n]) == numeral[..m]
            && (m > 0 ==> NumeralOk(numeral[..m]))
            && (forall k :: m < k <= n ==> !NumeralOk(numeral[..k]))
  {
    var seen := numeral[..n];
    var m := |Trim(seen)|;
    assert seen[..m] == numeral[..m];
    TrimDrops(seen);
    if m > 0 {
      JsonPrefix.NumeralPrefix(AtStart, numeral, m);
      DigitLast(AtStart, numeral[..m]);
    }
    forall k | m < k <= n ensures !NumeralOk(numeral[..k]) {
      assert Dangling(seen[k - 1]) && seen[k - 1] == numeral[..k][k - 1];
      if NumeralOk(numeral[..k]) {
        JsonPrefix.EndsInDigit(AtStart, numeral[..k]);
      }
    }
  }

  // ----- what the number pattern of the streaming parser matches -----

  ghost predicate AnyDigits(s: Text) {
    forall i :: 0 <= i < |s| ==> IsDigit(s[i])
  }

  /** A zero, or digits of which the first is from 1 to 9. */
  ghost predicate MatchedWhole(s: Text) {
    s == ['0' as int] || (s != [] && '1' as int <= s[0] <= '9' as int && AnyDigits(s[1..]))
  }

  /** Nothing, or a dot and perhaps digits. */
  ghost predicate MatchedFraction(s: Text) {
    s == [] || (s[0] == '.' as int && AnyDigits(s[1..]))
  }

  /** Nothing, or a letter, perhaps a sign, and perhaps digits. */
  ghost predicate MatchedExponent(s: Text) {
    s == [] || ((s[0] == 'e' as int || s[0] == 'E' as int) && (AnyDigits(s[1..]) || MatchedSigned(s[1..])))
  }

  ghost predicate MatchedSigned(s: Text) {
    s != [] && (s[0] == '+' as int || s[0] == '-' as int) && AnyDigits(s[1..])
  }

  ghost predicate MatchedParts(s: Text, sign: Text, whole: Text, fraction: Text, exponent: Text) {
    && s == sign + (whole + (fraction + exponent))
    && IsSign(sign) && MatchedWhole(whole) && MatchedFraction(fraction) && MatchedExponent(exponent)
  }

  ghost predicate Matches(s: Text) {
    exists sign, whole, fraction, exponent :: MatchedParts(s, sign, whole, fraction, exponent)
  }

  function ScanRun(state: Scan, s: Text): Option<Scan>
    decreases |s|
  {
    if s == [] then Some(state)
    else match ScanStep(state, s[0])
         case None => None
         case Some(next) => ScanRun(next, s[1..])
  }

  /** The pattern is satisfied. */
  predicate Scanned(state: Scan, s: Text) {
    ScanRun(state, s).Some? && ScanRun(state, s).value != AtSign && ScanRun(state, s).value != AtWhole
  }

  lemma ScansOne(state: Scan, s: Text)
    ensures s == [] ==> (Scanned(state, s) <==> state != AtSign && state != AtWhole)
    ensures s != [] ==> (Scanned(state, s) <==> ScanStep(state, s[0]).Some? && Scanned(ScanStep(state, s[0]).value, s[1..]))
  {}

  lemma {:induction false} ScansOn(state: Scan, s: Text, rest: Text)
    requires ScanRun(state, s).Some?
    ensures ScanRun(state, s + rest) == ScanRun(ScanRun(state, s).value, rest)
    decreases |s|
  {
    if s == [] {
      assert s + rest == rest;
    } else {
      assert (s + rest)[1..] == s[1..] + rest;
      ScansOn(ScanStep(state, s[0]).value, s[1..], rest);
    }
  }

  lemma {:induction false} ScansDigits(state: Scan, s: Text)
    requires AnyDigits(s) && (state == InWhole || state == InFraction || state == InExponent)
    ensures ScanRun(state, s) == Some(state)
    decreases |s|
  {
    if s != [] {
      ScansDigits(state, s[1..]);
    }
  }

  lemma ExponentScans(state: Scan, s: Text)
    requires MatchedExponent(s) && (state == InZero || state == InWhole || state == InFraction)
    ensures Scanned(state, s)
  {
    hide ScanRun, IsDigit;
    ScansOne(state, s);
    if s != [] {
      var t := s[1..];
      NoDigit(s[0]);
      ScansOne(AtExponent, t);
      if t != [] {
        if MatchedSigned(t) {
          ScansOne(AtExponentDigits, t[1..]);
          if t[1..] != [] {
            ScansDigits(InExponent, t[1..][1..]);
          }
        } else {
          NoSign(t[0]);
          ScansDigits(InExponent, t[1..]);
        }
      }
    }
  }

  /** Signs, dots and letters are no digits. */
  lemma NoSign(c: CodePoint)
    requires IsDigit(c)
    ensures c != PLUS && c != MINUS && c != DOT && !IsExponentLetter(c)
  {}

  lemma NoDigit(c: CodePoint)
    requires c == DOT || IsExponentLetter(c)
    ensures !IsDigit(c)
  {}

  lemma PartsScan(s: Text, sign: Text, whole: Text, fraction: Text, exponent: Text)
    requires MatchedParts(s, sign, whole, fraction, exponent)
    ensures Scanned(AtSign, s)
  {
    hide IsDigit;
    var start := if sign == [] then AtSign else AtWhole;
    assert ScanRun(AtSign, sign) == Some(start) by {
      if sign != [] {
        assert sign[1..] == [];
      }
    }
    ScansOn(AtSign, sign, whole + (fraction + exponent));
    var middle := if whole == ['0' as int] then InZero else InWhole;
    assert ScanRun(start, whole) == Some(middle) by {
      if middle == InWhole {
        ScansDigits(InWhole, whole[1..]);
      } else {
        assert whole[1..] == [];
      }
    }
    ScansOn(start, whole, fraction + exponent);
    var last := if fraction == [] then middle else InFraction;
    assert ScanRun(middle, fraction) == Some(last) by {
      if fraction != [] {
        NoDigit(fraction[0]);
        ScansDigits(InFraction, fraction[1..]);
      }
    }
    ScansOn(middle, fraction, exponent);
    ExponentScans(last, exponent);
  }

  lemma {:induction false} ScannedDigits(s: Text)
    requires Scanned(InExponent, s)
    ensures AnyDigits(s)
    decreases |s|
  {
    hide IsDigit;
    if s != [] {
      ScannedDigits(s[1..]);
      assert s == [s[0]] + s[1..];
    }
  }

  lemma ScannedLetter(s: Text)
    requires s != [] && IsExponentLetter(s[0]) && Scanned(AtExponent, s[1..])
    ensures MatchedExponent(s)
  {
    hide ScanRun, IsDigit;
    var t := s[1..];
    ScansOne(AtExponent, t);
    if t != [] && (t[0] == PLUS || t[0] == MINUS) {
      ScansOne(AtExponentDigits, t[1..]);
      if t[1..] != [] {
        ScannedDigits(t[1..][1..]);
        assert t[1..] == [t[1]] + t[1..][1..];
      }
    } else if t != [] {
      ScannedDigits(t[1..]);
      assert t == [t[0]] + t[1..];
    }
  }

  lemma {:induction false} ScannedFraction(s: Text) returns (digits: Text, exponent: Text)
    requires Scanned(InFraction, s)
    ensures s == digits + exponent && AnyDigits(digits) && MatchedExponent(exponent)
    decreases |s|
  {
    hide IsDigit;
    if s != [] && IsDigit(s[0]) {
      NoSign(s[0]);
      digits, exponent := ScannedFraction(s[1..]);
      digits := [s[0]] + digits;
    } else {
      digits, exponent := [], s;
      if s != [] {
        ScannedLetter(s);
      }
    }
  }

  lemma ScannedTail(state: Scan, s: Text) returns (fraction: Text, exponent: Text)
    requires Scanned(state, s) && (state == InZero || state == InWhole) && (s == [] || !IsDigit(s[0]))
    ensures s == fraction + exponent && MatchedFraction(fraction) && MatchedExponent(exponent)
  {
    hide ScanRun, IsDigit;
    ScansOne(state, s);
    if s == [] {
      fraction, exponent := [], [];
    } else if s[0] == DOT {
      var digits: Text;
      digits, exponent := ScannedFraction(s[1..]);
      fraction := [s[0]] + digits;
      assert fraction[1..] == digits;
    } else {
      fraction, exponent := [], s;
      ScannedLetter(s);
    }
  }

  lemma {:induction false} ScannedWhole(s: Text) returns (digits: Text, fraction: Text, exponent: Text)
    requires Scanned(InWhole, s)
    ensures s == digits + (fraction + exponent) && AnyDigits(digits) && MatchedFraction(fraction) && MatchedExponent(exponent)
    decreases |s|
  {
    hide IsDigit;
    if s != [] && IsDigit(s[0]) {
      digits, fraction, exponent := ScannedWhole(s[1..]);
      digits := [s[0]] + digits;
    } else {
      digits := [];
      fraction, exponent := ScannedTail(InWhole, s);
    }
  }

  lemma ScannedUnsigned(state: Scan, s: Text) returns (whole: Text, fraction: Text, exponent: Text)
    requires Scanned(state, s) && (state == AtWhole || (state == AtSign && (s == [] || s[0] != MINUS)))
    ensures s == whole + (fraction + exponent) && MatchedWhole(whole) && MatchedFraction(fraction) && MatchedExponent(exponent)
  {
    if s[0] == ZERO {
      whole := [ZERO];
      ZeroThenNoDigit(s[1..]);
      fraction, exponent := ScannedTail(InZero, s[1..]);
    } else {
      whole, fraction, exponent := ScannedWhole(s[1..]);
      whole := [s[0]] + whole;
    }
  }

  lemma ZeroThenNoDigit(s: Text)
    requires Scanned(InZero, s)
    ensures s == [] || !IsDigit(s[0])
  {
    hide IsDigit;
    ScansOne(InZero, s);
    if s != [] {
      NoDigit(s[0]);
    }
  }

  lemma ScannedMatches(s: Text)
    ensures Scanned(AtSign, s) <==> Matches(s)
  {
    hide IsDigit;
    if Scanned(AtSign, s) {
      if s != [] && s[0] == MINUS {
        var whole, fraction, exponent := ScannedUnsigned(AtWhole, s[1..]);
        assert MatchedParts(s, [MINUS], whole, fraction, exponent);
      } else {
        var whole, fraction, exponent := ScannedUnsigned(AtSign, s);
        assert MatchedParts(s, [], whole, fraction, exponent);
      }
    }
    if Matches(s) {
      var sign, whole, fraction, exponent :| MatchedParts(s, sign, whole, fraction, exponent);
      PartsScan(s, sign, whole, fraction, exponent);
    }
  }

  lemma {:induction false} ScanStops(state: Scan, s: Text, k: nat)
    requires k <= |s|
    ensures ScanRun(state, s[..k]).Some? <==> k <= ScanLength(state, s)
    decreases |s|
  {
    hide ScanStep;
    if k > 0 {
      assert s[..k][1..] == s[1..][..k - 1];
      if ScanStep(state, s[0]).Some? {
        ScanStops(ScanStep(state, s[0]).value, s[1..], k - 1);
      }
    }
  }

  /** The streaming parser takes for a number the longest beginning of the text that the pattern matches. */
  lemma LongestMatch(s: Text)
    ensures MatchNumber(s) > 0 ==> Matches(s[..MatchNumber(s)])
    ensures forall k :: MatchNumber(s) < k <= |s| ==> !Matches(s[..k])
  {
    var n := ScanLength(AtSign, s);
    if n > 0 {
      ScanStops(AtSign, s, n);
      Satisfied(s[..n]);
      ScannedMatches(s[..n]);
    }
    forall k | MatchNumber(s) < k <= |s| ensures !Matches(s[..k]) {
      ScanStops(AtSign, s, k);
      if k <= n {
        assert s[..k] == [MINUS] && [MINUS][1..] == [];
      }
      ScannedMatches(s[..k]);
    }
  }

  lemma Satisfied(s: Text)
    requires ScanRun(AtSign, s).Some? && s != []
    ensures Scanned(AtSign, s) <==> s != [MINUS]
  {
    var next := ScanStep(AtSign, s[0]).value;
    if s[1..] == [] {
      assert s == [s[0]];
    } else {
      StaysSatisfied(ScanStep(next, s[1]).value, s[1..][1..]);
    }
  }

  lemma {:induction false} StaysSatisfied(state: Scan, s: Text)
    requires ScanRun(state, s).Some? && state != AtSign && state != AtWhole
    ensures Scanned(state, s)
    decreases |s|
  {
    if s != [] {
      StaysSatisfied(ScanStep(state, s[0]).value, s[1..]);
    }
  }
}
