/** Output cut to a number of lines and of UTF-8 bytes. */
module Truncation {
  import opened Prelude
  import opened CodePoints
  import opened Splitting
  import opened Utf8

  const NEWLINE: CodePoint := 0x0a

  datatype Limit = Lines | Bytes

  datatype TruncationResult = TruncationResult(
    content: Text,
    truncated: bool,
    truncatedBy: Option<Limit>,
    totalLines: nat,
    totalBytes: nat,
    outputLines: nat,
    outputBytes: nat,
    lastLinePartial: bool,
    firstLineExceedsLimit: bool)

  // ----- lines -----

  ghost function FirstOf<T>(s: seq<T>, n: nat): seq<T> {
    if n <= |s| then s[..n] else s
  }

  ghost function LastOf<T>(s: seq<T>, n: nat): seq<T> {
    if n <= |s| then s[|s| - n..] else s
  }

  predicate EndsInNewline(content: Text) {
    content != [] && content[|content| - 1] == NEWLINE
  }

  /** `_split_lines_for_counting`. */
  function CountedLines(content: Text): seq<Text> {
    if content == [] then []
    else
      var lines := Split(NEWLINE, content);
      if EndsInNewline(content) then lines[..|lines| - 1] else lines
  }

  /** The content without one trailing newline. */
  ghost function Body(content: Text): Text {
    if EndsInNewline(content) then content[..|content| - 1] else content
  }

  /** Putting something before text of at least two lines leaves its last line alone. */
  lemma SplitKeepsLast(content: Text)
    requires content != [] && |Split(NEWLINE, content[1..])| >= 2
    ensures var lines, rest := Split(NEWLINE, content), Split(NEWLINE, content[1..]);
            |lines| >= |rest| && lines[|lines| - 1] == rest[|rest| - 1]
  {
    var rest := Split(NEWLINE, content[1..]);
    hide Split;
    SplitStep(NEWLINE, content);
  }

  lemma {:induction false} EmptyLastLine(content: Text)
    requires EndsInNewline(content)
    ensures |Split(NEWLINE, content)| >= 2 && Split(NEWLINE, content)[|Split(NEWLINE, content)| - 1] == []
  {
    if |content| == 1 {
      assert content[1..] == [];
    } else {
      hide Split;
      EmptyLastLine(content[1..]);
      SplitKeepsLast(content);
    }
  }

  lemma DropEmptyLine(lines: seq<Text>)
    requires |lines| >= 2 && lines[|lines| - 1] == []
    ensures Join(NEWLINE, lines) == Join(NEWLINE, lines[..|lines| - 1]) + [NEWLINE]
  {
    hide Join;
    var front := lines[..|lines| - 1];
    assert lines == front + [[]];
    JoinSnoc(NEWLINE, front, []);
    assert [NEWLINE] + [] == [NEWLINE];
  }

  /** Splitting into counted lines and joining them again loses one trailing newline, no more. */
  lemma JoinCounted(content: Text)
    ensures Join(NEWLINE, CountedLines(content)) == Body(content)
  {
    hide Split, Join;
    if content == [] {
      NoLines([]);
    } else {
      JoinSplit(NEWLINE, content);
      if EndsInNewline(content) {
        EmptyLastLine(content);
        DropEmptyLine(Split(NEWLINE, content));
      }
    }
  }

  /** The counted lines are the one list of whole lines that join to the content without one trailing newline;
      none of nothing. */
  lemma CountedLinesExactly(content: Text, lines: seq<Text>)
    ensures lines == CountedLines(content) <==>
      if content == [] then lines == []
      else
        && lines != [] && (forall line :: line in lines ==> '\n' as int !in line)
        && Join('\n' as int, lines) == if content[|content| - 1] == '\n' as int then content[..|content| - 1] else content
  {
    hide Split, Join;
    if content != [] {
      JoinCounted(content);
      SomeLines(content);
      PiecesAreWhole(NEWLINE, content);
      assert forall line :: line in CountedLines(content) ==> line in Split(NEWLINE, content);
      if lines != [] && (forall line :: line in lines ==> NEWLINE !in line) && Join(NEWLINE, lines) == Body(content) {
        SplitJoin(NEWLINE, lines);
        SplitJoin(NEWLINE, CountedLines(content));
      }
    }
  }

  lemma {:induction false} Utf8Append(a: Text, b: Text)
    ensures ByteCount(a + b) == ByteCount(a) + ByteCount(b)
  {
    if a == [] {
      assert a + b == b;
    } else {
      assert (a + b)[1..] == a[1..] + b;
      Utf8Append(a[1..], b);
    }
  }

  lemma NewlineBytes(s: Text)
    ensures ByteCount([NEWLINE] + s) == 1 + ByteCount(s)
  {
    assert ([NEWLINE] + s)[1..] == s;
  }

  /** A line more at the end of an output costs its own bytes, and a newline's unless it is first. */
  lemma BytesSnoc(lines: seq<Text>, line: Text)
    ensures ByteCount(Join(NEWLINE, lines + [line])) == ByteCount(Join(NEWLINE, lines)) + ByteCount(line) + if lines == [] then 0 else 1
  {
    JoinSnoc(NEWLINE, lines, line);
    if lines != [] {
      Utf8Append(Join(NEWLINE, lines), [NEWLINE] + line);
      NewlineBytes(line);
    }
  }

  lemma BytesCons(line: Text, lines: seq<Text>)
    ensures ByteCount(Join(NEWLINE, [line] + lines)) == ByteCount(Join(NEWLINE, lines)) + ByteCount(line) + if lines == [] then 0 else 1
  {
    assert ([line] + lines)[1..] == lines;
    if lines != [] {
      Utf8Append(line, [NEWLINE] + Join(NEWLINE, lines));
      NewlineBytes(Join(NEWLINE, lines));
    }
  }

  ghost function HeadBytes(lines: seq<Text>, n: nat): nat {
    ByteCount(Join(NEWLINE, FirstOf(lines, n)))
  }

  ghost function TailBytes(lines: seq<Text>, n: nat): nat {
    ByteCount(Join(NEWLINE, LastOf(lines, n)))
  }

  lemma NoLines(lines: seq<Text>)
    ensures HeadBytes(lines, 0) == TailBytes(lines, 0) == 0
    ensures Join(NEWLINE, []) == [] && ByteCount([]) == 0 && LastOf(lines, 0) == []
  {
    assert lines[..0] == [] && lines[|lines|..] == [];
  }

  lemma LastLine(lines: seq<Text>)
    requires lines != []
    ensures Join(NEWLINE, LastOf(lines, 1)) == lines[|lines| - 1]
  {
    assert lines[|lines| - 1..] == [lines[|lines| - 1]];
  }

  lemma Rendered(lines: seq<Text>, n: nat)
    ensures HeadBytes(lines, n) == ByteCount(Join(NEWLINE, FirstOf(lines, n)))
    ensures TailBytes(lines, n) == ByteCount(Join(NEWLINE, LastOf(lines, n)))
  {}

  lemma HeadStep(lines: seq<Text>, n: nat)
    requires n < |lines|
    ensures FirstOf(lines, n + 1) == FirstOf(lines, n) + [lines[n]]
    ensures HeadBytes(lines, n + 1) == HeadBytes(lines, n) + ByteCount(lines[n]) + if n > 0 then 1 else 0
  {
    BytesSnoc(lines[..n], lines[n]);
    assert lines[..n + 1] == lines[..n] + [lines[n]];
  }

  lemma TailStep(lines: seq<Text>, n: nat)
    requires n < |lines|
    ensures LastOf(lines, n + 1) == [lines[|lines| - 1 - n]] + LastOf(lines, n)
    ensures TailBytes(lines, n + 1) == TailBytes(lines, n) + ByteCount(lines[|lines| - 1 - n]) + if n > 0 then 1 else 0
  {
    var i := |lines| - 1 - n;
    BytesCons(lines[i], lines[i + 1..]);
    assert lines[i..] == [lines[i]] + lines[i + 1..];
  }

  lemma {:induction false} MoreLinesMoreBytes(lines: seq<Text>, m: nat, n: nat)
    requires m <= n <= |lines|
    ensures HeadBytes(lines, m) <= HeadBytes(lines, n)
    ensures TailBytes(lines, m) <= TailBytes(lines, n)
    decreases n - m
  {
    hide HeadBytes, TailBytes;
    if m < n {
      MoreLinesMoreBytes(lines, m, n - 1);
      HeadStep(lines, n - 1);
      TailStep(lines, n - 1);
    }
  }

  lemma SomeLines(content: Text)
    requires content != []
    ensures CountedLines(content) != []
  {
    hide Split;
    if EndsInNewline(content) {
      EmptyLastLine(content);
    }
  }

  /** All lines together are the body of the content. */
  lemma AllLines(content: Text)
    ensures HeadBytes(CountedLines(content), |CountedLines(content)|) == ByteCount(Body(content))
    ensures TailBytes(CountedLines(content), |CountedLines(content)|) == ByteCount(Body(content))
    ensures ByteCount(content) == ByteCount(Body(content)) + if EndsInNewline(content) then 1 else 0
  {
    hide CountedLines, Join, ByteCount, Utf8Length;
    var lines := CountedLines(content);
    JoinCounted(content);
    assert lines[..|lines|] == lines[|lines| - |lines|..] == lines;
    if EndsInNewline(content) {
      assert content == Body(content) + [NEWLINE];
      Utf8Append(Body(content), [NEWLINE]);
      NewlineBytes([]);
      assert [NEWLINE] + [] == [NEWLINE];
      NoLines(lines);
    }
  }

  // ----- head -----

  /** The first `k` lines fit both limits, and no more of them do. */
  ghost predicate LongestHead(lines: seq<Text>, k: nat, maxLines: nat, maxBytes: nat) {
    && k <= |lines| && k <= maxLines && HeadBytes(lines, k) <= maxBytes
    && forall m: nat :: k < m <= |lines| && m <= maxLines ==> HeadBytes(lines, m) > maxBytes
  }

  lemma HeadStops(lines: seq<Text>, k: nat, maxLines: nat, maxBytes: nat)
    requires k <= |lines| && k <= maxLines && HeadBytes(lines, k) <= maxBytes
    requires k == |lines| || k == maxLines || HeadBytes(lines, k + 1) > maxBytes
    ensures LongestHead(lines, k, maxLines, maxBytes)
  {
    hide HeadBytes, TailBytes;
    forall m: nat | k < m <= |lines| && m <= maxLines ensures HeadBytes(lines, m) > maxBytes {
      MoreLinesMoreBytes(lines, k + 1, m);
    }
  }

  /** What a result says of content left as it is. */
  ghost predicate Unchanged(r: TruncationResult, content: Text) {
    && r.content == content && !r.truncated && r.truncatedBy == None
    && r.outputLines == r.totalLines && r.outputBytes == r.totalBytes && !r.lastLinePartial && !r.firstLineExceedsLimit
  }

  ghost predicate Totals(r: TruncationResult, content: Text, maxLines: nat, maxBytes: nat) {
    && r.totalLines == |CountedLines(content)| && r.totalBytes == ByteCount(content)
    && (r.truncated <==> r.totalLines > maxLines || r.totalBytes > maxBytes)
    && (!r.truncated ==> Unchanged(r, content))
  }

  /** A truncated head is the longest run of whole lines from the start within both limits.  It is
      put down to bytes when a line failed to fit while there was room for more lines. */
  ghost predicate HeadCut(r: TruncationResult, lines: seq<Text>, maxLines: nat, maxBytes: nat) {
    && r.content == Join(NEWLINE, FirstOf(lines, r.outputLines)) && LongestHead(lines, r.outputLines, maxLines, maxBytes)
    && r.outputBytes == HeadBytes(lines, r.outputLines) && !r.lastLinePartial
    && (r.firstLineExceedsLimit <==> lines != [] && ByteCount(lines[0]) > maxBytes)
    && r.truncatedBy == Some(if r.firstLineExceedsLimit || (r.outputLines < maxLines && r.outputLines < |lines|) then Bytes else Lines)
  }

  lemma FirstLineBytes(lines: seq<Text>)
    requires lines != []
    ensures HeadBytes(lines, 1) == ByteCount(lines[0])
    ensures TailBytes(lines, 1) == ByteCount(lines[|lines| - 1])
  {
    assert lines[..1] == [lines[0]];
    LastLine(lines);
  }

  /** The loop of `truncate_head`. */
  method TakeLines(lines: seq<Text>, maxLines: nat, maxBytes: nat) returns (output: seq<Text>, truncatedBy: Limit)
    ensures output == FirstOf(lines, |output|) && LongestHead(lines, |output|, maxLines, maxBytes)
    ensures truncatedBy == if |output| < maxLines && |output| < |lines| then Bytes else Lines
  {
    hide HeadBytes, TailBytes, Join, ByteCount, Utf8Length, LongestHead;
    var outputBytes := 0;
    output, truncatedBy := [], Lines;
    NoLines(lines);
    var limit := if maxLines < |lines| then maxLines else |lines|;
    for index := 0 to limit
      invariant |output| == index && output == FirstOf(lines, index) && outputBytes == HeadBytes(lines, index) <= maxBytes
      invariant truncatedBy == Lines
    {
      HeadStep(lines, index);
      var lineBytes := Utf8Length(lines[index]) + if index > 0 then 1 else 0;
      if outputBytes + lineBytes > maxBytes {
        truncatedBy := Bytes;
        break;
      }
      output := output + [lines[index]];
      outputBytes := outputBytes + lineBytes;
    }
    if |output| >= maxLines && outputBytes <= maxBytes {
      truncatedBy := Lines;
    }
    HeadStops(lines, |output|, maxLines, maxBytes);
  }

  /** `truncate_head`; negative limits raise.  Whole lines from the start, as many as fit. */
  method TruncateHead(content: Text, maxLines: int, maxBytes: int) returns (result: Option<TruncationResult>)
    ensures result.None? <==> maxLines < 0 || maxBytes < 0
    ensures result.Some? ==> Totals(result.value, content, maxLines, maxBytes)
    ensures result.Some? && result.value.truncated ==> HeadCut(result.value, CountedLines(content), maxLines, maxBytes)
  {
    hide HeadBytes, TailBytes, Join, ByteCount, Utf8Length, LongestHead, CountedLines;
    if maxLines < 0 || maxBytes < 0 {
      return None;
    }
    var totalBytes := Utf8Length(content);
    var lines := CountedLines(content);
    var totalLines := |lines|;
    if totalLines <= maxLines && totalBytes <= maxBytes {
      return Some(TruncationResult(content, false, None, totalLines, totalBytes, totalLines, totalBytes, false, false));
    }
    NoLines(lines);
    var firstLine := if lines != [] then lines[0] else [];
    if Utf8Length(firstLine) > maxBytes {
      FirstLineBytes(lines);
      HeadStops(lines, 0, maxLines, maxBytes);
      return Some(TruncationResult([], true, Some(Bytes), totalLines, totalBytes, 0, 0, false, true));
    }
    var output, truncatedBy := TakeLines(lines, maxLines, maxBytes);
    var rendered := Join(NEWLINE, output);
    Rendered(lines, |output|);
    return Some(TruncationResult(rendered, true, Some(truncatedBy), totalLines, totalBytes, |output|, Utf8Length(rendered), false, false));
  }

  /** Whole lines from the start are a prefix of the content, and what follows begins a new line. */
  lemma HeadIsPrefix(content: Text, k: nat)
    requires k <= |CountedLines(content)|
    ensures var head := Join(NEWLINE, FirstOf(CountedLines(content), k));
            head <= content && (0 < k < |CountedLines(content)| ==> |head| < |content| && content[|head|] == NEWLINE)
  {
    hide Split, CountedLines;
    var lines := CountedLines(content);
    JoinCounted(content);
    if k == |lines| {
      assert lines[..k] == lines;
    } else if k > 0 {
      assert lines == lines[..k] + lines[k..];
      JoinAppend(NEWLINE, lines[..k], lines[k..]);
      assert Body(content) <= content;
    }
  }

  /** `truncated_by` is bytes only when the bytes are too many, but it is lines although the lines
      are few enough exactly when a final newline is the one byte over the limit. */
  lemma HeadCause(r: TruncationResult, content: Text, maxLines: nat, maxBytes: nat)
    requires Totals(r, content, maxLines, maxBytes) && r.truncated
    requires HeadCut(r, CountedLines(content), maxLines, maxBytes)
    ensures r.truncatedBy == Some(Bytes) ==> r.totalBytes > maxBytes
    ensures r.truncatedBy == Some(Lines) && r.totalLines <= maxLines
            <==> r.totalLines <= maxLines && EndsInNewline(content) && r.totalBytes == maxBytes + 1
  {
    hide HeadBytes, TailBytes, Join, ByteCount, Utf8Length, CountedLines, Body, EndsInNewline;
    var lines := CountedLines(content);
    AllLines(content);
    if content != [] {
      SomeLines(content);
    }
    if lines != [] {
      FirstLineBytes(lines);
      MoreLinesMoreBytes(lines, 1, |lines|);
    }
    if r.outputLines < |lines| {
      MoreLinesMoreBytes(lines, r.outputLines + 1, |lines|);
    }
  }

  // ----- tail -----

  ghost predicate LongestTail(lines: seq<Text>, k: nat, maxLines: nat, maxBytes: nat) {
    && k <= |lines| && k <= maxLines && TailBytes(lines, k) <= maxBytes
    && forall m: nat :: k < m <= |lines| && m <= maxLines ==> TailBytes(lines, m) > maxBytes
  }

  lemma TailStops(lines: seq<Text>, k: nat, maxLines: nat, maxBytes: nat)
    requires k <= |lines| && k <= maxLines && TailBytes(lines, k) <= maxBytes
    requires k == |lines| || k == maxLines || TailBytes(lines, k + 1) > maxBytes
    ensures LongestTail(lines, k, maxLines, maxBytes)
  {
    hide HeadBytes, TailBytes;
    forall m: nat | k < m <= |lines| && m <= maxLines ensures TailBytes(lines, m) > maxBytes {
      MoreLinesMoreBytes(lines, k + 1, m);
    }
  }

  /** The longest suffix of whole code points that fits a number of bytes. */
  ghost predicate LongestSuffix(value: Text, suffix: Text, maxBytes: nat) {
    && |suffix| <= |value| && suffix == LastOf(value, |suffix|) && ByteCount(suffix) <= maxBytes
    && forall n: nat :: |suffix| < n <= |value| ==> ByteCount(LastOf(value, n)) > maxBytes
  }

  lemma SuffixStep(value: Text, n: nat)
    requires n < |value|
    ensures LastOf(value, n + 1) == [value[|value| - 1 - n]] + LastOf(value, n)
    ensures ByteCount(LastOf(value, n + 1)) == |Encoded(value[|value| - 1 - n])| + ByteCount(LastOf(value, n))
  {
    assert LastOf(value, n + 1)[1..] == LastOf(value, n);
  }

  lemma {:induction false} LongerSuffix(value: Text, m: nat, n: nat)
    requires m <= n <= |value|
    ensures ByteCount(LastOf(value, m)) <= ByteCount(LastOf(value, n))
    decreases n - m
  {
    hide LastOf, ByteCount, Utf8Length;
    if m < n {
      LongerSuffix(value, m, n - 1);
      SuffixStep(value, n - 1);
    }
  }

  lemma SuffixStops(value: Text, k: nat, maxBytes: nat)
    requires k <= |value| && ByteCount(LastOf(value, k)) <= maxBytes
    requires k == |value| || ByteCount(LastOf(value, k + 1)) > maxBytes
    ensures LongestSuffix(value, LastOf(value, k), maxBytes)
  {
    forall n: nat | k < n <= |value| ensures ByteCount(LastOf(value, n)) > maxBytes {
      LongerSuffix(value, k + 1, n);
    }
  }

  /** `_truncate_utf8_suffix`. */
  method TruncateUtf8Suffix(value: Text, maxBytes: nat) returns (suffix: Text)
    ensures LongestSuffix(value, suffix, maxBytes)
  {
    hide ByteCount, Utf8Length, LongestSuffix;
    NoLines([value]);
    if maxBytes <= 0 {
      if value != [] {
        SuffixStep(value, 0);
      }
      SuffixStops(value, 0, maxBytes);
      return [];
    }
    suffix := [];
    var used, i := 0, |value|;
    while i > 0
      invariant 0 <= i <= |value| && |suffix| == |value| - i
      invariant suffix == LastOf(value, |suffix|) && used == ByteCount(suffix) <= maxBytes
      decreases i
    {
      SuffixStep(value, |suffix|);
      var size := Utf8Size(value[i - 1]);
      if used + size > maxBytes {
        break;
      }
      i := i - 1;
      suffix := [value[i]] + suffix;
      used := used + size;
    }
    SuffixStops(value, |suffix|, maxBytes);
  }

  /** A truncated tail is the longest run of whole lines from the end within both limits or, when
      not even the last line fits, the longest suffix of that line that does. */
  ghost predicate TailCut(r: TruncationResult, lines: seq<Text>, maxLines: nat, maxBytes: nat) {
    && r.outputBytes == ByteCount(r.content) <= maxBytes && !r.firstLineExceedsLimit
    && (r.lastLinePartial <==> maxLines > 0 && lines != [] && ByteCount(lines[|lines| - 1]) > maxBytes)
    && (if r.lastLinePartial then r.outputLines == 1 && LongestSuffix(lines[|lines| - 1], r.content, maxBytes)
        else r.content == Join(NEWLINE, LastOf(lines, r.outputLines)) && LongestTail(lines, r.outputLines, maxLines, maxBytes))
    && r.truncatedBy == Some(if r.outputLines < maxLines && (r.lastLinePartial || r.outputLines < |lines|) then Bytes else Lines)
  }

  /** The loop of `truncate_tail`. */
  method TakeLastLines(lines: seq<Text>, maxLines: nat, maxBytes: nat)
    returns (output: seq<Text>, truncatedBy: Limit, lastLinePartial: bool)
    ensures lastLinePartial <==> maxLines > 0 && lines != [] && ByteCount(lines[|lines| - 1]) > maxBytes
    ensures if lastLinePartial then |output| == 1 && LongestSuffix(lines[|lines| - 1], output[0], maxBytes)
            else output == LastOf(lines, |output|) && LongestTail(lines, |output|, maxLines, maxBytes)
    ensures truncatedBy == if |output| < maxLines && (lastLinePartial || |output| < |lines|) then Bytes else Lines
  {
    hide HeadBytes, TailBytes, Join, ByteCount, Utf8Length, LongestTail, LongestSuffix, LastOf;
    output, truncatedBy, lastLinePartial := [], Lines, false;
    var outputBytes, i := 0, |lines|;
    NoLines(lines);
    if lines != [] {
      FirstLineBytes(lines);
    }
    while i > 0
      invariant 0 <= i <= |lines| && |output| == |lines| - i <= maxLines && output == LastOf(lines, |output|)
      invariant outputBytes == TailBytes(lines, |output|) <= maxBytes
      invariant |output| >= 1 ==> ByteCount(lines[|lines| - 1]) <= maxBytes
      invariant truncatedBy == Lines && !lastLinePartial
      decreases i
    {
      if |output| >= maxLines {
        break;
      }
      var line := lines[i - 1];
      TailStep(lines, |output|);
      var lineBytes := Utf8Length(line) + if output != [] then 1 else 0;
      if outputBytes + lineBytes > maxBytes {
        truncatedBy := Bytes;
        if output == [] {
          var suffix := TruncateUtf8Suffix(line, maxBytes);
          output, lastLinePartial := [suffix], true;
          outputBytes := Utf8Length(suffix);
          SuffixFits(line, suffix, maxBytes);
        }
        break;
      }
      output := [line] + output;
      outputBytes := outputBytes + lineBytes;
      i := i - 1;
    }
    if |output| >= maxLines && outputBytes <= maxBytes {
      truncatedBy := Lines;
    }
    if !lastLinePartial {
      TailStops(lines, |output|, maxLines, maxBytes);
    }
  }

  lemma TailFits(lines: seq<Text>, k: nat, maxLines: nat, maxBytes: nat)
    requires LongestTail(lines, k, maxLines, maxBytes)
    ensures TailBytes(lines, k) <= maxBytes
  {}

  lemma SuffixFits(value: Text, suffix: Text, maxBytes: nat)
    requires LongestSuffix(value, suffix, maxBytes)
    ensures ByteCount(suffix) <= maxBytes
  {}

  /** `truncate_tail`; negative limits raise. */
  method TruncateTail(content: Text, maxLines: int, maxBytes: int) returns (result: Option<TruncationResult>)
    ensures result.None? <==> maxLines < 0 || maxBytes < 0
    ensures result.Some? ==> Totals(result.value, content, maxLines, maxBytes)
    ensures result.Some? && result.value.truncated ==> TailCut(result.value, CountedLines(content), maxLines, maxBytes)
  {
    hide HeadBytes, TailBytes, Join, ByteCount, Utf8Length, LongestTail, LongestSuffix, CountedLines, LastOf;
    if maxLines < 0 || maxBytes < 0 {
      return None;
    }
    var totalBytes := Utf8Length(content);
    var lines := CountedLines(content);
    var totalLines := |lines|;
    if totalLines <= maxLines && totalBytes <= maxBytes {
      return Some(TruncationResult(content, false, None, totalLines, totalBytes, totalLines, totalBytes, false, false));
    }
    var output, truncatedBy, lastLinePartial := TakeLastLines(lines, maxLines, maxBytes);
    var rendered := Join(NEWLINE, output);
    if lastLinePartial {
      OneLine(NEWLINE, output);
      SuffixFits(lines[|lines| - 1], rendered, maxBytes);
    } else {
      Rendered(lines, |output|);
      TailFits(lines, |output|, maxLines, maxBytes);
    }
    return Some(TruncationResult(rendered, true, Some(truncatedBy), totalLines, totalBytes, |output|, Utf8Length(rendered), lastLinePartial, false));
  }

  /** Whole lines from the end are a suffix of the content without its final newline, and what
      precedes them ends a line. */
  lemma TailIsSuffix(content: Text, k: nat)
    requires k <= |CountedLines(content)|
    ensures var tail, body := Join(NEWLINE, LastOf(CountedLines(content), k)), Body(content);
            && |tail| <= |body| && tail == LastOf(body, |tail|)
            && (0 < k < |CountedLines(content)| ==> |tail| < |body| && body[|body| - 1 - |tail|] == NEWLINE)
  {
    hide Split, CountedLines;
    var lines := CountedLines(content);
    JoinCounted(content);
    if k == |lines| {
      assert lines[|lines| - k..] == lines;
    } else if k > 0 {
      var i := |lines| - k;
      assert lines == lines[..i] + lines[i..];
      JoinAppend(NEWLINE, lines[..i], lines[i..]);
    } else {
      assert lines[|lines|..] == [];
    }
  }

  /** A suffix of the last line is a suffix of the content without its final newline. */
  lemma PartialIsSuffix(content: Text, r: TruncationResult, maxLines: nat, maxBytes: nat)
    requires TailCut(r, CountedLines(content), maxLines, maxBytes)
    ensures |r.content| <= |Body(content)| && r.content == LastOf(Body(content), |r.content|)
  {
    hide CountedLines, Body, Join, TailBytes, ByteCount, Utf8Length;
    if r.lastLinePartial {
      var lines := CountedLines(content);
      TailIsSuffix(content, 1);
      LastLine(lines);
    } else {
      TailIsSuffix(content, r.outputLines);
    }
  }

  /** As for the head; besides, a partial last line allowed one line is put down to lines. */
  lemma TailCause(r: TruncationResult, content: Text, maxLines: nat, maxBytes: nat)
    requires Totals(r, content, maxLines, maxBytes) && r.truncated
    requires TailCut(r, CountedLines(content), maxLines, maxBytes)
    ensures r.truncatedBy == Some(Bytes) ==> r.totalBytes > maxBytes
    ensures r.truncatedBy == Some(Lines) && r.totalLines <= maxLines
            <==> r.totalLines <= maxLines && ((EndsInNewline(content) && r.totalBytes == maxBytes + 1)
                                              || (maxLines == 1 && ByteCount(Body(content)) > maxBytes))
  {
    hide HeadBytes, TailBytes, Join, ByteCount, Utf8Length, CountedLines, Body, EndsInNewline, LongestSuffix;
    var lines := CountedLines(content);
    AllLines(content);
    NoLines(lines);
    if content != [] {
      SomeLines(content);
    }
    if lines != [] {
      FirstLineBytes(lines);
      MoreLinesMoreBytes(lines, 1, |lines|);
    }
    if r.outputLines < |lines| {
      MoreLinesMoreBytes(lines, r.outputLines + 1, |lines|);
    }
  }

  const LETTER_LINE: Text := [0x61, 0x0a]

  lemma LetterLine()
    ensures |CountedLines(LETTER_LINE)| == 1 && EndsInNewline(LETTER_LINE) && ByteCount(LETTER_LINE) == 2
  {
    var nothing: Text, letter: Text, rest: Text := [], [0x61], [0x0a];
    assert LETTER_LINE[1..] == rest && rest[1..] == nothing && [LETTER_LINE[0]] == letter;
    assert Split(NEWLINE, nothing) == [nothing];
    assert Split(NEWLINE, rest) == [nothing, nothing];
    assert |Split(NEWLINE, LETTER_LINE)| == 2;
    LetterBytes();
  }

  lemma LetterBytes()
    ensures ByteCount(LETTER_LINE) == 2
  {
    var nothing: Text, rest: Text := [], [0x0a];
    assert LETTER_LINE[1..] == rest && rest[1..] == nothing && ByteCount(nothing) == 0;
    assert ByteCount(rest) == 1;
  }

  /** One letter and a newline, with two lines and one byte allowed: put down to lines, although there is
      only one. */
  method NewlineTooMany() returns (head: TruncationResult, tail: TruncationResult)
    ensures head.truncated && head.truncatedBy == Some(Lines) && head.totalLines == 1 && head.totalBytes == 2
    ensures tail.truncated && tail.truncatedBy == Some(Lines) && tail.totalLines == 1 && tail.totalBytes == 2
  {
    hide CountedLines, ByteCount, Utf8Length, EndsInNewline, Body;
    LetterLine();
    var h := TruncateHead(LETTER_LINE, 2, 1);
    HeadCause(h.value, LETTER_LINE, 2, 1);
    var t := TruncateTail(LETTER_LINE, 2, 1);
    TailCause(t.value, LETTER_LINE, 2, 1);
    return h.value, t.value;
  }
}
