/** Cutting text at a separator and joining it again. */
module Splitting {
  import opened CodePoints

  /** `str.split` at a separator of one code point. */
  function Split(sep: CodePoint, content: Text): (lines: seq<Text>)
    ensures lines != []
  {
    if content == [] then [[]]
    else
      var rest := Split(sep, content[1..]);
      if content[0] == sep then [[]] + rest else [[content[0]] + rest[0]] + rest[1..]
  }

  function Join(sep: CodePoint, lines: seq<Text>): Text {
    if lines == [] then []
    else if |lines| == 1 then lines[0]
    else lines[0] + ([sep] + Join(sep, lines[1..]))
  }

  lemma OneLine(sep: CodePoint, lines: seq<Text>)
    requires |lines| == 1
    ensures Join(sep, lines) == lines[0]
  {}

  lemma JoinCons(sep: CodePoint, line: Text, lines: seq<Text>)
    requires lines != []
    ensures Join(sep, [line] + lines) == line + ([sep] + Join(sep, lines))
  {
    assert ([line] + lines)[1..] == lines;
  }

  /** Joining after one more code point at the front. */
  lemma JoinPut(sep: CodePoint, c: CodePoint, lines: seq<Text>)
    requires lines != []
    ensures Join(sep, [[c] + lines[0]] + lines[1..]) == [c] + Join(sep, lines)
  {
    hide Join;
    var grown := [[c] + lines[0]];
    assert lines == [lines[0]] + lines[1..];
    if |lines| == 1 {
      OneLine(sep, lines);
      OneLine(sep, grown);
      assert grown + lines[1..] == grown;
    } else {
      JoinCons(sep, grown[0], lines[1..]);
      JoinCons(sep, lines[0], lines[1..]);
    }
  }

  lemma {:induction false} JoinSplit(sep: CodePoint, content: Text)
    ensures Join(sep, Split(sep, content)) == content
  {
    hide Join;
    if content == [] {
      OneLine(sep, [[]]);
    } else {
      JoinSplit(sep, content[1..]);
      var rest := Split(sep, content[1..]);
      if content[0] == sep {
        JoinCons(sep, [], rest);
      } else {
        JoinPut(sep, content[0], rest);
      }
      assert content == [content[0]] + content[1..];
    }
  }

  lemma SplitStep(sep: CodePoint, content: Text)
    requires content != []
    ensures var rest := Split(sep, content[1..]);
            Split(sep, content) == if content[0] == sep then [[]] + rest else [[content[0]] + rest[0]] + rest[1..]
  {}

  lemma {:induction false} JoinSnoc(sep: CodePoint, lines: seq<Text>, line: Text)
    ensures Join(sep, lines + [line]) == if lines == [] then line else Join(sep, lines) + ([sep] + line)
  {
    if lines != [] {
      assert (lines + [line])[1..] == lines[1..] + [line];
      JoinSnoc(sep, lines[1..], line);
    }
  }

  lemma {:induction false} JoinAppend(sep: CodePoint, a: seq<Text>, b: seq<Text>)
    requires a != [] && b != []
    ensures Join(sep, a + b) == Join(sep, a) + ([sep] + Join(sep, b))
  {
    if |a| == 1 {
      assert (a + b)[1..] == b;
    } else {
      assert (a + b)[1..] == a[1..] + b;
      JoinAppend(sep, a[1..], b);
    }
  }

  lemma {:induction false} PiecesAreWhole(sep: CodePoint, content: Text)
    ensures forall p :: p in Split(sep, content) ==> sep !in p
  {
    if content != [] {
      PiecesAreWhole(sep, content[1..]);
      var rest := Split(sep, content[1..]);
      assert rest[0] in rest;
      assert forall p :: p in rest[1..] ==> p in rest;
    }
  }

  /** Whole pieces that are joined come apart again: a text has one splitting. */
  lemma {:induction false} SplitJoin(sep: CodePoint, pieces: seq<Text>)
    requires pieces != [] && forall p :: p in pieces ==> sep !in p
    ensures Split(sep, Join(sep, pieces)) == pieces
    decreases |pieces|, |pieces[0]|
  {
    hide Split, Join;
    var first, rest := pieces[0], pieces[1..];
    assert first in pieces && pieces == [first] + rest && forall p :: p in rest ==> p in pieces;
    if first != [] {
      var shorter := [first[1..]] + rest;
      assert first == [first[0]] + first[1..];
      assert shorter[0] == first[1..] && shorter[1..] == rest && pieces == [[first[0]] + shorter[0]] + shorter[1..];
      SplitJoin(sep, shorter);
      JoinPut(sep, first[0], shorter);
      SplitFirst(sep, first[0], Join(sep, shorter));
    } else if rest != [] {
      SplitJoin(sep, rest);
      JoinCons(sep, first, rest);
      assert first + ([sep] + Join(sep, rest)) == [sep] + Join(sep, rest);
      SplitFirst(sep, sep, Join(sep, rest));
    } else {
      OneLine(sep, pieces);
      SplitNothing(sep);
    }
  }

  lemma SplitNothing(sep: CodePoint)
    ensures Split(sep, []) == [[]]
  {}

  lemma SplitFirst(sep: CodePoint, c: CodePoint, content: Text)
    ensures var rest := Split(sep, content);
            Split(sep, [c] + content) == if c == sep then [[]] + rest else [[c] + rest[0]] + rest[1..]
  {
    assert ([c] + content)[1..] == content;
  }
}
