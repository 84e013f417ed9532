/** What an OpenAI-compatible provider reads from its connection, and what it adds up to. */
module Chunks {
  import opened Prelude

  /** Absent and non-string fields are empty; an index that is not a number raises. */
  datatype RawCall = NotACall | RawCall(index: Option<int>, id: string, name: string, arguments: string)

  datatype Choice = NotAChoice | Choice(finish: Option<string>, text: string, thinking: string, calls: seq<RawCall>)

  datatype Failure = Failure(retryable: bool, started: bool, retryAfter: Option<real>)

  /** An exception: a cancellation, an error of the provider's own kind, or any other. */
  datatype Exn = Cancellation | ProviderError(failure: Failure) | OtherError

  /** A line of the response: nothing of interest, the end mark, a chunk (whose choices may not be a
      list), an error reported by the provider, or a line that cannot be read or understood. */
  datatype Line = Skip | EndMark | Chunk(choices: Option<seq<Choice>>) | Raises(exn: Exn)

  /** One request: what raises before a line is read, the lines, what raises after the last one
      because of a cancellation, and what closing the connection raises. */
  datatype Attempt = Attempt(opening: Option<Exn>, lines: seq<Line>, cancelledLate: bool, closing: Option<Exn>)

  /** What decoding a tool call's arguments comes to: an object, something else, or an exception. */
  datatype Decoding = Object(text: string) | NotObject | Undecodable

  type Decoder = string -> Decoding

  datatype StopReason = Pending | Stop | Length | ToolUse | Error | Aborted

  const EMPTY_OBJECT := "{}"

  function MapFinishReason(raw: Option<string>, hasTools: bool): StopReason {
    if raw == Some("tool_calls") || raw == Some("function_call") || (raw.None? && hasTools) then ToolUse
    else if raw == Some("length") then Length
    else Stop
  }

  // ----- the pieces of a response -----

  /** What the choices of a response bring, one by one. */
  datatype Piece =
    | TextPiece(text: string)
    | ThinkingPiece(text: string)
    | CallPiece(key: int, id: string, name: string, arguments: string)
    | FinishPiece(reason: string)

  /** What a block is for. */
  datatype Slot = TextSlot | ThinkingSlot | CallSlot(key: int)

  function SlotOf(p: Piece): Option<Slot> {
    match p
    case TextPiece(_) => Some(TextSlot)
    case ThinkingPiece(_) => Some(ThinkingSlot)
    case CallPiece(key, _, _, _) => Some(CallSlot(key))
    case FinishPiece(_) => None
  }

  /** The blocks of the message, in the order of their first pieces. */
  function Slots(ps: seq<Piece>): seq<Slot> {
    if ps == [] then []
    else
      var slots, slot := Slots(ps[..|ps| - 1]), SlotOf(ps[|ps| - 1]);
      if slot.None? || slot.value in slots then slots else slots + [slot.value]
  }

  function TextOf(ps: seq<Piece>): string {
    if ps == [] then ""
    else TextOf(ps[..|ps| - 1]) + if ps[|ps| - 1].TextPiece? then ps[|ps| - 1].text else ""
  }

  function ThinkingOf(ps: seq<Piece>): string {
    if ps == [] then ""
    else ThinkingOf(ps[..|ps| - 1]) + if ps[|ps| - 1].ThinkingPiece? then ps[|ps| - 1].text else ""
  }

  predicate Of(p: Piece, key: int) {
    p.CallPiece? && p.key == key
  }

  /** The provider indices under which calls came. */
  function KeysOf(ps: seq<Piece>): set<int> {
    if ps == [] then {}
    else KeysOf(ps[..|ps| - 1]) + if ps[|ps| - 1].CallPiece? then {ps[|ps| - 1].key} else {}
  }

  function ArgumentsOf(ps: seq<Piece>, key: int): string {
    if ps == [] then ""
    else ArgumentsOf(ps[..|ps| - 1], key) + if Of(ps[|ps| - 1], key) then ps[|ps| - 1].arguments else ""
  }

  function NameOf(ps: seq<Piece>, key: int): string {
    if ps == [] then ""
    else NameOf(ps[..|ps| - 1], key) + if Of(ps[|ps| - 1], key) then ps[|ps| - 1].name else ""
  }

  /** The last id that is not empty. */
  function IdOf(ps: seq<Piece>, key: int): string {
    if ps == [] then ""
    else if Of(ps[|ps| - 1], key) && ps[|ps| - 1].id != "" then ps[|ps| - 1].id
    else IdOf(ps[..|ps| - 1], key)
  }

  /** The arguments as last decoded to an object while they arrive. */
  function ShownOf(decode: Decoder, ps: seq<Piece>, key: int): string {
    if ps == [] then "{}"
    else
      var p := ps[|ps| - 1];
      if Of(p, key) && p.arguments != "" && decode(ArgumentsOf(ps, key)).Object? then decode(ArgumentsOf(ps, key)).text
      else ShownOf(decode, ps[..|ps| - 1], key)
  }

  function FinishOf(ps: seq<Piece>): Option<string> {
    if ps == [] then None
    else if ps[|ps| - 1].FinishPiece? then Some(ps[|ps| - 1].reason)
    else FinishOf(ps[..|ps| - 1])
  }

  // ----- why a response stopped -----

  ghost predicate LastFinish(ps: seq<Piece>, i: nat)
    requires i < |ps|
  {
    ps[i].FinishPiece? && forall j :: i < j < |ps| ==> !ps[j].FinishPiece?
  }

  /** The last finish reason read. */
  ghost predicate FinishedWith(ps: seq<Piece>, reason: string) {
    exists i :: 0 <= i < |ps| && LastFinish(ps, i) && ps[i].reason == reason
  }

  /** The stop reason that the pieces of a response make: the token limit; tools, if the provider says so or
      gives no reason and some call; and otherwise an ordinary stop. */
  ghost predicate StopsAs(stop: StopReason, ps: seq<Piece>) {
    && (stop == Length <==> FinishedWith(ps, "length"))
    && (stop == ToolUse <==>
          || FinishedWith(ps, "tool_calls") || FinishedWith(ps, "function_call")
          || ((forall i :: 0 <= i < |ps| ==> !ps[i].FinishPiece?) && exists i :: 0 <= i < |ps| && ps[i].CallPiece?))
    && (stop != Length && stop != ToolUse ==> stop == Stop)
  }

  lemma {:induction false} FinishIsLast(ps: seq<Piece>, reason: string)
    ensures FinishOf(ps).None? <==> forall i :: 0 <= i < |ps| ==> !ps[i].FinishPiece?
    ensures FinishOf(ps) == Some(reason) <==> FinishedWith(ps, reason)
  {
    if ps != [] {
      var n := |ps| - 1;
      var front := ps[..n];
      if ps[n].FinishPiece? {
        assert LastFinish(ps, n);
      } else {
        FinishIsLast(front, reason);
        assert forall i :: 0 <= i < n ==> (LastFinish(ps, i) <==> LastFinish(front, i));
      }
    }
  }

  lemma {:induction false} CallsHaveKeys(ps: seq<Piece>)
    ensures KeysOf(ps) != {} <==> exists i :: 0 <= i < |ps| && ps[i].CallPiece?
  {
    if ps != [] {
      var n := |ps| - 1;
      CallsHaveKeys(ps[..n]);
      if ps[n].CallPiece? {
        assert ps[n].key in KeysOf(ps);
      }
    }
  }

  lemma StopIsLastFinish(ps: seq<Piece>)
    ensures StopsAs(MapFinishReason(FinishOf(ps), KeysOf(ps) != {}), ps)
  {
    hide FinishedWith, FinishOf, KeysOf;
    FinishIsLast(ps, "length");
    FinishIsLast(ps, "tool_calls");
    FinishIsLast(ps, "function_call");
    CallsHaveKeys(ps);
  }

  lemma PieceAdds(ps: seq<Piece>, p: Piece)
    ensures var more := ps + [p];
            && TextOf(more) == TextOf(ps) + (if p.TextPiece? then p.text else "")
            && ThinkingOf(more) == ThinkingOf(ps) + (if p.ThinkingPiece? then p.text else "")
            && KeysOf(more) == KeysOf(ps) + (if p.CallPiece? then {p.key} else {})
            && FinishOf(more) == (if p.FinishPiece? then Some(p.reason) else FinishOf(ps))
            && Slots(more) == if SlotOf(p).None? || SlotOf(p).value in Slots(ps) then Slots(ps) else Slots(ps) + [SlotOf(p).value]
  {
    assert (ps + [p])[..|ps|] == ps;
  }

  lemma CallAdds(decode: Decoder, ps: seq<Piece>, p: Piece, key: int)
    ensures var more := ps + [p];
            && ArgumentsOf(more, key) == ArgumentsOf(ps, key) + (if Of(p, key) then p.arguments else "")
            && NameOf(more, key) == NameOf(ps, key) + (if Of(p, key) then p.name else "")
            && IdOf(more, key) == (if Of(p, key) && p.id != "" then p.id else IdOf(ps, key))
            && ShownOf(decode, more, key) ==
                 if Of(p, key) && p.arguments != "" && decode(ArgumentsOf(ps, key) + p.arguments).Object?
                 then decode(ArgumentsOf(ps, key) + p.arguments).text else ShownOf(decode, ps, key)
  {
    assert (ps + [p])[..|ps|] == ps;
  }

  lemma {:induction false} UnknownKey(decode: Decoder, ps: seq<Piece>, key: int)
    requires key !in KeysOf(ps)
    ensures ArgumentsOf(ps, key) == NameOf(ps, key) == IdOf(ps, key) == "" && ShownOf(decode, ps, key) == "{}"
  {
    if ps != [] {
      UnknownKey(decode, ps[..|ps| - 1], key);
    }
  }

  // ----- reading -----

  /** What has been read, or the exception that ended it. */
  datatype Reading = Read(pieces: seq<Piece>) | Failing(exn: Exn)

  /** One entry of a delta's `tool_calls`; it raises if its index is not a number, or if decoding the
      arguments so far does. */
  function ReadCall(decode: Decoder, ps: seq<Piece>, call: RawCall): Reading {
    if call.NotACall? then Read(ps)
    else if call.index.None? then Failing(OtherError)
    else if call.arguments != "" && decode(ArgumentsOf(ps, call.index.value) + call.arguments).Undecodable? then Failing(OtherError)
    else Read(ps + [CallPiece(call.index.value, call.id, call.name, call.arguments)])
  }

  function ReadCalls(decode: Decoder, ps: seq<Piece>, calls: seq<RawCall>): Reading
    decreases |calls|
  {
    if calls == [] then Read(ps)
    else
      var r := ReadCall(decode, ps, calls[0]);
      if r.Failing? then r else ReadCalls(decode, r.pieces, calls[1..])
  }

  /** What a choice brings before its calls: finish reason, text, thinking, each if it is there. */
  function Plain(choice: Choice): seq<Piece>
    requires choice.Choice?
  {
    (if choice.finish.Some? then [FinishPiece(choice.finish.value)] else [])
    + (if choice.text != "" then [TextPiece(choice.text)] else [])
    + (if choice.thinking != "" then [ThinkingPiece(choice.thinking)] else [])
  }

  function ReadChoice(decode: Decoder, ps: seq<Piece>, choice: Choice): Reading {
    if choice.NotAChoice? then Read(ps) else ReadCalls(decode, ps + Plain(choice), choice.calls)
  }

  function ReadChoices(decode: Decoder, ps: seq<Piece>, choices: seq<Choice>): Reading
    decreases |choices|
  {
    if choices == [] then Read(ps)
    else
      var r := ReadChoice(decode, ps, choices[0]);
      if r.Failing? then r else ReadChoices(decode, r.pieces, choices[1..])
  }

  lemma {:induction false} CallsFailing(decode: Decoder, ps: seq<Piece>, calls: seq<RawCall>)
    ensures ReadCalls(decode, ps, calls).Failing? ==> ReadCalls(decode, ps, calls).exn == OtherError
    decreases |calls|
  {
    if calls != [] && ReadCall(decode, ps, calls[0]).Read? {
      CallsFailing(decode, ReadCall(decode, ps, calls[0]).pieces, calls[1..]);
    }
  }

  lemma {:induction false} ChoicesFailing(decode: Decoder, ps: seq<Piece>, choices: seq<Choice>)
    ensures ReadChoices(decode, ps, choices).Failing? ==> ReadChoices(decode, ps, choices).exn == OtherError
    decreases |choices|
  {
    if choices != [] {
      if choices[0].Choice? {
        CallsFailing(decode, ps + Plain(choices[0]), choices[0].calls);
      }
      if ReadChoice(decode, ps, choices[0]).Read? {
        ChoicesFailing(decode, ReadChoice(decode, ps, choices[0]).pieces, choices[1..]);
      }
    }
  }

  /** The lines up to the end mark, the last one, or something that raises. */
  function ReadAll(decode: Decoder, ps: seq<Piece>, lines: seq<Line>): Reading
    decreases |lines|
  {
    if lines == [] then Read(ps)
    else
      match lines[0]
      case Skip => ReadAll(decode, ps, lines[1..])
      case EndMark => Read(ps)
      case Raises(exn) => Failing(exn)
      case Chunk(None) => Failing(OtherError)
      case Chunk(Some(choices)) =>
        var r := ReadChoices(decode, ps, choices);
        if r.Failing? then r else ReadAll(decode, r.pieces, lines[1..])
  }

  /** The response starts with its first chunk, or at its end. */
  function Tells(lines: seq<Line>): bool {
    lines == [] || lines[0].Chunk? || lines[0].EndMark? || (lines[0].Skip? && Tells(lines[1..]))
  }

  /** A request whose response starts. */
  predicate Starts(a: Attempt) {
    a.opening.None? && Tells(a.lines)
  }

  ghost predicate Decodable(decode: Decoder, ps: seq<Piece>) {
    forall key :: key in KeysOf(ps) ==> decode(ArgumentsOf(ps, key)).Object?
  }

  /** A request whose response is read to its end and told to its end. */
  ghost predicate Completes(decode: Decoder, a: Attempt) {
    && a.opening.None? && !a.cancelledLate
    && var r := ReadAll(decode, [], a.lines); r.Read? && Decodable(decode, r.pieces)
  }

  lemma {:induction false} CompletesStarts(decode: Decoder, a: Attempt)
    requires Completes(decode, a)
    ensures Starts(a)
  {
    ReadTells(decode, [], a.lines);
  }

  /** Errors carry whether the response had started; other exceptions become errors that ask for no
      retry. */
  function Told(exn: Exn, started: bool): (told: Exn)
    ensures told.Cancellation? <==> exn.Cancellation?
    ensures told.ProviderError? ==> told.failure.started == started
    ensures exn.ProviderError? ==> told.ProviderError? && told.failure.(started := exn.failure.started) == exn.failure
    ensures exn.OtherError? ==> told.ProviderError? && !told.failure.retryable && told.failure.retryAfter.None?
  {
    match exn
    case Cancellation => exn
    case ProviderError(failure) => ProviderError(failure.(started := started))
    case OtherError => ProviderError(Failure(false, started, None))
  }

  /** What a request raises; what closing its connection raises takes the place of the rest. */
  ghost function RaisedBy(decode: Decoder, a: Attempt): Option<Exn> {
    if a.opening.Some? then Some(Told(a.opening.value, false))
    else if a.closing.Some? then a.closing
    else
      match ReadAll(decode, [], a.lines)
      case Failing(exn) => Some(Told(exn, Tells(a.lines)))
      case Read(pieces) =>
        if !Decodable(decode, pieces) then Some(Told(OtherError, true))
        else if a.cancelledLate then Some(Cancellation)
        else None
  }

  // ----- several requests -----

  /** The story that the requests made one after another tell: no response, one that has begun, one
      that was told to its end (nothing is told after it), or one that began again. */
  datatype Story = Untold | Begun | Concluded | Restarted

  ghost function StoryOf(decode: Decoder, requests: nat -> Attempt, n: nat): Story {
    if n == 0 then Untold
    else
      var story, a := StoryOf(decode, requests, n - 1), requests(n - 1);
      match story
      case Untold => if Completes(decode, a) then Concluded else if Starts(a) then Begun else Untold
      case Begun => if Starts(a) then Restarted else Begun
      case _ => story
  }

  ghost predicate NoneCompletes(decode: Decoder, requests: nat -> Attempt, n: nat) {
    forall m :: 0 <= m < n ==> !Completes(decode, requests(m))
  }

  /** Request `j` starts a response after request `i` did, and none before it was told to its end. */
  ghost predicate StartsAgain(decode: Decoder, requests: nat -> Attempt, i: nat, j: nat) {
    i < j && Starts(requests(i)) && Starts(requests(j)) && NoneCompletes(decode, requests, j)
  }

  /** A response starts again exactly when two requests start one and none was told to its end
      before the second. */
  lemma {:induction false} WhenRestarted(decode: Decoder, requests: nat -> Attempt, n: nat)
    ensures StoryOf(decode, requests, n).Restarted? <==> exists i: nat, j: nat :: j < n && StartsAgain(decode, requests, i, j)
    ensures StoryOf(decode, requests, n).Untold? <==> forall i: nat :: i < n ==> !Starts(requests(i))
    ensures StoryOf(decode, requests, n).Begun? ==> NoneCompletes(decode, requests, n)
    ensures StoryOf(decode, requests, n).Concluded? ==> !NoneCompletes(decode, requests, n)
  {
    if n > 0 {
      hide Completes, Starts;
      WhenRestarted(decode, requests, n - 1);
      forall m: nat | m < n && Completes(decode, requests(m)) ensures Starts(requests(m)) {
        CompletesStarts(decode, requests(m));
      }
      var a := requests(n - 1);
      if StoryOf(decode, requests, n - 1).Begun? && Starts(a) {
        var i: nat :| i < n - 1 && Starts(requests(i));
        assert StartsAgain(decode, requests, i, n - 1);
      }
    }
  }

  /** A request that starts a response is tried again only if closing its connection raises an error
      of its own that asks for it. */
  lemma TriedAgainAfterItsStart(decode: Decoder, a: Attempt)
    requires Starts(a) && RaisedBy(decode, a).Some?
    requires var exn := RaisedBy(decode, a).value; exn.ProviderError? && exn.failure.retryable && !exn.failure.started
    ensures a.closing == RaisedBy(decode, a)
  {
    if a.closing.None? {
      match ReadAll(decode, [], a.lines)
      case Failing(exn) =>
      case Read(pieces) =>
    }
  }

  lemma {:induction false} ReadTells(decode: Decoder, ps: seq<Piece>, lines: seq<Line>)
    requires ReadAll(decode, ps, lines).Read?
    ensures Tells(lines)
  {
    if lines != [] && lines[0].Skip? {
      ReadTells(decode, ps, lines[1..]);
    }
  }
}
