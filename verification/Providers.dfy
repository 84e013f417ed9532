/** The OpenAI-compatible provider: one response assembled from stream chunks, and the retries
    around it. */
module Providers {
  import opened Prelude
  import opened Chunks
  import EventStreams

  // ----- what the provider produces -----

  datatype Kind = TextKind | ThinkingKind | ToolKind

  /** A content block.  A tool call's arguments are opaque; `{}` is the empty object. */
  datatype Block =
    | TextBlock(text: string)
    | ThinkingBlock(thinking: string)
    | CallBlock(id: string, name: string, arguments: string)

  datatype Message = Message(content: seq<Block>, stop: StopReason)

  datatype Event =
    | Start(partial: Message)
    | Opened(kind: Kind, index: nat, partial: Message)
    | Grown(kind: Kind, index: nat, delta: string, partial: Message)
    | Closed(kind: Kind, index: nat, block: Block, partial: Message)
    | Done(message: Message)
    | Failed(message: Message)

  /** The event that starts a response. */
  const FIRST := Start(Message([], Pending))

  predicate IsTerminal(e: Event) {
    e.Done? || e.Failed?
  }

  function KindOf(b: Block): Kind {
    match b case TextBlock(_) => TextKind case ThinkingBlock(_) => ThinkingKind case CallBlock(_, _, _) => ToolKind
  }

  // ----- what a reader of the events reconstructs -----

  /** A block as its events tell it: kind, concatenated deltas, and whether it has been closed. */
  datatype Seen = Seen(kind: Kind, text: string, closed: bool)

  datatype Replay = Nothing | Streaming(blocks: seq<Seen>) | Ended(blocks: seq<Seen>) | Broken

  /** The partial message repeats what the events told: same blocks in the same places, texts equal
      to the concatenated deltas. */
  predicate Repeats(blocks: seq<Seen>, content: seq<Block>) {
    && |blocks| == |content|
    && forall i :: 0 <= i < |blocks| ==>
         && KindOf(content[i]) == blocks[i].kind
         && (content[i].TextBlock? ==> content[i].text == blocks[i].text)
         && (content[i].ThinkingBlock? ==> content[i].thinking == blocks[i].text)
  }

  predicate NoneClosed(blocks: seq<Seen>) {
    forall i :: 0 <= i < |blocks| ==> !blocks[i].closed
  }

  predicate AllClosed(blocks: seq<Seen>) {
    forall i :: 0 <= i < |blocks| ==> blocks[i].closed
  }

  /** A closed block is its concatenated deltas: verbatim, or decoded for a tool call. */
  predicate Settles(decode: Decoder, seen: Seen, b: Block) {
    match b
    case TextBlock(text) => seen.kind == TextKind && text == seen.text
    case ThinkingBlock(thinking) => seen.kind == ThinkingKind && thinking == seen.text
    case CallBlock(_, _, arguments) => seen.kind == ToolKind && decode(seen.text) == Object(arguments)
  }

  /** One event read by a consumer.  A block opens at the next free position, grows only by
      non-empty deltas of its own kind, closes once, and never changes kind; nothing opens or grows
      once closing has begun; `Done` comes when all are closed and its message is made of them; a
      failure's message is empty or repeats what was told. */
  function ReplayStep(decode: Decoder, r: Replay, e: Event): Replay {
    match (r, e)
    case (Nothing, Start(p)) => if p.content == [] then Streaming([]) else Broken
    case (Nothing, Failed(m)) => if m.content == [] then Ended([]) else Broken
    case (Streaming(bs), Opened(kind, i, p)) =>
      if i == |bs| && NoneClosed(bs) && Repeats(bs + [Seen(kind, "", false)], p.content)
      then Streaming(bs + [Seen(kind, "", false)]) else Broken
    case (Streaming(bs), Grown(kind, i, delta, p)) =>
      if i < |bs| && bs[i].kind == kind && delta != "" && NoneClosed(bs)
         && Repeats(bs[i := bs[i].(text := bs[i].text + delta)], p.content)
      then Streaming(bs[i := bs[i].(text := bs[i].text + delta)]) else Broken
    case (Streaming(bs), Closed(kind, i, b, p)) =>
      if i < |bs| && bs[i].kind == kind && !bs[i].closed && Settles(decode, bs[i], b) && Repeats(bs, p.content) && p.content[i] == b
      then Streaming(bs[i := bs[i].(closed := true)]) else Broken
    case (Streaming(bs), Done(m)) =>
      if AllClosed(bs) && Repeats(bs, m.content) && (forall i :: 0 <= i < |bs| ==> Settles(decode, bs[i], m.content[i]))
      then Ended(bs) else Broken
    case (Streaming(bs), Failed(m)) => if m.content == [] || Repeats(bs, m.content) then Ended(bs) else Broken
    case _ => Broken
  }

  function ReplayAll(decode: Decoder, log: seq<Event>): Replay {
    if log == [] then Nothing else ReplayStep(decode, ReplayAll(decode, log[..|log| - 1]), log[|log| - 1])
  }

  lemma ReplayAppend(decode: Decoder, log: seq<Event>, e: Event)
    ensures ReplayAll(decode, log + [e]) == ReplayStep(decode, ReplayAll(decode, log), e)
  {
    assert (log + [e])[..|log|] == log;
  }

  /** The positions of the tool calls in the order their end events appear. */
  function ToolEnds(log: seq<Event>): seq<nat> {
    if log == [] then []
    else
      var last := log[|log| - 1];
      ToolEnds(log[..|log| - 1]) + if last.Closed? && last.kind == ToolKind then [last.index] else []
  }

  lemma ToolEndsAppend(log: seq<Event>, e: Event)
    ensures ToolEnds(log + [e]) == ToolEnds(log) + if e.Closed? && e.kind == ToolKind then [e.index] else []
  {
    assert (log + [e])[..|log|] == log;
  }

  /** In an accepted log the response starts at most once and ends at most once, at its end. */
  lemma {:induction false} StartsOnceEndsOnce(decode: Decoder, log: seq<Event>)
    requires ReplayAll(decode, log) != Broken
    ensures forall i :: 0 <= i < |log| ==> (log[i].Start? ==> i == 0) && (IsTerminal(log[i]) ==> i == |log| - 1)
    ensures ReplayAll(decode, log).Nothing? <==> log == []
    ensures ReplayAll(decode, log).Ended? <==> log != [] && IsTerminal(log[|log| - 1])
  {
    if log != [] {
      StartsOnceEndsOnce(decode, log[..|log| - 1]);
    }
  }

  /** The deltas of one block, concatenated. */
  function Deltas(log: seq<Event>, i: nat): string {
    if log == [] then ""
    else
      var last := log[|log| - 1];
      Deltas(log[..|log| - 1], i) + if last.Grown? && last.index == i then last.delta else ""
  }

  function BlocksOf(r: Replay): seq<Seen> {
    if r.Streaming? || r.Ended? then r.blocks else []
  }

  lemma {:induction false} TextIsDeltas(decode: Decoder, log: seq<Event>, i: nat)
    requires ReplayAll(decode, log) != Broken
    ensures Deltas(log, i) == TextAt(ReplayAll(decode, log), i)
  {
    if log != [] {
      TextIsDeltas(decode, log[..|log| - 1], i);
      TextGrows(decode, ReplayAll(decode, log[..|log| - 1]), log[|log| - 1], i);
      assert Deltas(log[..|log| - 1], i) + "" == Deltas(log[..|log| - 1], i);
    }
  }

  function TextAt(r: Replay, i: nat): string {
    if i < |BlocksOf(r)| then BlocksOf(r)[i].text else ""
  }

  lemma TextGrows(decode: Decoder, r: Replay, e: Event, i: nat)
    requires ReplayStep(decode, r, e) != Broken
    ensures TextAt(ReplayStep(decode, r, e), i) == TextAt(r, i) + if e.Grown? && e.index == i then e.delta else ""
  {
    hide Repeats, Settles;
    assert TextAt(r, i) + "" == TextAt(r, i);
  }

  /** The message of an accepted `Done` is its deltas: the text of each text or thinking block is the
      concatenation of the block's deltas, the arguments of each call decode from it, and every
      block has one end event. */
  lemma DoneIsItsDeltas(decode: Decoder, log: seq<Event>, i: nat)
    requires ReplayAll(decode, log).Ended? && log[|log| - 1].Done?
    requires i < |log[|log| - 1].message.content|
    ensures match log[|log| - 1].message.content[i]
            case TextBlock(text) => text == Deltas(log, i)
            case ThinkingBlock(thinking) => thinking == Deltas(log, i)
            case CallBlock(_, _, arguments) => decode(Deltas(log, i)) == Object(arguments)
    ensures Closings(log, i) == 1
  {
    TextIsDeltas(decode, log, i);
    ClosingsCount(decode, log, i);
    var bs := ReplayAll(decode, log[..|log| - 1]).blocks;
    assert Settles(decode, bs[i], log[|log| - 1].message.content[i]) && bs[i].closed;
  }

  function Closings(log: seq<Event>, i: nat): nat {
    if log == [] then 0
    else
      var last := log[|log| - 1];
      Closings(log[..|log| - 1], i) + if last.Closed? && last.index == i then 1 else 0
  }

  lemma {:induction false} ClosingsCount(decode: Decoder, log: seq<Event>, i: nat)
    requires ReplayAll(decode, log) != Broken
    ensures var bs := BlocksOf(ReplayAll(decode, log));
            Closings(log, i) == if i < |bs| && bs[i].closed then 1 else 0
  {
    if log != [] {
      ClosingsCount(decode, log[..|log| - 1], i);
    }
  }

  // ----- one response -----

  datatype Accumulator = Accumulator(index: nat, raw: string)

  /** Each block is the one text block, the one thinking block or the block of one accumulator, and
      the other way round. */
  ghost predicate Tracked(content: seq<Block>, blocks: seq<Seen>, text: Option<nat>, thinking: Option<nat>, tools: map<int, Accumulator>) {
    && |blocks| == |content|
    && (text.Some? ==> text.value < |content| && content[text.value].TextBlock?)
    && (thinking.Some? ==> thinking.value < |content| && content[thinking.value].ThinkingBlock?)
    && (forall k :: k in tools ==> tools[k].index < |content| && content[tools[k].index].CallBlock? && tools[k].raw == blocks[tools[k].index].text)
    && (forall j, k :: j in tools && k in tools && tools[j].index == tools[k].index ==> j == k)
    && (forall i :: 0 <= i < |content| ==> OwnedBy(content[i], i, text, thinking, tools))
  }

  ghost predicate OwnedBy(b: Block, i: nat, text: Option<nat>, thinking: Option<nat>, tools: map<int, Accumulator>) {
    match b
    case TextBlock(_) => text == Some(i)
    case ThinkingBlock(_) => thinking == Some(i)
    case CallBlock(_, _, _) => exists k :: k in tools && tools[k].index == i
  }

  /** The locals hold exactly what has been read: one block for each slot, in the order of the slots,
      with the text, the reasoning, and under each provider index the call's raw arguments, name, last
      id and last decoded arguments. */
  ghost predicate Holds(decode: Decoder, content: seq<Block>, text: Option<nat>, thinking: Option<nat>, tools: map<int, Accumulator>,
                        finish: Option<string>, read: seq<Piece>) {
    var slots := Slots(read);
    && finish == FinishOf(read) && |content| == |slots|
    && (text.None? ==> TextOf(read) == "") && (text.Some? <==> TextSlot in slots)
    && (text.Some? ==> text.value < |content| && slots[text.value] == TextSlot && content[text.value] == TextBlock(TextOf(read)))
    && (thinking.None? ==> ThinkingOf(read) == "") && (thinking.Some? <==> ThinkingSlot in slots)
    && (thinking.Some? ==> thinking.value < |content| && slots[thinking.value] == ThinkingSlot
                           && content[thinking.value] == ThinkingBlock(ThinkingOf(read)))
    && tools.Keys == KeysOf(read) && (forall k :: k in tools <==> CallSlot(k) in slots)
    && (forall k :: k in tools ==> HoldsCall(decode, content, tools[k], read, k))
  }

  ghost predicate HoldsCall(decode: Decoder, content: seq<Block>, a: Accumulator, read: seq<Piece>, key: int) {
    && a.raw == ArgumentsOf(read, key) && a.index < |content| == |Slots(read)| && Slots(read)[a.index] == CallSlot(key)
    && content[a.index] == CallBlock(IdOf(read, key), NameOf(read, key), ShownOf(decode, read, key))
  }

  /** The block of a slot when all has been read. */
  function Rendered(decode: Decoder, read: seq<Piece>, slot: Slot): Block {
    match slot
    case TextSlot => TextBlock(TextOf(read))
    case ThinkingSlot => ThinkingBlock(ThinkingOf(read))
    case CallSlot(key) =>
      var decoded := decode(ArgumentsOf(read, key));
      CallBlock(IdOf(read, key), NameOf(read, key), if decoded.Object? then decoded.text else "{}")
  }

  /** The message that the pieces of a response add up to. */
  function Answer(decode: Decoder, read: seq<Piece>): Message {
    Message(seq(|Slots(read)|, i requires 0 <= i < |Slots(read)| => Rendered(decode, read, Slots(read)[i])),
            MapFinishReason(FinishOf(read), KeysOf(read) != {}))
  }

  lemma AnswerStops(decode: Decoder, read: seq<Piece>)
    ensures StopsAs(Answer(decode, read).stop, read)
  {
    hide StopsAs;
    StopIsLastFinish(read);
  }

  /** The event that ends a response told to its end. */
  ghost predicate TellsAnswer(decode: Decoder, e: Event, read: seq<Piece>) {
    e == Done(Answer(decode, read)) && StopsAs(e.message.stop, read)
  }

  /** A block has what was read for its slot, except a call's arguments. */
  ghost predicate Bears(b: Block, slot: Slot, read: seq<Piece>) {
    match slot
    case TextSlot => b == TextBlock(TextOf(read))
    case ThinkingSlot => b == ThinkingBlock(ThinkingOf(read))
    case CallSlot(key) => b.CallBlock? && b.id == IdOf(read, key) && b.name == NameOf(read, key)
  }

  ghost predicate BearsAll(content: seq<Block>, tools: map<int, Accumulator>, finish: Option<string>, read: seq<Piece>) {
    && |content| == |Slots(read)| && (forall i :: 0 <= i < |content| ==> Bears(content[i], Slots(read)[i], read))
    && finish == FinishOf(read) && tools.Keys == KeysOf(read)
    && (forall k :: k in tools ==> tools[k].raw == ArgumentsOf(read, k) && tools[k].index < |content| && Slots(read)[tools[k].index] == CallSlot(k))
  }

  lemma HeldIsBorne(decode: Decoder, content: seq<Block>, blocks: seq<Seen>, text: Option<nat>, thinking: Option<nat>,
                    tools: map<int, Accumulator>, finish: Option<string>, read: seq<Piece>)
    requires Tracked(content, blocks, text, thinking, tools) && Holds(decode, content, text, thinking, tools, finish, read)
    ensures BearsAll(content, tools, finish, read)
  {
    hide ArgumentsOf, NameOf, IdOf, ShownOf, KeysOf, TextOf, ThinkingOf, FinishOf, Slots;
    forall i | 0 <= i < |content| ensures Bears(content[i], Slots(read)[i], read) {
      assert OwnedBy(content[i], i, text, thinking, tools);
      if content[i].CallBlock? {
        var k :| k in tools && tools[k].index == i;
        assert HoldsCall(decode, content, tools[k], read, k);
      }
    }
    forall k | k in tools ensures tools[k].raw == ArgumentsOf(read, k) && tools[k].index < |content| && Slots(read)[tools[k].index] == CallSlot(k) {
      assert HoldsCall(decode, content, tools[k], read, k);
    }
  }

  lemma ArgumentsSet(content: seq<Block>, tools: map<int, Accumulator>, finish: Option<string>, read: seq<Piece>, i: nat, arguments: string)
    requires BearsAll(content, tools, finish, read) && i < |content| && content[i].CallBlock?
    ensures BearsAll(content[i := content[i].(arguments := arguments)], tools, finish, read)
  {
    hide ArgumentsOf, NameOf, IdOf, KeysOf, TextOf, ThinkingOf, FinishOf, Slots;
    var after := content[i := content[i].(arguments := arguments)];
    forall j | 0 <= j < |after| ensures Bears(after[j], Slots(read)[j], read) {
      assert Bears(content[j], Slots(read)[j], read);
    }
  }

  lemma HoldsMoreText(decode: Decoder, before: seq<Block>, after: seq<Block>, text: Option<nat>, at: nat, thinking: Option<nat>,
                      tools: map<int, Accumulator>, finish: Option<string>, read: seq<Piece>, delta: string)
    requires Holds(decode, before, text, thinking, tools, finish, read) && delta != ""
    requires if text.Some? then at == text.value && |after| == |before| else at == |before| && |after| == |before| + 1
    requires (forall i :: 0 <= i < |before| && i != at ==> after[i] == before[i])
    requires after[at] == TextBlock((if text.Some? then before[at].text else "") + delta)
    ensures Holds(decode, after, Some(at), thinking, tools, finish, read + [TextPiece(delta)])
  {
    hide ArgumentsOf, NameOf, IdOf, ShownOf, KeysOf, TextOf, ThinkingOf, FinishOf, Slots;
    var p := TextPiece(delta);
    PieceAdds(read, p);
    forall k | k in tools ensures HoldsCall(decode, after, tools[k], read + [p], k) {
      CallAdds(decode, read, p, k);
    }
  }

  lemma HoldsMoreThinking(decode: Decoder, before: seq<Block>, after: seq<Block>, text: Option<nat>, thinking: Option<nat>, at: nat,
                          tools: map<int, Accumulator>, finish: Option<string>, read: seq<Piece>, delta: string)
    requires Holds(decode, before, text, thinking, tools, finish, read) && delta != ""
    requires if thinking.Some? then at == thinking.value && |after| == |before| else at == |before| && |after| == |before| + 1
    requires (forall i :: 0 <= i < |before| && i != at ==> after[i] == before[i])
    requires after[at] == ThinkingBlock((if thinking.Some? then before[at].thinking else "") + delta)
    ensures Holds(decode, after, text, Some(at), tools, finish, read + [ThinkingPiece(delta)])
  {
    hide ArgumentsOf, NameOf, IdOf, ShownOf, KeysOf, TextOf, ThinkingOf, FinishOf, Slots;
    var p := ThinkingPiece(delta);
    PieceAdds(read, p);
    forall k | k in tools ensures HoldsCall(decode, after, tools[k], read + [p], k) {
      CallAdds(decode, read, p, k);
    }
  }

  lemma HoldsMoreCalls(decode: Decoder, before: seq<Block>, after: seq<Block>, text: Option<nat>, thinking: Option<nat>,
                       tools: map<int, Accumulator>, finish: Option<string>, read: seq<Piece>, p: Piece, at: nat)
    requires Holds(decode, before, text, thinking, tools, finish, read) && p.CallPiece?
    requires if p.key in tools then at == tools[p.key].index && |after| == |before| else at == |before| && |after| == |before| + 1
    requires (forall i :: 0 <= i < |before| && i != at ==> after[i] == before[i])
    requires forall j :: j in tools && j != p.key ==> tools[j].index != at
    requires after[at] == CallBlock(IdOf(read + [p], p.key), NameOf(read + [p], p.key), ShownOf(decode, read + [p], p.key))
    ensures Holds(decode, after, text, thinking, tools[p.key := Accumulator(at, ArgumentsOf(read + [p], p.key))], finish, read + [p])
  {
    hide ArgumentsOf, NameOf, IdOf, ShownOf, KeysOf, TextOf, ThinkingOf, FinishOf, Slots;
    PieceAdds(read, p);
    var more := tools[p.key := Accumulator(at, ArgumentsOf(read + [p], p.key))];
    forall k | k in more ensures HoldsCall(decode, after, more[k], read + [p], k) {
      CallAdds(decode, read, p, k);
      if k != p.key {
        assert HoldsCall(decode, before, tools[k], read, k);
      }
    }
  }

  lemma CallOpened(before: seq<Block>, after: seq<Block>, text: Option<nat>, thinking: Option<nat>, tools: map<int, Accumulator>, key: int)
    requires |after| == |before| + 1 && before <= after && after[|before|].CallBlock? && key !in tools
    requires forall i :: 0 <= i < |before| ==> OwnedBy(before[i], i, text, thinking, tools)
    ensures forall i :: 0 <= i < |after| ==> OwnedBy(after[i], i, text, thinking, tools[key := Accumulator(|before|, "")])
  {
    var more := tools[key := Accumulator(|before|, "")];
    forall i | 0 <= i < |after| ensures OwnedBy(after[i], i, text, thinking, more) {
      if i < |before| {
        assert OwnedBy(before[i], i, text, thinking, tools) && after[i] == before[i];
        if after[i].CallBlock? {
          var k :| k in tools && tools[k].index == i;
          assert k in more && more[k].index == i;
        }
      } else {
        assert key in more && more[key].index == i;
      }
    }
  }

  /** `sorted` on the keys of a dictionary. */
  method Sorted(keys: set<int>) returns (ks: seq<int>)
    ensures forall i, j :: 0 <= i < j < |ks| ==> ks[i] < ks[j]
    ensures forall k :: k in keys <==> k in ks
  {
    ks := [];
    var left := keys;
    while left != {}
      invariant forall i, j :: 0 <= i < j < |ks| ==> ks[i] < ks[j]
      invariant forall k :: k in keys <==> k in ks || k in left
      invariant forall i, k :: 0 <= i < |ks| && k in left ==> ks[i] < k
      decreases left
    {
      var smallest := Minimum(left);
      ks, left := ks + [smallest], left - {smallest};
    }
  }

  method Minimum(keys: set<int>) returns (smallest: int)
    requires keys != {}
    ensures smallest in keys && forall k :: k in keys ==> smallest <= k
  {
    ghost var any := Inhabited(keys);
    smallest :| smallest in keys;
    var left := keys - {smallest};
    while left != {}
      invariant smallest in keys && left <= keys
      invariant forall k :: k in keys ==> k in left || smallest <= k
      decreases left
    {
      ghost var other := Inhabited(left);
      var k :| k in left;
      left := left - {k};
      if k < smallest {
        smallest := k;
      }
    }
  }

  /** The locals of one `_run_once`, over the stream it pushes to. */
  class Response {
    const decode: Decoder
    const stream: EventStreams.EventStream<Event, Message>
    var content: seq<Block>
    var started: bool
    var textIndex: Option<nat>
    var thinkingIndex: Option<nat>
    var tools: map<int, Accumulator>
    var finish: Option<string>
    ghost const clean: bool        // nothing was on the stream before
    ghost const late: bool         // the stream was done before
    ghost const before: seq<Event> // what it had accepted
    ghost var blocks: seq<Seen>    // what the events told so far
    ghost var read: seq<Piece>     // what has been read so far

    constructor (decode: Decoder, stream: EventStreams.EventStream<Event, Message>)
      requires StreamOk(stream)
      ensures Valid() && Unclosed() && Faithful() && read == [] && !started && this.decode == decode && this.stream == stream
      ensures clean == (stream.accepted == [] && !stream.done) && content == [] && late == stream.done && before == stream.accepted
    {
      this.decode, this.stream := decode, stream;
      content, started, textIndex, thinkingIndex, tools, finish := [], false, None, None, map[], None;
      clean, late, before, blocks, read := stream.accepted == [] && !stream.done, stream.done, stream.accepted, [], [];
    }

    ghost predicate Valid()
      reads this`content, this`blocks, this`textIndex, this`thinkingIndex, this`tools, this`started, stream
    {
      && StreamOk(stream)
      && Tracked(content, blocks, textIndex, thinkingIndex, tools)
      && Repeats(blocks, content)
      && Replayable()
    }

    ghost predicate Faithful()
      reads this
    {
      Holds(decode, content, textIndex, thinkingIndex, tools, finish, read)
    }

    /** A reader of a stream that was clean has seen exactly `blocks`. */
    ghost predicate Replayable()
      reads this`started, this`blocks, stream
    {
      && late == stream.done
      && (started && !late ==> before + [FIRST] <= stream.accepted)
      && (!started || late ==> stream.accepted == before)
      && (clean ==> !stream.done && if started then ReplayAll(decode, stream.accepted) == Streaming(blocks)
                                    else stream.accepted == [] && blocks == [])
    }

    ghost predicate Unclosed()
      reads this`blocks, stream
    {
      NoneClosed(blocks) && (clean ==> ToolEnds(stream.accepted) == [])
    }

    /** Pushes an event that a reader accepts. */
    method Emit(e: Event, ghost next: seq<Seen>)
      requires StreamOk(stream) && Replayable() && !IsTerminal(e) && (!started ==> e == FIRST)
      requires clean && started ==> ReplayStep(decode, Streaming(blocks), e) == Streaming(next)
      requires clean && !started ==> ReplayStep(decode, Nothing, e) == Streaming(next)
      modifies stream, this`blocks, this`started
      ensures StreamOk(stream) && Replayable() && started && blocks == next
      ensures clean ==> ToolEnds(stream.accepted) == ToolEnds(old(stream.accepted)) + if e.Closed? && e.kind == ToolKind then [e.index] else []
    {
      ReplayAppend(decode, stream.accepted, e);
      ToolEndsAppend(stream.accepted, e);
      PushOne(stream, e);
      blocks, started := next, true;
    }

    method Begin()
      requires Valid() && Unclosed() && !started && content == []
      modifies stream, this`blocks, this`started
      ensures Valid() && Unclosed() && started && (old(Faithful()) ==> Faithful())
    {
      hide ReplayAll, ToolEnds, Holds;
      assert blocks == [];
      Emit(Start(Message(content, Pending)), []);
    }

    /** A new block at the end of the message. */
    method OpenBlock(b: Block) returns (index: nat)
      requires StreamOk(stream) && Replayable() && Unclosed() && started && Repeats(blocks, content)
      requires b == TextBlock("") || b == ThinkingBlock("") || b.CallBlock?
      modifies stream, this`blocks, this`started, this`content
      ensures StreamOk(stream) && Replayable() && Unclosed() && started && Repeats(blocks, content)
      ensures index == |old(content)| && content == old(content) + [b]
      ensures blocks == old(blocks) + [Seen(KindOf(b), "", false)]
    {
      hide ReplayAll, ToolEnds;
      index := |content|;
      content := content + [b];
      Emit(Opened(KindOf(b), index, Message(content, Pending)), blocks + [Seen(KindOf(b), "", false)]);
    }

    /** A block that has grown by a delta. */
    method GrowBlock(index: nat, b: Block, delta: string)
      requires StreamOk(stream) && Replayable() && Unclosed() && started && Repeats(blocks, content)
      requires index < |content| && delta != "" && KindOf(b) == KindOf(content[index])
      requires b.TextBlock? ==> b.text == content[index].text + delta
      requires b.ThinkingBlock? ==> b.thinking == content[index].thinking + delta
      modifies stream, this`blocks, this`started, this`content
      ensures StreamOk(stream) && Replayable() && Unclosed() && started && Repeats(blocks, content)
      ensures content == old(content)[index := b]
      ensures blocks == old(blocks)[index := old(blocks)[index].(text := old(blocks)[index].text + delta)]
    {
      hide ReplayAll, ToolEnds;
      content := content[index := b];
      Emit(Grown(KindOf(b), index, delta, Message(content, Pending)),
           blocks[index := blocks[index].(text := blocks[index].text + delta)]);
    }

    /** Text that is not empty grows the one text block, opened at the end of the message if there is
        none. */
    method AddText(delta: string)
      requires Valid() && Unclosed() && Faithful() && started && delta != ""
      modifies stream, this`content, this`blocks, this`started, this`textIndex, this`read
      ensures Valid() && Unclosed() && Faithful() && started && read == old(read) + [TextPiece(delta)]
    {
      hide ReplayAll, ToolEnds, Repeats, Holds;
      if textIndex.None? {
        var index := OpenBlock(TextBlock(""));
        textIndex := Some(index);
      }
      var i := textIndex.value;
      GrowBlock(i, TextBlock(content[i].text + delta), delta);
      HoldsMoreText(decode, old(content), content, old(textIndex), i, thinkingIndex, tools, finish, read, delta);
      read := read + [TextPiece(delta)];
    }

    /** Reasoning grows the one thinking block likewise. */
    method AddThinking(delta: string)
      requires Valid() && Unclosed() && Faithful() && started && delta != ""
      modifies stream, this`content, this`blocks, this`started, this`thinkingIndex, this`read
      ensures Valid() && Unclosed() && Faithful() && started && read == old(read) + [ThinkingPiece(delta)]
    {
      hide ReplayAll, ToolEnds, Repeats, Holds;
      if thinkingIndex.None? {
        var index := OpenBlock(ThinkingBlock(""));
        thinkingIndex := Some(index);
      }
      var i := thinkingIndex.value;
      GrowBlock(i, ThinkingBlock(content[i].thinking + delta), delta);
      HoldsMoreThinking(decode, old(content), content, textIndex, old(thinkingIndex), i, tools, finish, read, delta);
      read := read + [ThinkingPiece(delta)];
    }

    /** A tool call seen for the first time under a provider index. */
    method OpenCall(key: int, id: string)
      requires Valid() && Unclosed() && started && key !in tools
      modifies stream, this`content, this`blocks, this`started, this`tools
      ensures Valid() && Unclosed() && started
      ensures content == old(content) + [CallBlock(id, "", EMPTY_OBJECT)] && tools == old(tools)[key := Accumulator(|old(content)|, "")]
    {
      hide ReplayAll, ToolEnds, Repeats;
      var index := OpenBlock(CallBlock(id, "", EMPTY_OBJECT));
      tools := tools[key := Accumulator(index, "")];
      CallOpened(old(content), content, textIndex, thinkingIndex, old(tools), key);
    }

    /** Rewrites the block of a tool call; no event tells of it. */
    method SetCall(key: int, b: Block)
      requires Valid() && started && key in tools && b.CallBlock?
      modifies this`content
      ensures Valid() && content == old(content)[tools[key].index := b]
    {
      hide ReplayAll, ToolEnds;
      content := content[tools[key].index := b];
      forall i | 0 <= i < |content| ensures OwnedBy(content[i], i, textIndex, thinkingIndex, tools) {
        assert OwnedBy(old(content)[i], i, textIndex, thinkingIndex, tools);
      }
    }

    /** A non-empty piece of a call's arguments; false if decoding what has arrived raises. */
    method GrowCall(key: int, delta: string) returns (ok: bool)
      requires Valid() && Unclosed() && started && key in tools && delta != ""
      requires tools[key].index < |content| && content[tools[key].index].CallBlock?
      modifies stream, this`content, this`blocks, this`started, this`tools
      ensures Valid() && Unclosed() && started
      ensures var a := old(tools[key]); var decoded := decode(a.raw + delta); var b := old(content)[a.index];
              if decoded.Undecodable? then !ok
              else ok && tools == old(tools)[key := Accumulator(a.index, a.raw + delta)]
                   && content == old(content)[a.index := if decoded.Object? then b.(arguments := decoded.text) else b]
    {
      hide ReplayAll, ToolEnds, Repeats;
      var a := tools[key];
      var raw := a.raw + delta;
      var b := content[a.index];
      var decoded := decode(raw);
      if decoded.Undecodable? {
        return false;
      }
      if decoded.Object? {
        b := b.(arguments := decoded.text);
      }
      GrowBlock(a.index, b, delta);
      tools := tools[key := Accumulator(a.index, raw)];
      CallGrown(old(content), content, old(blocks), blocks, textIndex, thinkingIndex, old(tools), key, raw);
      return true;
    }

    /** The id and the name that one entry brings, each if it is there. */
    method NameCall(key: int, id: string, name: string)
      requires Valid() && started && key in tools && tools[key].index < |content| && content[tools[key].index].CallBlock?
      modifies this`content
      ensures Valid()
      ensures var i := tools[key].index; var b := old(content)[i];
              content == old(content)[i := CallBlock(if id != "" then id else b.id, b.name + name, b.arguments)]
    {
      hide ReplayAll, ToolEnds, Repeats, Tracked;
      var i := tools[key].index;
      if id != "" {
        SetCall(key, content[i].(id := id));
      }
      if name != "" {
        SetCall(key, content[i].(name := content[i].name + name));
      } else {
        assert content[i].name + name == content[i].name;
      }
      assert content == old(content)[i := content[i]];
    }

    /** The block of a provider index, opened at the end of the message if there is none. */
    method FindCall(key: int, id: string)
      requires Valid() && Unclosed() && started
      modifies stream, this`content, this`blocks, this`started, this`tools
      ensures Valid() && Unclosed() && started && key in tools
      ensures tools[key].index < |content| && content[tools[key].index].CallBlock?
      ensures if old(key in tools) then content == old(content) && tools == old(tools)
              else content == old(content) + [CallBlock(id, "", EMPTY_OBJECT)] && tools == old(tools)[key := Accumulator(|old(content)|, "")]
    {
      hide ReplayAll, ToolEnds, Repeats, Tracked;
      if key !in tools {
        OpenCall(key, id);
      }
      CallIsListed(key);
    }

    /** One entry of a delta's `tool_calls`: it goes to the one block that its provider index opened, or
        opens one; false if it raises. */
    method AddCall(call: RawCall) returns (ok: bool)
      requires Valid() && Unclosed() && Faithful() && started
      modifies stream, this`content, this`blocks, this`started, this`tools, this`read
      ensures Valid() && Unclosed() && started && (ok <==> ReadCall(decode, old(read), call).Read?)
      ensures ok ==> Faithful() && read == ReadCall(decode, old(read), call).pieces
    {
      hide Valid, Unclosed, Holds, HoldsCall, ArgumentsOf;
      if call.NotACall? {
        return true;
      }
      if call.index.None? {
        return false;
      }
      var key := call.index.value;
      CallsBefore(key);
      FindCall(key, call.id);
      NameCall(key, call.id, call.name);
      if call.arguments != "" {
        ok := GrowCall(key, call.arguments);
        if !ok {
          return;
        }
      } else {
        assert tools[key].raw + "" == tools[key].raw && tools == tools[key := tools[key]];
      }
      ghost var p := CallPiece(key, call.id, call.name, call.arguments);
      CallHeld(old(content), old(tools), p);
      read := read + [p];
      return true;
    }

    /** The block of a provider index has taken up one more entry. */
    lemma CallHeld(was: seq<Block>, had: map<int, Accumulator>, p: Piece)
      requires Holds(decode, was, textIndex, thinkingIndex, had, finish, read) && p.CallPiece?
      requires forall j :: j in had && j != p.key && p.key in had ==> had[j].index != had[p.key].index
      requires p.key !in had ==> forall j :: j in had ==> had[j].index < |was|
      requires var key := p.key; var at := if key in had then had[key].index else |was|;
               var raw := if key in had then had[key].raw else "";
               && (key in had ==> at < |was| && was[at].CallBlock?)
               && var b := if key in had then was[at] else CallBlock(p.id, "", EMPTY_OBJECT);
               && var decoded := decode(raw + p.arguments);
               && tools == had[key := Accumulator(at, raw + p.arguments)]
               && content == (if key in had then was else was + [b])[at :=
                    CallBlock(if p.id != "" then p.id else b.id, b.name + p.name,
                              if p.arguments != "" && decoded.Object? then decoded.text else b.arguments)]
      ensures Holds(decode, content, textIndex, thinkingIndex, tools, finish, read + [p])
    {
      hide ArgumentsOf, NameOf, IdOf, ShownOf, KeysOf, TextOf, ThinkingOf, FinishOf, Slots;
      var key := p.key;
      CallAdds(decode, read, p, key);
      if key in had {
        assert HoldsCall(decode, was, had[key], read, key);
        HoldsMoreCalls(decode, was, content, textIndex, thinkingIndex, had, finish, read, p, had[key].index);
      } else {
        UnknownKey(decode, read, key);
        HoldsMoreCalls(decode, was, content, textIndex, thinkingIndex, had, finish, read, p, |was|);
      }
    }

    lemma CallsBefore(key: int)
      requires Valid() && Faithful()
      ensures Holds(decode, content, textIndex, thinkingIndex, tools, finish, read) && forall j :: j in tools ==> tools[j].index < |content|
      ensures if key in tools then tools[key].raw == ArgumentsOf(read, key) && content[tools[key].index].CallBlock? else ArgumentsOf(read, key) == ""
      ensures forall j :: j in tools && j != key && key in tools ==> tools[j].index != tools[key].index
    {
      hide ReplayAll, ToolEnds, Repeats, ArgumentsOf, NameOf, IdOf, ShownOf, KeysOf;
      if key !in tools {
        UnknownKey(decode, read, key);
      }
    }

    lemma CallIsListed(key: int)
      requires Valid() && key in tools
      ensures tools[key].index < |content| && content[tools[key].index].CallBlock?
    {
      hide ReplayAll, ToolEnds;
    }

    /** One choice of a chunk; false if it raises. */
    method AddChoice(choice: Choice) returns (ok: bool)
      requires Valid() && Unclosed() && Faithful() && started
      modifies stream, this`content, this`blocks, this`started, this`textIndex, this`thinkingIndex, this`tools, this`finish, this`read
      ensures Valid() && Unclosed() && started && (ok <==> ReadChoice(decode, old(read), choice).Read?)
      ensures ok ==> Faithful() && read == ReadChoice(decode, old(read), choice).pieces
    {
      hide Valid, Unclosed, Holds, ReadCall;
      if choice.NotAChoice? {
        return true;
      }
      if choice.finish.Some? {
        FinishIsHeld(choice.finish.value);
        finish, read := choice.finish, read + [FinishPiece(choice.finish.value)];
        assert Faithful();
      }
      if choice.text != "" {
        AddText(choice.text);
      }
      if choice.thinking != "" {
        AddThinking(choice.thinking);
      }
      ghost var plain := read;
      assert plain == old(read) + Plain(choice);
      assert choice.calls[0..] == choice.calls;
      for i := 0 to |choice.calls|
        invariant Valid() && Unclosed() && Faithful() && started
        invariant ReadCalls(decode, read, choice.calls[i..]) == ReadCalls(decode, plain, choice.calls)
      {
        assert choice.calls[i..][1..] == choice.calls[i + 1..];
        ok := AddCall(choice.calls[i]);
        if !ok {
          return;
        }
      }
      return true;
    }

    lemma FinishIsHeld(reason: string)
      requires Faithful()
      ensures Holds(decode, content, textIndex, thinkingIndex, tools, Some(reason), read + [FinishPiece(reason)])
    {
      hide ArgumentsOf, NameOf, IdOf, ShownOf, KeysOf, TextOf, ThinkingOf, FinishOf, Slots;
      var p := FinishPiece(reason);
      PieceAdds(read, p);
      forall k | k in tools ensures HoldsCall(decode, content, tools[k], read + [p], k) {
        CallAdds(decode, read, p, k);
      }
    }

    /** One chunk: the first starts the response; false if it raises. */
    method AddChunk(choices: Option<seq<Choice>>) returns (ok: bool)
      requires Valid() && Unclosed() && Faithful() && (!started ==> content == [])
      modifies stream, this`content, this`blocks, this`started, this`textIndex, this`thinkingIndex, this`tools, this`finish, this`read
      ensures Valid() && Unclosed() && started && (ok <==> choices.Some? && ReadChoices(decode, old(read), choices.value).Read?)
      ensures ok ==> Faithful() && read == ReadChoices(decode, old(read), choices.value).pieces
    {
      hide Valid, Unclosed, Faithful, ReadChoice;
      if !started {
        Begin();
      }
      if choices.None? {
        return false;
      }
      for i := 0 to |choices.value|
        invariant Valid() && Unclosed() && Faithful() && started
        invariant ReadChoices(decode, read, choices.value[i..]) == ReadChoices(decode, old(read), choices.value)
      {
        assert choices.value[i..][1..] == choices.value[i + 1..];
        ok := AddChoice(choices.value[i]);
        if !ok {
          return;
        }
      }
      return true;
    }

    /** A block's end event. */
    method CloseBlock(index: nat, b: Block)
      requires Valid() && started && index < |content| && content[index] == b
      requires !blocks[index].closed && Settles(decode, blocks[index], b)
      modifies stream, this`blocks, this`started
      ensures Valid() && started
      ensures blocks == old(blocks)[index := old(blocks)[index].(closed := true)]
      ensures clean ==> ToolEnds(stream.accepted) == ToolEnds(old(stream.accepted)) + if b.CallBlock? then [index] else []
    {
      hide ReplayAll, ToolEnds;
      Emit(Closed(KindOf(b), index, b, Message(content, Pending)), blocks[index := blocks[index].(closed := true)]);
    }

    ghost predicate ClosedSoFar(ks: seq<int>, n: nat)
      reads this, stream
    {
      && n <= |ks| && (forall k :: k in tools <==> k in ks)
      && ClosedUpTo(decode, content, blocks, tools, ks, n)
      && (clean ==> ToolEnds(stream.accepted) == Positions(tools, ks[..n]))
    }

    method CloseTexts()
      requires Valid() && Unclosed() && started
      modifies stream, this`blocks, this`started
      ensures Valid() && started && (clean ==> ToolEnds(stream.accepted) == [])
      ensures |blocks| == |content| && forall i :: 0 <= i < |content| ==> (blocks[i].closed <==> !content[i].CallBlock?)
    {
      hide ReplayAll, ToolEnds;
      if textIndex.Some? {
        CloseBlock(textIndex.value, content[textIndex.value]);
      }
      if thinkingIndex.Some? {
        CloseBlock(thinkingIndex.value, content[thinkingIndex.value]);
      }
      forall i | 0 <= i < |content| ensures blocks[i].closed <==> !content[i].CallBlock? {
        assert OwnedBy(content[i], i, textIndex, thinkingIndex, tools);
      }
    }

    /** The end event of one call; false if its arguments are no object. */
    method CloseCall(ks: seq<int>, n: nat) returns (ok: bool)
      requires Valid() && started && n < |ks| && ClosedSoFar(ks, n)
      modifies stream, this`blocks, this`started, this`content
      ensures Valid() && started
      ensures ks[n] in tools && (ok <==> decode(tools[ks[n]].raw).Object?)
      ensures ok ==> ClosedSoFar(ks, n + 1) && tools[ks[n]].index < |old(content)| && old(content)[tools[ks[n]].index].CallBlock?
                     && content == old(content)[tools[ks[n]].index := old(content)[tools[ks[n]].index].(arguments := decode(tools[ks[n]].raw).text)]
    {
      hide ReplayAll, ToolEnds, Repeats, ClosedUpTo;
      ClosedUpToNext(decode, content, blocks, tools, ks, n);
      var a := tools[ks[n]];
      CallIsListed(ks[n]);
      var decoded := decode(a.raw);
      if !decoded.Object? {
        return false;
      }
      SetCall(ks[n], content[a.index].(arguments := decoded.text));
      CallTold(ks[n]);
      CloseBlock(a.index, content[a.index]);
      CallClosed(decode, old(content), content, old(blocks), blocks, textIndex, thinkingIndex, tools, ks, n);
      assert Positions(tools, ks[..n + 1]) == Positions(tools, ks[..n]) + [a.index];
      return true;
    }

    /** The end of a response that was read to its end: every block is closed and `Done` follows with
        what was read, unless a call's arguments are no object, or the run is cancelled at the last
        moment. */
    method Complete(cancelledLate: bool) returns (r: Option<Exn>, ghost order: seq<int>)
      requires Valid() && Unclosed() && Faithful() && (!started ==> content == [])
      modifies stream, this`blocks, this`started, this`content
      ensures StreamOk(stream) && started && (late ==> stream.done && stream.accepted == before)
      ensures !late ==> before + [FIRST] <= stream.accepted
      ensures r == if !Decodable(decode, read) then Some(OtherError) else if cancelledLate then Some(Cancellation) else None
      ensures if r.Some? then Valid() else stream.done
      ensures r.None? && !late ==> stream.accepted != [] && TellsAnswer(decode, stream.accepted[|stream.accepted| - 1], read)
      ensures clean && r.None? ==> ReplayAll(decode, stream.accepted) == Ended(blocks)
      ensures r.None? ==> Ascending(order) && (forall k :: k in tools <==> k in order)
      ensures clean && r.None? ==> ToolEnds(stream.accepted) == Positions(tools, order)
    {
      hide ReplayAll, ToolEnds, Tracked, Repeats, Holds, BearsAll, KeysOf, ArgumentsOf, Decodable, Unclosed, ClosedSoFar;
      WhatIsHeld();
      if !started {
        Begin();
      }
      CloseTexts();
      var ks := Sorted(tools.Keys);
      NoCallsClosed(ks);
      order := ks;
      var ok := CloseCalls(ks);
      if !ok {
        return Some(OtherError), ks;
      }
      if cancelledLate {
        return Some(Cancellation), ks;
      }
      Conclude(ks);
      return None, ks;
    }

    /** Closes the calls in the order of their provider indices; false if some arguments are no object. */
    method CloseCalls(ks: seq<int>) returns (ok: bool)
      requires Valid() && started && ClosedSoFar(ks, 0) && BearsAll(content, tools, finish, read)
      modifies stream, this`blocks, this`started, this`content
      ensures Valid() && started && (ok <==> Decodable(decode, read))
      ensures ok ==> ClosedSoFar(ks, |ks|) && BearsAll(content, tools, finish, read)
    {
      hide ReplayAll, ToolEnds, Tracked, Repeats, BearsAll, KeysOf, ArgumentsOf, Decodable, ClosedSoFar, Valid;
      for n := 0 to |ks|
        invariant Valid() && started && ClosedSoFar(ks, n) && BearsAll(content, tools, finish, read)
        invariant forall m :: 0 <= m < n ==> ks[m] in tools && decode(tools[ks[m]].raw).Object?
      {
        ghost var was := content;
        ok := CloseCall(ks, n);
        Undecoded(was, ks[n]);
        if !ok {
          return;
        }
        ArgumentsSet(was, tools, finish, read, tools[ks[n]].index, decode(tools[ks[n]].raw).text);
      }
      AllDecoded(ks);
      return true;
    }

    /** The terminal event of a response whose blocks are all closed. */
    method Conclude(ks: seq<int>)
      requires Valid() && started && ClosedSoFar(ks, |ks|) && BearsAll(content, tools, finish, read)
      modifies stream
      ensures StreamOk(stream) && stream.done && (late ==> stream.accepted == before)
      ensures !late ==> before + [FIRST] <= stream.accepted && TellsAnswer(decode, stream.accepted[|stream.accepted| - 1], read)
      ensures clean ==> ReplayAll(decode, stream.accepted) == Ended(blocks) && ToolEnds(stream.accepted) == Positions(tools, ks)
    {
      hide ReplayAll, ToolEnds, Tracked, Repeats, BearsAll, Answer, StopsAs;
      var message := Message(content, MapFinishReason(finish, tools != map[]));
      IsAnswer(ks, message);
      AnswerStops(decode, read);
      if clean {
        AllAreClosed(ks, message);
      }
      assert ks[..|ks|] == ks;
      ReplayAppend(decode, stream.accepted, Done(message));
      ToolEndsAppend(stream.accepted, Done(message));
      PushOne(stream, Done(message));
    }

    lemma WhatIsHeld()
      requires Valid() && Faithful()
      ensures BearsAll(content, tools, finish, read)
    {
      hide ReplayAll, ToolEnds, Repeats, Holds, Tracked;
      HeldIsBorne(decode, content, blocks, textIndex, thinkingIndex, tools, finish, read);
    }

    lemma Undecoded(was: seq<Block>, key: int)
      requires BearsAll(was, tools, finish, read) && key in tools
      ensures !decode(tools[key].raw).Object? ==> !Decodable(decode, read)
    {
    }

    lemma AllDecoded(ks: seq<int>)
      requires BearsAll(content, tools, finish, read) && ClosedSoFar(ks, |ks|)
      requires forall m :: 0 <= m < |ks| ==> ks[m] in tools && decode(tools[ks[m]].raw).Object?
      ensures Decodable(decode, read)
    {
      forall k | k in KeysOf(read) ensures decode(ArgumentsOf(read, k)).Object? {
        assert k in tools && k in ks;
      }
    }

    /** What was read, with the arguments of every call decoded. */
    lemma IsAnswer(ks: seq<int>, message: Message)
      requires Valid() && ClosedSoFar(ks, |ks|) && BearsAll(content, tools, finish, read)
      requires message == Message(content, MapFinishReason(finish, tools != map[]))
      ensures message == Answer(decode, read)
    {
      hide ReplayAll, ToolEnds, ArgumentsOf, NameOf, IdOf, KeysOf, TextOf, ThinkingOf, FinishOf, Slots, Repeats;
      forall i | 0 <= i < |content| ensures content[i] == Rendered(decode, read, Slots(read)[i]) {
        assert OwnedBy(content[i], i, textIndex, thinkingIndex, tools) && Bears(content[i], Slots(read)[i], read);
        if content[i].CallBlock? {
          var k :| k in tools && tools[k].index == i;
          var m :| 0 <= m < |ks| && ks[m] == k;
          assert Settles(decode, blocks[i], content[i]);
        }
      }
      assert tools == map[] <==> KeysOf(read) == {};
    }

    /** The lines of a response, until the end mark, the last one, or something that raises. */
    method ReadLines(lines: seq<Line>) returns (raised: Option<Exn>)
      requires Valid() && Unclosed() && Faithful() && !started && content == [] && read == []
      modifies stream, this
      ensures Valid() && Unclosed() && (!started ==> content == [])
      ensures match ReadAll(decode, [], lines)
              case Read(pieces) => raised.None? && Faithful() && read == pieces
              case Failing(exn) => raised == Some(exn)
      ensures raised.Some? ==> (started <==> Tells(lines))
    {
      hide Valid, Unclosed, Faithful, ReplayAll, ToolEnds, ReadChoices;
      assert lines[0..] == lines;
      for i := 0 to |lines|
        invariant Valid() && Unclosed() && Faithful() && (!started ==> content == [])
        invariant ReadAll(decode, read, lines[i..]) == ReadAll(decode, [], lines)
        invariant if started then Tells(lines) else Tells(lines[i..]) == Tells(lines)
      {
        assert lines[i..][1..] == lines[i + 1..];
        match lines[i]
        case Skip =>
        case EndMark => return None;
        case Raises(exn) => return Some(exn);
        case Chunk(choices) =>
          if choices.Some? {
            ChoicesFailing(decode, read, choices.value);
          }
          var ok := AddChunk(choices);
          if !ok {
            return Some(OtherError);
          }
      }
      return None;
    }

    lemma CallTold(key: int)
      requires Valid() && key in tools
      ensures |blocks| == |content| && tools[key].index < |content|
      ensures blocks[tools[key].index].kind == ToolKind && blocks[tools[key].index].text == tools[key].raw
    {
      hide ReplayAll, ToolEnds;
    }

    lemma NoCallsClosed(ks: seq<int>)
      requires Valid() && (forall k :: k in tools <==> k in ks) && Ascending(ks)
      requires clean ==> ToolEnds(stream.accepted) == []
      requires |blocks| == |content| && forall i :: 0 <= i < |content| ==> (blocks[i].closed <==> !content[i].CallBlock?)
      ensures ClosedSoFar(ks, 0)
    {
      hide ReplayAll, ToolEnds;
      forall m | 0 <= m < |ks|
        ensures ks[m] in tools && tools[ks[m]].index < |content| && !blocks[tools[ks[m]].index].closed
      {
        assert ks[m] in ks;
        CallIsListed(ks[m]);
      }
      assert Positions(tools, ks[..0]) == [];
    }

    lemma AllAreClosed(ks: seq<int>, message: Message)
      requires Valid() && ClosedSoFar(ks, |ks|) && message.content == content && clean && started
      ensures ReplayStep(decode, ReplayAll(decode, stream.accepted), Done(message)) == Ended(blocks)
    {
      hide ReplayAll, ToolEnds;
      forall i | 0 <= i < |content| ensures blocks[i].closed && Settles(decode, blocks[i], content[i]) {
        assert OwnedBy(content[i], i, textIndex, thinkingIndex, tools);
        if content[i].CallBlock? {
          var k :| k in tools && tools[k].index == i;
          var m :| 0 <= m < |ks| && ks[m] == k;
        }
      }
      assert AllClosed(blocks);
      assert Repeats(blocks, message.content);
      DoneEnds(decode, blocks, message);
      assert ReplayAll(decode, stream.accepted) == Streaming(blocks);
    }
  }

  lemma DoneEnds(decode: Decoder, blocks: seq<Seen>, m: Message)
    requires AllClosed(blocks) && Repeats(blocks, m.content)
    requires forall i :: 0 <= i < |blocks| ==> Settles(decode, blocks[i], m.content[i])
    ensures ReplayStep(decode, Streaming(blocks), Done(m)) == Ended(blocks)
  {
  }

  /** The text and the thinking block are closed, and the calls of the first `n` keys, in the order
      of the keys. */
  ghost predicate ClosedUpTo(decode: Decoder, content: seq<Block>, blocks: seq<Seen>, tools: map<int, Accumulator>, ks: seq<int>, n: nat)
    requires n <= |ks|
  {
    && Distinct(ks) && |blocks| == |content|
    && (forall m :: 0 <= m < |ks| ==> ks[m] in tools && tools[ks[m]].index < |content|)
    && (forall i :: 0 <= i < |content| && !content[i].CallBlock? ==> blocks[i].closed)
    && (forall m :: 0 <= m < n ==> blocks[tools[ks[m]].index].closed && Settles(decode, blocks[tools[ks[m]].index], content[tools[ks[m]].index]))
    && (forall m :: n <= m < |ks| ==> !blocks[tools[ks[m]].index].closed)
  }

  lemma ClosedUpToNext(decode: Decoder, content: seq<Block>, blocks: seq<Seen>, tools: map<int, Accumulator>, ks: seq<int>, n: nat)
    requires n < |ks| && ClosedUpTo(decode, content, blocks, tools, ks, n)
    ensures ks[n] in tools && tools[ks[n]].index < |content| == |blocks| && !blocks[tools[ks[n]].index].closed
  {
  }

  lemma CallClosed(decode: Decoder, before: seq<Block>, after: seq<Block>, seen: seq<Seen>, told: seq<Seen>,
                   text: Option<nat>, thinking: Option<nat>, tools: map<int, Accumulator>, ks: seq<int>, n: nat)
    requires n < |ks| && ClosedUpTo(decode, before, seen, tools, ks, n) && Tracked(after, told, text, thinking, tools)
    requires var i := tools[ks[n]].index;
             && |after| == |before| == |told| && (forall j :: 0 <= j < |before| && j != i ==> after[j] == before[j] && told[j] == seen[j])
             && told[i].closed && Settles(decode, told[i], after[i]) && after[i].CallBlock?
    ensures ClosedUpTo(decode, after, told, tools, ks, n + 1)
  {
    forall m | 0 <= m < |ks| && m != n ensures tools[ks[m]].index != tools[ks[n]].index {
      assert ks[m] in tools && ks[n] in tools && ks[m] != ks[n];
    }
  }

  ghost predicate Ascending(ks: seq<int>) {
    forall i, j :: 0 <= i < j < |ks| ==> ks[i] < ks[j]
  }

  ghost predicate Distinct(ks: seq<int>) {
    forall i, j :: 0 <= i < j < |ks| ==> ks[i] != ks[j]
  }

  /** Where the calls of some provider indices are in the message. */
  ghost function Positions(tools: map<int, Accumulator>, ks: seq<int>): (ps: seq<nat>)
    ensures |ps| == |ks|
  {
    seq(|ks|, i requires 0 <= i < |ks| => if ks[i] in tools then tools[ks[i]].index else 0)
  }

  lemma CallGrown(before: seq<Block>, after: seq<Block>, seen: seq<Seen>, told: seq<Seen>,
                  text: Option<nat>, thinking: Option<nat>, tools: map<int, Accumulator>, key: int, raw: string)
    requires Tracked(before, seen, text, thinking, tools) && key in tools
    requires var i := tools[key].index;
             && |after| == |before| && after[i].CallBlock? && (forall j :: 0 <= j < |before| && j != i ==> after[j] == before[j])
             && |told| == |seen| && told[i].text == raw && (forall j :: 0 <= j < |seen| && j != i ==> told[j] == seen[j])
    ensures Tracked(after, told, text, thinking, tools[key := Accumulator(tools[key].index, raw)])
  {
    var grown := tools[key := Accumulator(tools[key].index, raw)];
    forall i | 0 <= i < |after| ensures OwnedBy(after[i], i, text, thinking, grown) {
      assert OwnedBy(before[i], i, text, thinking, tools);
      if after[i].CallBlock? {
        var k :| k in tools && tools[k].index == i;
        assert k in grown && grown[k].index == i;
      }
    }
  }

  /** The stream of a provider: terminal events complete it. */
  ghost predicate StreamOk(stream: EventStreams.EventStream<Event, Message>)
    reads stream
  {
    && stream.Valid() && (forall e :: stream.isComplete(e) <==> IsTerminal(e))
    && OneTerminal(stream.accepted, stream.done)
  }

  /** A terminal event is accepted exactly when the stream is done, and then it is the last one. */
  ghost predicate OneTerminal(accepted: seq<Event>, done: bool) {
    && (forall i :: 0 <= i < |accepted| - 1 ==> !IsTerminal(accepted[i]))
    && (done <==> accepted != [] && IsTerminal(accepted[|accepted| - 1]))
  }

  method PushOne(stream: EventStreams.EventStream<Event, Message>, e: Event)
    requires StreamOk(stream)
    modifies stream
    ensures StreamOk(stream)
    ensures stream.accepted == old(stream.accepted) + if old(stream.done) then [] else [e]
    ensures stream.done <==> old(stream.done) || IsTerminal(e)
  {
    EventStreams.StepAccepts(stream.isComplete, stream.extract, stream.View(), EventStreams.Push(e));
    stream.Push(e);
  }

  // ----- the request and its retries -----

  /** `_run_once` with its exception clauses: it ends the stream exactly when the response was read and
      told to its end, whatever closing the connection raises after that. */
  method RunOnce(decode: Decoder, stream: EventStreams.EventStream<Event, Message>, attempt: Attempt) returns (raised: Option<Exn>, partial: seq<Block>)
    requires StreamOk(stream)
    modifies stream
    ensures StreamOk(stream) && raised == RaisedBy(decode, attempt)
    ensures stream.done <==> old(stream.done) || Completes(decode, attempt)
    ensures !Starts(attempt) ==> partial == [] && stream.accepted == old(stream.accepted)
    ensures old(stream.done) ==> stream.accepted == old(stream.accepted)
    ensures Starts(attempt) && old(!stream.done) ==> old(stream.accepted) + [FIRST] <= stream.accepted
    ensures Completes(decode, attempt) && old(!stream.done) ==>
              stream.accepted != [] && TellsAnswer(decode, stream.accepted[|stream.accepted| - 1], ReadAll(decode, [], attempt.lines).pieces)
    ensures old(stream.accepted == [] && !stream.done) && Starts(attempt) ==>
              if stream.done then ReplayAll(decode, stream.accepted).Ended?
              else ReplayAll(decode, stream.accepted).Streaming? && CanFail(ReplayAll(decode, stream.accepted), partial)
    ensures old(stream.accepted == [] && !stream.done) && Starts(attempt) && !stream.done ==>
              if attempt.closing.Some? || raised == Some(Cancellation) then partial == []
              else Repeats(ReplayAll(decode, stream.accepted).blocks, partial)
  {
    hide ReplayAll, ToolEnds, Tracked, Repeats, TellsAnswer, Holds, Decodable;
    var response := new Response(decode, stream);
    raised := attempt.opening;
    if raised.None? {
      raised := response.ReadLines(attempt.lines);
      if raised.None? {
        ReadTells(decode, [], attempt.lines);
        ghost var order;
        raised, order := response.Complete(attempt.cancelledLate);
      }
    }
    partial := [];
    if raised.Some? && !raised.value.Cancellation? && response.started {
      partial := response.content;
    }
    if raised.Some? {
      raised := Some(Told(raised.value, response.started));
    }
    if attempt.opening.None? && attempt.closing.Some? {
      raised, partial := attempt.closing, [];
    }
  }

  /** Two rounds of the retry loop on which a response starts twice: the first request breaks after
      its start, and closing its connection raises an error of its own that asks for a retry. */
  lemma StartsTwice(decode: Decoder, requests: nat -> Attempt, policy: Policy)
    requires requests(0) == Attempt(None, [Chunk(None)], false, Some(ProviderError(Failure(true, false, None))))
    requires requests(1) == Attempt(None, [EndMark], false, None) && policy.maxRetries > 0
    ensures WaitsAfter(RaisedBy(decode, requests(0)), 0, policy) && RaisedBy(decode, requests(1)).None?
    ensures StartsAgain(decode, requests, 0, 1)
  {
    assert RetryDelay(None, 0, policy.base, policy.maximum).Wait?;
  }

  lemma {:induction false} BrokenLater(decode: Decoder, log: seq<Event>, n: nat)
    requires 0 < n < |log| && log[n].Start?
    ensures ReplayAll(decode, log) == Broken
  {
    if ReplayAll(decode, log) != Broken {
      StartsOnceEndsOnce(decode, log);
    }
  }

  /** What the accepted events are to a reader, after requests that told a story. */
  ghost predicate Reads(decode: Decoder, accepted: seq<Event>, done: bool, story: Story) {
    match story
    case Untold => accepted == [] && !done
    case Begun => !done && ReplayAll(decode, accepted).Streaming?
    case Concluded => done && ReplayAll(decode, accepted).Ended?
    case Restarted => ReplayAll(decode, accepted) == Broken
  }

  lemma NothingReplayed(decode: Decoder)
    ensures ReplayAll(decode, []) == Nothing && CanFail(Nothing, [])
  {
  }

  /** A failure with these blocks may end what was told so far. */
  ghost predicate CanFail(told: Replay, partial: seq<Block>) {
    match told
    case Nothing => partial == []
    case Streaming(bs) => partial == [] || Repeats(bs, partial)
    case _ => false
  }

  /** A request made after others adds what it tells. */
  lemma ReadsOn(decode: Decoder, before: seq<Event>, wasDone: bool, after: seq<Event>, isDone: bool, requests: nat -> Attempt, n: nat)
    requires var a := requests(n);
             && Reads(decode, before, wasDone, StoryOf(decode, requests, n))
             && (isDone <==> wasDone || Completes(decode, a)) && (wasDone ==> after == before) && (!Starts(a) ==> after == before)
             && (!wasDone && Starts(a) ==> before + [FIRST] <= after)
             && (before == [] && !wasDone && Starts(a) ==> if isDone then ReplayAll(decode, after).Ended? else ReplayAll(decode, after).Streaming?)
    ensures Reads(decode, after, isDone, StoryOf(decode, requests, n + 1))
  {
    hide ReplayAll, Completes, Starts;
    var a := requests(n);
    NothingReplayed(decode);
    if Completes(decode, a) {
      CompletesStarts(decode, a);
    }
    if !wasDone && before != [] && Starts(a) {
      assert after[|before|] == (before + [FIRST])[|before|];
      BrokenLater(decode, after, |before|);
    }
  }

  /** The terminal event of a run that failed. */
  method Fail(decode: Decoder, stream: EventStreams.EventStream<Event, Message>, exn: Exn, partial: seq<Block>)
    requires StreamOk(stream)
    modifies stream
    ensures StreamOk(stream) && stream.done
    ensures stream.accepted == old(stream.accepted) + if old(stream.done) then [] else [Failed(Message(partial, StopOf(exn)))]
    ensures old(!stream.done && CanFail(ReplayAll(decode, stream.accepted), partial)) ==> ReplayAll(decode, stream.accepted).Ended?
    ensures old(ReplayAll(decode, stream.accepted) == Broken) ==> ReplayAll(decode, stream.accepted) == Broken
  {
    hide ReplayAll;
    ReplayAppend(decode, stream.accepted, Failed(Message(partial, StopOf(exn))));
    PushOne(stream, Failed(Message(partial, StopOf(exn))));
    assert old(stream.done) ==> stream.accepted == old(stream.accepted);
  }

  function StopOf(exn: Exn): StopReason {
    if exn.Cancellation? then Aborted else Error
  }

  /** `stream.end()` accepts nothing. */
  method EndStream(stream: EventStreams.EventStream<Event, Message>)
    requires StreamOk(stream)
    modifies stream
    ensures stream.done && stream.accepted == old(stream.accepted)
  {
    EventStreams.StepAccepts(stream.isComplete, stream.extract, stream.View(), EventStreams.End(None));
    stream.End(None);
  }

  function Positive(x: real): (r: real)
    ensures r >= 0.0
  {
    if x < 0.0 then 0.0 else x
  }

  function Pow2(n: nat): (p: int)
    ensures p >= 1
  {
    if n == 0 then 1 else 2 * Pow2(n - 1)
  }

  /** The delay before retry `n` when the provider asks for none, before the maximum is applied. */
  function BackoffDelay(base: real, n: nat): real {
    Positive(base) * (Pow2(n) as real)
  }

  /** What the first `n` such delays add up to. */
  function BackoffSum(base: real, n: nat): real {
    Positive(base) * ((Pow2(n) - 1) as real)
  }

  /** It doubles with each retry, from the base; a negative base is none. */
  lemma BackoffDoubles(base: real, n: nat)
    ensures BackoffDelay(base, 0) == if base > 0.0 then base else 0.0
    ensures BackoffDelay(base, n + 1) == BackoffDelay(base, n) + BackoffDelay(base, n)
  {
    var b, p := Positive(base), Pow2(n) as real;
    assert Pow2(n + 1) as real == p + p;
    assert b * (p + p) == b * p + b * p;
  }

  lemma BackoffGrows(base: real, n: nat)
    ensures BackoffSum(base, n) + BackoffDelay(base, n) == BackoffSum(base, n + 1)
    ensures BackoffDelay(base, n) >= 0.0
  {
    var b, p := Positive(base), Pow2(n) as real;
    assert (Pow2(n + 1) - 1) as real == (p - 1.0) + p;
    assert b * ((p - 1.0) + p) == b * (p - 1.0) + b * p;
  }

  lemma NoBackoff(base: real)
    ensures BackoffSum(base, 0) == 0.0
  {
  }

  /** What asking for a delay comes to: a delay, an error because the provider asks for too long a
      one, or an exception because the power of two is not a float. */
  datatype Delay = Wait(seconds: real) | TooLong | Overflow

  const FLOAT_EXPONENTS: nat := 1024

  /** `retry_delay`: what the provider asked for, unless that exceeds the maximum; otherwise the
      base doubled with each attempt, up to the maximum.  A maximum that is not positive is none. */
  function RetryDelay(requested: Option<real>, attempt: nat, base: real, maximum: real): (delay: Delay)
    ensures delay.Wait? && maximum > 0.0 ==> delay.seconds <= maximum
    ensures delay.Wait? && requested.Some? ==> delay.seconds == requested.value
    ensures delay.Wait? && requested.None? ==> delay.seconds <= BackoffDelay(base, attempt)
    ensures delay.Wait? && requested.None? && delay.seconds != BackoffDelay(base, attempt) ==> delay.seconds == maximum > 0.0
    ensures delay.TooLong? <==> requested.Some? && 0.0 < maximum < requested.value
    ensures delay.Overflow? <==> requested.None? && attempt >= FLOAT_EXPONENTS
  {
    match requested
    case Some(r) => if maximum > 0.0 && r > maximum then TooLong else Wait(r)
    case None =>
      if attempt >= FLOAT_EXPONENTS then Overflow
      else
        var d := BackoffDelay(base, attempt);
        Wait(if maximum > 0.0 && d > maximum then maximum else d)
  }

  datatype Policy = Policy(maxRetries: int, base: real, maximum: real)

  /** The requests a run may make. */
  function MaxAttempts(p: Policy): nat {
    1 + if p.maxRetries < 0 then 0 else p.maxRetries
  }

  /** An error that asks for a retry, raised before the response started. */
  predicate AsksAgain(raised: Option<Exn>) {
    raised.Some? && raised.value.ProviderError? && raised.value.failure.retryable && !raised.value.failure.started
  }

  function DelayAfter(raised: Option<Exn>, k: nat, p: Policy): Delay
    requires AsksAgain(raised)
  {
    RetryDelay(raised.value.failure.retryAfter, k, p.base, p.maximum)
  }

  /** The same of an exception's shape. */
  predicate Retryable(raised: Option<Exn>) {
    match raised
    case Some(ProviderError(Failure(true, false, _))) => true
    case _ => false
  }

  /** After request `k` the loop waits, to make another one. */
  predicate WaitsAfter(raised: Option<Exn>, k: nat, p: Policy) {
    && Retryable(raised) && k < p.maxRetries
    && match raised.value.failure.retryAfter
       case Some(seconds) => !(0.0 < p.maximum < seconds)
       case None => k < 1024
  }

  /** After request `k` the delay overflows. */
  predicate OverflowsAfter(raised: Option<Exn>, k: nat, p: Policy) {
    Retryable(raised) && k < p.maxRetries && raised.value.failure.retryAfter.None? && k >= 1024
  }

  /** The accepted events after `n` requests: done when one was told to its end, and then ended by
      the answer of the first such. */
  ghost predicate Standing(decode: Decoder, accepted: seq<Event>, done: bool, requests: nat -> Attempt, n: nat) {
    && Reads(decode, accepted, done, StoryOf(decode, requests, n))
    && (done <==> !NoneCompletes(decode, requests, n))
    && forall k :: 0 <= k < n ==> FirstIsTold(decode, accepted, requests, k)
  }

  ghost predicate FirstIsTold(decode: Decoder, accepted: seq<Event>, requests: nat -> Attempt, k: nat) {
    Completes(decode, requests(k)) && NoneCompletes(decode, requests, k) ==>
      accepted != [] && TellsAnswer(decode, accepted[|accepted| - 1], ReadAll(decode, [], requests(k).lines).pieces)
  }

  /** The accepted events after a run.  Unless a delay overflowed, there is one terminal event, the
      last: the answer of the first response told to its end, or else a failure.  A reader is content
      exactly when there is a terminal event and no response started again. */
  ghost predicate Settled(decode: Decoder, accepted: seq<Event>, requests: nat -> Attempt, attempts: nat, failure: Option<StopReason>) {
    && OneTerminal(accepted, failure.Some? || !NoneCompletes(decode, requests, attempts))
    && (forall k :: 0 <= k < attempts ==> FirstIsTold(decode, accepted, requests, k))
    && (NoneCompletes(decode, requests, attempts) && failure.Some? ==>
          accepted != [] && accepted[|accepted| - 1].Failed? && accepted[|accepted| - 1].message.stop == failure.value)
    && (ReplayAll(decode, accepted).Ended? <==>
          && (failure.Some? || !NoneCompletes(decode, requests, attempts))
          && !exists i: nat, j: nat :: j < attempts && StartsAgain(decode, requests, i, j))
  }

  lemma StandsUntold(decode: Decoder, requests: nat -> Attempt)
    ensures Standing(decode, [], false, requests, 0)
  {
  }

  /** A failure with these blocks ends what was told, unless a reader has given up. */
  ghost predicate MayFail(decode: Decoder, accepted: seq<Event>, partial: seq<Block>) {
    ReplayAll(decode, accepted) == Broken || CanFail(ReplayAll(decode, accepted), partial)
  }

  lemma FailsWithNothing(decode: Decoder, accepted: seq<Event>, story: Story)
    requires Reads(decode, accepted, false, story)
    ensures MayFail(decode, accepted, [])
  {
    hide ReplayAll;
    NothingReplayed(decode);
  }

  lemma FailsOnlyAfterFirst(decode: Decoder, before: seq<Event>, after: seq<Event>, isDone: bool, requests: nat -> Attempt, n: nat)
    requires Reads(decode, before, false, StoryOf(decode, requests, n)) && Reads(decode, after, isDone, StoryOf(decode, requests, n + 1))
    requires before != [] && Starts(requests(n))
    ensures ReplayAll(decode, after) == Broken
  {
    hide ReplayAll, Completes, Starts;
  }

  /** One request of a run. */
  method Round(decode: Decoder, stream: EventStreams.EventStream<Event, Message>, requests: nat -> Attempt, n: nat)
    returns (raised: Option<Exn>, partial: seq<Block>)
    requires StreamOk(stream) && Standing(decode, stream.accepted, stream.done, requests, n)
    modifies stream
    ensures StreamOk(stream) && Standing(decode, stream.accepted, stream.done, requests, n + 1)
    ensures raised == RaisedBy(decode, requests(n)) && (raised.None? ==> stream.done)
    ensures !stream.done ==> MayFail(decode, stream.accepted, partial) && MayFail(decode, stream.accepted, [])
  {
    hide ReplayAll, OneTerminal, Starts, TellsAnswer, ReadAll, StoryOf, Reads, CanFail, NoneCompletes;
    raised, partial := RunOnce(decode, stream, requests(n));
    ReadsOn(decode, old(stream.accepted), old(stream.done), stream.accepted, stream.done, requests, n);
    StandsOn(decode, old(stream.accepted), old(stream.done), stream.accepted, stream.done, requests, n);
    if !stream.done {
      FailsWithNothing(decode, stream.accepted, StoryOf(decode, requests, n + 1));
      if old(stream.accepted) != [] && Starts(requests(n)) {
        FailsOnlyAfterFirst(decode, old(stream.accepted), stream.accepted, stream.done, requests, n);
      }
    }
  }

  lemma StandsOn(decode: Decoder, before: seq<Event>, wasDone: bool, after: seq<Event>, isDone: bool, requests: nat -> Attempt, n: nat)
    requires Standing(decode, before, wasDone, requests, n) && Reads(decode, after, isDone, StoryOf(decode, requests, n + 1))
    requires var a := requests(n);
             && (isDone <==> wasDone || Completes(decode, a)) && (wasDone ==> after == before)
             && (!wasDone && Completes(decode, a) ==> after != [] && TellsAnswer(decode, after[|after| - 1], ReadAll(decode, [], a.lines).pieces))
    ensures Standing(decode, after, isDone, requests, n + 1)
  {
    hide Reads, StoryOf, Completes, TellsAnswer, ReadAll;
    forall k | 0 <= k < n + 1 ensures FirstIsTold(decode, after, requests, k) {
      if k < n {
        assert FirstIsTold(decode, before, requests, k);
      }
    }
  }

  /** What stands is settled when a run ends without a failure of its own. */
  lemma StandsSettled(decode: Decoder, accepted: seq<Event>, done: bool, requests: nat -> Attempt, attempts: nat, failure: Option<StopReason>)
    requires Standing(decode, accepted, done, requests, attempts) && OneTerminal(accepted, done) && (failure.Some? ==> done)
    ensures Settled(decode, accepted, requests, attempts, failure)
  {
    hide ReplayAll, OneTerminal, TellsAnswer, FirstIsTold, StartsAgain, NoneCompletes;
    NothingReplayed(decode);
    WhenRestarted(decode, requests, attempts);
  }

  /** And when it ends with one. */
  method Break(decode: Decoder, stream: EventStreams.EventStream<Event, Message>, exn: Exn, partial: seq<Block>, ghost requests: nat -> Attempt, ghost attempts: nat)
    requires StreamOk(stream) && Standing(decode, stream.accepted, stream.done, requests, attempts)
    requires !stream.done ==> MayFail(decode, stream.accepted, partial)
    modifies stream
    ensures StreamOk(stream) && stream.done
    ensures Settled(decode, stream.accepted, requests, attempts, Some(StopOf(exn)))
  {
    hide ReplayAll, OneTerminal, TellsAnswer, StoryOf, Reads, CanFail, NoneCompletes, Completes, StartsAgain, FirstIsTold;
    Fail(decode, stream, exn, partial);
    if old(stream.done) {
      assert stream.accepted == old(stream.accepted);
      StandsSettled(decode, stream.accepted, true, requests, attempts, Some(StopOf(exn)));
    } else {
      FailedSettled(decode, old(stream.accepted), stream.accepted, requests, attempts, Failed(Message(partial, StopOf(exn))));
    }
  }

  lemma FailedSettled(decode: Decoder, before: seq<Event>, after: seq<Event>, requests: nat -> Attempt, attempts: nat, e: Event)
    requires Standing(decode, before, false, requests, attempts) && after == before + [e] && e.Failed? && OneTerminal(after, true)
    requires if ReplayAll(decode, before) == Broken then ReplayAll(decode, after) == Broken else ReplayAll(decode, after).Ended?
    ensures Settled(decode, after, requests, attempts, Some(e.message.stop))
  {
    hide ReplayAll, OneTerminal, Answer, StartsAgain, Completes, StoryOf;
    NothingReplayed(decode);
    WhenRestarted(decode, requests, attempts);
    forall k | 0 <= k < attempts ensures FirstIsTold(decode, after, requests, k) {
    }
  }

  /** `_run`.  `requests(k)` is what happens to the k-th request, `cancelled(k)` whether the run is
      cancelled while it waits after it.  `waits` are the delays between requests, and `backoff` the
      sum of those that no provider asked for.  The loop goes on as long as it waits and is not
      cancelled. */
  method Run(decode: Decoder, stream: EventStreams.EventStream<Event, Message>, requests: nat -> Attempt, cancelled: nat -> bool, policy: Policy)
    returns (attempts: nat, waits: seq<real>, backoff: real, overflowed: bool)
    requires StreamOk(stream) && stream.accepted == [] && !stream.done
    modifies stream
    ensures attempts == 1 || 1 < attempts <= policy.maxRetries + 1
    ensures forall k :: 0 <= k < attempts - 1 ==> WaitsAfter(RaisedBy(decode, requests(k)), k, policy) && !cancelled(k)
    ensures var k := attempts - 1; var raised := RaisedBy(decode, requests(k));
            && (WaitsAfter(raised, k, policy) ==> cancelled(k))
            && |waits| == (if WaitsAfter(raised, k, policy) then attempts else k)
            && (overflowed <==> OverflowsAfter(raised, k, policy))
    ensures forall k :: 0 <= k < |waits| ==> WaitIs(RaisedBy(decode, requests(k)), k, policy, waits[k])
    ensures BacksOff(decode, requests, policy, waits, backoff)
    ensures stream.done
    ensures Settled(decode, stream.accepted, requests, attempts,
                    if overflowed then None
                    else if |waits| == attempts || RaisedBy(decode, requests(attempts - 1)) == Some(Cancellation) then Some(Aborted)
                    else Some(Error))
  {
    hide ReplayAll, OneTerminal, BacksOff, RetryDelay, RaisedBy, Standing, Settled, MayFail;
    NothingWaited(decode, requests, policy);
    StandsUntold(decode, requests);
    attempts, waits, backoff, overflowed := 0, [], 0.0, false;
    while true
      invariant StreamOk(stream) && attempts == |waits| < MaxAttempts(policy) && !overflowed
      invariant forall k :: 0 <= k < attempts ==> WaitsAfter(RaisedBy(decode, requests(k)), k, policy) && !cancelled(k)
      invariant forall k :: 0 <= k < |waits| ==> WaitIs(RaisedBy(decode, requests(k)), k, policy, waits[k])
      invariant BacksOff(decode, requests, policy, waits, backoff)
      invariant Standing(decode, stream.accepted, stream.done, requests, attempts)
      decreases MaxAttempts(policy) - attempts
    {
      var raised, partial := Round(decode, stream, requests, attempts);
      attempts := attempts + 1;
      if raised.None? {
        StandsSettled(decode, stream.accepted, stream.done, requests, attempts, Some(Error));
        break;
      }
      if !AsksAgain(raised) || attempts >= MaxAttempts(policy) {
        Break(decode, stream, raised.value, partial, requests, attempts);
        break;
      }
      var delay := DelayAfter(raised, attempts - 1, policy);
      if delay.TooLong? {
        Break(decode, stream, raised.value, partial, requests, attempts);
        break;
      }
      if delay.Overflow? {
        overflowed := true;
        StandsSettled(decode, stream.accepted, stream.done, requests, attempts, None);
        break;
      }
      MoreBackoff(decode, requests, policy, waits, backoff, delay.seconds);
      if raised.value.failure.retryAfter.None? {
        backoff := backoff + delay.seconds;
      }
      waits := waits + [delay.seconds];
      if cancelled(attempts - 1) {
        Break(decode, stream, Cancellation, [], requests, attempts);
        break;
      }
    }
    EndStream(stream);
  }

  predicate WaitIs(raised: Option<Exn>, k: nat, p: Policy, seconds: real) {
    && Retryable(raised) && (p.maximum > 0.0 ==> seconds <= p.maximum)
    && match raised.value.failure.retryAfter
       case Some(requested) => seconds == requested
       case None => seconds <= BackoffDelay(p.base, k) && (seconds == BackoffDelay(p.base, k) || seconds == p.maximum > 0.0)
  }

  /** The sum of the waits after failures that asked for none. */
  ghost function Unasked(decode: Decoder, requests: nat -> Attempt, waits: seq<real>): real {
    if waits == [] then 0.0
    else
      var k := |waits| - 1;
      var raised := RaisedBy(decode, requests(k));
      Unasked(decode, requests, waits[..k]) + if Retryable(raised) && raised.value.failure.retryAfter.None? then waits[k] else 0.0
  }

  /** `backoff` is that sum, and at most what doubling the base adds up to. */
  ghost predicate BacksOff(decode: Decoder, requests: nat -> Attempt, p: Policy, waits: seq<real>, backoff: real) {
    backoff == Unasked(decode, requests, waits) && backoff <= BackoffSum(p.base, |waits|)
  }

  lemma NothingWaited(decode: Decoder, requests: nat -> Attempt, p: Policy)
    ensures BacksOff(decode, requests, p, [], 0.0)
  {
    NoBackoff(p.base);
  }

  lemma UnaskedGrows(decode: Decoder, requests: nat -> Attempt, waits: seq<real>, seconds: real)
    ensures var raised := RaisedBy(decode, requests(|waits|));
            Unasked(decode, requests, waits + [seconds])
            == Unasked(decode, requests, waits) + if Retryable(raised) && raised.value.failure.retryAfter.None? then seconds else 0.0
  {
    hide RaisedBy, Retryable;
    assert (waits + [seconds])[..|waits|] == waits;
  }

  lemma MoreBackoff(decode: Decoder, requests: nat -> Attempt, p: Policy, waits: seq<real>, backoff: real, seconds: real)
    requires BacksOff(decode, requests, p, waits, backoff) && WaitIs(RaisedBy(decode, requests(|waits|)), |waits|, p, seconds)
    ensures var requested := RaisedBy(decode, requests(|waits|)).value.failure.retryAfter;
            BacksOff(decode, requests, p, waits + [seconds], if requested.None? then backoff + seconds else backoff)
  {
    hide BackoffSum, BackoffDelay, RaisedBy, Unasked;
    UnaskedGrows(decode, requests, waits, seconds);
    BackoffGrows(p.base, |waits|);
  }

  /** A provider that always asks for another attempt and for no delay, with more retries allowed than a
      float has exponents: the stream ends without a terminal event. */
  method NeverEnds(decode: Decoder, stream: EventStreams.EventStream<Event, Message>) returns (attempts: nat)
    requires StreamOk(stream) && stream.accepted == [] && !stream.done
    modifies stream
    ensures attempts == 1025 && stream.done && OneTerminal(stream.accepted, false)
  {
    hide BacksOff, OneTerminal, ReplayAll;
    var always := Attempt(Some(ProviderError(Failure(true, false, None))), [], false, None);
    var policy := Policy(FLOAT_EXPONENTS + 1, 1.0, 0.0);
    var requests: nat -> Attempt, waits, backoff, overflowed := _ => always, [], 0.0, false;
    attempts, waits, backoff, overflowed := Run(decode, stream, requests, _ => false, policy);
    assert RaisedBy(decode, always) == always.opening;
    assert forall k: nat :: WaitsAfter(always.opening, k, policy) <==> k < FLOAT_EXPONENTS;
    assert attempts > FLOAT_EXPONENTS + 1 ==> WaitsAfter(RaisedBy(decode, requests(FLOAT_EXPONENTS)), FLOAT_EXPONENTS, policy);
    assert RaisedBy(decode, requests(attempts - 1)) == always.opening;
    assert NoneCompletes(decode, requests, attempts);
  }
}
