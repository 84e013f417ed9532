/** Messages, agent events, the event reducer of `Agent` and the grammar of a run's event log. */
module Transcript {
  import opened Prelude

  datatype StopReason = Pending | Stop | Length | ToolUse | Error | Aborted | Deferred

  datatype ToolCall = ToolCall(id: string, name: string, arguments: string)

  datatype Block = Text(text: string) | Thinking(thinking: string) | Call(call: ToolCall)

  /** `Custom` is an application-only message; it travels through the transcript like the others. */
  datatype Message =
    | User(text: string)
    | Custom(payload: string)
    | Assistant(content: seq<Block>, stop: StopReason, error: Option<string>)
    | ToolResult(callId: string, toolName: string, payload: string, isError: bool)

  type AssistantMessage = m: Message | m.Assistant? witness Assistant([], Pending, None)

  datatype Event =
    | AgentStart
    | AgentEnd(messages: seq<Message>)
    | TurnStart
    | TurnEnd(message: Message, results: seq<Message>)
    | MessageStart(message: Message)
    | MessageUpdate(message: Message)
    | MessageEnd(message: Message)
    | ToolStart(id: string, name: string)
    | ToolUpdate(id: string, name: string)
    | ToolEnd(id: string, name: string, payload: string, isError: bool)

  function SequenceCalls(content: seq<Block>): seq<ToolCall> {
    if content == [] then []
    else (if content[0].Call? then [content[0].call] else []) + SequenceCalls(content[1..])
  }

  /** The calls of a message are its call blocks, in order. */
  lemma {:induction false} CallsInOrder(content: seq<Block>, more: seq<Block>, call: ToolCall)
    ensures SequenceCalls(content + more) == SequenceCalls(content) + SequenceCalls(more)
    ensures SequenceCalls([Call(call)]) == [call]
    ensures (forall b :: b in content ==> !b.Call?) <==> SequenceCalls(content) == []
  {
    assert [Call(call)][1..] == [];
    if content == [] {
      assert content + more == more;
    } else {
      assert (content + more)[1..] == content[1..] + more;
      CallsInOrder(content[1..], more, call);
      assert content == [content[0]] + content[1..];
    }
  }

  // ----- the reducer -----

  /** The part of `AgentState` that events change. */
  datatype Reduced = Reduced(
    messages: seq<Message>,
    streaming: Option<Message>,
    pending: set<string>,
    error: Option<string>)

  predicate Failed(m: Message) {
    m.Assistant? && (m.stop == Error || m.stop == Aborted)
  }

  function Reduce(s: Reduced, e: Event): Reduced {
    match e
    case MessageStart(m) => if m.Assistant? then s.(streaming := Some(m)) else s
    case MessageUpdate(m) => s.(streaming := Some(m))
    case MessageEnd(m) =>
      s.(messages := s.messages + [m],
         streaming := if m.Assistant? then None else s.streaming,
         error := if Failed(m) then m.error else s.error)
    case ToolStart(id, _) => s.(pending := s.pending + {id})
    case ToolEnd(id, _, _, _) => s.(pending := s.pending - {id})
    case _ => s
  }

  function ReduceAll(s: Reduced, log: seq<Event>): Reduced {
    if log == [] then s else Reduce(ReduceAll(s, log[..|log| - 1]), log[|log| - 1])
  }

  // ----- the grammar -----

  /** What the events so far say about the run.  `ended` are the messages closed since the run
      began, `turn` those closed in the open turn, `open` the message that has started and not
      ended, and `tools` the tool executions that have started and not ended. */
  datatype Grammar =
    | Idle
    | Between(ended: seq<Message>)
    | Turn(ended: seq<Message>, turn: seq<Message>, open: Option<Message>, tools: multiset<string>)
    | Done(ended: seq<Message>)
    | Broken

  predicate SameRole(a: Message, b: Message) {
    (a.Assistant? && b.Assistant?) || a == b
  }

  predicate EndsWith(whole: seq<Message>, tail: seq<Message>) {
    |tail| <= |whole| && whole[|whole| - |tail|..] == tail
  }

  /** One event read by the grammar:
      a turn opens only between turns and closes only with nothing open inside it; its end event
      repeats the assistant message and the tool results that closed it; a message closes before
      the next opens, and only an assistant message changes in between; a tool update or end needs
      a tool that is open; the run's end event repeats every message closed since it began. */
  function Step(g: Grammar, e: Event): Grammar {
    match (g, e)
    case (Idle, AgentStart) => Between([])
    case (Between(ended), TurnStart) => Turn(ended, [], None, multiset{})
    case (Between(ended), AgentEnd(ms)) => if ms == ended then Done(ended) else Broken
    case (Turn(ended, turn, None, tools), MessageStart(m)) =>
      if tools == multiset{} then Turn(ended, turn, Some(m), tools) else Broken
    case (Turn(ended, turn, Some(a), tools), MessageUpdate(m)) =>
      if a.Assistant? && m.Assistant? then Turn(ended, turn, Some(m), tools) else Broken
    case (Turn(ended, turn, Some(a), tools), MessageEnd(m)) =>
      if SameRole(a, m) then Turn(ended + [m], turn + [m], None, tools) else Broken
    case (Turn(ended, turn, None, tools), ToolStart(id, _)) =>
      Turn(ended, turn, None, tools + multiset{id})
    case (Turn(ended, turn, None, tools), ToolUpdate(id, _)) =>
      if id in tools then g else Broken
    case (Turn(ended, turn, None, tools), ToolEnd(id, _, _, _)) =>
      if id in tools then Turn(ended, turn, None, tools - multiset{id}) else Broken
    case (Turn(ended, turn, None, tools), TurnEnd(m, results)) =>
      if tools == multiset{} && m.Assistant? && EndsWith(turn, [m] + results)
      then Between(ended) else Broken
    case _ => Broken
  }

  /** What reports a run that failed. */
  function FailureEvents(failure: Message, payload: seq<Message>): seq<Event> {
    [MessageStart(failure), MessageEnd(failure), TurnEnd(failure, []), AgentEnd(payload)]
  }

  function Parse(log: seq<Event>): Grammar {
    if log == [] then Idle else Step(Parse(log[..|log| - 1]), log[|log| - 1])
  }

  lemma ParseAppend(log: seq<Event>, e: Event)
    ensures Parse(log + [e]) == Step(Parse(log), e)
  {
    assert (log + [e])[..|log|] == log;
  }

  lemma ReduceAppend(s: Reduced, log: seq<Event>, e: Event)
    ensures ReduceAll(s, log + [e]) == Reduce(ReduceAll(s, log), e)
  {
    assert (log + [e])[..|log|] == log;
  }

  /** Broken stays broken, so a log the grammar accepts has accepted prefixes only. */
  lemma {:induction false} PrefixAccepted(log: seq<Event>, n: nat)
    requires n <= |log|
    requires Parse(log) != Broken
    ensures Parse(log[..n]) != Broken
  {
    if n < |log| {
      var shorter := log[..|log| - 1];
      PrefixAccepted(shorter, n);
      assert shorter[..n] == log[..n];
    } else {
      assert log[..n] == log;
    }
  }

  /** Once ended, nothing more is accepted. */
  lemma {:induction false} NothingAfterEnd(log: seq<Event>, n: nat)
    requires n < |log| && Parse(log) != Broken
    ensures !Parse(log[..n]).Done?
  {
    PrefixAccepted(log, n + 1);
    assert log[..n + 1][..n] == log[..n];
  }

  /** A finished log begins with its only `AgentStart` and ends with its only `AgentEnd`, whose
      payload is exactly the messages the log closed. */
  lemma {:induction false} FinishedLogIsBracketed(log: seq<Event>)
    requires Parse(log).Done?
    ensures |log| >= 2 && log[0] == AgentStart && log[|log| - 1] == AgentEnd(Closed(log))
    ensures forall i :: 0 < i < |log| ==> log[i] != AgentStart
    ensures forall i :: 0 <= i < |log| - 1 ==> !log[i].AgentEnd?
  {
    forall i | 0 <= i < |log|
      ensures (log[i] == AgentStart <==> i == 0) && (log[i].AgentEnd? ==> i == |log| - 1)
    {
      BracketAt(log, i);
    }
    assert Parse(log) == Step(Parse(log[..|log| - 1]), log[|log| - 1]);
    EndedIsClosed(log);
  }

  /** A run that has not ended has not reported its end. */
  lemma {:induction false} NoEndYet(log: seq<Event>)
    requires Parse(log) != Broken && !Parse(log).Done?
    ensures forall e :: e in log ==> !e.AgentEnd?
  {
    forall i | 0 <= i < |log| ensures !log[i].AgentEnd? {
      PrefixAccepted(log, i + 1);
      assert log[..i + 1][..i] == log[..i];
      assert Parse(log[..i + 1]) == Step(Parse(log[..i]), log[i]);
      if i + 1 < |log| { NothingAfterEnd(log, i + 1); } else { assert log[..i + 1] == log; }
    }
  }

  lemma {:induction false} BracketAt(log: seq<Event>, i: nat)
    requires i < |log| && Parse(log).Done?
    ensures (log[i] == AgentStart <==> i == 0) && (log[i].AgentEnd? ==> i == |log| - 1)
  {
    PrefixAccepted(log, i + 1);
    assert log[..i + 1][..i] == log[..i];
    assert Parse(log[..i + 1]) == Step(Parse(log[..i]), log[i]);
    if i > 0 { NotIdleAgain(log[..i]); } else { assert Parse(log[..i]) == Idle; }
    if i < |log| - 1 { NothingAfterEnd(log, i + 1); }
  }

  lemma NotIdleAgain(log: seq<Event>)
    requires log != []
    ensures Parse(log) != Idle
  {
  }

  /** The messages that a log closes, in order. */
  function Closed(log: seq<Event>): seq<Message> {
    if log == [] then []
    else
      var last := log[|log| - 1];
      Closed(log[..|log| - 1]) + if last.MessageEnd? then [last.message] else []
  }

  function EndedOf(g: Grammar): seq<Message> {
    if g.Between? || g.Turn? || g.Done? then g.ended else []
  }

  lemma {:induction false} EndedIsClosed(log: seq<Event>)
    requires Parse(log) != Broken
    ensures EndedOf(Parse(log)) == Closed(log)
  {
    if log != [] {
      PrefixAccepted(log, |log| - 1);
      EndedIsClosed(log[..|log| - 1]);
    }
  }

  function Count(log: seq<Event>, p: Event -> bool): nat {
    if log == [] then 0
    else Count(log[..|log| - 1], p) + if p(log[|log| - 1]) then 1 else 0
  }

  function Starts(log: seq<Event>, id: string): nat {
    Count(log, (e: Event) => e.ToolStart? && e.id == id)
  }

  function Ends(log: seq<Event>, id: string): nat {
    Count(log, (e: Event) => e.ToolEnd? && e.id == id)
  }

  function OpenCount(g: Grammar, id: string): nat {
    if g.Turn? then g.tools[id] else 0
  }

  /** Starts minus ends of an id is the number of its executions that are open. */
  lemma {:induction false} OpenToolsCount(log: seq<Event>, id: string)
    requires Parse(log) != Broken
    ensures Starts(log, id) == Ends(log, id) + OpenCount(Parse(log), id)
  {
    if log != [] {
      PrefixAccepted(log, |log| - 1);
      OpenToolsCount(log[..|log| - 1], id);
      StepCounts(Parse(log[..|log| - 1]), log[|log| - 1], id);
    }
  }

  lemma StepCounts(g: Grammar, e: Event, id: string)
    requires Step(g, e) != Broken
    ensures OpenCount(Step(g, e), id) + (if e.ToolEnd? && e.id == id then 1 else 0)
         == OpenCount(g, id) + if e.ToolStart? && e.id == id then 1 else 0
  {
  }

  /** In an accepted log every tool execution is bracketed: at any point at least as many starts as
      ends of the id have happened, strictly more at an update, and equally many at a turn's end. */
  lemma {:induction false} ToolExecutionsAreBracketed(log: seq<Event>, n: nat, id: string)
    requires Parse(log) != Broken && n < |log|
    ensures Starts(log[..n], id) >= Ends(log[..n], id)
    ensures log[n].ToolUpdate? && log[n].id == id ==> Starts(log[..n], id) > Ends(log[..n], id)
    ensures log[n].ToolEnd? && log[n].id == id ==> Starts(log[..n], id) > Ends(log[..n], id)
    ensures log[n].TurnEnd? ==> Starts(log[..n], id) == Ends(log[..n], id)
  {
    PrefixAccepted(log, n);
    PrefixAccepted(log, n + 1);
    assert log[..n + 1][..n] == log[..n];
    OpenToolsCount(log[..n], id);
  }

  /** Every id the reducer holds as pending belongs to an open execution.  With one execution per
      id at a time it is exactly the open ones; at a turn's end there is none either way. */
  lemma {:induction false} PendingIsOpen(s: Reduced, log: seq<Event>)
    requires Parse(log) != Broken && s.pending == {}
    ensures PendingWithinOpen(ReduceAll(s, log), Parse(log))
  {
    if log != [] {
      PrefixAccepted(log, |log| - 1);
      PendingIsOpen(s, log[..|log| - 1]);
      StaysWithinOpen(ReduceAll(s, log[..|log| - 1]), Parse(log[..|log| - 1]), log[|log| - 1]);
    }
  }

  ghost predicate PendingWithinOpen(r: Reduced, g: Grammar) {
    if g.Turn? then forall id :: id in r.pending ==> id in g.tools else r.pending == {}
  }

  lemma StaysWithinOpen(r: Reduced, g: Grammar, e: Event)
    requires Step(g, e) != Broken && PendingWithinOpen(r, g)
    ensures PendingWithinOpen(Reduce(r, e), Step(g, e))
  {
  }

  /** No id starts again while it is open. */
  ghost predicate DistinctOpenIds(log: seq<Event>) {
    forall n :: 0 <= n < |log| ==>
      log[n].ToolStart? && Parse(log[..n]).Turn? ==> log[n].id !in Parse(log[..n]).tools
  }

  ghost predicate ExactlyOpen(pending: set<string>, tools: multiset<string>) {
    forall id :: (id in pending <==> id in tools) && tools[id] <= 1
  }

  lemma {:induction false} PendingIsExactlyOpen(s: Reduced, log: seq<Event>)
    requires Parse(log) != Broken && s.pending == {} && DistinctOpenIds(log)
    ensures Parse(log).Turn? ==> ExactlyOpen(ReduceAll(s, log).pending, Parse(log).tools)
  {
    if log != [] {
      var shorter := log[..|log| - 1];
      var e := log[|log| - 1];
      PrefixAccepted(log, |log| - 1);
      assert forall n :: 0 <= n < |shorter| ==> shorter[..n] == log[..n];
      PendingIsExactlyOpen(s, shorter);
      PendingIsOpen(s, shorter);
      StaysExact(ReduceAll(s, shorter), Parse(shorter), e);
    }
  }

  lemma StaysExact(r: Reduced, g: Grammar, e: Event)
    requires Step(g, e) != Broken
    requires if g.Turn? then ExactlyOpen(r.pending, g.tools) else r.pending == {}
    requires g.Turn? && e.ToolStart? ==> e.id !in g.tools
    ensures Step(g, e).Turn? ==> ExactlyOpen(Reduce(r, e).pending, Step(g, e).tools)
  {
  }
}
