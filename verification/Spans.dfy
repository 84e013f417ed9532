/** The spans that tracing opens and closes as a session's events go by. */
module Spans {
  import opened Prelude
  import opened Transcript

  datatype Status = Fine | Faulty | Cancelled

  datatype Kind = RunSpan | TurnSpan | ToolSpan(id: string)

  /** A span without a given parent gets the one of the surrounding context, whatever that is. */
  datatype Parent = Ambient | Child(index: nat)

  /** `emitted` counts how often the provider was given the span. */
  datatype Span = Span(kind: Kind, parent: Parent, status: Option<Status>, emitted: nat)

  /** `Span.end`: only the first call counts. */
  function Ended(span: Span, status: Status): Span {
    if span.status.Some? then span else span.(status := Some(status), emitted := span.emitted + 1)
  }

  /** The spans started so far, named by their position, and those the instrumentation holds. */
  datatype Tracing = Tracing(spans: seq<Span>, run: Option<nat>, turn: Option<nat>, tools: map<string, nat>)

  function EndAt(spans: seq<Span>, index: Option<nat>, status: Status): (r: seq<Span>)
    ensures |r| == |spans|
  {
    if index.Some? && index.value < |spans| then spans[index.value := Ended(spans[index.value], status)] else spans
  }

  function EndAll(spans: seq<Span>, held: set<nat>, status: Status): (r: seq<Span>)
    ensures |r| == |spans|
  {
    seq(|spans|, i requires 0 <= i < |spans| => if i in held then Ended(spans[i], status) else spans[i])
  }

  function ChildOf(span: Option<nat>, otherwise: Parent): Parent {
    if span.Some? then Child(span.value) else otherwise
  }

  /** `_message_status`. */
  function StatusOf(m: Message): Status {
    if m.Assistant? && m.stop == Aborted then Cancelled
    else if m.Assistant? && m.stop == Error then Faulty
    else Fine
  }

  function LastAssistant(messages: seq<Message>): Option<Message> {
    if messages == [] then None
    else if messages[|messages| - 1].Assistant? then Some(messages[|messages| - 1])
    else LastAssistant(messages[..|messages| - 1])
  }

  function RunStatus(messages: seq<Message>): Status {
    var final := LastAssistant(messages);
    if final.Some? then StatusOf(final.value) else Fine
  }

  function FinishOpen(t: Tracing, status: Status): Tracing {
    Tracing(EndAt(EndAt(EndAll(t.spans, t.tools.Values, status), t.turn, status), t.run, status), None, None, map[])
  }

  function Opened(kind: Kind, parent: Parent): Span {
    Span(kind, parent, None, 0)
  }

  /** What one event does. */
  function Handle(t: Tracing, e: Event): Tracing {
    match e
    case AgentStart =>
      var z := FinishOpen(t, Cancelled);
      z.(spans := z.spans + [Opened(RunSpan, Ambient)], run := Some(|z.spans|))
    case TurnStart =>
      var spans := EndAt(t.spans, t.turn, Cancelled);
      t.(spans := spans + [Opened(TurnSpan, ChildOf(t.run, Ambient))], turn := Some(|spans|))
    case ToolStart(id, _) =>
      t.(spans := t.spans + [Opened(ToolSpan(id), ChildOf(t.turn, ChildOf(t.run, Ambient)))], tools := t.tools[id := |t.spans|])
    case ToolEnd(id, _, _, isError) =>
      if id !in t.tools then t
      else t.(spans := EndAt(t.spans, Some(t.tools[id]), if isError then Faulty else Fine), tools := t.tools - {id})
    case TurnEnd(m, _) => t.(spans := EndAt(t.spans, t.turn, StatusOf(m)), turn := None)
    case AgentEnd(messages) =>
      var spans := EndAt(EndAll(t.spans, t.tools.Values, Cancelled), t.turn, Cancelled);
      Tracing(EndAt(spans, t.run, RunStatus(messages)), None, None, map[])
    case _ => t
  }

  function HandleAll(t: Tracing, log: seq<Event>): Tracing {
    if log == [] then t else Handle(HandleAll(t, log[..|log| - 1]), log[|log| - 1])
  }

  // ----- what is held is open, and what is not has been emitted -----

  ghost predicate Held(t: Tracing, i: nat) {
    t.run == Some(i) || t.turn == Some(i) || i in t.tools.Values
  }

  ghost predicate EmittedWhenEnded(spans: seq<Span>) {
    forall i :: 0 <= i < |spans| ==> spans[i].emitted == if spans[i].status.Some? then 1 else 0
  }

  /** Held spans are of the right kind, open, and no two places hold the same one. */
  ghost predicate Tidy(t: Tracing) {
    && (t.run.Some? ==> t.run.value < |t.spans| && t.spans[t.run.value].kind == RunSpan)
    && (t.turn.Some? ==> t.turn.value < |t.spans| && t.spans[t.turn.value].kind == TurnSpan)
    && (forall id :: id in t.tools ==> t.tools[id] < |t.spans| && t.spans[t.tools[id]].kind == ToolSpan(id))
    && (forall i :: 0 <= i < |t.spans| && Held(t, i) ==> t.spans[i].status == None)
  }

  /** A tool execution starts under the id of one that has not ended. */
  predicate Overwrites(t: Tracing, e: Event) {
    e.ToolStart? && e.id in t.tools
  }

  /** Spans already started keep their kind and parent, and new ones come after them. */
  ghost predicate Grows(before: seq<Span>, after: seq<Span>) {
    && |before| <= |after|
    && forall i :: 0 <= i < |before| ==> after[i].kind == before[i].kind && after[i].parent == before[i].parent
  }

  lemma HandleGrows(t: Tracing, e: Event)
    ensures Grows(t.spans, Handle(t, e).spans)
  {
    hide RunStatus, StatusOf, EndAll;
    EndAllKeeps(t.spans, t.tools.Values, Cancelled);
  }

  lemma TidyStep(t: Tracing, e: Event)
    requires Tidy(t)
    ensures Tidy(Handle(t, e))
  {
    hide LastAssistant, EndAll;
    match e
    case AgentStart =>
      TidyClose(t, Cancelled);
    case ToolStart(_, _) => TidyToolStart(t, e);
    case ToolEnd(_, _, _, _) => TidyToolEnd(t, e);
    case AgentEnd(messages) => TidyEnd(t, messages);
    case _ =>
  }

  lemma EndAllKeeps(spans: seq<Span>, held: set<nat>, status: Status)
    ensures forall i :: 0 <= i < |spans| ==> EndAll(spans, held, status)[i].kind == spans[i].kind
    ensures forall i :: 0 <= i < |spans| ==> EndAll(spans, held, status)[i].parent == spans[i].parent
  {}

  lemma TidyClose(t: Tracing, status: Status)
    requires Tidy(t)
    ensures Tidy(FinishOpen(t, status))
  {
    hide EndAll;
    EndAllKeeps(t.spans, t.tools.Values, status);
  }

  lemma TidyEnd(t: Tracing, messages: seq<Message>)
    requires Tidy(t)
    ensures Tidy(Handle(t, AgentEnd(messages)))
  {
    hide EndAll, RunStatus;
    EndAllKeeps(t.spans, t.tools.Values, Cancelled);
  }

  lemma TidyToolStart(t: Tracing, e: Event)
    requires Tidy(t) && e.ToolStart?
    ensures Tidy(Handle(t, e))
  {
    var z := Handle(t, e);
    forall i | 0 <= i < |z.spans| && Held(z, i) ensures z.spans[i].status == None {
      if i < |t.spans| {
        assert Held(t, i) && z.spans[i] == t.spans[i];
      }
    }
  }

  lemma TidyToolEnd(t: Tracing, e: Event)
    requires Tidy(t) && e.ToolEnd?
    ensures Tidy(Handle(t, e))
  {
    var z := Handle(t, e);
    forall i | 0 <= i < |z.spans| && Held(z, i) ensures z.spans[i].status == None {
      assert Held(t, i);
    }
  }

  lemma EmittedStep(t: Tracing, e: Event)
    requires EmittedWhenEnded(t.spans)
    ensures EmittedWhenEnded(Handle(t, e).spans)
  {
    hide LastAssistant;
  }

  /** An open span that nothing holds any more: it will never be emitted. */
  ghost predicate Lost(t: Tracing, i: nat) {
    i < |t.spans| && t.spans[i].status == None && !Held(t, i)
  }

  lemma InRange(t: Tracing)
    requires Tidy(t)
    ensures t.run.Some? ==> t.run.value < |t.spans|
    ensures t.turn.Some? ==> t.turn.value < |t.spans|
    ensures forall id :: id in t.tools ==> t.tools[id] < |t.spans|
  {}

  lemma HeldTools(tools: map<string, nat>, id: string, index: nat, i: nat)
    requires forall a, b :: a in tools && b in tools && tools[a] == tools[b] ==> a == b
    ensures i in tools[id := index].Values <==> i == index || (i in tools.Values && !(id in tools && tools[id] == i))
    ensures i in (tools - {id}).Values <==> i in tools.Values && !(id in tools && tools[id] == i)
  {
    var set_, cut := tools[id := index], tools - {id};
    assert set_[id] == index;
    if i in tools.Values {
      var key :| key in tools && tools[key] == i;
      assert key != id ==> set_[key] == i && cut[key] == i;
    }
  }

  lemma Distinct(t: Tracing)
    requires Tidy(t)
    ensures forall a, b :: a in t.tools && b in t.tools && t.tools[a] == t.tools[b] ==> a == b
  {}

  lemma LostStep(t: Tracing, e: Event, i: nat)
    requires Tidy(t)
    ensures Lost(Handle(t, e), i) <==> Lost(t, i) || (Overwrites(t, e) && t.tools[e.id] == i)
  {
    hide LastAssistant, RunStatus, StatusOf;
    match e
    case ToolStart(_, _) => LostToolStart(t, e, i);
    case ToolEnd(_, _, _, _) => LostToolEnd(t, e, i);
    case _ =>
  }

  lemma LostToolStart(t: Tracing, e: Event, i: nat)
    requires Tidy(t) && e.ToolStart?
    ensures Lost(Handle(t, e), i) <==> Lost(t, i) || (Overwrites(t, e) && t.tools[e.id] == i)
  {
    Distinct(t);
    HeldTools(t.tools, e.id, |t.spans|, i);
  }

  lemma LostToolEnd(t: Tracing, e: Event, i: nat)
    requires Tidy(t) && e.ToolEnd?
    ensures Lost(Handle(t, e), i) <==> Lost(t, i)
  {
    Distinct(t);
    HeldTools(t.tools, e.id, 0, i);
  }

  // ----- every span is emitted once -----

  const NOTHING: Tracing := Tracing([], None, None, map[])

  /** The tool executions that have started, and not ended before or with their run. */
  function OpenIds(log: seq<Event>): set<string> {
    if log == [] then {} else OpenAfter(OpenIds(log[..|log| - 1]), log[|log| - 1])
  }

  /** What one event does to the ids of open tool executions. */
  function OpenAfter(ids: set<string>, e: Event): set<string> {
    match e
    case ToolStart(id, _) => ids + {id}
    case ToolEnd(id, _, _, _) => ids - {id}
    case AgentStart => {}
    case AgentEnd(_) => {}
    case _ => ids
  }

  /** Somewhere a tool execution starts under the id of one that is open. */
  predicate Reuses(log: seq<Event>) {
    log != [] &&
    var front, last := log[..|log| - 1], log[|log| - 1];
    Reuses(front) || (last.ToolStart? && last.id in OpenIds(front))
  }

  lemma {:induction false} KeysAreOpenIds(log: seq<Event>)
    ensures HandleAll(NOTHING, log).tools.Keys == OpenIds(log)
  {
    if log != [] {
      KeysAreOpenIds(log[..|log| - 1]);
      KeysStep(HandleAll(NOTHING, log[..|log| - 1]), log[|log| - 1]);
    }
  }

  lemma KeysStep(t: Tracing, e: Event)
    ensures Handle(t, e).tools.Keys == OpenAfter(t.tools.Keys, e)
  {}

  lemma {:induction false} TidyRun(log: seq<Event>)
    ensures Tidy(HandleAll(NOTHING, log)) && EmittedWhenEnded(HandleAll(NOTHING, log).spans)
  {
    hide Handle, Tidy, EmittedWhenEnded;
    if log == [] {
      TidyStart();
    } else {
      TidyRun(log[..|log| - 1]);
      TidyStep(HandleAll(NOTHING, log[..|log| - 1]), log[|log| - 1]);
      EmittedStep(HandleAll(NOTHING, log[..|log| - 1]), log[|log| - 1]);
    }
  }

  lemma TidyStart()
    ensures Tidy(NOTHING) && EmittedWhenEnded(NOTHING.spans)
  {}

  ghost predicate SomeLost(t: Tracing) {
    exists i :: Lost(t, i)
  }

  lemma {:induction false} LostByReuse(log: seq<Event>)
    ensures SomeLost(HandleAll(NOTHING, log)) <==> Reuses(log)
  {
    if log != [] {
      var front, e := log[..|log| - 1], log[|log| - 1];
      LostByReuse(front);
      var t := HandleAll(NOTHING, front);
      TidyRun(front);
      KeysAreOpenIds(front);
      LostByStep(t, e);
    }
  }

  lemma LostByStep(t: Tracing, e: Event)
    requires Tidy(t)
    ensures SomeLost(Handle(t, e)) <==> SomeLost(t) || Overwrites(t, e)
  {
    hide Lost, Handle, Tidy;
    var z := Handle(t, e);
    forall i ensures Lost(z, i) <==> Lost(t, i) || (Overwrites(t, e) && t.tools[e.id] == i) {
      LostStep(t, e, i);
    }
    if Overwrites(t, e) {
      assert Lost(z, t.tools[e.id]);
    }
  }

  /** `close`, like a new run, leaves nothing open that was not lost before. */
  lemma LostAtClose(t: Tracing, i: nat)
    requires Tidy(t)
    ensures Lost(FinishOpen(t, Cancelled), i) <==> Lost(t, i)
    ensures !Held(FinishOpen(t, Cancelled), i)
  {}

  lemma EmittedAtClose(t: Tracing)
    requires EmittedWhenEnded(t.spans)
    ensures EmittedWhenEnded(FinishOpen(t, Cancelled).spans)
  {}

  /** When nothing is held, a span has been emitted unless it is lost. */
  lemma SettledMeansEmitted(t: Tracing)
    requires EmittedWhenEnded(t.spans) && forall i :: !Held(t, i)
    ensures (forall i :: 0 <= i < |t.spans| ==> t.spans[i].emitted == 1) <==> !SomeLost(t)
    ensures forall i :: 0 <= i < |t.spans| ==> t.spans[i].emitted <= 1
  {
    hide Held;
    if i: nat :| i < |t.spans| && t.spans[i].emitted != 1 {
      assert Lost(t, i);
    }
  }

  /** After any events and `close`, no span is held, none has been emitted twice, and each has been
      emitted exactly when no tool execution ever started under the id of an open one. */
  lemma EmittedOnceByClose(log: seq<Event>)
    ensures var t := FinishOpen(HandleAll(NOTHING, log), Cancelled);
            && t.run == t.turn == None && t.tools == map[]
            && (forall i :: 0 <= i < |t.spans| ==> t.spans[i].emitted <= 1)
            && ((forall i :: 0 <= i < |t.spans| ==> t.spans[i].emitted == 1) <==> !Reuses(log))
  {
    hide Tidy, EmittedWhenEnded, Lost, Held, Handle;
    var t := HandleAll(NOTHING, log);
    var z := FinishOpen(t, Cancelled);
    TidyRun(log);
    LostByReuse(log);
    forall i: nat ensures Lost(z, i) <==> Lost(t, i) {
      LostAtClose(t, i);
    }
    forall i: nat ensures !Held(z, i) {
      LostAtClose(t, i);
    }
    EmittedAtClose(t);
    SettledMeansEmitted(z);
  }

  /** The same when a run's last event has gone by. */
  lemma EmittedOnceByEnd(log: seq<Event>)
    requires log != [] && log[|log| - 1].AgentEnd?
    ensures var t := HandleAll(NOTHING, log);
            && t.run == t.turn == None && t.tools == map[]
            && (forall i :: 0 <= i < |t.spans| ==> t.spans[i].emitted <= 1)
            && ((forall i :: 0 <= i < |t.spans| ==> t.spans[i].emitted == 1) <==> !Reuses(log))
  {
    hide Tidy, EmittedWhenEnded, Lost;
    TidyRun(log);
    LostByReuse(log);
    SettledMeansEmitted(HandleAll(NOTHING, log));
  }

  /** Two executions under one id: the first one's span is never emitted. */
  lemma ReuseLoses(id: string, name: string)
    ensures var t := FinishOpen(HandleAll(NOTHING, [ToolStart(id, name), ToolStart(id, name)]), Cancelled);
            |t.spans| == 2 && t.spans[0].emitted == 0 && t.spans[1].emitted == 1
  {
    var e := ToolStart(id, name);
    assert [] + [e] == [e] && [e] + [e] == [e, e];
    HandleOne(NOTHING, [], e);
    HandleOne(NOTHING, [e], e);
    var first := Handle(NOTHING, e);
    assert first.tools == map[id := 0] && |first.spans| == 1;
    var second := Handle(first, e);
    assert second.tools == map[id := 1] && |second.spans| == 2;
    assert second.tools[id] == 1 && second.tools.Values == {1};
  }

  // ----- parents -----

  /** Tool spans are children of turn spans, and those of run spans. */
  ghost predicate Nested(spans: seq<Span>) {
    forall i :: 0 <= i < |spans| ==>
      match spans[i].kind
      case RunSpan => spans[i].parent == Ambient
      case TurnSpan => ParentIs(spans, i, RunSpan)
      case ToolSpan(_) => ParentIs(spans, i, TurnSpan)
  }

  ghost predicate ParentIs(spans: seq<Span>, i: nat, kind: Kind)
    requires i < |spans|
  {
    spans[i].parent.Child? && spans[i].parent.index < i && spans[spans[i].parent.index].kind == kind
  }

  /** What is held at each point of a log that the grammar accepts. */
  ghost predicate Linked(t: Tracing, g: Grammar) {
    match g
    case Idle => t.run == t.turn == None && t.tools == map[]
    case Between(_) => t.run.Some? && t.turn == None && t.tools == map[]
    case Turn(_, _, _, open) =>
      && t.run.Some? && t.turn.Some? && t.turn.value < |t.spans| && t.spans[t.turn.value].parent == Child(t.run.value)
      && forall id :: id in t.tools ==>
           id in open && t.tools[id] < |t.spans| && t.spans[t.tools[id]].parent == Child(t.turn.value)
    case Done(_) => t.run == t.turn == None && t.tools == map[]
    case Broken => true
  }

  lemma LinkedStep(t: Tracing, g: Grammar, e: Event)
    requires Tidy(t) && Linked(t, g) && Step(g, e) != Broken
    ensures Linked(Handle(t, e), Step(g, e))
  {
    hide LastAssistant, EndsWith;
    HandleGrows(t, e);
  }

  lemma NestedStep(t: Tracing, g: Grammar, e: Event)
    requires Tidy(t) && Linked(t, g) && Nested(t.spans) && Step(g, e) != Broken
    ensures Nested(Handle(t, e).spans)
  {
    hide LastAssistant, EndsWith;
    HandleGrows(t, e);
  }

  lemma {:induction false} HandleAppend(t: Tracing, first: seq<Event>, second: seq<Event>)
    ensures HandleAll(t, first + second) == HandleAll(HandleAll(t, first), second)
    decreases |second|
  {
    hide Handle;
    if second == [] {
      assert first + second == first;
    } else {
      assert (first + second)[..|first + second| - 1] == first + second[..|second| - 1];
      HandleAppend(t, first, second[..|second| - 1]);
    }
  }

  /** The events of one run, as far as they have come: what the grammar accepts, or that followed by the
      report of a failure. */
  ghost predicate IsRun(log: seq<Event>) {
    Parse(log) != Broken || exists before, failure, payload, n: nat :: Fails(log, before, failure, payload, n)
  }

  ghost predicate Fails(log: seq<Event>, before: seq<Event>, failure: Message, payload: seq<Message>, n: nat) {
    && (Parse(before).Turn? || Parse(before).Between?) && Failed(failure)
    && n <= 4 && log == before + FailureEvents(failure, payload)[..n]
  }

  /** On every log that the grammar of a run accepts, after whatever came before, each tool span is a
      child of the turn span that was current, and each turn span a child of the run span. */
  lemma {:induction false} SpansFollowTheLog(t: Tracing, log: seq<Event>)
    requires Tidy(t) && Nested(t.spans) && Parse(log) != Broken
    ensures var z := HandleAll(t, log); Tidy(z) && (log != [] ==> Linked(z, Parse(log))) && Nested(z.spans)
  {
    hide Handle, Step, Linked, Nested, Tidy;
    if log != [] {
      var front, e := log[..|log| - 1], log[|log| - 1];
      PrefixAccepted(log, |front|);
      SpansFollowTheLog(t, front);
      TidyStep(HandleAll(t, front), e);
      if front == [] {
        RunOpens(t, e);
      } else {
        LinkedStep(HandleAll(t, front), Parse(front), e);
        NestedStep(HandleAll(t, front), Parse(front), e);
      }
    }
  }

  /** A run's first event: whatever was open is closed. */
  lemma RunOpens(t: Tracing, e: Event)
    requires Tidy(t) && Nested(t.spans) && Step(Idle, e) != Broken
    ensures Linked(Handle(t, e), Step(Idle, e)) && Nested(Handle(t, e).spans)
  {
    hide EndAll;
    EndAllKeeps(t.spans, t.tools.Values, Cancelled);
  }

  /** Events that start no span leave the nesting as it is. */
  lemma {:induction false} NestedStays(t: Tracing, log: seq<Event>)
    requires Tidy(t) && Nested(t.spans) && forall e :: e in log ==> !e.AgentStart? && !e.TurnStart? && !e.ToolStart?
    ensures Tidy(HandleAll(t, log)) && Nested(HandleAll(t, log).spans)
  {
    hide Handle, Nested, Tidy;
    if log != [] {
      var front, e := log[..|log| - 1], log[|log| - 1];
      NestedStays(t, front);
      TidyStep(HandleAll(t, front), e);
      assert e in log;
      NestedStaysOnce(HandleAll(t, front), e);
    }
  }

  lemma NestedStaysOnce(t: Tracing, e: Event)
    requires Nested(t.spans) && !e.AgentStart? && !e.TurnStart? && !e.ToolStart?
    ensures Nested(Handle(t, e).spans)
  {
    hide LastAssistant;
    HandleGrows(t, e);
    assert |Handle(t, e).spans| == |t.spans|;
  }

  function Concat(runs: seq<seq<Event>>): seq<Event> {
    if runs == [] then [] else Concat(runs[..|runs| - 1]) + runs[|runs| - 1]
  }

  /** In a session of any number of runs, finished, failed or broken off, every tool span is a child of
      a turn span and every turn span of a run span. */
  lemma {:induction false} SessionIsNested(runs: seq<seq<Event>>)
    requires forall i :: 0 <= i < |runs| ==> IsRun(runs[i])
    ensures var z := HandleAll(NOTHING, Concat(runs)); Tidy(z) && Nested(z.spans)
  {
    hide Handle, Nested, Tidy, Parse, Fails, IsRun, HandleAll;
    if runs == [] {
      NestedStart();
    } else {
      var front, last := runs[..|runs| - 1], runs[|runs| - 1];
      assert forall i :: 0 <= i < |front| ==> front[i] == runs[i];
      SessionIsNested(front);
      HandleAppend(NOTHING, Concat(front), last);
      RunIsNested(HandleAll(NOTHING, Concat(front)), last);
    }
  }

  lemma RunIsNested(t: Tracing, log: seq<Event>)
    requires Tidy(t) && Nested(t.spans) && IsRun(log)
    ensures Tidy(HandleAll(t, log)) && Nested(HandleAll(t, log).spans)
  {
    hide Handle, Nested, Tidy, Parse, HandleAll;
    if Parse(log) != Broken {
      SpansFollowTheLog(t, log);
    } else {
      var before, failure, payload, n: nat :| Fails(log, before, failure, payload, n);
      SpansFollowTheLog(t, before);
      HandleAppend(t, before, FailureEvents(failure, payload)[..n]);
      NestedStays(HandleAll(t, before), FailureEvents(failure, payload)[..n]);
    }
  }

  lemma NestedStart()
    ensures Tidy(HandleAll(NOTHING, [])) && Nested(HandleAll(NOTHING, []).spans)
  {}

  /** No run of a session whose simultaneous tool executions have distinct ids loses a span. */
  lemma {:induction false} DistinctIdsAreNotReused(runs: seq<seq<Event>>)
    requires forall i :: 0 <= i < |runs| ==> DistinctRun(runs[i])
    ensures !Reuses(Concat(runs))
  {
    hide DistinctRun;
    if runs != [] {
      var front, last := runs[..|runs| - 1], runs[|runs| - 1];
      assert forall i :: 0 <= i < |front| ==> front[i] == runs[i];
      DistinctIdsAreNotReused(front);
      RunIsNotReused(Concat(front), last);
    }
  }

  /** A run whose simultaneous tool executions have distinct ids; they all begin before a failure. */
  ghost predicate DistinctRun(log: seq<Event>) {
    || (Parse(log) != Broken && DistinctOpenIds(log))
    || exists before, failure, payload, n: nat :: Fails(log, before, failure, payload, n) && DistinctOpenIds(before)
  }

  lemma RunIsNotReused(earlier: seq<Event>, log: seq<Event>)
    requires !Reuses(earlier) && DistinctRun(log)
    ensures !Reuses(earlier + log)
  {
    hide Parse, Reuses;
    if Parse(log) != Broken && DistinctOpenIds(log) {
      AcceptedIsNotReused(earlier, log);
    } else {
      var before, failure, payload, n: nat :| Fails(log, before, failure, payload, n) && DistinctOpenIds(before);
      AcceptedIsNotReused(earlier, before);
      assert earlier + log == earlier + before + FailureEvents(failure, payload)[..n];
      StartsNothing(earlier + before, FailureEvents(failure, payload)[..n]);
    }
  }

  lemma {:induction false} StartsNothing(log: seq<Event>, more: seq<Event>)
    requires !Reuses(log) && forall e :: e in more ==> !e.ToolStart?
    ensures !Reuses(log + more)
    decreases |more|
  {
    if more == [] {
      assert log + more == log;
    } else {
      StartsNothing(log, more[..|more| - 1]);
      assert (log + more)[..|log + more| - 1] == log + more[..|more| - 1];
      assert (log + more)[|log + more| - 1] == more[|more| - 1] && more[|more| - 1] in more;
    }
  }

  /** After whatever came before, the ids of open tool executions are among those the grammar has open. */
  lemma {:induction false} AcceptedIsNotReused(earlier: seq<Event>, log: seq<Event>)
    requires !Reuses(earlier) && Parse(log) != Broken && DistinctOpenIds(log)
    ensures !Reuses(earlier + log)
    ensures log != [] ==> Parse(log) != Idle
    ensures log != [] ==> forall id :: id in OpenIds(earlier + log) ==> Parse(log).Turn? && id in Parse(log).tools
    decreases |log|
  {
    hide Step, OpenAfter;
    if log == [] {
      assert earlier + log == earlier;
    } else {
      var front, e := log[..|log| - 1], log[|log| - 1];
      PrefixAccepted(log, |front|);
      assert forall n :: 0 <= n <= |front| ==> front[..n] == log[..n];
      AcceptedIsNotReused(earlier, front);
      assert (earlier + log)[..|earlier + log| - 1] == earlier + front;
      assert (earlier + log)[|earlier + log| - 1] == e;
      assert e.ToolStart? && Parse(front).Turn? ==> e.id !in Parse(front).tools by {
        assert log[..|front|] == front && log[|front|] == e;
      }
      OpensOne(OpenIds(earlier + front), Parse(front), e);
    }
  }

  lemma OpensOne(ids: set<string>, g: Grammar, e: Event)
    requires Step(g, e) != Broken
    requires g == Idle || forall id :: id in ids ==> g.Turn? && id in g.tools
    requires e.ToolStart? && g.Turn? ==> e.id !in g.tools
    ensures Step(g, e) != Idle
    ensures forall id :: id in OpenAfter(ids, e) ==> Step(g, e).Turn? && id in Step(g, e).tools
    ensures e.ToolStart? ==> e.id !in ids
  {
    hide EndsWith;
  }

  /** The status that an answer gives to a span: cancelled if it was aborted, and an error if it failed. */
  ghost predicate Tells(status: Option<Status>, m: Message) {
    && m.Assistant? && status.Some?
    && (status.value == Cancelled <==> m.stop == Aborted) && (status.value == Faulty <==> m.stop == Error)
  }

  ghost predicate LastIs(messages: seq<Message>, i: nat)
    requires i < |messages|
  {
    messages[i].Assistant? && forall j :: i < j < |messages| ==> !messages[j].Assistant?
  }

  /** The same of a run's last answer; without an answer all is fine. */
  ghost predicate TellsLast(status: Option<Status>, messages: seq<Message>) {
    || (exists i :: 0 <= i < |messages| && LastIs(messages, i) && Tells(status, messages[i]))
    || ((forall i :: 0 <= i < |messages| ==> !messages[i].Assistant?) && status == Some(Fine))
  }

  lemma {:induction false} LastAssistantIs(messages: seq<Message>)
    ensures match LastAssistant(messages)
            case None => forall i :: 0 <= i < |messages| ==> !messages[i].Assistant?
            case Some(m) => exists i :: 0 <= i < |messages| && LastIs(messages, i) && m == messages[i]
  {
    if messages != [] {
      var n := |messages| - 1;
      var front := messages[..n];
      if messages[n].Assistant? {
        assert LastIs(messages, n);
      } else {
        LastAssistantIs(front);
        assert forall i :: 0 <= i < n ==> front[i] == messages[i] && (LastIs(front, i) <==> LastIs(messages, i));
      }
    }
  }

  lemma RunStatusTells(messages: seq<Message>)
    ensures TellsLast(Some(RunStatus(messages)), messages)
  {
    hide LastAssistant;
    LastAssistantIs(messages);
  }

  /** A tool's span ends as an error exactly if its end event says so, a turn's span with the status of the
      turn's answer, and the run's span with that of the last answer the log closed. */
  lemma StatusesTell(before: Tracing, log: seq<Event>)
    requires Tidy(before) && Nested(before.spans) && Parse(log) != Broken && log != []
    ensures var t, z, e := HandleAll(before, log[..|log| - 1]), HandleAll(before, log), log[|log| - 1];
            && (e.ToolEnd? && e.id in t.tools ==>
                  t.tools[e.id] < |z.spans| && z.spans[t.tools[e.id]].status == Some(if e.isError then Faulty else Fine) && e.id !in z.tools)
            && (e.TurnEnd? ==> t.turn.Some? && t.turn.value < |z.spans| && Tells(z.spans[t.turn.value].status, e.message))
            && (e.AgentEnd? ==> t.run.Some? && t.run.value < |z.spans| && TellsLast(z.spans[t.run.value].status, Closed(log)))
  {
    hide Handle, Closed, Tells, TellsLast, Tidy, Nested, Linked, EndsWith;
    var front, e := log[..|log| - 1], log[|log| - 1];
    PrefixAccepted(log, |front|);
    SpansFollowTheLog(before, front);
    EndedIsClosed(log);
    StatusStep(HandleAll(before, front), Parse(front), e, Closed(log));
  }

  lemma StatusStep(t: Tracing, g: Grammar, e: Event, closed: seq<Message>)
    requires Tidy(t) && Step(g, e) != Broken && (e.TurnEnd? || e.AgentEnd? ==> Linked(t, g))
    requires e.AgentEnd? ==> e.messages == closed
    ensures var z := Handle(t, e);
            && (e.ToolEnd? && e.id in t.tools ==>
                  t.tools[e.id] < |z.spans| && z.spans[t.tools[e.id]].status == Some(if e.isError then Faulty else Fine) && e.id !in z.tools)
            && (e.TurnEnd? ==> t.turn.Some? && t.turn.value < |z.spans| && Tells(z.spans[t.turn.value].status, e.message))
            && (e.AgentEnd? ==> t.run.Some? && t.run.value < |z.spans| && TellsLast(z.spans[t.run.value].status, closed))
  {
    hide RunStatus, TellsLast, EndsWith;
    InRange(t);
    if e.ToolEnd? && e.id in t.tools {
      assert Held(t, t.tools[e.id]);
    } else if e.TurnEnd? {
      assert Held(t, t.turn.value);
    } else if e.AgentEnd? {
      RunStatusTells(closed);
      assert Held(t, t.run.value) && t.turn == None && t.tools == map[];
    }
  }

  /** What a run that was broken off left open is cancelled when the next one begins. */
  lemma LeftOpenIsCancelled(t: Tracing)
    requires Tidy(t)
    ensures var z := Handle(t, AgentStart);
            forall i :: 0 <= i < |t.spans| && Held(t, i) ==> i < |z.spans| && z.spans[i].status == Some(Cancelled) && !Held(z, i)
  {
    InRange(t);
  }

  /** A failure's report ends the run's span, and the turn's if one is open, with the failure's status,
      and the spans of the tools that are still open as cancelled; then nothing is held. */
  lemma FailureStatusesTell(before: Tracing, log: seq<Event>, failure: Message, payload: seq<Message>)
    requires Tidy(before) && Nested(before.spans) && (Parse(log).Turn? || Parse(log).Between?)
    requires Failed(failure) && payload != [] && payload[|payload| - 1] == failure
    ensures var t, z := HandleAll(before, log), HandleAll(before, log + FailureEvents(failure, payload));
            && |z.spans| == |t.spans| && z.run == z.turn == None && z.tools == map[]
            && t.run.Some? && t.run.value < |z.spans| && Tells(z.spans[t.run.value].status, failure)
            && (t.turn.Some? ==> t.turn.value < |z.spans| && Tells(z.spans[t.turn.value].status, failure))
            && (forall id :: id in t.tools ==> t.tools[id] < |z.spans| && z.spans[t.tools[id]].status == Some(Cancelled))
  {
    hide Tells, Handle, HandleAll, Tidy, Nested;
    SpansFollowTheLog(before, log);
    FailureHandled(before, log, failure, payload);
    EndsWithFailure(HandleAll(before, log), Parse(log), failure, payload);
  }

  lemma EndsWithFailure(t: Tracing, g: Grammar, failure: Message, payload: seq<Message>)
    requires Tidy(t) && Linked(t, g) && (g.Turn? || g.Between?) && Failed(failure) && LastAssistant(payload) == Some(failure)
    ensures var z := Handle(Handle(t, TurnEnd(failure, [])), AgentEnd(payload));
            && |z.spans| == |t.spans| && z.run == z.turn == None && z.tools == map[]
            && t.run.Some? && t.run.value < |z.spans| && Tells(z.spans[t.run.value].status, failure)
            && (t.turn.Some? ==> t.turn.value < |z.spans| && Tells(z.spans[t.turn.value].status, failure))
            && (forall id :: id in t.tools ==> t.tools[id] < |z.spans| && z.spans[t.tools[id]].status == Some(Cancelled))
  {
    hide LastAssistant;
    forall id | id in t.tools ensures Held(t, t.tools[id]) {
    }
    assert t.turn.Some? ==> Held(t, t.turn.value);
    assert Held(t, t.run.value);
  }

  lemma FailureHandled(before: Tracing, log: seq<Event>, failure: Message, payload: seq<Message>)
    ensures var t := HandleAll(before, log);
            HandleAll(before, log + FailureEvents(failure, payload)) == Handle(Handle(t, TurnEnd(failure, [])), AgentEnd(payload))
  {
    hide Handle, HandleAll;
    var begun, told := log + [MessageStart(failure)], log + [MessageStart(failure)] + [MessageEnd(failure)];
    HandleOne(before, log, MessageStart(failure));
    HandleOne(before, begun, MessageEnd(failure));
    HandleOne(before, told, TurnEnd(failure, []));
    HandleOne(before, told + [TurnEnd(failure, [])], AgentEnd(payload));
    MessagesPass(HandleAll(before, log), failure);
    assert log + FailureEvents(failure, payload) == told + [TurnEnd(failure, [])] + [AgentEnd(payload)];
  }

  lemma HandleOne(t: Tracing, log: seq<Event>, e: Event)
    ensures HandleAll(t, log + [e]) == Handle(HandleAll(t, log), e)
  {
    assert (log + [e])[..|log|] == log;
  }

  lemma MessagesPass(t: Tracing, m: Message)
    ensures Handle(t, MessageStart(m)) == t && Handle(t, MessageEnd(m)) == t
  {}

  // ----- the instrumentation itself, with the state it changes -----

  class Instrumentation {
    var spans: seq<Span>
    var runSpan: Option<nat>
    var turnSpan: Option<nat>
    var toolSpans: map<string, nat>

    ghost function View(): Tracing
      reads this
    {
      Tracing(spans, runSpan, turnSpan, toolSpans)
    }

    ghost predicate Valid()
      reads this
    {
      Tidy(View())
    }

    constructor ()
      ensures Valid() && View() == NOTHING
    {
      spans, runSpan, turnSpan, toolSpans := [], None, None, map[];
    }

    method StartSpan(kind: Kind, parent: Parent) returns (index: nat)
      modifies `spans
      ensures index == |old(spans)| && spans == old(spans) + [Opened(kind, parent)]
    {
      index := |spans|;
      spans := spans + [Span(kind, parent, None, 0)];
    }

    /** `Span.end`: marks the span, then hands it to the provider. */
    method End(index: nat, status: Status)
      requires index < |spans|
      modifies `spans
      ensures spans == old(spans)[index := Ended(old(spans)[index], status)]
    {
      var span := spans[index];
      if span.status.Some? {
        return;
      }
      span := span.(status := Some(status));
      span := span.(emitted := span.emitted + 1);
      spans := spans[index := span];
    }

    method EndTools(status: Status)
      requires Valid()
      modifies `spans
      ensures spans == EndAll(old(spans), toolSpans.Values, status)
    {
      var ids, done := toolSpans.Keys, {};
      while ids != {}
        invariant ids <= toolSpans.Keys && |spans| == |old(spans)|
        invariant done == set id | id in toolSpans.Keys - ids :: toolSpans[id]
        invariant spans == EndAll(old(spans), done, status)
        decreases ids
      {
        ghost var any := Inhabited(ids);
        var id :| id in ids;
        End(toolSpans[id], status);
        ids, done := ids - {id}, done + {toolSpans[id]};
      }
      assert done == toolSpans.Values;
    }

    method FinishOpenSpans(status: Status)
      requires Valid()
      modifies this
      ensures View() == FinishOpen(old(View()), status)
    {
      EndTools(status);
      toolSpans := map[];
      if turnSpan.Some? {
        End(turnSpan.value, status);
        turnSpan := None;
      }
      if runSpan.Some? {
        End(runSpan.value, status);
        runSpan := None;
      }
    }

    /** `on_event`. */
    method OnEvent(e: Event)
      requires Valid()
      modifies this
      ensures Valid() && View() == Handle(old(View()), e)
    {
      hide Tidy, RunStatus, StatusOf, EndAll;
      TidyStep(View(), e);
      InRange(View());
      match e
      case AgentStart =>
        FinishOpenSpans(Cancelled);
        var index := StartSpan(RunSpan, Ambient);
        runSpan := Some(index);
      case TurnStart =>
        if turnSpan.Some? {
          End(turnSpan.value, Cancelled);
        }
        var index := StartSpan(TurnSpan, ChildOf(runSpan, Ambient));
        turnSpan := Some(index);
      case ToolStart(id, _) =>
        var parent := if turnSpan.Some? then Child(turnSpan.value) else ChildOf(runSpan, Ambient);
        var index := StartSpan(ToolSpan(id), parent);
        toolSpans := toolSpans[id := index];
      case ToolEnd(id, _, _, isError) =>
        if id in toolSpans {
          End(toolSpans[id], if isError then Faulty else Fine);
          toolSpans := toolSpans - {id};
        }
      case TurnEnd(message, _) =>
        if turnSpan.Some? {
          End(turnSpan.value, StatusOf(message));
          turnSpan := None;
        }
      case AgentEnd(messages) =>
        EndTools(Cancelled);
        toolSpans := map[];
        if turnSpan.Some? {
          End(turnSpan.value, Cancelled);
          turnSpan := None;
        }
        if runSpan.Some? {
          End(runSpan.value, RunStatus(messages));
          runSpan := None;
        }
      case _ =>
    }

    method Close()
      requires Valid()
      modifies this
      ensures View() == FinishOpen(old(View()), Cancelled)
    {
      FinishOpenSpans(Cancelled);
    }
  }
}
