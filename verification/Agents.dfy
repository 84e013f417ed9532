/** The stateful wrapper: one run at a time, over the transcript it rebuilds from events. */
module Agents {
  import opened Prelude
  import opened Transcript
  import opened Reducer
  import opened Queues
  import opened LoopWorld
  import opened LoopStory
  import opened AgentLoop
  import opened Observations
  import opened RunLog
  import Spans

  /** `Busy`: the agent is already streaming.  `Running`: the run outlasts the observation. */
  datatype RunResult = Busy | Running | Finished(messages: seq<Message>)

  /** A run's log, the copies of the transcript at its events, and its first context. */
  datatype Record = Record(first: AgentContext, log: seq<Event>, trace: seq<Snapshot>)

  class Agent {
    const state: AgentState
    const steering: MessageQueue
    const followUp: MessageQueue
    const tools: seq<Tool>

    constructor (messages: seq<Message>, tools: seq<Tool>, steeringMode: string, followUpMode: string)
      ensures Valid() && fresh(state) && fresh(steering) && fresh(followUp)
      ensures state.messages == messages && !state.isStreaming
    {
      state := new AgentState(messages);
      steering := new MessageQueue(steeringMode);
      followUp := new MessageQueue(followUpMode);
      this.tools := tools;
    }

    /** Between runs nothing is in flight. */
    ghost predicate Valid()
      reads this, state, steering, followUp
    {
      && steering != followUp && steering.Valid() && followUp.Valid()
      && (!state.isStreaming ==> state.streaming == None && state.pending == {})
    }

    ghost function Waiting(): Queued
      reads steering`mode, steering`items, followUp`mode, followUp`items
    {
      Queued(Queue(steering.mode, steering.items), Queue(followUp.mode, followUp.items))
    }

    /** The run's own context: the transcript so far, and the prompts. */
    method BeginRun(prompts: seq<Message>, contexts: set<AgentContext>, world: World) returns (run: AgentLoop)
      requires Valid() && !state.isStreaming && Listed(world, contexts)
      modifies state`isStreaming, state`error
      ensures state.isStreaming && fresh(run) && fresh(run.contexts - contexts)
      ensures run.Valid() && run.Fresh() && run.Waiting() == Waiting() && run.original.tools == tools
      ensures run.agent == state && run.steering == steering && run.followUp == followUp && run.prompts == prompts && run.world == world
      ensures run.base == state.messages && run.begun == Reduced(state.messages, None, {}, None)
    {
      hide ReduceAll, Parse;
      state.isStreaming, state.error := true, None;
      var context := new AgentContext(state.messages + prompts, tools);
      run := new AgentLoop(state, steering, followUp, context, prompts, contexts, world);
    }

    /** What is observed of a run: its story, its log, the copies of the transcript at every event, and its
        first context. */
    ghost predicate Recorded(before: seq<Message>, prompts: seq<Message>, world: World, story: Run, record: Option<Record>) {
      && record.Some? && TurnsTallied(world, story, Tally(record.value.log))
      && Observed(world, record.value.first, before, Reduced(before, None, {}, None), prompts, record.value.log, record.value.trace)
    }

    /** `_start_run`.  What a run does is the story `s` of its world; when it is over, its log and its
        result tell that story, and it has added its result to the transcript, up to the one message
        that was in flight at a failure. */
    method StartRun(prompts: seq<Message>, contexts: set<AgentContext>, world: World, maxTurns: nat)
      returns (r: RunResult, ghost record: Option<Record>, ghost s: Run)
      requires Valid() && Listed(world, contexts)
      modifies state, steering, followUp, contexts
      ensures r.Busy? <==> old(state.isStreaming)
      ensures r.Busy? ==> state.View() == old(state.View()) && state.isStreaming && Waiting() == old(Waiting())
      ensures r.Busy? ==> steering.drained == old(steering.drained) && followUp.drained == old(followUp.drained)
      ensures !r.Busy? ==> Reached(world, old(Waiting()), tools, s) && Waiting() == s.queues && Recorded(old(state.messages), prompts, world, s, record)
      ensures r.Running? ==> s.Going? && |s.turns| == maxTurns
      ensures r.Finished? ==> Valid() && !state.isStreaming && Told(prompts, record.value.log, s, r.messages)
      ensures r.Finished? ==> state.messages == ReduceAll(Reduced(old(state.messages), None, {}, None), record.value.log).messages
      ensures r.Finished? ==> Summary(old(state.messages), state.messages, state.error, r.messages)
    {
      hide Summary, Told, ReduceAll, Parse, AgentLoop.Valid, AgentLoop.Fresh, AgentLoop.Reported, AgentLoop.Follows, AgentLoop.Finished, FlatTurns, Reached, FailureMessage, Observed, TurnsTallied, Tally;
      s := OnStart(world, Waiting(), tools);
      if state.isStreaming {
        return Busy, None, s;
      }
      var run := BeginRun(prompts, contexts, world);
      var result;
      result, s := run.RunGuarded(maxTurns);
      record := Some(Record(run.original, run.log, run.trace));
      if result.None? {
        return Running, record, s;
      }
      state.isStreaming, state.streaming, state.pending := false, None, {};
      return Finished(result.value), record, s;
    }

    /** `_drain_for_continue`: the steering source, and the follow-up source only if it gives
        nothing.  `steer` and `follow` are what the configured callbacks answer. */
    method DrainForContinue(steer: Reply<seq<Message>>, follow: Reply<seq<Message>>) returns (r: Reply<seq<Message>>)
      requires Valid()
      modifies steering, followUp
      ensures Valid() && state.View() == old(state.View()) && state.isStreaming == old(state.isStreaming)
      ensures var s, f := old(Taken(steering.mode, steering.items)), old(Taken(followUp.mode, followUp.items));
              && r == Gathered(s, f, steer, follow) && steering.drained == old(steering.drained) + s
              && followUp.drained == old(followUp.drained) + (if steer.Value? && s + steer.value == [] then f else [])
              && Waiting() == Remaining(old(Waiting()), steer)
    {
      hide Taken;
      var local := steering.Drain();
      if steer.Raised? {
        return Raised(steer.cancelled);
      }
      if local + steer.value != [] {
        return Value(local + steer.value);
      }
      local := followUp.Drain();
      if follow.Raised? {
        return Raised(follow.cancelled);
      }
      return Value(local + follow.value);
    }

    /** What other tasks may do while a callback is awaited: begin a run. */
    method Meanwhile(others: bool)
      requires Valid()
      modifies state
      ensures Valid() && (if others then state.isStreaming else state.isStreaming == old(state.isStreaming) && state.View() == old(state.View()))
    {
      if others {
        state.isStreaming := true;
        state.messages := Arbitrary();
      }
    }

    /** `continue_run`; None when it is refused or a callback raises.  `taken` are the prompts of the run,
        and `lost` the messages that left the queues for no run.  A busy agent is noticed only after
        the drain; `others` says whether another run began while the callbacks were awaited. */
    method ContinueRun(steer: Reply<seq<Message>>, follow: Reply<seq<Message>>, others: bool, contexts: set<AgentContext>, world: World, maxTurns: nat)
      returns (r: Option<RunResult>, taken: seq<Message>, ghost lost: seq<Message>, ghost record: Option<Record>, ghost story: Run)
      requires Valid() && Listed(world, contexts)
      modifies state, steering, followUp, contexts
      ensures var s, f := old(Taken(steering.mode, steering.items)), old(Taken(followUp.mode, followUp.items));
              var needs := old(state.messages == [] || state.messages[|state.messages| - 1].Assistant?);
              var busy := old(state.isStreaming) || (needs && others);
              var gathered := if needs then Gathered(s, f, steer, follow) else Value([]);
              && lost == LostBy(needs, s, f, steer, follow, busy)
              && (r.None? <==> gathered.Raised? || (needs && gathered.value == []))
              && (r == Some(Busy) <==> r.Some? && busy)
              && (r.Some? ==> taken == gathered.value)
              && (r.None? || r == Some(Busy) ==>
                    && steering.drained == old(steering.drained) + (if needs then s else [])
                    && followUp.drained == old(followUp.drained) + (if needs && steer.Value? && s + steer.value == [] then f else [])
                    && lost == steering.drained[|old(steering.drained)|..] + followUp.drained[|old(followUp.drained)|..])
              && (r.Some? && !r.value.Busy? ==> lost == [])
      ensures r.Some? && !r.value.Busy? ==>
                && Reached(world, if NeedsQueued(old(state.messages)) then Remaining(old(Waiting()), steer) else old(Waiting()), tools, story)
                && Recorded(old(state.messages), taken, world, story, record)
      ensures r.Some? && r.value.Finished? ==> Valid() && !state.isStreaming && Told(taken, record.value.log, story, r.value.messages)
      ensures r.Some? && r.value.Finished? ==> state.messages == ReduceAll(Reduced(old(state.messages), None, {}, None), record.value.log).messages
    {
      hide Taken, Told, ReduceAll, Parse, Remaining, Reached;
      taken, lost, record, story := [], [], None, OnStart(world, Waiting(), tools);
      ghost var s, f := Taken(steering.mode, steering.items), Taken(followUp.mode, followUp.items);
      ghost var needs, busy := NeedsQueued(state.messages), state.isStreaming || (NeedsQueued(state.messages) && others);
      if NeedsQueued(state.messages) {
        var queued := DrainForContinue(steer, follow);
        Meanwhile(others);
        if queued.Raised? || queued.value == [] {
          lost := LostBy(needs, s, f, steer, follow, busy);
          return None, [], lost, record, story;
        }
        taken := queued.value;
      }
      var run;
      run, record, story := StartRun(taken, contexts, world, maxTurns);
      lost := LostBy(needs, s, f, steer, follow, busy);
      return Some(run), taken, lost, record, story;
    }
  }

  /** Continuing a busy agent whose steering queue has one message loses it. */
  method LoseQueued(agent: Agent, m: Message, contexts: set<AgentContext>, world: World) returns (r: Option<RunResult>)
    requires agent.Valid() && agent.state.isStreaming && NeedsQueued(agent.state.messages) && agent.steering.items == [m]
    requires Listed(world, contexts)
    modifies agent.state, agent.steering, agent.followUp, contexts
    ensures r == Some(Busy) && agent.steering.drained == old(agent.steering.drained) + [m]
  {
    var taken;
    ghost var lost, record, story;
    r, taken, lost, record, story := agent.ContinueRun(Value([]), Value([]), false, contexts, world, 0);
    assert lost == [m];
  }

  /** An empty transcript, or one that ends with an answer, goes on only with queued messages. */
  predicate NeedsQueued(messages: seq<Message>) {
    messages == [] || messages[|messages| - 1].Assistant?
  }

  /** What continuing gathers, when the steering queue has `s` to give and the follow-up queue `f`. */
  function Gathered(s: seq<Message>, f: seq<Message>, steer: Reply<seq<Message>>, follow: Reply<seq<Message>>): Reply<seq<Message>> {
    if steer.Raised? then Raised(steer.cancelled)
    else if s + steer.value != [] then Value(s + steer.value)
    else if follow.Raised? then Raised(follow.cancelled)
    else Value(f + follow.value)
  }

  /** The queues after continuing has gathered its prompts. */
  function Remaining(q: Queued, steer: Reply<seq<Message>>): Queued {
    var s := Taken(q.steering.mode, q.steering.items);
    var after := q.(steering := q.steering.(items := q.steering.items[|s|..]));
    if steer.Value? && s + steer.value == [] then after.(followUp := q.followUp.(items := q.followUp.items[|Taken(q.followUp.mode, q.followUp.items)|..]))
    else after
  }

  /** What continuing loses: what the queue asked last gave, when its callback raises or the agent
      turns out to be busy. */
  function LostBy(needs: bool, s: seq<Message>, f: seq<Message>, steer: Reply<seq<Message>>, follow: Reply<seq<Message>>, busy: bool): seq<Message> {
    if !needs then []
    else if steer.Raised? then s
    else if s + steer.value != [] then (if busy then s else [])
    else if follow.Raised? || busy then f
    else []
  }

  /** Continuing loses messages exactly when it drains any for nothing: a queue that has some is asked,
      and its callback raises or the agent is busy by then. */
  lemma LosesExactly(needs: bool, s: seq<Message>, f: seq<Message>, steer: Reply<seq<Message>>, follow: Reply<seq<Message>>, busy: bool)
    ensures LostBy(needs, s, f, steer, follow, busy) != [] <==>
      && needs
      && ((s != [] && (steer.Raised? || busy)) || (s == [] && f != [] && steer == Value([]) && (follow.Raised? || busy)))
  {}

  /** Tracing follows whatever a run reports: its log is one of a session's, and after a failure the last
      answer of its result is the failure. */
  lemma RunIsTraced(prompts: seq<Message>, log: seq<Event>, s: Run, result: seq<Message>)
    requires Told(prompts, log, s, result)
    ensures Spans.IsRun(log)
    ensures s.Broke? ==>
              && result != [] && var last := result[|result| - 1];
                 last.Assistant? && last.stop == (if s.cancelled then Aborted else Error) && last.content == []
    ensures s.Broke? ==> exists before: seq<Event> :: Spans.Fails(log, before, FailureMessage(s.cancelled), result, 4)
  {
    hide Parse, FlatTurns;
    if s.Over? {
      assert Parse(log) != Broken;
    } else {
      var failure := FailureMessage(s.cancelled);
      var before :| FailedLog(prompts, log, s.stale, failure, before, result);
      assert FailureEvents(failure, result)[..4] == FailureEvents(failure, result);
      assert Spans.Fails(log, before, failure, result, 4);
    }
  }

  /** A run whose answers have calls with distinct ids starts no tool under an id that is open, and so
      loses no span. */
  lemma RunStartsApart(world: World, q: Queued, tools: seq<Tool>, prompts: seq<Message>, log: seq<Event>, s: Run, result: seq<Message>)
    requires Reached(world, q, tools, s) && Told(prompts, log, s, result) && TurnsTallied(world, s, Tally(log)) && DistinctAnswers(world)
    ensures DistinctOpenIds(log) && Spans.DistinctRun(log)
  {
    hide Play, TurnsTallied, FlatTurns, Parse, DistinctAnswers, TurnOk;
    AnswersAreTheirs(world, q, tools, s);
    DistinctCallsAreApart(world, s, log);
    if s.Over? {
      assert Parse(log) != Broken;
    } else {
      var failure := FailureMessage(s.cancelled);
      var before :| FailedLog(prompts, log, s.stale, failure, before, result);
      assert FailureEvents(failure, result)[..4] == FailureEvents(failure, result);
      assert Spans.Fails(log, before, failure, result, 4);
      assert forall n :: 0 <= n <= |before| ==> before[..n] == log[..n];
      assert DistinctOpenIds(before);
    }
  }

  lemma AnswersAreTheirs(world: World, q: Queued, tools: seq<Tool>, s: Run)
    requires Reached(world, q, tools, s)
    ensures forall k :: 0 <= k < |s.turns| ==> AnswerOf(world.responses(k)) == Value(s.turns[k].answer)
  {
    hide Play, Conserved;
    var n: nat :| s == Play(world, q, tools, n);
    HowRunsGo(world, q, tools, n);
    forall k | 0 <= k < |s.turns| ensures AnswerOf(world.responses(k)) == Value(s.turns[k].answer) {
      assert TurnOk(world, k, s.turns[k]);
    }
  }
}
