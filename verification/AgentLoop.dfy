/** The agent loop, proved against its story.  The order in which parallel tools finish, and the progress
    that tools report, are chosen arbitrarily. */
module AgentLoop {
  import opened Prelude
  import opened Transcript
  import opened Reducer
  import opened Queues
  import opened LoopWorld
  import opened LoopStory
  import opened Observations
  import opened RunLog
  import EventStreams

  /** The tool-end events of the turn under way, without their order. */
  ghost function ToolEnds(log: seq<Event>): multiset<Event> {
    if Tally(log) == [] then multiset{} else Tally(log)[|Tally(log)| - 1].ends
  }

  /** Since then no execution has started beside another. */
  ghost predicate Level(before: seq<TurnTally>, after: seq<TurnTally>) {
    var n := |before|;
    && n == |after| > 0 && before[..n - 1] == after[..n - 1]
    && before[n - 1].overlaps == after[n - 1].overlaps && before[n - 1].apart == after[n - 1].apart
  }

  /** Since then, if ids are distinct, executions have started apart. */
  ghost predicate Beside(before: seq<TurnTally>, after: seq<TurnTally>, distinct: bool) {
    var n := |before|;
    && n == |after| > 0 && before[..n - 1] == after[..n - 1]
    && (distinct && before[n - 1].apart ==> after[n - 1].apart)
  }

  /** An answer of the environment. */
  method Arbitrary<T(0)>() returns (x: T) {
    x := *;
  }

  lemma RemoveAt(s: seq<string>, k: nat)
    requires k < |s|
    ensures multiset(s[..k] + s[k + 1..]) == multiset(s) - multiset{s[k]}
  {
    assert s == s[..k] + [s[k]] + s[k + 1..];
  }

  lemma PendingLeft(pending: set<string>, open: seq<string>, k: nat)
    requires k < |open| && forall id :: id in pending ==> id in open
    ensures forall id :: id in pending - {open[k]} ==> id in open[..k] + open[k + 1..]
  {
    assert open == open[..k] + [open[k]] + open[k + 1..];
  }

  /** What a run adds to the agent's transcript, against what it returns: the same messages; or,
      after a failure, the same but for the one message that was in flight, which the result still
      has just before the failure's own. */
  ghost predicate Summary(before: seq<Message>, after: seq<Message>, error: Option<string>, result: seq<Message>) {
    || after == before + result
    || exists closed, stale, failure :: WithFailure(before, after, error, result, closed, stale, failure)
  }

  ghost predicate WithFailure(before: seq<Message>, after: seq<Message>, error: Option<string>, result: seq<Message>,
                              closed: seq<Message>, stale: seq<Message>, failure: Message) {
    && |stale| <= 1 && Failed(failure) && error == failure.error
    && result == closed + stale + [failure]
    && after == before + closed + [failure]
  }

  /** A run's log that ends with the report of a failure, and the run's result. */
  ghost predicate FailedLog(prompts: seq<Message>, log: seq<Event>, stale: seq<Message>, failure: Message, before: seq<Event>, payload: seq<Message>) {
    && |stale| <= 1 && Failed(failure) && prompts <= Closed(before)
    && (forall e :: e in before ==> !e.AgentEnd?) && (Parse(before).Turn? || Parse(before).Between?)
    && log == before + FailureEvents(failure, payload)
    && payload == Closed(before) + stale + [failure]
    && (stale != [] <==> Parse(before).Turn? && Parse(before).open.Some?)
  }

  lemma SameFront(a: seq<Message>, b: seq<Message>, m: Message)
    requires a + [m] == b + [m]
    ensures a == b
  {
    assert (a + [m])[..|a|] == a && (b + [m])[..|b|] == b;
  }

  function FailureMessage(wasCancelled: bool): AssistantMessage {
    Assistant([], if wasCancelled then Aborted else Error, Some("the run failed"))
  }

  /** What a run comes to: by itself, the prompts and its turns; broken off, the prompts, its turns, what
      the turn under way had begun with, the message in flight, and the failure's own. */
  ghost predicate Told(prompts: seq<Message>, log: seq<Event>, s: Run, result: seq<Message>) {
    match s
    case Going(_, _, _, _, _, _) => false
    case Over(turns, _, _, _, _) => Parse(log) == Done(result) && result == prompts + FlatTurns(turns)
    case Broke(turns, _, _, _, _, _, wasCancelled, begun, stale, _) =>
      var failure := Assistant([], if wasCancelled then Aborted else Error, Some("the run failed"));
      && result == prompts + FlatTurns(turns) + begun + stale + [failure]
      && exists before :: FailedLog(prompts, log, stale, failure, before, result)
  }

  /** The contexts that the hook hands over are among these. */
  ghost predicate Listed(world: World, contexts: set<AgentContext>) {
    forall k :: HandsOver(world, k) ==> world.prepares(k).value.value.context in contexts
  }

  class AgentLoop {
    const agent: AgentState
    const steering: MessageQueue
    const followUp: MessageQueue
    const original: AgentContext
    const prompts: seq<Message>
    const contexts: set<AgentContext>  // the contexts `prepare_next_turn` may hand over
    const world: World
    ghost const base: seq<Message>
    ghost const begun: Reduced
    ghost const drainedBefore: map<Source, seq<Message>>  // what the queues had handed out already

    var context: AgentContext
    var newMessages: seq<Message>
    var pendingMessages: seq<Message>
    var requests: nat     // turns taken; they number the answers of the environment
    var asks: nat         // calls of a queue callback, likewise
    var wantsMore: bool   // `has_more_tool_calls`

    ghost var log: seq<Event>
    ghost var trace: seq<Snapshot>
    ghost var contextBase: seq<Message>
    ghost var mark: nat
    ghost var used: Use
    ghost var answer: Option<nat>
    ghost var failed: Option<Failing>

    /** `agent_loop`: the context starts with the prompts already in it; the reducer has not seen
        them yet. */
    constructor (agent: AgentState, steering: MessageQueue, followUp: MessageQueue, original: AgentContext,
                 prompts: seq<Message>, contexts: set<AgentContext>, world: World)
      requires steering != followUp && steering.Valid() && followUp.Valid()
      requires original.messages == agent.messages + prompts
      requires agent.streaming == None && agent.pending == {} && Listed(world, contexts)
      ensures Valid() && Fresh() && fresh(this)
      ensures this.agent == agent && this.steering == steering && this.followUp == followUp
      ensures this.original == original && this.prompts == prompts && this.contexts == contexts + {original} && this.world == world
      ensures base == agent.messages && begun == agent.View()
    {
      this.agent, this.steering, this.followUp, this.original := agent, steering, followUp, original;
      this.prompts, this.contexts, this.world := prompts, contexts + {original}, world;
      base, begun := agent.messages, agent.View();
      drainedBefore := map[Steering := steering.drained, FollowUp := followUp.drained];
      context, newMessages, pendingMessages := original, prompts, [];
      requests, asks, wantsMore := 0, 0, false;
      log, trace, contextBase, mark, used := [], [], agent.messages, 0, FIRST_USE;
      answer, failed := None, None;
    }

    ghost predicate Valid()
      reads this`log, this`trace, this`context, this`contextBase, this`mark, this`used, this`answer, this`failed, agent, steering, followUp
    {
      && agent.View() == ReduceAll(begun, log)
      && Observed(world, original, base, begun, prompts, log, trace)
      && answer == LastAnswer(trace) && (LastFailing(trace).Some? ==> failed == LastFailing(trace))
      && context in contexts && original in contexts && Listed(world, contexts)
      && steering != followUp && steering.Valid() && followUp.Valid()
      && UsesContext() && (Parse(log).Turn? || log == [] ==> used == UseOn(world, log))
    }

    /** The context in use is the first, or the one that the hook handed over. */
    ghost predicate UsesContext()
      reads this`context, this`contextBase, this`mark, this`used
    {
      && IsInUse(world, original, base, used, contextBase, mark, context == original)
      && (used.handed.Some? ==> context == world.prepares(used.handed.value).value.value.context)
    }

    ghost predicate Fresh()
      reads this, agent, context, steering, followUp
    {
      && log == [] && used == FIRST_USE && failed == None && pendingMessages == [] && requests == asks == 0
      && newMessages == prompts && begun == agent.View() && base == agent.messages
      && agent.streaming == None && agent.pending == {}
      && ContextCurrent()
      && drainedBefore == map[Steering := steering.drained, FollowUp := followUp.drained]
    }

    ghost predicate ContextCurrent()
      reads this`newMessages, this`context, this`contextBase, this`mark, context
    {
      mark <= |newMessages| && context.messages == contextBase + newMessages[mark..]
    }

    /** No message is in flight and no tool is open, and the copies agree. */
    ghost predicate Quiet()
      reads this`log, this`newMessages, this`context, this`contextBase, this`mark, this`answer, this`failed, agent, context
    {
      && ContextCurrent() && prompts <= newMessages && failed == None
      && base + newMessages == agent.messages
      && agent.streaming == None && agent.pending == {}
      && match Parse(log)
         case Between(ended) => ended == newMessages
         case Turn(ended, turn, open, tools) =>
           ended == newMessages && open == None && tools == multiset{} && (answer.Some? ==> answer.value < |turn|)
         case _ => false
    }

    /** The messages closed in the open turn. */
    ghost function TurnSoFar(): seq<Message>
      reads this`log
    {
      if Parse(log).Turn? then Parse(log).turn else []
    }

    ghost predicate InTurn()
      reads this`log, this`newMessages, this`context, this`contextBase, this`mark, this`answer, this`failed, agent, context
    {
      Quiet() && Parse(log).Turn?
    }

    /** Between two turns, before a hook hands over a context. */
    ghost predicate BetweenTurns()
      reads this`log, this`newMessages, this`context, this`contextBase, this`mark, this`used, this`answer, this`failed, agent, context
    {
      Quiet() && Parse(log).Between? && used == UseOn(world, log)
    }

    /** Between two turns, and after the hook. */
    ghost predicate Prepared()
      reads this`log, this`newMessages, this`context, this`contextBase, this`mark, this`used, this`answer, this`failed, agent, context
    {
      Quiet() && Parse(log).Between? && used == UseAfter(world, UseOn(world, log), |Tally(log)|, |newMessages|, TurnStart)
    }

    /** Where an exception may leave the run: at most one assistant message is in flight, and it is
        the last one both in the context and among the new messages. */
    ghost predicate CutShort(stale: seq<Message>)
      reads this`log, this`newMessages, this`context, this`contextBase, this`mark, this`answer, this`failed, agent, context
    {
      && ContextCurrent() && failed == None
      && |stale| <= 1 && base + newMessages == agent.messages + stale
      && match Parse(log)
         case Between(ended) => stale == [] && ended == newMessages && prompts <= ended
         case Turn(ended, _, open, _) => ended + stale == newMessages && (open.Some? <==> stale != []) && prompts <= ended
         case _ => false
    }

    ghost function Waiting(): Queued
      reads steering`mode, steering`items, followUp`mode, followUp`items
    {
      Queued(Queue(steering.mode, steering.items), Queue(followUp.mode, followUp.items))
    }

    /** What a queue handed out since the run began is what its drains gave the loop, and what was lost
        to a callback that raised. */
    ghost predicate HandedOut(drains: seq<Drain>, fromSteering: seq<Message>, fromFollowUp: seq<Message>)
      reads steering`drained, followUp`drained
    {
      && drainedBefore.Keys == {Steering, FollowUp}
      && steering.drained == drainedBefore[Steering] + LocalOf(drains, Steering) + fromSteering
      && followUp.drained == drainedBefore[FollowUp] + LocalOf(drains, FollowUp) + fromFollowUp
    }

    /** The context in use is the first, or was handed over after a turn, and the run had produced its
        prompts and the turns up to that one by then. */
    ghost predicate UsesAfter(now: InUse, turns: seq<TurnRecord>)
      reads this`context, this`used
    {
      && context.tools == now.tools && used.handed == now.handed
      && match now.handed
         case None => used.mark == 0
         case Some(k) => k < |turns| && used.mark == |prompts + FlatTurns(turns[..k + 1])|
    }

    /** The loop has done what the story says: the new messages are the prompts, the whole turns, and what
        a turn that broke off had begun with. */
    ghost predicate Follows(s: Run)
      reads this`newMessages, this`pendingMessages, this`requests, this`asks, this`context, this`used, steering, followUp
    {
      && Waiting() == s.queues && UsesAfter(s.used, s.turns)
      && match s
         case Going(turns, drains, _, waiting, _, _) =>
           && newMessages == prompts + FlatTurns(turns) && pendingMessages == waiting
           && requests == |turns| && asks == |drains| && HandedOut(drains, [], [])
         case Over(turns, drains, _, _, _) =>
           && newMessages == prompts + FlatTurns(turns) && pendingMessages == []
           && requests == |turns| && asks == |drains| && HandedOut(drains, [], [])
         case Broke(turns, drains, _, _, waiting, cause, _, begun, stale, lost) =>
           && newMessages == prompts + FlatTurns(turns) + begun + stale && pendingMessages == waiting
           && HandedOut(drains, if cause == CallbackRaised(Steering) then lost else [], if cause == CallbackRaised(FollowUp) then lost else [])
    }

    ghost function Snap(place: Option<nat>): Snapshot
      reads this`newMessages, this`context, this`contextBase, this`mark, this`failed, context
    {
      Snapshot(context.messages, newMessages, contextBase, mark, context == original, place, failed)
    }

    /** `place` is where in the turn its answer is, once it has started.  A turn's start takes over what the
        hook handed over. */
    method Emit(e: Event, ghost place: Option<nat>)
      requires Valid() && failed == None && AnswerMoves(answer, Parse(log), e, place)
      requires AgreeRunning(base, prompts, Parse(log), agent.View(), e, Snap(place))
      requires if e == TurnStart || Parse(log).Between? then used == UseAfter(world, UseOn(world, log), |Tally(log)|, |Closed(log)|, e)
               else Parse(log).Turn? || log == []
      modifies this`log, this`trace, this`answer, agent`messages, agent`streaming, agent`pending, agent`error
      ensures Valid() && answer == place && log == old(log) + [e] && trace == old(trace) + [old(Snap(place))]
      ensures agent.View() == Reduce(old(agent.View()), e) && Parse(log) == Step(old(Parse(log)), e)
      ensures Tally(log) == Tallied(old(Tally(log)), old(Parse(log)), e) && used == UseOn(world, log)
    {
      hide AllAgree, AllInUse, Parse, ReduceAll, Tally, UseOn, AgreeRunning, AgreeFailing, AnswerMoves, Step, Reduce, IsInUse;
      ParseAppend(log, e);
      ReduceAppend(begun, log, e);
      TallyAppend(log, e);
      UseAppend(world, log, e);
      AllAgreeAppend(base, begun, prompts, log, trace, e, Snap(place));
      AllInUseAppend(world, original, base, log, trace, e, Snap(place));
      agent.ApplyEvent(e);
      log, trace, answer := log + [e], trace + [Snap(place)], place;
    }

    /** One of the four events that report a failure. */
    method EmitFailing(e: Event)
      requires Valid() && failed.Some? && AgreeFailing(base, begun, log, e, Snap(answer))
      modifies this`log, this`trace, agent`messages, agent`streaming, agent`pending, agent`error
      ensures Valid() && log == old(log) + [e] && agent.View() == Reduce(old(agent.View()), e)
    {
      hide AllAgree, AllInUse, Parse, ReduceAll, Tally, UseOn, AnswerMoves, Reduce, IsInUse;
      FailureStaysInTurn(e);
      UseAppend(world, log, e);
      ReduceAppend(begun, log, e);
      AllAgreeAppend(base, begun, prompts, log, trace, e, Snap(answer));
      AllInUseAppend(world, original, base, log, trace, e, Snap(answer));
      agent.ApplyEvent(e);
      log, trace := log + [e], trace + [Snap(answer)];
    }

    lemma FailureStaysInTurn(e: Event)
      requires failed.Some? && AgreeFailing(base, begun, log, e, Snap(answer))
      ensures e != TurnStart && (Parse(log + [e]).Turn? ==> Parse(log).Turn?)
    {
      hide ReduceAll;
      ParseAppend(log, e);
    }

    // ----- callbacks -----

    /** What other tasks did to the queues while the loop was busy elsewhere. */
    method Interfere(ms: seq<Meddling>)
      requires Valid()
      modifies steering, followUp
      ensures Valid() && Waiting() == Meddled(old(Waiting()), ms)
      ensures steering.drained == old(steering.drained) && followUp.drained == old(followUp.drained)
    {
      hide Observed, UseOn, Parse, ReduceAll;
      assert ms[..0] == [];
      for i := 0 to |ms|
        invariant Valid() && Waiting() == Meddled(old(Waiting()), ms[..i])
        invariant steering.drained == old(steering.drained) && followUp.drained == old(followUp.drained)
      {
        assert ms[..i + 1][..i] == ms[..i];
        Disturb(ms[i]);
      }
      assert ms[..|ms|] == ms;
    }

    method Disturb(m: Meddling)
      requires Valid()
      modifies steering, followUp
      ensures Valid() && Waiting() == Meddle(old(Waiting()), m)
      ensures steering.drained == old(steering.drained) && followUp.drained == old(followUp.drained)
    {
      hide Observed, UseOn, Parse, ReduceAll;
      var queue := if m.source == Steering then steering else followUp;
      match m
      case Push(_, message) => queue.Push(message);
      case Clear(_) => queue.Clear();
      case SetMode(_, mode) => queue.mode := mode;
    }

    /** One of the agent's own queues gives what it has; the other is left alone. */
    method DrainOwn(source: Source) returns (local: seq<Message>)
      requires Valid()
      modifies steering, followUp
      ensures Valid()
      ensures var queue := Of(old(Waiting()), source);
              && local == Taken(queue.mode, queue.items) && Waiting() == With(old(Waiting()), source, queue.(items := queue.items[|local|..]))
      ensures steering.drained == old(steering.drained) + if source == Steering then local else []
      ensures followUp.drained == old(followUp.drained) + if source == FollowUp then local else []
    {
      hide Observed, UseOn, ReduceAll, Taken;
      if source == Steering {
        local := steering.Drain();
      } else {
        local := followUp.Drain();
      }
    }

    /** `Agent._drain_steering` and `_drain_follow_up`: what the agent's own queue gives, then what the
        configured callback does.  When the callback raises, what the queue gave is lost; so messages
        are lost exactly when it raises and something waits. */
    method AskNow(source: Source, external: Reply<seq<Message>>) returns (r: Reply<seq<Message>>)
      requires Valid()
      modifies steering, followUp
      ensures Valid()
      ensures var queue := Of(old(Waiting()), source); var local := Taken(queue.mode, queue.items);
              && Waiting() == With(old(Waiting()), source, queue.(items := queue.items[|local|..]))
              && steering.drained == old(steering.drained) + (if source == Steering then local else [])
              && followUp.drained == old(followUp.drained) + (if source == FollowUp then local else [])
              && r == if external.Raised? then Raised(external.cancelled) else Value(local + external.value)
    {
      hide Valid, Taken;
      var local := DrainOwn(source);
      return if external.Raised? then Raised(external.cancelled) else Value(local + external.value);
    }

    /** The next callback, after what other tasks did to the queues. */
    method AskNext(source: Source) returns (r: Reply<seq<Message>>)
      requires Valid()
      modifies steering, followUp
      ensures Valid() && Waiting() == LeftAt(world, old(Waiting()), asks, source)
      ensures var local, external := LocalAt(world, old(Waiting()), asks, source), world.callbacks(asks);
              && steering.drained == old(steering.drained) + (if source == Steering then local else [])
              && followUp.drained == old(followUp.drained) + (if source == FollowUp then local else [])
              && r == if external.Raised? then Raised(external.cancelled) else Value(local + external.value)
    {
      hide Valid, Taken, Meddled, Of, With, Waiting;
      Interfere(world.others(asks));
      r := AskNow(source, world.callbacks(asks));
    }

    /** The next call of a queue callback, when nothing waits; what it gives waits then. */
    method Ask(source: Source, ghost s: Run) returns (r: Reply<bool>)
      requires Valid() && s.Going? && Follows(s) && s.waiting == []
      modifies this`asks, this`pendingMessages, steering, followUp
      ensures Valid() && Follows(OnAsk(world, s, source))
      ensures r == ReplyOf(OnAsk(world, s, source))
    {
      hide Valid, LocalOf, LocalAt, LeftAt, FlatTurns, Waiting;
      var asked := AskNext(source);
      if asked.Raised? {
        return Raised(asked.cancelled);
      }
      ghost var d := Drain(source, LocalAt(world, s.queues, asks, source), world.callbacks(asks).value);
      LocalOfAppend(s.drains, d, Steering);
      LocalOfAppend(s.drains, d, FollowUp);
      asks, pendingMessages := asks + 1, asked.value;
      return Value(true);
    }

    /** How a part of the loop ends whose story goes on so. */
    ghost function ReplyOf(s: Run): Reply<bool> {
      if s.Broke? then Raised(s.cancelled) else Value(true)
    }

    // ----- messages -----

    /** In a turn, with nothing in flight, most events find the copies equal. */
    lemma SettledAgrees(e: Event)
      requires ContextCurrent() && prompts <= newMessages && base + newMessages == agent.messages
      requires Parse(log).Turn? && Parse(log).ended == newMessages && (answer.Some? ==> answer.value < |Parse(log).turn|)
      requires !e.MessageUpdate? && !e.TurnEnd? && !e.AgentEnd? && e != AgentStart && e != TurnStart
      ensures AgreeRunning(base, prompts, Parse(log), agent.View(), e, Snap(answer)) && AnswerMoves(answer, Parse(log), e, answer)
    {
      hide Parse;
    }

    /** The two events of a message that is complete. */
    method TellWhole(message: Message)
      requires Valid() && InTurn()
      modifies this`log, this`trace, this`answer, agent`messages, agent`streaming, agent`pending, agent`error
      ensures Valid() && answer == old(answer) && agent.messages == old(agent.messages) + [message] && agent.streaming == None && agent.pending == {}
      ensures Parse(log) == Turn(newMessages + [message], old(TurnSoFar()) + [message], None, multiset{})
      ensures Tally(log) == Tally(old(log))
    {
      hide Valid, AgreeRunning, AnswerMoves, Observed, UseOn, Parse, ReduceAll, Tally;
      SettledAgrees(MessageStart(message));
      Emit(MessageStart(message), answer);
      SettledAgrees(MessageEnd(message));
      Emit(MessageEnd(message), answer);
    }

    /** Reports a message and then adds it to both lists, as the loop does for injected messages
        and tool results. */
    method Report(message: Message)
      requires Valid() && InTurn()
      modifies this`log, this`trace, this`answer, this`newMessages, agent`messages, agent`streaming, agent`pending, agent`error, context`messages
      ensures Valid() && InTurn() && newMessages == old(newMessages) + [message] && answer == old(answer)
      ensures TurnSoFar() == old(TurnSoFar()) + [message]
      ensures Tally(log) == Tally(old(log))
    {
      hide Valid, Observed, UseOn, Parse, ReduceAll, Tally;
      TellWhole(message);
      context.messages := context.messages + [message];
      newMessages := newMessages + [message];
      assert newMessages[mark..] == old(newMessages)[mark..] + [message];
    }

    method InjectPending()
      requires Valid() && InTurn()
      modifies this`log, this`trace, this`answer, this`newMessages, this`pendingMessages, agent`messages, agent`streaming, agent`pending, agent`error, context`messages
      ensures Valid() && InTurn() && pendingMessages == [] && answer == old(answer)
      ensures newMessages == old(newMessages) + old(pendingMessages)
      ensures TurnSoFar() == old(TurnSoFar()) + old(pendingMessages) && Tally(log) == Tally(old(log))
    {
      hide Valid, Quiet, InTurn, TurnSoFar, Observed, UseOn, Parse, ReduceAll, Tally;
      var copied := pendingMessages;
      for i := 0 to |copied|
        invariant Valid() && InTurn() && pendingMessages == copied && answer == old(answer) && Tally(log) == Tally(old(log))
        invariant newMessages == old(newMessages) + copied[..i]
        invariant TurnSoFar() == old(TurnSoFar()) + copied[..i]
      {
        Report(copied[i]);
      }
      pendingMessages := [];
    }

    // ----- the assistant's message -----

    /** The state while an assistant message is in flight. */
    ghost predicate InFlight(before: seq<Message>, partial: Message, turn: seq<Message>)
      reads this`log, this`newMessages, this`context, this`contextBase, this`mark, this`answer, this`failed, agent, context
    {
      && ContextCurrent() && partial.Assistant? && failed == None
      && newMessages == before + [partial] && mark <= |before| && base + before == agent.messages && prompts <= before
      && agent.pending == {} && answer == Some(|turn|)
      && match Parse(log)
         case Turn(ended, t, open, tools) =>
           ended == before && t == turn && open.Some? && open.value.Assistant? && tools == multiset{}
         case _ => false
    }

    /** First sight of the message: it is added to both lists, then reported. */
    method Open(partial: AssistantMessage) returns (index: nat)
      requires Valid() && InTurn() && answer == None
      modifies this`log, this`trace, this`answer, this`newMessages, agent`messages, agent`streaming, agent`pending, agent`error, context`messages
      ensures Valid() && InFlight(old(newMessages), partial, old(TurnSoFar())) && agent.streaming.Some?
      ensures index == |context.messages| - 1
      ensures Tally(log) == Tally(old(log))
    {
      hide Observed, UseOn, Parse, ReduceAll, Tally;
      context.messages := context.messages + [partial];
      newMessages := newMessages + [partial];
      index := |context.messages| - 1;
      assert newMessages[mark..] == old(newMessages)[mark..] + [partial];
      assert base + newMessages == agent.messages + [partial];
      Emit(MessageStart(partial), Some(|TurnSoFar()|));
    }

    /** Overwrites the message in flight, by its index in the context and as the last new one. */
    method Overwrite(index: nat, m: AssistantMessage, ghost before: seq<Message>, ghost partial: Message, ghost turn: seq<Message>)
      requires Valid() && InFlight(before, partial, turn) && index == |context.messages| - 1
      modifies this`newMessages, context`messages
      ensures Valid() && InFlight(before, m, turn) && |context.messages| == old(|context.messages|)
    {
      hide Observed, UseOn, Parse, ReduceAll, Tally;
      context.messages := context.messages[index := m];
      newMessages := newMessages[|newMessages| - 1 := m];
      assert newMessages == before + [m];
      assert newMessages[mark..] == before[mark..] + [m];
      assert old(newMessages)[mark..] == before[mark..] + [partial];
    }

    method Close(m: AssistantMessage, ghost before: seq<Message>, ghost turn: seq<Message>)
      requires Valid() && InFlight(before, m, turn) && agent.streaming.Some?
      modifies this`log, this`trace, this`answer, agent`messages, agent`streaming, agent`pending, agent`error
      ensures Valid() && InTurn() && TurnSoFar() == turn + [m] && answer == Some(|turn|)
      ensures Tally(log) == Tally(old(log))
    {
      hide Observed, UseOn, Parse, ReduceAll, Tally;
      assert base + newMessages == agent.messages + [m];
      Emit(MessageEnd(m), answer);
    }

    /** The loop over a provider's events: nothing seen yet, or one message in flight. */
    ghost predicate Receiving(inserted: bool, index: nat, before: seq<Message>, partial: Message, turn: seq<Message>)
      reads this`log, this`newMessages, this`context, this`contextBase, this`mark, this`answer, this`failed, agent, context
    {
      if inserted then InFlight(before, partial, turn) && index == |context.messages| - 1 && agent.streaming.Some?
      else InTurn() && newMessages == before && TurnSoFar() == turn && answer == None
    }

    method Update(p: AssistantMessage, inserted: bool, index: nat, ghost before: seq<Message>, ghost partial: Message, ghost turn: seq<Message>)
      returns (newIndex: nat)
      requires Valid() && Receiving(inserted, index, before, partial, turn)
      modifies this`log, this`trace, this`answer, this`newMessages, agent`messages, agent`streaming, agent`pending, agent`error, context`messages
      ensures Valid() && Receiving(true, newIndex, before, p, turn)
      ensures Tally(log) == Tally(old(log))
    {
      hide Valid, InFlight, InTurn, TurnSoFar, Tally;
      if !inserted {
        newIndex := Open(p);
      } else {
        Overwrite(index, p, before, partial, turn);
        newIndex := index;
      }
      TellUpdate(p, before, turn);
    }

    method TellUpdate(p: AssistantMessage, ghost before: seq<Message>, ghost turn: seq<Message>)
      requires Valid() && InFlight(before, p, turn) && agent.streaming.Some?
      modifies this`log, this`trace, this`answer, agent`messages, agent`streaming, agent`pending, agent`error
      ensures Valid() && InFlight(before, p, turn) && agent.streaming.Some? && Tally(log) == Tally(old(log))
    {
      hide Observed, UseOn, Parse, ReduceAll, Tally;
      assert base + newMessages == agent.messages + [p];
      Emit(MessageUpdate(p), answer);
    }

    /** The final message: opened as a pending copy if nothing was seen before, then closed. */
    method Finish(m: AssistantMessage, inserted: bool, index: nat, ghost before: seq<Message>, ghost partial: Message, ghost turn: seq<Message>)
      requires Valid() && Receiving(inserted, index, before, partial, turn)
      modifies this`log, this`trace, this`answer, this`newMessages, agent`messages, agent`streaming, agent`pending, agent`error, context`messages
      ensures Valid() && InTurn() && newMessages == before + [m] && TurnSoFar() == turn + [m] && answer == Some(|turn|)
      ensures Tally(log) == Tally(old(log))
    {
      hide Observed, UseOn, Parse, ReduceAll, Tally;
      if !inserted {
        var waiting := m.(stop := Pending, error := None);
        var position := Open(waiting);
        Overwrite(position, m, before, waiting, turn);
      } else {
        Overwrite(index, m, before, partial, turn);
      }
      Close(m, before, turn);
    }

    lemma ReceivingIsCutShort(inserted: bool, index: nat, before: seq<Message>, partial: Message, turn: seq<Message>)
      requires Valid() && Receiving(inserted, index, before, partial, turn)
      ensures var stale := if inserted then [partial] else []; CutShort(stale) && newMessages == before + stale
    {
      hide Observed, UseOn, Parse, ReduceAll, Tally;
      if inserted { assert base + newMessages == agent.messages + [partial]; }
    }

    /** `_stream_assistant_response`: the answer is the response's, and adds one message; or the
        call raises, and leaves the message that was in flight. */
    method StreamAssistantResponse(response: Response) returns (r: Reply<AssistantMessage>)
      requires Valid() && InTurn() && answer == None
      modifies this`log, this`trace, this`answer, this`newMessages, agent`messages, agent`streaming, agent`pending, agent`error, context`messages
      ensures Valid() && r == AnswerOf(response)
      ensures r.Value? ==> InTurn() && newMessages == old(newMessages) + [r.value]
      ensures r.Value? ==> TurnSoFar() == old(TurnSoFar()) + [r.value] && answer == Some(|old(TurnSoFar())|)
      ensures r.Raised? ==> CutShort(StaleOf(response)) && newMessages == old(newMessages) + ClosedBy(response) + StaleOf(response)
      ensures Tally(log) == Tally(old(log))
    {
      hide Valid, InTurn, Quiet, InFlight, CutShort, TurnSoFar, Observed, UseOn, Parse, ReduceAll, Tally, AgreeRunning, Regular;
      ghost var before, turn := newMessages, TurnSoFar();
      if response.opening.Raised? {
        ReceivingIsCutShort(false, 0, before, Assistant([], Pending, None), turn);
        return Raised(response.opening.cancelled);
      }
      var events := EventStreams.UpToTerminal(IsFinal, response.pushes);
      EventStreams.AcceptedEndAtTerminal(IsFinal, response.pushes);
      NothingRegular();

      var inserted, index: nat := false, 0;
      var final: Option<AssistantMessage> := None;
      ghost var partial: Message := Assistant([], Pending, None);
      assert events[..0] == [];
      for i := 0 to |events|
        invariant Valid() && Tally(log) == Tally(old(log)) && Regular(events[..i]) == events[..i]
        invariant final.None? ==> Receiving(inserted, index, before, partial, turn) && (inserted <==> i > 0)
        invariant final.None? && i > 0 ==> !events[i - 1].Terminal? && partial == events[i - 1].partial
        invariant final.Some? ==> 0 < i == |events| && events[i - 1] == Terminal(final.value)
        invariant final.Some? ==> InTurn() && newMessages == before + [final.value] && TurnSoFar() == turn + [final.value] && answer == Some(|turn|)
      {
        assert i < |events| - 1 ==> !IsFinal(events[i]);
        RegularAppend(events, i);
        match events[i]
        case Start(p) =>
          if inserted {
            ReceivingIsCutShort(inserted, index, before, partial, turn);
            RegularIsPrefix(events, i + 1);
            return Raised(false);
          }
          index := Open(p);
          inserted, partial := true, p;
        case Delta(p) =>
          index := Update(p, inserted, index, before, partial, turn);
          inserted, partial := true, p;
        case Terminal(m) =>
          Finish(m, inserted, index, before, partial, turn);
          final := Some(m);
      }
      assert events[..|events|] == events;
      if !response.ending.Resolved? {
        if final.None? {
          ReceivingIsCutShort(inserted, index, before, partial, turn);
        } else {
          TurnIsCutShort();
        }
        return Raised(response.ending.Interrupted? && response.ending.cancelled);
      }
      if final.None? {
        Finish(response.ending.message, inserted, index, before, partial, turn);
        final := Some(response.ending.message);
      }
      return Value(final.value);
    }

    lemma TurnIsCutShort()
      requires InTurn()
      ensures CutShort([])
    {
      hide Observed, UseOn, Parse, ReduceAll;
    }

    // ----- tools -----

    /** Inside a batch: the executions of `open` have started and not ended. */
    ghost predicate InBatch(open: seq<string>, turn: seq<Message>)
      reads this`log, this`newMessages, this`context, this`contextBase, this`mark, this`answer, this`failed, agent, context
    {
      && ContextCurrent() && failed == None && prompts <= newMessages && base + newMessages == agent.messages
      && agent.streaming == None && (forall id :: id in agent.pending ==> id in open) && (answer.Some? ==> answer.value < |turn|)
      && Parse(log) == Turn(newMessages, turn, None, multiset(open)) && Tally(log) != []
    }

    lemma TurnIsBatch()
      requires InTurn()
      ensures InBatch([], TurnSoFar())
    {
      TurnIsTallied(log);
    }

    lemma BatchIsTurn(turn: seq<Message>)
      requires InBatch([], turn)
      ensures InTurn() && TurnSoFar() == turn
    {
      assert agent.pending == {};
    }

    lemma BatchIsCutShort(open: seq<string>, turn: seq<Message>)
      requires InBatch(open, turn)
      ensures CutShort([])
    {
    }

    /** Tool events find nothing in flight. */
    method EmitTool(e: Event, ghost open: seq<string>, ghost turn: seq<Message>)
      requires Valid() && InBatch(open, turn) && (e.ToolStart? || e.ToolUpdate? || e.ToolEnd?)
      modifies this`log, this`trace, this`answer, agent`messages, agent`streaming, agent`pending, agent`error
      ensures answer == old(answer)
      ensures Valid() && ContextCurrent() && base + newMessages == agent.messages
      ensures agent.streaming == None && agent.pending == Reduce(old(agent.View()), e).pending
      ensures Parse(log) == Step(Turn(newMessages, turn, None, multiset(open)), e)
      ensures Tally(log) == Tallied(old(Tally(log)), Turn(newMessages, turn, None, multiset(open)), e)
    {
      hide Valid, AgreeRunning, AnswerMoves, Observed, UseOn, Parse, ReduceAll, Tally, Step;
      SettledAgrees(e);
      Emit(e, answer);
    }

    method StartTool(call: ToolCall, ghost open: seq<string>, ghost turn: seq<Message>)
      requires Valid() && InBatch(open, turn)
      modifies this`log, this`trace, this`answer, agent`messages, agent`streaming, agent`pending, agent`error
      ensures answer == old(answer)
      ensures Valid() && InBatch(open + [call.id], turn) && ToolEnds(log) == ToolEnds(old(log))
      ensures Beside(old(Tally(log)), Tally(log), call.id !in open) && (open == [] ==> Tally(log) == Tally(old(log)))
    {
      hide Valid, Observed, UseOn, Parse, ReduceAll, Tally, AgreeRunning;
      EmitTool(ToolStart(call.id, call.name), open, turn);
    }

    /** `on_update`: running tools report progress, any number of times. */
    method ReportProgress(calls: seq<ToolCall>, ghost open: seq<string>, ghost turn: seq<Message>)
      requires Valid() && InBatch(open, turn) && forall c :: c in calls ==> c.id in open
      modifies this`log, this`trace, this`answer, agent`messages, agent`streaming, agent`pending, agent`error
      ensures answer == old(answer)
      ensures Valid() && InBatch(open, turn) && Tally(log) == Tally(old(log)) && ToolEnds(log) == ToolEnds(old(log))
    {
      hide Valid, Observed, UseOn, Parse, ReduceAll, Tally, AgreeRunning;
      var reporters: seq<ToolCall> := Arbitrary();
      for i := 0 to |reporters|
        invariant answer == old(answer)
        invariant Valid() && InBatch(open, turn) && Tally(log) == Tally(old(log))
      {
        if reporters[i] in calls {
          EmitTool(ToolUpdate(reporters[i].id, reporters[i].name), open, turn);
        }
      }
    }

    method EndTool(o: Outcome, ghost k: nat, ghost open: seq<string>, ghost turn: seq<Message>)
      requires Valid() && InBatch(open, turn) && k < |open| && open[k] == o.call.id
      modifies this`log, this`trace, this`answer, agent`messages, agent`streaming, agent`pending, agent`error
      ensures answer == old(answer)
      ensures Valid() && InBatch(open[..k] + open[k + 1..], turn)
      ensures ToolEnds(log) == ToolEnds(old(log)) + multiset{EndEvent(o)} && Level(old(Tally(log)), Tally(log))
    {
      hide Valid, ContextCurrent, Observed, UseOn, Parse, ReduceAll, Tally, AgreeRunning;
      RemoveAt(open, k);
      PendingLeft(agent.pending, open, k);
      ghost var left := open[..k] + open[k + 1..];
      EmitTool(EndEvent(o), open, turn);
      assert forall id :: id in agent.pending ==> id in left;
    }

    /** One call from its start event to its end event, alone. */
    method RunTool(index: nat, call: ToolCall, behavior: Behavior) returns (r: Reply<Outcome>)
      requires Valid() && InTurn()
      modifies this`log, this`trace, this`answer, agent`messages, agent`streaming, agent`pending, agent`error
      ensures Valid() && answer == old(answer) && Level(old(Tally(log)), Tally(log))
      ensures r == if behavior.Throws? then Raised(world.thrown(requests)) else Value(OutcomeOf(index, call, behavior))
      ensures r.Value? ==> InTurn() && TurnSoFar() == old(TurnSoFar())
      ensures r.Value? ==> ToolEnds(log) == ToolEnds(old(log)) + multiset{EndEvent(r.value)}
      ensures r.Raised? ==> CutShort([])
    {
      ghost var turn := TurnSoFar();
      TurnIsBatch();
      hide Valid, InTurn, Quiet, InBatch, CutShort, TurnSoFar, Observed, UseOn, Parse, ReduceAll, Tally, OutcomeOf;
      RunBody(call, behavior, turn);
      if behavior.Throws? {
        BatchIsCutShort([call.id], turn);
        return Raised(world.thrown(requests));
      }
      var outcome := OutcomeOf(index, call, behavior);
      OutcomeHasCall(index, call, behavior);
      EndTool(outcome, 0, [call.id], turn);
      assert [call.id][..0] + [call.id][1..] == [];
      BatchIsTurn(turn);
      return Value(outcome);
    }

    lemma OutcomeIsPlain(index: nat, call: ToolCall, behavior: Behavior)
      requires !behavior.Throws?
      ensures ComesTo(OutcomeOf(index, call, behavior), index, call, behavior)
    {}

    lemma OutcomeHasCall(index: nat, call: ToolCall, behavior: Behavior)
      ensures OutcomeOf(index, call, behavior).call == call
    {}

    /** The start event, and the progress of a tool that is run. */
    method RunBody(call: ToolCall, behavior: Behavior, ghost turn: seq<Message>)
      requires Valid() && InBatch([], turn)
      modifies this`log, this`trace, this`answer, agent`messages, agent`streaming, agent`pending, agent`error
      ensures Valid() && InBatch([call.id], turn) && answer == old(answer)
      ensures Tally(log) == Tally(old(log))
    {
      hide Valid, InBatch, Observed, UseOn, Parse, ReduceAll, Tally;
      StartTool(call, [], turn);
      assert [] + [call.id] == [call.id];
      if !behavior.Refused? {
        ReportProgress([call], [call.id], turn);
      }
    }

    /** One call from its start event to its result message, alone. */
    method ExecuteOne(index: nat, call: ToolCall, behavior: Behavior) returns (r: Reply<Outcome>)
      requires Valid() && InTurn()
      modifies this`log, this`trace, this`answer, this`newMessages, agent`messages, agent`streaming, agent`pending, agent`error, context`messages
      ensures Valid() && answer == old(answer) && Level(old(Tally(log)), Tally(log))
      ensures r == if behavior.Throws? then Raised(world.thrown(requests)) else Value(OutcomeOf(index, call, behavior))
      ensures r.Value? ==> InTurn() && newMessages == old(newMessages) + [ResultMessage(r.value)]
      ensures r.Value? ==> TurnSoFar() == old(TurnSoFar()) + [ResultMessage(r.value)]
      ensures r.Value? ==> ToolEnds(log) == ToolEnds(old(log)) + multiset{EndEvent(r.value)}
      ensures r.Value? ==> ComesTo(r.value, index, call, behavior)
      ensures r.Raised? ==> CutShort([]) && newMessages == old(newMessages)
    {
      hide Valid, InTurn, CutShort, TurnSoFar, Tally, OutcomeOf, ComesTo;
      r := RunTool(index, call, behavior);
      if r.Value? {
        OutcomeIsPlain(index, call, behavior);
        Report(ResultMessage(r.value));
      }
    }

    /** Extends a batch by its next call. */
    method ExecuteNext(b: Batch, calls: seq<ToolCall>, behaviors: seq<Behavior>,
                       ghost before: seq<Message>, ghost turn: seq<Message>, ghost ends: multiset<Event>)
      returns (r: Reply<Batch>)
      requires |behaviors| == |calls| && |b.outcomes| < |calls|
      requires Valid() && BatchDone(b, calls, behaviors, before, turn, ends)
      modifies this`log, this`trace, this`answer, this`newMessages, agent`messages, agent`streaming, agent`pending, agent`error, context`messages
      ensures Valid() && answer == old(answer) && Level(old(Tally(log)), Tally(log))
      ensures r.Raised? <==> behaviors[|b.outcomes|].Throws?
      ensures r.Value? ==> |r.value.outcomes| == |b.outcomes| + 1 && BatchDone(r.value, calls, behaviors, before, turn, ends)
      ensures r.Raised? ==> CutShort([]) && r.cancelled == world.thrown(requests)
      ensures r.Raised? ==> newMessages == before + ResultMessages(Outcomes(calls, behaviors, |b.outcomes|))
    {
      hide Valid, InTurn, Quiet, CutShort, TurnSoFar, Observed, UseOn, Parse, ReduceAll, Tally, AgreeRunning, OutcomeOf, Outcomes, ResultMessages, EndEvents, ComesTo;
      var index := |b.outcomes|;
      var done := ExecuteOne(index, calls[index], behaviors[index]);
      if done.Raised? {
        return Raised(done.cancelled);
      }
      BatchGrows(b.results, b.outcomes, done.value, calls, behaviors);
      return Value(Batch(b.results + [ResultMessage(done.value)], b.outcomes + [done.value]));
    }

    /** How a batch ends that gets so far. */
    ghost predicate Executed(e: Execution, r: Reply<Batch>, calls: seq<ToolCall>, behaviors: seq<Behavior>,
                             before: seq<Message>, turn: seq<Message>, ends: multiset<Event>)
      requires e.n <= |calls| == |behaviors|
      reads this`log, this`newMessages, this`context, this`contextBase, this`mark, this`answer, this`failed, this`requests, agent, context
    {
      match e
      case Ran(n) => r.Value? && |r.value.outcomes| == n && BatchDone(r.value, calls, behaviors, before, turn, ends)
      case Threw(n) => r == Raised(world.thrown(requests)) && CutShort([]) && newMessages == before + ResultMessages(Outcomes(calls, behaviors, n))
    }

    /** `_execute_sequential_batch`: one call after the other, until all are done, one throws, or the run
        is found cancelled. */
    method ExecuteSequential(calls: seq<ToolCall>, behaviors: seq<Behavior>) returns (r: Reply<Batch>)
      requires Valid() && InTurn() && |behaviors| == |calls|
      modifies this`log, this`trace, this`answer, this`newMessages, agent`messages, agent`streaming, agent`pending, agent`error, context`messages
      ensures Valid() && answer == old(answer) && Level(old(Tally(log)), Tally(log))
      ensures Executed(InOrder(world, requests, behaviors, 0), r, calls, behaviors, old(newMessages), old(TurnSoFar()), ToolEnds(old(log)))
    {
      hide Valid, TurnSoFar, BatchDone, Quiet, InTurn, Observed, UseOn, Parse, ReduceAll, Tally, CutShort, IsCancelled;
      var b := EmptyBatch(calls, behaviors);
      for index := 0 to |calls|
        invariant Valid() && answer == old(answer) && |b.outcomes| == index && Level(old(Tally(log)), Tally(log))
        invariant InOrder(world, requests, behaviors, 0) == InOrder(world, requests, behaviors, index)
        invariant BatchDone(b, calls, behaviors, old(newMessages), old(TurnSoFar()), ToolEnds(old(log)))
      {
        var next := ExecuteNext(b, calls, behaviors, old(newMessages), old(TurnSoFar()), ToolEnds(old(log)));
        if next.Raised? {
          return Raised(next.cancelled);
        }
        b := next.value;
        if IsCancelled(world, requests, index + 1) {
          break;
        }
      }
      return Value(b);
    }

    method EmptyBatch(calls: seq<ToolCall>, behaviors: seq<Behavior>) returns (b: Batch)
      requires Valid() && InTurn() && |behaviors| == |calls|
      ensures b.outcomes == [] && BatchDone(b, calls, behaviors, newMessages, TurnSoFar(), ToolEnds(log)) && Level(Tally(log), Tally(log))
    {
      TurnIsTallied(log);
      hide Valid, Quiet, TurnSoFar, Observed, UseOn, Parse, ReduceAll;
      b := Batch([], []);
      assert EndEvents([]) == [] && Outcomes(calls, behaviors, 0) == [] && ResultMessages([]) == [];
    }

    /** A response cut off at the output token limit: no tool runs, every call gets a result. */
    method RefuseTruncated(calls: seq<ToolCall>) returns (b: Batch)
      requires Valid() && InTurn()
      modifies this`log, this`trace, this`answer, this`newMessages, agent`messages, agent`streaming, agent`pending, agent`error, context`messages
      ensures Valid() && answer == old(answer)
      ensures BatchDone(b, calls, TruncatedBehaviors(calls), old(newMessages), old(TurnSoFar()), ToolEnds(old(log)))
      ensures |b.outcomes| == |calls| && Level(old(Tally(log)), Tally(log))
    {
      hide Valid, TurnSoFar, BatchDone, Quiet, InTurn, Observed, UseOn, Parse, ReduceAll, Tally, CutShort;
      var behaviors := TruncatedBehaviors(calls);
      b := EmptyBatch(calls, behaviors);
      for index := 0 to |calls|
        invariant Valid() && answer == old(answer) && |b.outcomes| == index && Level(old(Tally(log)), Tally(log))
        invariant BatchDone(b, calls, behaviors, old(newMessages), old(TurnSoFar()), ToolEnds(old(log)))
      {
        assert behaviors[index] in behaviors;
        var next := ExecuteNext(b, calls, behaviors, old(newMessages), old(TurnSoFar()), ToolEnds(old(log)));
        b := next.value;
      }
    }

    /** A parallel batch under way: its first `n` calls have started, `running` have not ended. */
    ghost predicate UnderWay(calls: seq<ToolCall>, behaviors: seq<Behavior>, outcomes: map<nat, Outcome>, running: seq<nat>,
                             n: nat, turn: seq<Message>, ends: multiset<Event>)
      reads this`log, this`newMessages, this`context, this`contextBase, this`mark, this`answer, this`failed, agent, context
      requires n <= |calls| == |behaviors|
    {
      && TasksOk(calls, behaviors, outcomes, running, n)
      && InBatch(Ids(calls, running), turn)
      && Accounted(ToolEnds(log), ends, EndsAt(calls, behaviors, running), EndEvents(Outcomes(calls, behaviors, n)))
    }

    method PrepareOne(calls: seq<ToolCall>, behaviors: seq<Behavior>, index: nat, before: map<nat, Outcome>, started: seq<nat>,
                      ghost turn: seq<Message>, ghost ends: multiset<Event>)
      returns (outcomes: map<nat, Outcome>, running: seq<nat>)
      requires index < |calls| == |behaviors|
      requires Valid() && UnderWay(calls, behaviors, before, started, index, turn, ends)
      modifies this`log, this`trace, this`answer, agent`messages, agent`streaming, agent`pending, agent`error
      ensures answer == old(answer) && Beside(old(Tally(log)), Tally(log), DistinctIds(calls))
      ensures Valid() && UnderWay(calls, behaviors, outcomes, running, index + 1, turn, ends)
    {
      hide Valid, InBatch, Observed, UseOn, Parse, ReduceAll, Tally, AgreeRunning, Accounted, Outcomes, EndEvents;
      outcomes, running := before, started;
      ghost var open := Ids(calls, running);
      var outcome := OutcomeOf(index, calls[index], behaviors[index]);
      ghost var toCome, all := EndsAt(calls, behaviors, running), EndEvents(Outcomes(calls, behaviors, index));
      OutcomesGrow(calls, behaviors, index);
      StartsApart(calls, started, index);
      StartTool(calls[index], open, turn);
      if behaviors[index].Refused? {
        AccountRefused(ToolEnds(log), ends, toCome, all, EndEvent(outcome));
        TaskSettled(calls, behaviors, outcomes, running, index);
        outcomes := outcomes[index := outcome];
        EndTool(outcome, |open|, open + [calls[index].id], turn);
        assert (open + [calls[index].id])[..|open|] + (open + [calls[index].id])[|open| + 1..] == open;
      } else {
        AccountStarted(ToolEnds(log), ends, toCome, all, EndEvent(outcome));
        TaskAdded(calls, behaviors, outcomes, running, index);
        running := running + [index];
      }
    }

    lemma NothingUnderWay(calls: seq<ToolCall>, behaviors: seq<Behavior>)
      requires InTurn() && |behaviors| == |calls|
      ensures UnderWay(calls, behaviors, map[], [], 0, TurnSoFar(), ToolEnds(log)) && Tally(log) != []
    {
      TurnIsTallied(log);
      hide Observed, UseOn, Parse, ReduceAll, Tally;
      assert Ids(calls, []) == [] && EndsAt(calls, behaviors, []) == [] && EndEvents(Outcomes(calls, behaviors, 0)) == [];
    }

    /** The first loop of `_execute_parallel_batch`: every call starts, in order; the refused ones
        end at once, the others are left to run. */
    method PrepareAll(calls: seq<ToolCall>, behaviors: seq<Behavior>) returns (outcomes: map<nat, Outcome>, running: seq<nat>)
      requires Valid() && InTurn() && |behaviors| == |calls|
      modifies this`log, this`trace, this`answer, agent`messages, agent`streaming, agent`pending, agent`error
      ensures answer == old(answer) && Beside(old(Tally(log)), Tally(log), DistinctIds(calls))
      ensures Valid() && UnderWay(calls, behaviors, outcomes, running, |calls|, old(TurnSoFar()), ToolEnds(old(log)))
    {
      hide UnderWay, Valid, TurnSoFar, InTurn, Quiet, Observed, UseOn, Parse, ReduceAll, Tally;
      outcomes, running := map[], [];
      NothingUnderWay(calls, behaviors);
      for index := 0 to |calls|
        invariant answer == old(answer) && Beside(old(Tally(log)), Tally(log), DistinctIds(calls))
        invariant Valid() && UnderWay(calls, behaviors, outcomes, running, index, old(TurnSoFar()), ToolEnds(old(log)))
      {
        outcomes, running := PrepareOne(calls, behaviors, index, outcomes, running, old(TurnSoFar()), ToolEnds(old(log)));
      }
    }

    /** One task finishes, after any progress reports; or it raises, the others are cancelled and
        may report more. */
    method AwaitOne(calls: seq<ToolCall>, behaviors: seq<Behavior>, before: map<nat, Outcome>, tasks: seq<nat>, k: nat,
                    ghost turn: seq<Message>, ghost ends: multiset<Event>)
      returns (r: Reply<map<nat, Outcome>>)
      requires |behaviors| == |calls| && k < |tasks|
      requires Valid() && UnderWay(calls, behaviors, before, tasks, |calls|, turn, ends)
      modifies this`log, this`trace, this`answer, agent`messages, agent`streaming, agent`pending, agent`error
      ensures Valid() && answer == old(answer) && Level(old(Tally(log)), Tally(log))
      ensures r.Value? ==> UnderWay(calls, behaviors, r.value, Without(tasks, k), |calls|, turn, ends)
      ensures r.Raised? ==> CutShort([]) && SomeThrows(behaviors) && r.cancelled == world.thrown(requests)
    {
      ghost var open := Ids(calls, tasks);
      var index := tasks[k];
      hide Valid, InBatch, CutShort, Observed, UseOn, Parse, ReduceAll, Tally, ToolEnds, AgreeRunning, Accounted, Outcomes, EndEvents;
      UnderWayIsTallied(calls, behaviors, before, tasks, turn, ends);
      ReportProgress(CallsAt(calls, tasks), open, turn);
      if behaviors[index].Throws? {
        ReportProgress(CallsAt(calls, tasks), open, turn);
        BatchIsCutShort(open, turn);
        assert behaviors[index] in behaviors;
        return Raised(world.thrown(requests));
      }
      var outcome := OutcomeOf(index, calls[index], behaviors[index]);
      OpenRemoved(calls, behaviors, tasks, k);
      AccountEnded(ToolEnds(log), ends, EndsAt(calls, behaviors, tasks), EndsAt(calls, behaviors, Without(tasks, k)),
                   EndEvents(Outcomes(calls, behaviors, |calls|)), EndEvent(outcome));
      EndTool(outcome, k, open, turn);
      TaskRemoved(calls, behaviors, before, tasks, k);
      return Value(before[index := outcome]);
    }

    /** The tasks finish in any order. */
    method AwaitTasks(calls: seq<ToolCall>, behaviors: seq<Behavior>, started: map<nat, Outcome>, tasks: seq<nat>,
                      ghost turn: seq<Message>, ghost ends: multiset<Event>)
      returns (r: Reply<map<nat, Outcome>>)
      requires |behaviors| == |calls|
      requires Valid() && UnderWay(calls, behaviors, started, tasks, |calls|, turn, ends)
      modifies this`log, this`trace, this`answer, agent`messages, agent`streaming, agent`pending, agent`error
      ensures Valid() && answer == old(answer) && Level(old(Tally(log)), Tally(log))
      ensures r.Value? ==> UnderWay(calls, behaviors, r.value, [], |calls|, turn, ends)
      ensures r.Raised? ==> CutShort([]) && SomeThrows(behaviors) && r.cancelled == world.thrown(requests)
    {
      hide UnderWay, Valid, CutShort, Observed, UseOn, Parse, ReduceAll, Tally;
      UnderWayIsTallied(calls, behaviors, started, tasks, turn, ends);
      var outcomes: map<nat, Outcome>, running: seq<nat> := started, tasks;
      while running != []
        invariant Valid() && answer == old(answer) && Level(old(Tally(log)), Tally(log))
        invariant UnderWay(calls, behaviors, outcomes, running, |calls|, turn, ends)
        decreases |running|
      {
        var k: nat :| k < |running|;
        var done := AwaitOne(calls, behaviors, outcomes, running, k, turn, ends);
        if done.Raised? {
          return Raised(done.cancelled);
        }
        outcomes, running := done.value, Without(running, k);
      }
      return Value(outcomes);
    }

    lemma UnderWayIsTallied(calls: seq<ToolCall>, behaviors: seq<Behavior>, outcomes: map<nat, Outcome>, running: seq<nat>,
                            turn: seq<Message>, ends: multiset<Event>)
      requires |behaviors| == |calls| && UnderWay(calls, behaviors, outcomes, running, |calls|, turn, ends)
      ensures Tally(log) != []
    {
      hide Parse, Tally;
    }

    /** The last loop: one result message per call, in call order. */
    method ReportResults(calls: seq<ToolCall>, behaviors: seq<Behavior>, outcomes: map<nat, Outcome>) returns (b: Batch)
      requires Valid() && InTurn() && |behaviors| == |calls| && TasksOk(calls, behaviors, outcomes, [], |calls|)
      modifies this`log, this`trace, this`answer, this`newMessages, agent`messages, agent`streaming, agent`pending, agent`error, context`messages
      ensures Valid() && InTurn() && answer == old(answer) && Tally(log) == Tally(old(log))
      ensures b.outcomes == Outcomes(calls, behaviors, |calls|) && b.results == ResultMessages(b.outcomes)
      ensures newMessages == old(newMessages) + b.results && TurnSoFar() == old(TurnSoFar()) + b.results
    {
      hide Valid, Quiet, Observed, UseOn, Parse, ReduceAll, Tally, AgreeRunning;
      b := Batch([], []);
      for index := 0 to |calls|
        invariant Valid() && InTurn() && answer == old(answer) && Tally(log) == Tally(old(log))
        invariant b.outcomes == Outcomes(calls, behaviors, index) && b.results == ResultMessages(b.outcomes)
        invariant newMessages == old(newMessages) + b.results && TurnSoFar() == old(TurnSoFar()) + b.results
      {
        if index in outcomes {
          BatchGrows(b.results, b.outcomes, outcomes[index], calls, behaviors);
          Report(ResultMessage(outcomes[index]));
          b := Batch(b.results + [ResultMessage(outcomes[index])], b.outcomes + [outcomes[index]]);
        }
      }
    }

    /** `_execute_parallel_batch`: whatever order the tools finish in, the batch is that of its
        calls in call order. */
    method ExecuteParallel(calls: seq<ToolCall>, behaviors: seq<Behavior>) returns (r: Reply<Batch>)
      requires Valid() && InTurn() && |behaviors| == |calls|
      modifies this`log, this`trace, this`answer, this`newMessages, agent`messages, agent`streaming, agent`pending, agent`error, context`messages
      ensures Valid() && answer == old(answer) && Beside(old(Tally(log)), Tally(log), DistinctIds(calls))
      ensures Executed(if SomeThrows(behaviors) then Threw(0) else Ran(|calls|), r, calls, behaviors, old(newMessages), old(TurnSoFar()), ToolEnds(old(log)))
    {
      hide Valid, TurnSoFar, Quiet, InTurn, UnderWay, BatchDone, CutShort, Observed, UseOn, Parse, ReduceAll, Tally, Outcomes;
      ghost var turn, ends := TurnSoFar(), ToolEnds(log);
      var outcomes, running := PrepareAll(calls, behaviors);
      var done := AwaitTasks(calls, behaviors, outcomes, running, turn, ends);
      if done.Raised? {
        NothingReported(calls, behaviors, newMessages);
        return Raised(done.cancelled);
      }
      var b := Gather(calls, behaviors, done.value, turn, ends);
      NoneThrew(b, calls, behaviors, old(newMessages), turn, ends);
      return Value(b);
    }

    lemma NothingReported(calls: seq<ToolCall>, behaviors: seq<Behavior>, before: seq<Message>)
      requires |behaviors| == |calls|
      ensures before + ResultMessages(Outcomes(calls, behaviors, 0)) == before
    {}

    lemma NoneThrew(b: Batch, calls: seq<ToolCall>, behaviors: seq<Behavior>, before: seq<Message>, turn: seq<Message>, ends: multiset<Event>)
      requires |behaviors| == |calls| == |b.outcomes| && BatchDone(b, calls, behaviors, before, turn, ends)
      ensures !SomeThrows(behaviors)
    {
      hide ToolEnds, Parse, ReduceAll, EndEvents, Outcomes;
    }

    /** All tasks have finished: their results are reported. */
    method Gather(calls: seq<ToolCall>, behaviors: seq<Behavior>, outcomes: map<nat, Outcome>, ghost turn: seq<Message>, ghost ends: multiset<Event>)
      returns (b: Batch)
      requires |behaviors| == |calls|
      requires Valid() && UnderWay(calls, behaviors, outcomes, [], |calls|, turn, ends)
      modifies this`log, this`trace, this`answer, this`newMessages, agent`messages, agent`streaming, agent`pending, agent`error, context`messages
      ensures Valid() && answer == old(answer) && |b.outcomes| == |calls| && Tally(log) == Tally(old(log))
      ensures BatchDone(b, calls, behaviors, old(newMessages), turn, ends)
    {
      hide Valid, TurnSoFar, Quiet, InBatch, Observed, UseOn, Parse, ReduceAll, Tally, AgreeRunning;
      assert Ids(calls, []) == [] && EndsAt(calls, behaviors, []) == [];
      BatchIsTurn(turn);
      assert ToolEnds(log) + multiset([]) == ToolEnds(log);
      b := ReportResults(calls, behaviors, outcomes);
    }

    /** `_execute_tool_batch`.  A response cut off by the token limit runs nothing; otherwise the
        tools run in sequence if the configuration or one of them asks for it. */
    method ExecuteToolBatch(assistant: AssistantMessage) returns (r: Reply<Batch>)
      requires Valid() && InTurn()
      modifies this`log, this`trace, this`answer, this`newMessages, agent`messages, agent`streaming, agent`pending, agent`error, context`messages
      ensures Valid() && answer == old(answer)
      ensures Executed(BatchOf(world, requests, assistant, context.tools), r, SequenceCalls(assistant.content), BehaviorsOf(world, requests, assistant),
                       old(newMessages), old(TurnSoFar()), ToolEnds(old(log)))
      ensures OneByOne(world, assistant, context.tools) ==> Level(old(Tally(log)), Tally(log))
      ensures Beside(old(Tally(log)), Tally(log), DistinctIds(SequenceCalls(assistant.content)))
    {
      hide Valid, BatchDone, CutShort, InTurn, Quiet, TurnSoFar, Observed, UseOn, Parse, ReduceAll, Tally;
      var calls, behaviors := SequenceCalls(assistant.content), BehaviorsOf(world, requests, assistant);
      if calls == [] {
        var b := EmptyBatch(calls, behaviors);
        return Value(b);
      }
      if assistant.stop == Length {
        var b := RefuseTruncated(calls);
        return Value(b);
      }
      if Sequential(world, context.tools, calls) {
        r := ExecuteSequential(calls, behaviors);
      } else {
        r := ExecuteParallel(calls, behaviors);
      }
    }

    /** What a batch leaves behind: the outcomes of its first calls in call order, none of which
        threw, their result messages added to the transcript in that order, one end event each. */
    ghost predicate BatchDone(b: Batch, calls: seq<ToolCall>, behaviors: seq<Behavior>,
                              before: seq<Message>, turn: seq<Message>, ends: multiset<Event>)
      requires |behaviors| == |calls|
      reads this`log, this`newMessages, this`context, this`contextBase, this`mark, this`answer, this`failed, agent, context
    {
      && InTurn()
      && |b.outcomes| <= |calls| && b.outcomes == Outcomes(calls, behaviors, |b.outcomes|)
      && (forall i :: 0 <= i < |b.outcomes| ==> !behaviors[i].Throws?)
      && b.results == ResultMessages(b.outcomes)
      && newMessages == before + b.results && TurnSoFar() == turn + b.results
      && ToolEnds(log) == ends + multiset(EndEvents(b.outcomes))
    }

    // ----- the run -----

    /** The run has reported its end, and the copies agree. */
    ghost predicate Finished()
      reads this`log, this`newMessages, this`context, this`contextBase, this`mark, this`failed, agent, context
    {
      && ContextCurrent() && base + newMessages == agent.messages && failed == None
      && agent.streaming == None && agent.pending == {}
      && Parse(log) == Done(newMessages)
    }

    /** Reporting the prompts: `n` of them are done. */
    ghost predicate Opening(n: nat)
      reads this`log, this`newMessages, this`context, this`contextBase, this`mark, this`answer, this`failed, agent, context
    {
      && n <= |prompts| && newMessages == prompts && ContextCurrent() && answer == None && failed == None
      && agent.messages == base + prompts[..n] && agent.streaming == None && agent.pending == {}
      && Parse(log) == Turn(prompts[..n], prompts[..n], None, multiset{})
    }

    lemma OpeningAgrees(e: Event, n: nat)
      requires n <= |prompts| && newMessages == prompts && ContextCurrent() && answer == None && agent.messages == base + prompts[..n]
      requires EndedOf(Parse(log)) == prompts[..n]
      requires e == AgentStart || e == TurnStart || (n < |prompts| && (e == MessageStart(prompts[n]) || e == MessageEnd(prompts[n])))
      ensures AgreeRunning(base, prompts, Parse(log), agent.View(), e, Snap(None)) && AnswerMoves(answer, Parse(log), e, None)
    {
      hide Parse;
      assert prompts == prompts[..n] + prompts[n..];
      assert base + newMessages == agent.messages + prompts[n..];
      assert agent.messages + [] == agent.messages;
    }

    method ReportPrompt(ghost n: nat, prompt: Message)
      requires Valid() && Opening(n) && n < |prompts| && prompt == prompts[n]
      modifies this`log, this`trace, this`answer, agent`messages, agent`streaming, agent`pending, agent`error
      ensures Valid() && Opening(n + 1) && Tally(log) == Tally(old(log))
    {
      hide Valid, AgreeRunning, AnswerMoves, Observed, UseOn, Parse, ReduceAll, Tally;
      OpeningAgrees(MessageStart(prompt), n);
      Emit(MessageStart(prompt), None);
      OpeningAgrees(MessageEnd(prompt), n);
      Emit(MessageEnd(prompt), None);
      assert prompts[..n + 1] == prompts[..n] + [prompt];
    }

    lemma StartedEmpty()
      requires Valid() && Fresh()
      ensures Parse(log) == Idle && answer == None && agent.messages == base + prompts[..0]
    {
      hide ReduceAll;
      assert base + [] == base;
    }

    /** The first events of a run, and one pair for each prompt. */
    method OpenRun()
      requires Valid() && Fresh()
      modifies this`log, this`trace, this`answer, agent`messages, agent`streaming, agent`pending, agent`error
      ensures Valid() && InTurn() && answer == None && Tally(log) == [UNTOUCHED]
    {
      StartedEmpty();
      hide Valid, AgreeRunning, AnswerMoves, Observed, UseOn, Parse, ReduceAll, Tally;
      OpeningAgrees(AgentStart, 0);
      Emit(AgentStart, None);
      OpeningAgrees(TurnStart, 0);
      Emit(TurnStart, None);
      ReportPrompts();
    }

    method ReportPrompts()
      requires Valid() && Opening(0)
      modifies this`log, this`trace, this`answer, agent`messages, agent`streaming, agent`pending, agent`error
      ensures Valid() && InTurn() && answer == None && Tally(log) == Tally(old(log))
    {
      hide Valid, AgreeRunning, AnswerMoves, Observed, UseOn, Parse, ReduceAll, Tally;
      for i := 0 to |prompts|
        invariant Valid() && Opening(i) && Tally(log) == Tally(old(log))
      {
        ReportPrompt(i, prompts[i]);
      }
      assert prompts[..|prompts|] == prompts;
    }

    /** `prepare_next_turn`: nothing, or a context that the loop takes over with the messages it has by
        then. */
    method PrepareNextTurn(ghost s: Run) returns (r: Reply<bool>)
      requires Valid() && BetweenTurns() && s.Going? && s.turns != [] && |Tally(log)| == |s.turns| && Follows(s)
      modifies this`context, this`contextBase, this`mark, this`used, contexts`messages
      ensures Valid() && Follows(OnPrepare(world, s)) && r == ReplyOf(OnPrepare(world, s))
      ensures if r.Value? then Prepared() else Quiet() && Parse(log).Between?
      ensures !HandsOver(world, |s.turns| - 1) ==> context == old(context) && context.messages == old(context.messages) && used == old(used)
      ensures HandsOver(world, |s.turns| - 1) ==>
                var h := world.prepares(|s.turns| - 1).value.value; context == h.context && context.messages == h.messages && mark == |newMessages|
    {
      hide Valid, Quiet, Observed, UseOn, Parse, ReduceAll, Tally, HandedOut, Waiting, FlatTurns;
      var update := world.prepares(requests - 1);
      if update.Raised? {
        assert newMessages + [] + [] == newMessages;
        return Raised(update.cancelled);
      }
      if update.value.Some? {
        TakeOver(update.value.value);
        assert s.turns[..|s.turns|] == s.turns;
      }
      return Value(true);
    }

    /** Takes over a context with the messages that it has by then. */
    method TakeOver(handed: Handover)
      requires Valid() && BetweenTurns() && Tally(log) != [] && HandsOver(world, |Tally(log)| - 1)
      requires handed == world.prepares(|Tally(log)| - 1).value.value
      modifies this`context, this`contextBase, this`mark, this`used, contexts`messages
      ensures Valid() && Prepared() && context == handed.context && context.messages == handed.messages
      ensures used == Use(Some(|Tally(log)| - 1), |newMessages|) && mark == |newMessages|
    {
      hide Observed, UseOn, Parse, ReduceAll, Tally;
      TurnIsTallied(log);
      context := handed.context;
      context.messages := handed.messages;
      contextBase, mark, used := handed.messages, |newMessages|, Use(Some(|Tally(log)| - 1), |newMessages|);
      assert contextBase + [] == contextBase;
    }

    lemma QuietIsCutShort()
      requires InTurn() || BetweenTurns() || (Quiet() && Parse(log).Between?)
      ensures CutShort([])
    {
      hide Observed, UseOn, Parse, ReduceAll;
    }

    method StartTurn()
      requires Valid() && Prepared()
      modifies this`log, this`trace, this`answer, agent`messages, agent`streaming, agent`pending, agent`error
      ensures Valid() && InTurn() && TurnSoFar() == [] && answer == None && Tally(log) == Tally(old(log)) + [UNTOUCHED]
    {
      hide Observed, Parse, ReduceAll, Tally, UseOn, UsesContext, Closed;
      ProducedIsClosed();
      Emit(TurnStart, None);
    }

    /** What the run has produced between turns is what its log has closed. */
    lemma ProducedIsClosed()
      requires Quiet() && Parse(log).Between?
      ensures newMessages == Closed(log)
    {
      hide ReduceAll, Closed;
      EndedIsClosed(log);
    }

    /** The turn's end event, with the assistant message and the results that closed the turn. */
    method EndTurn(assistant: AssistantMessage, results: seq<Message>)
      requires Valid() && InTurn() && EndsWith(TurnSoFar(), [assistant] + results)
      requires answer.Some? && answer.value + 1 + |results| == |TurnSoFar()|
      modifies this`log, this`trace, this`answer, agent`messages, agent`streaming, agent`pending, agent`error
      ensures Valid() && BetweenTurns() && Tally(log) == Tally(old(log))
    {
      hide Observed, UseOn, Parse, ReduceAll, Tally;
      Emit(TurnEnd(assistant, results), answer);
    }

    method EndRun()
      requires Valid() && BetweenTurns()
      modifies this`log, this`trace, this`answer, agent`messages, agent`streaming, agent`pending, agent`error
      ensures Valid() && Finished() && log == old(log) + [AgentEnd(newMessages)] && Tally(log) == Tally(old(log))
    {
      hide Observed, UseOn, Parse, ReduceAll, Tally;
      Emit(AgentEnd(newMessages), None);
    }

    /** The head of a pass after the first: the hook, one more look at the steering queue if nothing
        waits, and the turn's start.  A hook that raises strands the messages that wait. */
    method OpenTurn(ghost s: Run) returns (r: Reply<bool>)
      requires Valid() && BetweenTurns() && s.Going? && s.turns != [] && |Tally(log)| == |s.turns| && Follows(s)
      modifies this`context, this`contextBase, this`mark, this`used, contexts`messages, this`asks, this`pendingMessages, this`log, this`trace, this`answer,
               steering, followUp, agent`messages, agent`streaming, agent`pending, agent`error
      ensures Valid() && Follows(OnOpening(world, s)) && r == ReplyOf(OnOpening(world, s))
      ensures r.Value? ==> InTurn() && TurnSoFar() == [] && answer == None && Tally(log) == Tally(old(log)) + [UNTOUCHED]
      ensures r.Raised? ==> CutShort([]) && log == old(log)
    {
      hide Valid, Quiet, TurnSoFar, CutShort, Observed, UseOn, Parse, ReduceAll, Tally, LocalOf, FlatTurns, OnAsk;
      var prepared := PrepareNextTurn(s);
      QuietIsCutShort();
      if prepared.Raised? {
        return Raised(prepared.cancelled);
      }
      if pendingMessages == [] {
        var asked := Ask(Steering, OnPrepare(world, s));
        if asked.Raised? {
          return Raised(asked.cancelled);
        }
      }
      StartTurn();
      return Value(true);
    }

    /** The tool calls of a response, executed; `has_more_tool_calls` is left in `wantsMore`: there are
        calls, and their outcomes do not all ask to stop. */
    method ExecuteCalls(assistant: AssistantMessage) returns (r: Reply<Batch>)
      requires Valid() && InTurn()
      modifies this`log, this`trace, this`answer, this`newMessages, this`wantsMore, agent`messages, agent`streaming, agent`pending, agent`error, context`messages
      ensures Valid() && answer == old(answer)
      ensures Executed(BatchOf(world, requests, assistant, context.tools), r, SequenceCalls(assistant.content), BehaviorsOf(world, requests, assistant),
                       old(newMessages), old(TurnSoFar()), ToolEnds(old(log)))
      ensures OneByOne(world, assistant, context.tools) ==> Level(old(Tally(log)), Tally(log))
      ensures Beside(old(Tally(log)), Tally(log), DistinctIds(SequenceCalls(assistant.content)))
      ensures r.Value? ==> (wantsMore <==> SequenceCalls(assistant.content) != [] && !Terminates(r.value.outcomes))
      ensures r.Value? ==> (wantsMore <==> exists i :: 0 <= i < |r.value.outcomes| && KeepsGoing(world, requests, assistant, i))
      ensures r.Value? ==> |r.value.results| == |r.value.outcomes| && ResultsTell(world, requests, assistant, r.value.results)
    {
      hide Valid, CutShort, InTurn, Quiet, TurnSoFar, Observed, UseOn, Parse, ReduceAll, Tally, SequenceCalls, Terminates, BatchOf, BehaviorsOf, ToolEnds, EndEvents, ResultsTell, Unsatisfied;
      r := ExecuteToolBatch(assistant);
      if r.Value? {
        BatchTells(world, requests, assistant, context.tools, r.value);
        wantsMore := SequenceCalls(assistant.content) != [] && !Terminates(r.value.outcomes);
      }
    }

    lemma BatchTells(world: World, k: nat, assistant: AssistantMessage, tools: seq<Tool>, b: Batch)
      requires var calls, behaviors, n := SequenceCalls(assistant.content), BehaviorsOf(world, k, assistant), |b.outcomes|;
               BatchOf(world, k, assistant, tools) == Ran(n) && b.outcomes == Outcomes(calls, behaviors, n) && b.results == ResultMessages(b.outcomes)
      ensures (SequenceCalls(assistant.content) != [] && !Terminates(b.outcomes))
              <==> exists i :: 0 <= i < |b.outcomes| && KeepsGoing(world, k, assistant, i)
      ensures ResultsTell(world, k, assistant, b.results)
    {
      hide SequenceCalls, Terminates, BatchOf, BehaviorsOf, ResultsTell, Outcomes;
      var t := TurnRecord([], InUse(None, tools), assistant, b.outcomes);
      WantsExactly(world, k, t, |b.outcomes|);
      ResultsTold(world, k, t, |b.outcomes|);
    }

    /** The log has the tool events of the story's turns, and of the one that broke off. */
    ghost predicate Counts(s: Run)
      reads this`log
    {
      TurnsTallied(world, s, Tally(log))
    }

    /** The same between turns. */
    ghost predicate CountsAll(s: Run)
      reads this`log
    {
      Counts(s) && |Tally(log)| == |s.turns|
    }

    /** The same in a turn that has not come to its tools. */
    ghost predicate CountsBefore(s: Run)
      reads this`log
    {
      Counts(s) && |Tally(log)| == |s.turns| + 1 && Tally(log)[|s.turns|] == UNTOUCHED
    }

    /** The loop has followed the story up to a turn whose messages are injected. */
    ghost predicate Placed(s: Run)
      reads this`pendingMessages, this`requests, this`asks, this`context, this`used, steering, followUp
    {
      && s.Going? && Waiting() == s.queues && pendingMessages == [] && UsesAfter(s.used, s.turns)
      && requests == |s.turns| && asks == |s.drains| && HandedOut(s.drains, [], [])
    }

    ghost function Before(s: Run): seq<Message>
      requires s.Going?
    {
      prompts + FlatTurns(s.turns) + s.waiting
    }

    /** How the middle of a pass ends whose story goes on so. */
    ghost predicate Responded(z: Run, r: Reply<(AssistantMessage, seq<Message>)>)
      reads this`newMessages, this`pendingMessages, this`requests, this`asks, this`wantsMore, this`log, this`context, this`contextBase, this`mark, this`used, this`answer, this`failed,
            context, agent, steering, followUp
    {
      && Follows(z) && Counts(z)
      && if z.Broke? then r == Raised(z.cancelled) && CutShort(z.stale)
         else
           && CountsAll(z) && r.Value? && z.turns != [] && r.value.0 == Last(z.turns).answer && (z.Over? <==> Failed(r.value.0)) && (z.Going? ==> wantsMore == z.more)
           && InTurn() && EndsWith(TurnSoFar(), [r.value.0] + r.value.1) && answer.Some? && answer.value + 1 + |r.value.1| == |TurnSoFar()|
    }

    lemma TurnEndsWith(turn: seq<Message>, message: Message, results: seq<Message>)
      requires TurnSoFar() == turn + [message] + results
      ensures EndsWith(TurnSoFar(), [message] + results)
    {
      hide Parse;
      assert TurnSoFar()[|turn|..] == [message] + results;
    }

    /** The provider answers, and the calls of its answer are executed.  A failed answer has none. */
    method Respond(ghost s: Run) returns (r: Reply<(AssistantMessage, seq<Message>)>)
      requires Valid() && InTurn() && answer == None && Placed(s) && CountsBefore(s) && newMessages == Before(s) && !IsCancelled(world, requests, 0)
      modifies this`requests, this`wantsMore, this`log, this`trace, this`answer, this`newMessages, agent`messages, agent`streaming, agent`pending, agent`error, context`messages
      ensures Valid() && Responded(OnAnswer(world, s), r)
    {
      hide Valid, Quiet, InTurn, CutShort, TurnSoFar, Observed, UseOn, Parse, ReduceAll, Tally, FlatTurns, IsCancelled, Before;
      hide AnswerOf, StaleOf, ClosedBy, ResultMessages, EndsWith, Failed, HandedOut, Waiting, BatchOf, UsesAfter, TurnsTallied;
      ghost var turn := TurnSoFar();
      var message := StreamAssistantResponse(world.responses(requests));
      if message.Raised? {
        ResponseBroke(s);
        SameTallies(world, s, OnAnswer(world, s), Tally(log));
        return Raised(message.cancelled);
      }
      if Failed(message.value) {
        NoResults();
        TurnAppended(s, message.value, []);
        UsesStays(s.used, s.turns, TurnRecord(s.waiting, s.used, message.value, []));
        OneMoreTally(world, s, OnAnswer(world, s), Tally(log));
        TurnEndsWith(turn, message.value, []);
        requests := requests + 1;
        return Value((message.value, []));
      }
      r := RunCalls(message.value, s, turn);
    }

    /** The calls of an answer that did not fail. */
    method RunCalls(message: AssistantMessage, ghost s: Run, ghost turn: seq<Message>) returns (r: Reply<(AssistantMessage, seq<Message>)>)
      requires Valid() && InTurn() && Placed(s) && CountsBefore(s) && newMessages == Before(s) + [message] && !IsCancelled(world, requests, 0)
      requires AnswerOf(world.responses(requests)) == Value(message) && !Failed(message)
      requires TurnSoFar() == turn + [message] && answer == Some(|turn|)
      modifies this`requests, this`wantsMore, this`log, this`trace, this`answer, this`newMessages, agent`messages, agent`streaming, agent`pending, agent`error, context`messages
      ensures Valid() && Responded(OnAnswer(world, s), r)
    {
      hide Valid, Quiet, InTurn, CutShort, TurnSoFar, Observed, UseOn, Parse, ReduceAll, Tally, EndEvents, FlatTurns, IsCancelled, Before;
      hide AnswerOf, StaleOf, ClosedBy, BehaviorsOf, BatchOf, Outcomes, ResultMessages, SequenceCalls, Terminates, EndsWith, Failed, HandedOut, Waiting, UsesAfter, TurnsTallied, OneByOne, DistinctIds, TallyOk, Orderly, Level, Beside;
      ContextHasTools(s);
      ghost var ts := Tally(log);
      var batch := ExecuteCalls(message);
      TallyOfBatch(s, message, batch, ts);
      if batch.Raised? {
        BatchBroke(s, message);
        return Raised(batch.cancelled);
      }
      TurnAppended(s, message, batch.value.outcomes);
      UsesStays(s.used, s.turns, TurnRecord(s.waiting, s.used, message, batch.value.outcomes));
      TurnEndsWith(turn, message, batch.value.results);
      requests := requests + 1;
      return Value((message, batch.value.results));
    }

    lemma ContextHasTools(s: Run)
      requires s.Going? && UsesAfter(s.used, s.turns)
      ensures context.tools == s.used.tools
    {}

    lemma UsesStays(now: InUse, turns: seq<TurnRecord>, t: TurnRecord)
      requires UsesAfter(now, turns)
      ensures UsesAfter(now, turns + [t])
    {
      hide FlatTurns;
      if now.handed.Some? {
        assert (turns + [t])[..now.handed.value + 1] == turns[..now.handed.value + 1];
      }
    }

    /** What a batch adds to the tallies. */
    lemma TallyOfBatch(s: Run, message: AssistantMessage, r: Reply<Batch>, ts: seq<TurnTally>)
      requires s.Going? && TurnsTallied(world, s, ts) && |ts| == |s.turns| + 1 && ts[|s.turns|] == UNTOUCHED
      requires !IsCancelled(world, |s.turns|, 0) && AnswerOf(world.responses(|s.turns|)) == Value(message) && !Failed(message)
      requires OneByOne(world, message, s.used.tools) ==> Level(ts, Tally(log))
      requires Beside(ts, Tally(log), DistinctIds(SequenceCalls(message.content)))
      requires var e := BatchOf(world, |s.turns|, message, s.used.tools);
               && (r.Value? <==> e.Ran?)
               && (r.Value? ==> r.value.outcomes == Outcomes(SequenceCalls(message.content), BehaviorsOf(world, |s.turns|, message), e.n)
                                && ToolEnds(log) == multiset(EndEvents(r.value.outcomes)))
      ensures Counts(OnAnswer(world, s)) && (r.Value? ==> CountsAll(OnAnswer(world, s)))
    {
      hide Tally, EndEvents, AnswerOf, BatchOf, BehaviorsOf, SequenceCalls, Outcomes, IsCancelled, OneByOne, DistinctIds, Failed, Wants;
      var z, more, n := OnAnswer(world, s), Tally(log), |s.turns|;
      forall k | 0 <= k < n ensures more[k] == ts[k] {
        assert more[..n][k] == ts[..n][k];
      }
    }

    lemma NoResults()
      ensures ResultMessages([]) == []
    {}

    lemma TurnAppended(s: Run, message: AssistantMessage, outcomes: seq<Outcome>)
      requires s.Going?
      ensures Before(s) + [message] + ResultMessages(outcomes) == prompts + FlatTurns(s.turns + [TurnRecord(s.waiting, s.used, message, outcomes)])
      ensures Before(s) + [message] + [] == Before(s) + [message]
    {
      hide FlatTurns, ResultMessages;
      FlatTurnsAppend(s.turns, TurnRecord(s.waiting, s.used, message, outcomes));
    }

    lemma ResponseBroke(s: Run)
      requires s.Going?
      ensures var response := world.responses(|s.turns|);
              Before(s) + ClosedBy(response) + StaleOf(response) == prompts + FlatTurns(s.turns) + (s.waiting + ClosedBy(response)) + StaleOf(response)
    {
      hide FlatTurns, ClosedBy, StaleOf;
    }

    lemma BatchBroke(s: Run, message: AssistantMessage)
      requires s.Going?
      ensures forall outcomes :: Before(s) + [message] + ResultMessages(outcomes)
                == prompts + FlatTurns(s.turns) + TurnMessages(TurnRecord(s.waiting, s.used, message, outcomes)) + []
    {
      hide FlatTurns, ResultMessages;
    }

    /** The middle of a pass: what waits is injected, then the provider answers.  A cancelled run does
        not ask it. */
    method Answer(ghost s: Run) returns (r: Reply<(AssistantMessage, seq<Message>)>)
      requires Valid() && InTurn() && answer == None && s.Going? && Follows(s) && CountsBefore(s)
      modifies this`requests, this`pendingMessages, this`wantsMore, this`log, this`trace, this`answer, this`newMessages,
               agent`messages, agent`streaming, agent`pending, agent`error, context`messages
      ensures Valid() && Responded(OnAnswer(world, s), r)
    {
      hide Valid, Quiet, InTurn, CutShort, TurnSoFar, Observed, UseOn, Parse, ReduceAll, Tally, LocalOf, FlatTurns, EndsWith, Failed, IsCancelled, UsesAfter, TurnsTallied;
      InjectPending();
      if IsCancelled(world, requests, 0) {
        QuietIsCutShort();
        SameTallies(world, s, OnAnswer(world, s), Tally(log));
        assert newMessages + [] == newMessages;
        return Raised(true);
      }
      r := Respond(s);
    }

    /** A pass up to its turn's end event. */
    method TakeTurn(startsTurn: bool, ghost s: Run) returns (r: Reply<AssistantMessage>)
      requires Valid() && s.Going? && Follows(s) && (startsTurn <==> s.turns != [])
      requires if startsTurn then BetweenTurns() && CountsAll(s) else InTurn() && answer == None && CountsBefore(s)
      modifies this`context, this`contextBase, this`mark, this`used, this`requests, this`asks, this`pendingMessages, this`wantsMore,
               this`log, this`trace, this`answer, this`newMessages, contexts`messages, steering, followUp, agent`messages, agent`streaming, agent`pending, agent`error
      ensures var z := OnTurn(world, s);
              && Valid() && Follows(z) && Counts(z)
              && if z.Broke? then r == Raised(z.cancelled) && CutShort(z.stale)
                 else CountsAll(z) && z.turns != [] && r == Value(Last(z.turns).answer) && BetweenTurns() && (z.Over? <==> Failed(r.value)) && (z.Going? ==> wantsMore == z.more)
    {
      hide Valid, Quiet, InTurn, BetweenTurns, CutShort, TurnSoFar, Observed, UseOn, Parse, ReduceAll, Tally, LocalOf, FlatTurns, EndsWith, Failed, OnOpening, OnAnswer, UsesAfter, TurnsTallied;
      ContextIsListed();
      if startsTurn {
        var started := OpenTurn(s);
        OpeningMoves(s, old(Tally(log)), Tally(log));
        if started.Raised? {
          return Raised(started.cancelled);
        }
        ContextIsListed();
      }
      ghost var h := if startsTurn then OnOpening(world, s) else s;
      var answered := Answer(h);
      if answered.Raised? {
        return Raised(answered.cancelled);
      }
      EndTurn(answered.value.0, answered.value.1);
      return Value(answered.value.0);
    }

    /** The head of a pass has no tools. */
    lemma OpeningMoves(s: Run, before: seq<TurnTally>, ts: seq<TurnTally>)
      requires s.Going? && s.turns != [] && TurnsTallied(world, s, before) && |before| == |s.turns|
      requires ts == before || ts == before + [UNTOUCHED]
      ensures var h := OnOpening(world, s);
              && (h.Going? || (h.Broke? && h.stale == [])) && h.turns == s.turns && TurnsTallied(world, h, ts)
    {
      hide TallyOk, LocalAt, LeftAt;
    }

    /** How a part of the loop ends, between passes, whose story goes on so. */
    ghost predicate Passed(z: Run, r: Reply<Pass>)
      reads this`newMessages, this`pendingMessages, this`requests, this`asks, this`log, this`context, this`contextBase, this`mark, this`used, this`answer, this`failed,
            context, agent, steering, followUp
    {
      && Follows(z) && Counts(z)
      && match z
         case Going(_, _, _, _, _, _) => r == Value(Continues) && BetweenTurns() && CountsAll(z)
         case Over(_, _, _, _, ending) => r == Value(Ends(ending)) && Finished()
         case Broke(_, _, _, _, _, _, wasCancelled, _, stale, _) => r == Raised(wasCancelled) && CutShort(stale)
    }

    /** The rest of a pass whose answer did not fail: the hook, and the steering queue. */
    method AfterTurn(ghost s: Run) returns (r: Reply<Pass>)
      requires Valid() && BetweenTurns() && s.Going? && s.turns != [] && s.waiting == [] && Follows(s) && CountsAll(s)
      modifies this`asks, this`pendingMessages, this`log, this`trace, this`answer, steering, followUp, agent`messages, agent`streaming, agent`pending, agent`error
      ensures Valid() && Passed(OnClosing(world, s), r)
    {
      hide Valid, Quiet, InTurn, BetweenTurns, CutShort, Finished, Observed, UseOn, Parse, ReduceAll, Tally, LocalOf, FlatTurns;
      QuietIsCutShort();
      SameTallies(world, s, OnClosing(world, s), Tally(log));
      var stop := world.stops(requests - 1);
      if stop.Raised? {
        assert newMessages + [] + [] == newMessages;
        return Raised(stop.cancelled);
      }
      if stop.value {
        EndRun();
        return Value(Ends(StoppedByHook));
      }
      var asked := Ask(Steering, s);
      return if asked.Raised? then Raised(asked.cancelled) else Value(Continues);
    }

    /** One pass of the inner loop: one more turn, or an exception. */
    method RunPass(startsTurn: bool, ghost s: Run) returns (r: Reply<Pass>)
      requires Valid() && s.Going? && Follows(s) && (startsTurn <==> s.turns != [])
      requires if startsTurn then BetweenTurns() && CountsAll(s) else InTurn() && answer == None && CountsBefore(s)
      modifies this`context, this`contextBase, this`mark, this`used, this`requests, this`asks, this`pendingMessages, this`wantsMore,
               this`log, this`trace, this`answer, this`newMessages, contexts`messages, steering, followUp, agent`messages, agent`streaming, agent`pending, agent`error
      ensures Valid() && Passed(OnPass(world, s), r) && (r == Value(Continues) ==> wantsMore == OnPass(world, s).more)
    {
      hide Valid, InTurn, BetweenTurns, Finished, Failed, Observed, UseOn, Parse, ReduceAll, Tally, TurnSoFar, Quiet, CutShort, FlatTurns, EndsWith, LocalOf, OnTurn, OnAsk,
           UsesAfter, TurnsTallied, HandedOut, Waiting;
      var answered := TakeTurn(startsTurn, s);
      if answered.Raised? {
        return Raised(answered.cancelled);
      }
      TurnMoves(s);
      if Failed(answered.value) {
        EndRun();
        return Value(Ends(AssistantFailed));
      }
      r := AfterTurn(OnTurn(world, s));
      AskKeepsMore(OnTurn(world, s));
    }

    lemma TurnMoves(s: Run)
      requires s.Going?
      ensures var z := OnTurn(world, s); (z.Going? ==> z.turns != [] && z.waiting == []) && (z.Over? ==> z.ending == AssistantFailed)
    {
      hide AnswerOf, BatchOf, BehaviorsOf, SequenceCalls, StaleOf, ClosedBy, Outcomes, LocalAt, LeftAt, Failed, Wants, TurnMessages, IsCancelled;
    }

    lemma AskKeepsMore(s: Run)
      requires s.Going? && s.turns != []
      ensures OnClosing(world, s).Going? ==> OnClosing(world, s).more == s.more
    {
      hide LocalAt, LeftAt;
    }

    /** The first events, and the first look at the steering queue. */
    method OpenLoop() returns (r: Reply<bool>)
      requires Valid() && Fresh()
      modifies this`asks, this`pendingMessages, this`log, this`trace, this`answer, steering, followUp, agent`messages, agent`streaming, agent`pending, agent`error
      ensures Valid()
      ensures var s := OnStart(world, old(Waiting()), context.tools); Follows(s) && r == ReplyOf(s)
      ensures r.Value? ==> InTurn() && answer == None
      ensures r.Raised? ==> CutShort([])
      ensures Tally(log) == [UNTOUCHED]
    {
      hide Valid, Quiet, CutShort, Observed, UseOn, Parse, ReduceAll, Tally, OnAsk;
      ghost var s := Going([], [], Waiting(), [], InUse(None, context.tools), true);
      assert prompts + [] == prompts && steering.drained + [] + [] == steering.drained && followUp.drained + [] + [] == followUp.drained;
      assert Follows(s);
      OpenRun();
      QuietIsCutShort();
      r := Ask(Steering, s);
    }

    /** Out of the inner loop: follow-up messages, or the end. */
    method FollowUpOrEnd(ghost s: Run) returns (r: Reply<Pass>)
      requires Valid() && BetweenTurns() && s.Going? && s.waiting == [] && Follows(s) && CountsAll(s)
      modifies this`asks, this`pendingMessages, this`log, this`trace, this`answer, steering, followUp, agent`messages, agent`streaming, agent`pending, agent`error
      ensures Valid() && Passed(OnFollowUp(world, s), r)
    {
      hide Valid, Quiet, InTurn, BetweenTurns, CutShort, Finished, Observed, UseOn, Parse, ReduceAll, Tally, LocalOf, FlatTurns, LocalAt, LeftAt;
      QuietIsCutShort();
      SameTallies(world, s, OnFollowUp(world, s), Tally(log));
      var asked := Ask(FollowUp, s);
      if asked.Raised? {
        return Raised(asked.cancelled);
      }
      if pendingMessages != [] {
        return Value(Continues);
      }
      EndRun();
      return Value(Ends(FellThrough));
    }

    /** `_run_loop`, watched for at most `maxTurns` passes: it does what the story of its world says. */
    method RunLoop(maxTurns: nat) returns (r: Reply<Option<Ending>>, ghost s: Run)
      requires Valid() && Fresh()
      modifies this`context, this`contextBase, this`mark, this`used, this`requests, this`asks, this`pendingMessages, this`wantsMore,
               this`log, this`trace, this`answer, this`newMessages, contexts`messages, steering, followUp, agent`messages, agent`streaming, agent`pending, agent`error
      ensures Valid() && Reached(world, old(Waiting()), original.tools, s) && Follows(s) && Counts(s)
      ensures match s
              case Going(_, _, _, _, _, _) => r == Value(None) && |s.turns| == maxTurns && (InTurn() || BetweenTurns())
              case Over(_, _, _, _, ending) => r == Value(Some(ending)) && Finished()
              case Broke(_, _, _, _, _, _, wasCancelled, _, stale, _) => r == Raised(wasCancelled) && CutShort(stale)
    {
      hide Valid, Quiet, InTurn, BetweenTurns, Finished, Observed, UseOn, Parse, ReduceAll, Tally, LocalOf, CutShort, FlatTurns, OnStart, OnPass, OnFollowUp, UsesAfter, TurnsTallied;
      ghost var q, tools, n := Waiting(), original.tools, 0;
      ContextIsFirst();
      var opened_ := OpenLoop();
      s := OnStart(world, q, tools);
      StartMoves(q, tools, Tally(log));
      assert s == Play(world, q, tools, 0);
      if opened_.Raised? {
        return Raised(opened_.cancelled), s;
      }
      var lastCompleted, left: nat := false, maxTurns;
      while true
        invariant Valid() && s == Play(world, q, tools, n) && s.Going? && Follows(s) && s.more && |s.turns| == maxTurns - left
        invariant lastCompleted <==> s.turns != []
        invariant if lastCompleted then BetweenTurns() && CountsAll(s) else InTurn() && answer == None && CountsBefore(s)
        decreases left
      {
        var hasMore := true;
        ghost var before := left;
        while hasMore || pendingMessages != []
          invariant Valid() && s == Play(world, q, tools, n) && s.Going? && Follows(s) && s.more == hasMore && |s.turns| == maxTurns - left
          invariant lastCompleted <==> s.turns != []
          invariant if lastCompleted then BetweenTurns() && CountsAll(s) else InTurn() && answer == None && CountsBefore(s)
          invariant left <= before && (hasMore || left < before)
          decreases left
        {
          if left == 0 {
            return Value(None), s;
          }
          left := left - 1;
          PassMoves(s);
          var pass := RunPass(lastCompleted, s);
          s, n := OnPass(world, s), n + 1;
          assert s == Play(world, q, tools, n);
          if pass.Raised? {
            return Raised(pass.cancelled), s;
          }
          if pass.value.Ends? {
            return Value(Some(pass.value.ending)), s;
          }
          lastCompleted, hasMore := true, wantsMore;
        }
        FollowUpMoves(s);
        var over := FollowUpOrEnd(s);
        s, n := OnFollowUp(world, s), n + 1;
        assert s == Play(world, q, tools, n);
        if over.Raised? {
          return Raised(over.cancelled), s;
        }
        if over.value.Ends? {
          return Value(Some(over.value.ending)), s;
        }
      }
    }

    lemma ContextIsFirst()
      requires Valid() && Fresh()
      ensures context == original
    {
      hide Observed, UseOn, ReduceAll;
    }

    lemma StartMoves(q: Queued, tools: seq<Tool>, ts: seq<TurnTally>)
      ensures var s := OnStart(world, q, tools);
              && s.turns == [] && (if s.Going? then s.more else s.Broke? && s.stale == [])
              && (ts == [UNTOUCHED] ==> TurnsTallied(world, s, ts))
    {
      hide LocalAt, LeftAt;
    }

    lemma PassMoves(s: Run)
      requires s.Going?
      ensures OnPass(world, s).Going? ==> |OnPass(world, s).turns| == |s.turns| + 1
    {
      hide AnswerOf, BatchOf, BehaviorsOf, SequenceCalls, StaleOf, ClosedBy, Outcomes, LocalAt, LeftAt, Failed, Wants, TurnMessages, IsCancelled;
    }

    lemma FollowUpMoves(s: Run)
      requires s.Going?
      ensures var z := OnFollowUp(world, s); z.Going? ==> z.turns == s.turns && z.more
    {
      hide LocalAt, LeftAt;
    }

    // ----- the guard around the run -----

    /** The run was cut short and has reported a failure.  The reducer's transcript has lost the
        message that was in flight; the payload of the end event and the context still have it. */
    ghost predicate Reported(stale: seq<Message>, failure: Message, before: seq<Event>, payload: seq<Message>)
      reads this`log, this`newMessages, agent
    {
      && FailedLog(prompts, log, stale, failure, before, payload) && payload == newMessages + [failure]
      && agent.messages == base + Closed(before) + [failure]
      && agent.streaming == None && agent.error == failure.error
    }

    lemma CutShortLog(stale: seq<Message>)
      requires CutShort(stale)
      ensures newMessages == Closed(log) + stale && agent.messages == base + Closed(log) && |stale| <= 1 && prompts <= Closed(log)
      ensures ContextCurrent() && mark <= |newMessages| && base + newMessages == agent.messages + stale
      ensures forall e :: e in log ==> !e.AgentEnd?
      ensures stale != [] <==> Parse(log).Turn? && Parse(log).open.Some?
      ensures Parse(log).Turn? || Parse(log).Between?
    {
      EndedIsClosed(log);
      NoEndYet(log);
      hide Observed, UseOn, Parse, ReduceAll, Closed;
      assert newMessages == Closed(log) + stale;
      assert (base + (Closed(log) + stale))[..|base + Closed(log)|] == base + Closed(log);
      assert (agent.messages + stale)[..|agent.messages|] == agent.messages;
    }

    /** What holds while the four events of a failure are emitted: `told` of them are out. */
    ghost predicate Telling(f: Failing, before: seq<Event>, closed: seq<Message>, told: nat)
      reads this`log, this`newMessages, this`mark, this`failed, agent
    {
      && failed == Some(f) && f.from == |before| && |f.stale| <= 1 && mark <= |newMessages|
      && |log| == |before| + told && before <= log
      && ReduceAll(begun, before).messages == base + closed && base + newMessages == base + closed + f.stale
      && agent.messages == base + closed + (if told <= 1 then [] else [f.failure])
      && (f.stale != [] <==> Parse(before).Turn? && Parse(before).open.Some?)
    }

    /** The failure's message goes to the first context once its end has been reported. */
    ghost predicate ContextAt(failure: Message, told: nat)
      reads this`newMessages, this`context, this`contextBase, this`mark, context
    {
      && mark <= |newMessages|
      && context.messages == contextBase + newMessages[mark..] + (if context == original && told >= 2 then [failure] else [])
    }

    lemma TellingAgrees(f: Failing, before: seq<Event>, closed: seq<Message>, told: nat)
      requires Valid() && Telling(f, before, closed, told) && ContextAt(f.failure, told) && told < 4
      ensures AgreeFailing(base, begun, log, FailureEvent(f, told, newMessages), Snap(answer))
    {
      hide Observed, UseOn, Parse, ReduceAll;
      assert log[..f.from] == before;
      assert base + closed + [] == base + closed;
    }

    method TellFailure(ghost f: Failing, e: Event, ghost before: seq<Event>, ghost closed: seq<Message>, ghost told: nat)
      requires Valid() && told < 4 && Telling(f, before, closed, told) && ContextAt(f.failure, told)
      requires e == FailureEvent(f, told, newMessages)
      modifies this`log, this`trace, this`answer, agent`messages, agent`streaming, agent`pending, agent`error
      ensures Valid() && log == old(log) + [e] && agent.View() == Reduce(old(agent.View()), e)
      ensures Telling(f, before, closed, told + 1)
    {
      hide Valid, Observed, UseOn, Parse, ReduceAll, AgreeFailing, ContextAt;
      TellingAgrees(f, before, closed, told);
      EmitFailing(e);
      assert base + closed + [] == base + closed;
    }

    ghost method BeginFailure(f: Failing)
      requires Valid() && CutShort(f.stale) && f.from == |log|
      modifies this`failed
      ensures Valid() && Telling(f, log, Closed(log), 0) && ContextAt(f.failure, 0) && ContextAt(f.failure, 1)
    {
      hide Observed, UseOn, Parse, ReduceAll, Closed;
      CutShortLog(f.stale);
      failed := Some(f);
      assert base + Closed(log) + [] == base + Closed(log);
      assert context.messages + [] == context.messages;
    }

    twostate lemma FirstContextHasFailure(failure: Message)
      requires old(ContextAt(failure, 1)) && original.messages == old(original.messages) + [failure]
      requires newMessages == old(newMessages) && context == old(context) && contextBase == old(contextBase) && mark == old(mark)
      requires context != original ==> context.messages == old(context.messages)
      ensures ContextAt(failure, 2) && ContextAt(failure, 3)
    {
      assert old(context.messages) + [] == old(context.messages);
    }

    lemma ToldAll(f: Failing, before: seq<Event>, closed: seq<Message>)
      requires Telling(f, before, closed, 4)
      ensures failed == Some(f) && agent.messages == base + closed + [f.failure] && |f.stale| <= 1
      ensures f.stale != [] <==> Parse(before).Turn? && Parse(before).open.Some?
    {
      hide Parse, ReduceAll;
    }

    /** `_finish_after_loop_failure`: on the context the run began with. */
    method FinishAfterFailure(wasCancelled: bool, ghost stale: seq<Message>) returns (payload: seq<Message>, failure: AssistantMessage)
      requires Valid() && CutShort(stale)
      modifies this`log, this`trace, this`answer, this`failed, agent`messages, agent`streaming, agent`pending, agent`error, original`messages
      ensures Valid() && failed.Some? && Reported(stale, failure, old(log), payload)
      ensures original.messages == old(original.messages) + [failure]
      ensures failure == FailureMessage(wasCancelled) && Tally(log) == Tally(old(log))
    {
      hide Valid, Telling, ContextAt, CutShort, Observed, UseOn, Parse, ReduceAll, AgreeFailing, Closed;
      failure := FailureMessage(wasCancelled);
      ghost var before, closed, f := log, Closed(log), Failing(|log|, failure, stale);
      CutShortLog(stale);
      BeginFailure(f);
      TellMessage(f, failure, before, closed);
      payload := TellEnd(f, failure, before, closed);
      ToldAll(f, before, closed);
      assert log == before + FailureEvents(failure, payload);
      FailureUntallied(before, failure, payload);
    }

    /** The failure's message is reported, and then goes to the first context. */
    method TellMessage(ghost f: Failing, failure: AssistantMessage, ghost before: seq<Event>, ghost closed: seq<Message>)
      requires Valid() && Telling(f, before, closed, 0) && ContextAt(failure, 0) && ContextAt(failure, 1) && f.failure == failure
      modifies this`log, this`trace, this`answer, agent`messages, agent`streaming, agent`pending, agent`error, original`messages
      ensures Valid() && Telling(f, before, closed, 2) && ContextAt(failure, 2) && ContextAt(failure, 3)
      ensures log == old(log) + [MessageStart(failure), MessageEnd(failure)] && original.messages == old(original.messages) + [failure]
      ensures agent.streaming == None && (Failed(failure) ==> agent.error == failure.error)
    {
      hide Valid, Telling, ContextAt, Observed, UseOn, Parse, ReduceAll, AgreeFailing;
      TellFailure(f, MessageStart(failure), before, closed, 0);
      TellFailure(f, MessageEnd(failure), before, closed, 1);
      label Told:
      original.messages := original.messages + [failure];
      FirstContextHasFailure@Told(failure);
    }

    method TellEnd(ghost f: Failing, failure: AssistantMessage, ghost before: seq<Event>, ghost closed: seq<Message>) returns (payload: seq<Message>)
      requires Valid() && Telling(f, before, closed, 2) && ContextAt(failure, 2) && ContextAt(failure, 3) && f.failure == failure
      modifies this`log, this`trace, this`answer, agent`messages, agent`streaming, agent`pending, agent`error
      ensures Valid() && Telling(f, before, closed, 4) && payload == newMessages + [failure]
      ensures log == old(log) + [TurnEnd(failure, []), AgentEnd(payload)]
      ensures agent.streaming == old(agent.streaming) && agent.error == old(agent.error)
    {
      hide Valid, Telling, ContextAt, Observed, UseOn, Parse, ReduceAll, AgreeFailing;
      TellFailure(f, TurnEnd(failure, []), before, closed, 2);
      payload := newMessages + [failure];
      TellFailure(f, AgentEnd(payload), before, closed, 3);
    }

    lemma IsObserved()
      requires Valid()
      ensures Observed(world, original, base, begun, prompts, log, trace)
    {
      hide Observed, UseOn, Parse, ReduceAll;
    }

    lemma QueuesAreValid()
      requires Valid()
      ensures steering.Valid() && followUp.Valid() && agent.messages == ReduceAll(begun, log).messages
    {
      hide Observed, UseOn, ReduceAll;
    }

    lemma FinishedIsSummary()
      requires Finished()
      ensures Summary(base, agent.messages, agent.error, newMessages)
    {
      hide Observed, UseOn, Parse, ReduceAll;
    }

    lemma ReportedIsSummary(stale: seq<Message>, failure: Message, before: seq<Event>, payload: seq<Message>)
      requires Reported(stale, failure, before, payload)
      ensures Summary(base, agent.messages, agent.error, payload)
    {
      hide Observed, UseOn, Parse, ReduceAll;
      assert WithFailure(base, agent.messages, agent.error, payload, Closed(before), stale, failure);
    }

    /** After a failure the transcript and the result agree exactly when no message was in flight. */
    lemma FailureKeepsTranscript(stale: seq<Message>, failure: Message, before: seq<Event>, payload: seq<Message>)
      requires Reported(stale, failure, before, payload)
      ensures agent.messages == base + payload <==> !(Parse(before).Turn? && Parse(before).open.Some?)
    {
      hide Observed, UseOn, Parse, ReduceAll, Closed;
      assert |agent.messages| == |base| + |Closed(before)| + 1;
      assert |payload| == |Closed(before)| + |stale| + 1;
      if stale == [] {
        assert payload == Closed(before) + [failure];
        assert base + payload == base + Closed(before) + [failure];
      }
    }

    /** A response that breaks off after its start, and what `_run_guarded` makes of it: the result and
        the context have the partial message, the transcript has not. */
    method BreakInStream(partial: AssistantMessage) returns (payload: seq<Message>, failure: AssistantMessage)
      requires Valid() && InTurn() && answer == None && context == original
      modifies this`log, this`trace, this`answer, this`newMessages, this`failed, agent`messages, agent`streaming, agent`pending, agent`error, context`messages, original`messages
      ensures Valid() && payload == old(newMessages) + [partial, failure]
      ensures agent.messages == base + old(newMessages) + [failure] && agent.messages != base + payload
      ensures context.messages == old(context.messages) + [partial, failure]
    {
      hide Valid, Observed, UseOn, Parse, ReduceAll, Tally, Closed, CutShort;
      ghost var before := newMessages;
      BrokenResponse(partial);
      var answered := StreamAssistantResponse(Response(Value(true), [Start(partial)], NotDone));
      assert newMessages == before + [partial];
      CutShortLog([partial]);
      SameFront(Closed(log), before, partial);
      payload, failure := FinishAfterFailure(false, [partial]);
      assert newMessages[mark..] == before[mark..] + [partial];
    }

    /** `_run_guarded`: whatever the run raises is reported.  `result` is what the run's stream
        resolves to, unless it is still going on. */
    method RunGuarded(maxTurns: nat) returns (result: Option<seq<Message>>, ghost s: Run)
      requires Valid() && Fresh()
      modifies this`context, this`contextBase, this`mark, this`used, this`requests, this`asks, this`pendingMessages, this`wantsMore,
               this`log, this`trace, this`answer, this`newMessages, this`failed, contexts`messages, steering, followUp, agent`messages, agent`streaming, agent`pending, agent`error
      ensures Valid() && Reached(world, old(Waiting()), original.tools, s) && Follows(s) && Counts(s)
      ensures Observed(world, original, base, begun, prompts, log, trace)
      ensures if s.Going? then result == None && |s.turns| == maxTurns else result.Some? && Told(prompts, log, s, result.value)
      ensures s.Over? ==> Finished()
      ensures s.Broke? ==> failed.Some? && exists before, payload :: Reported(s.stale, FailureMessage(s.cancelled), before, payload)
      ensures result.Some? ==> Summary(base, agent.messages, agent.error, result.value) && agent.messages == ReduceAll(begun, log).messages
      ensures steering.Valid() && followUp.Valid() && Waiting() == s.queues
    {
      hide Valid, Finished, CutShort, Quiet, InTurn, BetweenTurns, Observed, UseOn, Parse, ReduceAll, Tally, Summary, FailedLog, FlatTurns, LocalOf, Reached;
      var r;
      r, s := RunLoop(maxTurns);
      ContextIsListed();
      if r.Raised? {
        label Failure:
        var payload, failure := FinishAfterFailure(r.cancelled, s.stale);
        ReportedIsSummary(s.stale, failure, old@Failure(log), payload);
        ReportedIsTold(s, old@Failure(log), payload);
        IsObserved();
        QueuesAreValid();
        return Some(payload), s;
      }
      IsObserved();
      QueuesAreValid();
      if r.value.None? {
        return None, s;
      }
      FinishedIsSummary();
      FinishedIsTold(s);
      return Some(newMessages), s;
    }

    lemma ReportedIsTold(s: Run, before: seq<Event>, payload: seq<Message>)
      requires s.Broke? && Reported(s.stale, FailureMessage(s.cancelled), before, payload) && Follows(s)
      ensures Told(prompts, log, s, payload)
    {
      hide Parse, ReduceAll, FailedLog, FlatTurns, LocalOf;
    }

    lemma FinishedIsTold(s: Run)
      requires s.Over? && Finished() && Follows(s)
      ensures Told(prompts, log, s, newMessages)
    {
      hide Parse, ReduceAll, FlatTurns, LocalOf;
    }

    lemma ContextIsListed()
      requires Valid()
      ensures context in contexts && original in contexts
    {
      hide Observed, UseOn, ReduceAll;
    }
  }

  // ----- the tasks of a parallel batch -----

  /** Bookkeeping of end events: those emitted and those still to come make up all of them. */
  ghost predicate Accounted(now: multiset<Event>, before: multiset<Event>, toCome: seq<Event>, all: seq<Event>) {
    now + multiset(toCome) == before + multiset(all)
  }

  lemma AccountRefused(now: multiset<Event>, before: multiset<Event>, toCome: seq<Event>, all: seq<Event>, e: Event)
    requires Accounted(now, before, toCome, all)
    ensures Accounted(now + multiset{e}, before, toCome, all + [e])
  {
    assert multiset(all + [e]) == multiset(all) + multiset{e};
    assert (now + multiset{e}) + multiset(toCome) == (now + multiset(toCome)) + multiset{e};
  }

  lemma AccountStarted(now: multiset<Event>, before: multiset<Event>, toCome: seq<Event>, all: seq<Event>, e: Event)
    requires Accounted(now, before, toCome, all)
    ensures Accounted(now, before, toCome + [e], all + [e])
  {
    assert multiset(all + [e]) == multiset(all) + multiset{e};
    assert multiset(toCome + [e]) == multiset(toCome) + multiset{e};
    assert now + (multiset(toCome) + multiset{e}) == (now + multiset(toCome)) + multiset{e};
  }

  lemma AccountEnded(now: multiset<Event>, before: multiset<Event>, toCome: seq<Event>, left: seq<Event>, all: seq<Event>, e: Event)
    requires Accounted(now, before, toCome, all) && multiset(left) + multiset{e} == multiset(toCome)
    ensures Accounted(now + multiset{e}, before, left, all)
  {
    assert (now + multiset{e}) + multiset(left) == now + (multiset(left) + multiset{e});
  }

  predicate Indices(calls: seq<ToolCall>, running: seq<nat>) {
    forall j :: 0 <= j < |running| ==> running[j] < |calls|
  }

  function CallsAt(calls: seq<ToolCall>, running: seq<nat>): (cs: seq<ToolCall>)
    requires Indices(calls, running)
    ensures |cs| == |running|
  {
    seq(|running|, j requires 0 <= j < |running| => calls[running[j]])
  }

  function Ids(calls: seq<ToolCall>, running: seq<nat>): (ids: seq<string>)
    requires Indices(calls, running)
    ensures |ids| == |running|
    ensures forall c :: c in CallsAt(calls, running) ==> c.id in ids
  {
    var ids := seq(|running|, j requires 0 <= j < |running| => calls[running[j]].id);
    assert forall j :: 0 <= j < |running| ==> CallsAt(calls, running)[j].id == ids[j];
    ids
  }

  ghost function EndsAt(calls: seq<ToolCall>, behaviors: seq<Behavior>, running: seq<nat>): (es: seq<Event>)
    requires |behaviors| == |calls| && Indices(calls, running)
    ensures |es| == |running|
  {
    seq(|running|, j requires 0 <= j < |running| =>
      EndEvent(OutcomeOf(running[j], calls[running[j]], behaviors[running[j]])))
  }

  /** The first `n` calls have started: each has its outcome or is one running task. */
  ghost predicate TasksOk(calls: seq<ToolCall>, behaviors: seq<Behavior>, outcomes: map<nat, Outcome>, running: seq<nat>, n: nat)
    requires n <= |calls| == |behaviors|
  {
    && (forall j :: 0 <= j < |running| ==> running[j] < n)
    && (forall j, k :: 0 <= j < k < |running| ==> running[j] != running[k])
    && (forall i: nat :: i in outcomes <==> i < n && i !in running)
    && (forall i :: i in outcomes ==> outcomes[i] == OutcomeOf(i, calls[i], behaviors[i]) && !behaviors[i].Throws?)
  }

  lemma StartsApart(calls: seq<ToolCall>, running: seq<nat>, n: nat)
    requires n < |calls| && Indices(calls, running) && forall j :: 0 <= j < |running| ==> running[j] < n
    ensures DistinctIds(calls) ==> calls[n].id !in Ids(calls, running)
  {
    forall j | DistinctIds(calls) && 0 <= j < |running| ensures Ids(calls, running)[j] != calls[n].id {
    }
  }

  lemma OutcomesGrow(calls: seq<ToolCall>, behaviors: seq<Behavior>, n: nat)
    requires n < |calls| == |behaviors|
    ensures EndEvents(Outcomes(calls, behaviors, n + 1))
         == EndEvents(Outcomes(calls, behaviors, n)) + [EndEvent(OutcomeOf(n, calls[n], behaviors[n]))]
  {
  }

  lemma TaskAdded(calls: seq<ToolCall>, behaviors: seq<Behavior>, outcomes: map<nat, Outcome>, running: seq<nat>, n: nat)
    requires n < |calls| == |behaviors| && TasksOk(calls, behaviors, outcomes, running, n)
    ensures TasksOk(calls, behaviors, outcomes, running + [n], n + 1)
    ensures Ids(calls, running + [n]) == Ids(calls, running) + [calls[n].id]
    ensures EndsAt(calls, behaviors, running + [n])
         == EndsAt(calls, behaviors, running) + [EndEvent(OutcomeOf(n, calls[n], behaviors[n]))]
  {
  }

  lemma TaskSettled(calls: seq<ToolCall>, behaviors: seq<Behavior>, outcomes: map<nat, Outcome>, running: seq<nat>, n: nat)
    requires n < |calls| == |behaviors| && TasksOk(calls, behaviors, outcomes, running, n) && !behaviors[n].Throws?
    ensures TasksOk(calls, behaviors, outcomes[n := OutcomeOf(n, calls[n], behaviors[n])], running, n + 1)
  {
  }

  function Without(running: seq<nat>, k: nat): (left: seq<nat>)
    requires k < |running|
    ensures |left| == |running| - 1
    ensures forall j :: 0 <= j < k ==> left[j] == running[j]
    ensures forall j :: k <= j < |left| ==> left[j] == running[j + 1]
  {
    running[..k] + running[k + 1..]
  }

  lemma WithoutMembers(running: seq<nat>, k: nat)
    requires k < |running| && forall i, j :: 0 <= i < j < |running| ==> running[i] != running[j]
    ensures forall i: nat :: i in Without(running, k) <==> i in running && i != running[k]
  {
    var left := Without(running, k);
    forall i: nat | i in running && i != running[k] ensures i in left {
      var j :| 0 <= j < |running| && running[j] == i;
      assert i == if j < k then left[j] else left[j - 1];
    }
  }

  lemma TaskRemoved(calls: seq<ToolCall>, behaviors: seq<Behavior>, outcomes: map<nat, Outcome>, running: seq<nat>, k: nat)
    requires |calls| == |behaviors| && TasksOk(calls, behaviors, outcomes, running, |calls|)
    requires k < |running| && !behaviors[running[k]].Throws?
    ensures var i := running[k];
            TasksOk(calls, behaviors, outcomes[i := OutcomeOf(i, calls[i], behaviors[i])], Without(running, k), |calls|)
  {
    WithoutMembers(running, k);
  }

  lemma OpenRemoved(calls: seq<ToolCall>, behaviors: seq<Behavior>, running: seq<nat>, k: nat)
    requires |behaviors| == |calls| && Indices(calls, running) && k < |running|
    ensures Ids(calls, Without(running, k)) == Ids(calls, running)[..k] + Ids(calls, running)[k + 1..]
    ensures var i := running[k];
            multiset(EndsAt(calls, behaviors, Without(running, k)))
            + multiset{EndEvent(OutcomeOf(i, calls[i], behaviors[i]))} == multiset(EndsAt(calls, behaviors, running))
  {
    var es := EndsAt(calls, behaviors, running);
    assert es == es[..k] + [es[k]] + es[k + 1..];
    assert EndsAt(calls, behaviors, Without(running, k)) == es[..k] + es[k + 1..];
  }

  lemma BatchGrows(results: seq<Message>, outcomes: seq<Outcome>, o: Outcome, calls: seq<ToolCall>, behaviors: seq<Behavior>)
    requires |outcomes| < |calls| == |behaviors|
    requires outcomes == Outcomes(calls, behaviors, |outcomes|) && results == ResultMessages(outcomes)
    requires o == OutcomeOf(|outcomes|, calls[|outcomes|], behaviors[|outcomes|])
    ensures outcomes + [o] == Outcomes(calls, behaviors, |outcomes| + 1)
    ensures results + [ResultMessage(o)] == ResultMessages(outcomes + [o])
    ensures EndEvents(outcomes + [o]) == EndEvents(outcomes) + [EndEvent(o)]
  {
  }
}
