/** What the agent loop deals with, and what its environment answers. */
module LoopWorld {
  import opened Prelude
  import opened Transcript
  import EventStreams

  datatype Tool = Tool(name: string, sequential: bool)

  class AgentContext {
    var messages: seq<Message>
    const tools: seq<Tool>

    constructor (messages: seq<Message>, tools: seq<Tool>)
      ensures this.messages == messages && this.tools == tools
    {
      this.messages, this.tools := messages, tools;
    }
  }

  datatype ProviderEvent =
    | Start(partial: AssistantMessage)
    | Delta(partial: AssistantMessage)
    | Terminal(message: AssistantMessage)

  /** How a provider stream ends once its events are read: not `done`, `done` with a result, or by
      raising while the loop waits for it. */
  datatype StreamEnding = NotDone | Resolved(message: AssistantMessage) | Interrupted(cancelled: bool)

  /** What becomes of one tool call: refused while it is prepared (unknown tool, bad arguments,
      blocked, cancelled), run to a result, or without one because an exception leaves the batch while
      the loop waits for it. */
  datatype Behavior =
    | Refused(payload: string, terminate: bool)
    | Runs(payload: string, isError: bool, terminate: bool)
    | Throws

  datatype Outcome = Outcome(index: nat, call: ToolCall, payload: string, isError: bool, terminate: bool)

  datatype Batch = Batch(results: seq<Message>, outcomes: seq<Outcome>)

  datatype Source = Steering | FollowUp

  /** One call of a queue callback: the messages of the agent's own queue, then those of the
      callback the agent was configured with. */
  datatype Drain = Drain(source: Source, local: seq<Message>, external: seq<Message>)

  /** What another task does to a queue. */
  datatype Meddling = Push(source: Source, message: Message) | Clear(source: Source) | SetMode(source: Source, mode: string)

  /** What one pass of the inner loop comes to: the loop goes on, or the run has ended. */
  datatype Pass = Continues | Ends(ending: Ending)

  datatype Ending = FellThrough | StoppedByHook | AssistantFailed

  function OutcomeOf(index: nat, call: ToolCall, b: Behavior): Outcome {
    match b
    case Refused(payload, terminate) => Outcome(index, call, payload, true, terminate)
    case Runs(payload, isError, terminate) => Outcome(index, call, payload, isError, terminate)
    case Throws => Outcome(index, call, "", true, false)
  }

  /** What the first `n` calls come to, in call order: the meaning of a batch, whatever its mode. */
  function Outcomes(calls: seq<ToolCall>, behaviors: seq<Behavior>, n: nat): (os: seq<Outcome>)
    requires n <= |calls| == |behaviors|
    ensures |os| == n
  {
    seq(n, i requires 0 <= i < n => OutcomeOf(i, calls[i], behaviors[i]))
  }

  function ResultMessage(o: Outcome): Message {
    ToolResult(o.call.id, o.call.name, o.payload, o.isError)
  }

  function ResultMessages(os: seq<Outcome>): (ms: seq<Message>)
    ensures |ms| == |os| && forall i :: 0 <= i < |os| ==> ms[i] == ResultMessage(os[i])
  {
    seq(|os|, i requires 0 <= i < |os| => ResultMessage(os[i]))
  }

  function EndEvent(o: Outcome): Event {
    ToolEnd(o.call.id, o.call.name, o.payload, o.isError)
  }

  /** One call's outcome, its result message and its end event, as the tool's answer has them. */
  ghost predicate ComesTo(o: Outcome, index: nat, call: ToolCall, b: Behavior) {
    && !b.Throws? && o.index == index && o.call == call && o.terminate == b.terminate
    && ResultMessage(o) == ToolResult(call.id, call.name, b.payload, b.Refused? || b.isError)
    && EndEvent(o) == ToolEnd(call.id, call.name, b.payload, b.Refused? || b.isError)
  }

  function Terminates(os: seq<Outcome>): bool {
    os != [] && forall o :: o in os ==> o.terminate
  }

  /** What a batch cut off by the output token limit comes to: every call is refused. */
  function TruncatedBehaviors(calls: seq<ToolCall>): (bs: seq<Behavior>)
    ensures |bs| == |calls| && forall b :: b in bs ==> b.Refused? && !b.terminate
  {
    seq(|calls|, i requires 0 <= i < |calls| => Refused("truncated: " + calls[i].name, false))
  }

  /** The tool that a name selects in the dictionary the loop builds: the last one wins. */
  function ByName(tools: seq<Tool>, name: string): Option<Tool> {
    if tools == [] then None
    else if tools[|tools| - 1].name == name then Some(tools[|tools| - 1])
    else ByName(tools[..|tools| - 1], name)
  }

  predicate WantsSequential(tools: seq<Tool>, calls: seq<ToolCall>) {
    exists i :: 0 <= i < |calls| &&
      var tool := ByName(tools, calls[i].name); tool.Some? && tool.value.sequential
  }

  function Flat(drains: seq<Drain>): seq<Message> {
    if drains == [] then []
    else Flat(drains[..|drains| - 1]) + drains[|drains| - 1].local + drains[|drains| - 1].external
  }

  function LocalOf(drains: seq<Drain>, source: Source): seq<Message> {
    if drains == [] then []
    else LocalOf(drains[..|drains| - 1], source)
         + if drains[|drains| - 1].source == source then drains[|drains| - 1].local else []
  }

  /** What the last callback gave. */
  function Given(drains: seq<Drain>): seq<Message> {
    if drains == [] then [] else drains[|drains| - 1].local + drains[|drains| - 1].external
  }

  lemma FlatAppend(drains: seq<Drain>, d: Drain)
    ensures Flat(drains + [d]) == Flat(drains) + (d.local + d.external)
  {
    assert (drains + [d])[..|drains|] == drains;
  }

  lemma LocalOfAppend(drains: seq<Drain>, d: Drain, source: Source)
    ensures LocalOf(drains + [d], source) == LocalOf(drains, source) + if d.source == source then d.local else []
  {
    assert (drains + [d])[..|drains|] == drains;
  }

  // ----- the answers of the environment -----

  /** One request: whether transforming the context, converting it and opening the stream raises, what
      the provider pushes, and how its stream ends. */
  datatype Response = Response(opening: Reply<bool>, pushes: seq<ProviderEvent>, ending: StreamEnding)

  /** The first moment at which the loop finds its run cancelled: before request `turn`, or after so many
      calls of that turn's sequential batch. */
  datatype Checkpoint = Checkpoint(turn: nat, calls: nat)

  /** The hook between turns hands over a context, which has these messages by then. */
  datatype Handover = Handover(context: AgentContext, messages: seq<Message>)

  /** How a run is configured, and what its environment answers: the response to the k-th request; what
      becomes of each call of the k-th answer, and whether an exception that leaves its batch is a
      cancellation; what the hooks between turns and after turns answer; the n-th answer of a queue
      callback, and what other tasks did to the queues before; and when the run is cancelled. */
  datatype World = World(
    parallel: bool,
    responses: nat -> Response,
    behaviors: (nat, nat) -> Behavior,
    thrown: nat -> bool,
    prepares: nat -> Reply<Option<Handover>>,
    stops: nat -> Reply<bool>,
    callbacks: nat -> Reply<seq<Message>>,
    others: nat -> seq<Meddling>,
    cancelAt: Option<Checkpoint>)

  /** The hook after turn `k` hands over a context. */
  predicate HandsOver(world: World, k: nat) {
    world.prepares(k).Value? && world.prepares(k).value.Some?
  }

  /** A run that is cancelled stays cancelled. */
  predicate IsCancelled(world: World, k: nat, calls: nat) {
    world.cancelAt.Some? &&
    var c := world.cancelAt.value; c.turn < k || (c.turn == k && c.calls <= calls)
  }

  lemma CancelledFrom(world: World, k: nat, calls: nat)
    ensures IsCancelled(world, k, calls) <==>
      exists c: Checkpoint :: world.cancelAt == Some(c) && (k > c.turn || (k == c.turn && calls >= c.calls))
  {}

  predicate IsFinal(e: ProviderEvent) {
    e.Terminal?
  }

  /** What the stream accepts of the provider's pushes. */
  function Accepted(r: Response): seq<ProviderEvent> {
    EventStreams.UpToTerminal(IsFinal, r.pushes)
  }

  /** The events up to the first that starts a response which has started. */
  function Regular(events: seq<ProviderEvent>): (r: seq<ProviderEvent>)
    ensures |r| <= |events|
  {
    if events == [] then []
    else
      var before := Regular(events[..|events| - 1]);
      if |before| < |events| - 1 || (before != [] && events[|events| - 1].Start?) then before else events
  }

  /** `_stream_assistant_response`: the final message of the stream's terminal event or, without one,
      what the stream resolves to; or an exception. */
  function AnswerOf(r: Response): Reply<AssistantMessage> {
    var events := Accepted(r);
    if r.opening.Raised? then Raised(r.opening.cancelled)
    else if Regular(events) != events then Raised(false)
    else match r.ending
      case NotDone => Raised(false)
      case Interrupted(cancelled) => Raised(cancelled)
      case Resolved(m) => Value(if events != [] && events[|events| - 1].Terminal? then events[|events| - 1].message else m)
  }

  /** The message that is in flight when the response raises. */
  function StaleOf(r: Response): (stale: seq<Message>)
    ensures |stale| <= 1
  {
    var events := Regular(Accepted(r));
    if r.opening.Raised? || events == [] || events[|events| - 1].Terminal? then [] else [events[|events| - 1].partial]
  }

  /** The message that was closed before the response raised. */
  function ClosedBy(r: Response): (closed: seq<Message>) {
    var events := Regular(Accepted(r));
    if r.opening.Raised? || events == [] || !events[|events| - 1].Terminal? then [] else [events[|events| - 1].message]
  }

  /** What becomes of the calls of the k-th answer: all are refused if the token limit cut it off. */
  function BehaviorsOf(world: World, k: nat, answer: Message): (bs: seq<Behavior>)
    requires answer.Assistant?
    ensures |bs| == |SequenceCalls(answer.content)|
  {
    var calls := SequenceCalls(answer.content);
    if answer.stop == Length then TruncatedBehaviors(calls) else seq(|calls|, i requires 0 <= i < |calls| => world.behaviors(k, i))
  }

  // ----- the turns of a run -----

  /** The context in use: the first one, or the one that the hook after a turn handed over; and its tools. */
  datatype InUse = InUse(handed: Option<nat>, tools: seq<Tool>)

  /** A turn: what was injected, the context in use, the answer, and what became of the answer's calls. */
  datatype TurnRecord = TurnRecord(injected: seq<Message>, used: InUse, answer: AssistantMessage, outcomes: seq<Outcome>)

  function TurnMessages(t: TurnRecord): seq<Message> {
    t.injected + [t.answer] + ResultMessages(t.outcomes)
  }

  function FlatTurns(turns: seq<TurnRecord>): seq<Message> {
    if turns == [] then [] else FlatTurns(turns[..|turns| - 1]) + TurnMessages(turns[|turns| - 1])
  }

  function InjectedIn(turns: seq<TurnRecord>): seq<Message> {
    if turns == [] then [] else InjectedIn(turns[..|turns| - 1]) + turns[|turns| - 1].injected
  }

  /** The turn wants another one: its answer has calls, and they do not all ask to stop. */
  predicate Wants(t: TurnRecord) {
    SequenceCalls(t.answer.content) != [] && !Terminates(t.outcomes)
  }

  lemma FlatTurnsAppend(turns: seq<TurnRecord>, t: TurnRecord)
    ensures FlatTurns(turns + [t]) == FlatTurns(turns) + TurnMessages(t)
    ensures InjectedIn(turns + [t]) == InjectedIn(turns) + t.injected
  {
    assert (turns + [t])[..|turns|] == turns;
  }

  /** A response that starts and breaks off raises, and leaves its partial message. */
  lemma BrokenResponse(partial: AssistantMessage)
    ensures var r := Response(Value(true), [Start(partial)], NotDone); AnswerOf(r) == Raised(false) && ClosedBy(r) == [] && StaleOf(r) == [partial]
  {
    var events := [Start(partial)];
    assert EventStreams.UpToTerminal(IsFinal, events[1..]) == [];
    assert EventStreams.UpToTerminal(IsFinal, events) == events;
    assert events[..0] == [];
  }

  lemma NothingRegular()
    ensures Regular([]) == []
  {}

  lemma RegularAppend(events: seq<ProviderEvent>, n: nat)
    requires n < |events|
    ensures Regular(events[..n + 1]) == if |Regular(events[..n])| < n || (n > 0 && events[n].Start?) then Regular(events[..n]) else events[..n + 1]
  {
    assert events[..n + 1][..n] == events[..n];
  }

  lemma {:induction false} RegularIsPrefix(events: seq<ProviderEvent>, n: nat)
    requires n <= |events|
    ensures Regular(events) <= events
    ensures |Regular(events)| == |events| ==> Regular(events) == events
    ensures |Regular(events[..n])| < n ==> Regular(events) == Regular(events[..n])
    decreases |events|
  {
    if events == [] {
    } else if n == |events| {
      assert events[..n] == events;
      RegularIsPrefix(events[..n - 1], n - 1);
    } else {
      RegularIsPrefix(events[..|events| - 1], n);
      assert events[..|events| - 1][..n] == events[..n];
    }
  }
}
