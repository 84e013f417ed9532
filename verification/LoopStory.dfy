/** The agent loop as a function of its environment: what a run has done after any number of its steps,
    how it ends, and why. */
module LoopStory {
  import opened Prelude
  import opened Transcript
  import opened Queues
  import opened LoopWorld

  // ----- the queues -----

  datatype Queue = Queue(mode: string, items: seq<Message>)

  datatype Queued = Queued(steering: Queue, followUp: Queue)

  function Of(q: Queued, source: Source): Queue {
    if source == Steering then q.steering else q.followUp
  }

  function With(q: Queued, source: Source, queue: Queue): Queued {
    if source == Steering then q.(steering := queue) else q.(followUp := queue)
  }

  function Meddle(q: Queued, m: Meddling): Queued {
    var queue := Of(q, m.source);
    match m
    case Push(source, message) => With(q, source, queue.(items := queue.items + [message]))
    case Clear(source) => With(q, source, queue.(items := []))
    case SetMode(source, mode) => With(q, source, queue.(mode := mode))
  }

  function Meddled(q: Queued, ms: seq<Meddling>): Queued {
    if ms == [] then q else Meddle(Meddled(q, ms[..|ms| - 1]), ms[|ms| - 1])
  }

  /** The queues when the n-th callback is called. */
  function QueuesAt(world: World, q: Queued, n: nat): Queued {
    Meddled(q, world.others(n))
  }

  /** What the agent's own queue gives to the n-th callback, and the queues after that. */
  function LocalAt(world: World, q: Queued, n: nat, source: Source): seq<Message> {
    var queue := Of(QueuesAt(world, q, n), source);
    Taken(queue.mode, queue.items)
  }

  function LeftAt(world: World, q: Queued, n: nat, source: Source): Queued {
    var queue := Of(QueuesAt(world, q, n), source);
    With(QueuesAt(world, q, n), source, queue.(items := queue.items[|Taken(queue.mode, queue.items)|..]))
  }

  // ----- a batch of calls -----

  /** How far a batch gets: so many outcomes are reported, and then it is over or a call throws. */
  datatype Execution = Ran(n: nat) | Threw(n: nat)

  /** One call after the other, from the i-th on, until all are done, one throws, or the run is found
      cancelled after one. */
  function InOrder(world: World, k: nat, behaviors: seq<Behavior>, i: nat): (e: Execution)
    requires i <= |behaviors|
    ensures i <= e.n <= |behaviors| && (e.Threw? ==> e.n < |behaviors|)
    decreases |behaviors| - i
  {
    if i == |behaviors| then Ran(i)
    else if behaviors[i].Throws? then Threw(i)
    else if IsCancelled(world, k, i + 1) then Ran(i + 1)
    else InOrder(world, k, behaviors, i + 1)
  }

  predicate Sequential(world: World, tools: seq<Tool>, calls: seq<ToolCall>) {
    !world.parallel || WantsSequential(tools, calls)
  }

  /** Calls run one after the other exactly when the agent is configured so, or a call names a tool that
      asks for it: the last tool of that name. */
  lemma SequentialExactly(world: World, tools: seq<Tool>, calls: seq<ToolCall>)
    ensures Sequential(world, tools, calls) <==>
      || !world.parallel
      || exists i, j :: 0 <= i < |calls| && 0 <= j < |tools| && LastNamed(tools, j, calls[i].name) && tools[j].sequential
  {
    forall i | 0 <= i < |calls|
      ensures (var tool := ByName(tools, calls[i].name); tool.Some? && tool.value.sequential)
              <==> exists j :: 0 <= j < |tools| && LastNamed(tools, j, calls[i].name) && tools[j].sequential
    {
      ByNameIsLast(tools, calls[i].name);
    }
  }

  ghost predicate LastNamed(tools: seq<Tool>, j: nat, name: string)
    requires j < |tools|
  {
    tools[j].name == name && forall l :: j < l < |tools| ==> tools[l].name != name
  }

  lemma {:induction false} ByNameIsLast(tools: seq<Tool>, name: string)
    ensures match ByName(tools, name)
            case None => forall j :: 0 <= j < |tools| ==> tools[j].name != name
            case Some(tool) => exists j :: 0 <= j < |tools| && LastNamed(tools, j, name) && tools[j] == tool
  {
    if tools != [] {
      var n := |tools| - 1;
      if tools[n].name == name {
        assert LastNamed(tools, n, name);
      } else {
        ByNameIsLast(tools[..n], name);
        if ByName(tools[..n], name).Some? {
          var j :| 0 <= j < n && LastNamed(tools[..n], j, name) && tools[..n][j] == ByName(tools, name).value;
          assert LastNamed(tools, j, name);
        }
      }
    }
  }

  predicate SomeThrows(behaviors: seq<Behavior>) {
    exists b :: b in behaviors && b.Throws?
  }

  /** The k-th batch.  A parallel batch reports all its outcomes, or none if a call throws. */
  function BatchOf(world: World, k: nat, answer: Message, tools: seq<Tool>): (e: Execution)
    requires answer.Assistant?
    ensures e.n <= |SequenceCalls(answer.content)|
  {
    var calls, behaviors := SequenceCalls(answer.content), BehaviorsOf(world, k, answer);
    if answer.stop == Length then Ran(|calls|)
    else if Sequential(world, tools, calls) then InOrder(world, k, behaviors, 0)
    else if SomeThrows(behaviors) then Threw(0)
    else Ran(|calls|)
  }

  // ----- what a batch means, from the answers of the environment alone -----

  /** One of the turn's executed calls does not ask to stop, as none does that the token limit cut off. */
  ghost predicate Unsatisfied(world: World, k: nat, t: TurnRecord) {
    exists i :: 0 <= i < |t.outcomes| && KeepsGoing(world, k, t.answer, i)
  }

  ghost predicate KeepsGoing(world: World, k: nat, answer: Message, i: nat)
    requires answer.Assistant?
  {
    answer.stop == Length || world.behaviors(k, i).Throws? || !world.behaviors(k, i).terminate
  }

  /** The results of the first calls: each has its call's id and name, and what the tool gave. */
  ghost predicate ResultsTell(world: World, k: nat, answer: Message, results: seq<Message>)
    requires answer.Assistant?
  {
    var calls := SequenceCalls(answer.content);
    && |results| <= |calls|
    && forall i :: 0 <= i < |results| ==>
         && results[i].ToolResult? && results[i].callId == calls[i].id && results[i].toolName == calls[i].name
         && if answer.stop == Length then results[i].isError
            else
              var b := world.behaviors(k, i);
              !b.Throws? && results[i].payload == b.payload && results[i].isError == (b.Refused? || b.isError)
  }

  /** A batch that ran wants another turn exactly when one of its executed calls does not ask to stop. */
  lemma WantsExactly(world: World, k: nat, t: TurnRecord, n: nat)
    requires BatchOf(world, k, t.answer, t.used.tools) == Ran(n)
    requires t.outcomes == Outcomes(SequenceCalls(t.answer.content), BehaviorsOf(world, k, t.answer), n)
    ensures Wants(t) <==> Unsatisfied(world, k, t)
  {
    hide SequenceCalls, WantsSequential, IsCancelled;
    var calls, behaviors := SequenceCalls(t.answer.content), BehaviorsOf(world, k, t.answer);
    ExecutedOnly(world, k, t.answer, t.used.tools, n);
    forall i | 0 <= i < n ensures t.outcomes[i].terminate <==> !KeepsGoing(world, k, t.answer, i) {
      assert behaviors[i] in behaviors;
    }
    assert Terminates(t.outcomes) <==> n > 0 && forall i :: 0 <= i < n ==> t.outcomes[i].terminate by {
      assert forall i :: 0 <= i < n ==> t.outcomes[i] in t.outcomes;
    }
  }

  /** Some call of a batch is executed if there is any, and none of those throws. */
  lemma ExecutedOnly(world: World, k: nat, answer: Message, tools: seq<Tool>, n: nat)
    requires answer.Assistant? && BatchOf(world, k, answer, tools) == Ran(n)
    ensures SequenceCalls(answer.content) != [] ==> n > 0
    ensures forall i :: 0 <= i < n ==> !BehaviorsOf(world, k, answer)[i].Throws?
  {
    hide SequenceCalls, WantsSequential, IsCancelled;
    var behaviors := BehaviorsOf(world, k, answer);
    InOrderStops(world, k, behaviors, 0);
    if n > 0 || behaviors == [] {
      ShortExactly(world, k, behaviors, 0, n);
    }
    forall i | 0 <= i < n ensures !behaviors[i].Throws? {
      assert behaviors[i] in behaviors;
    }
  }

  lemma ResultsTold(world: World, k: nat, t: TurnRecord, n: nat)
    requires BatchOf(world, k, t.answer, t.used.tools) == Ran(n)
    requires t.outcomes == Outcomes(SequenceCalls(t.answer.content), BehaviorsOf(world, k, t.answer), n)
    ensures ResultsTell(world, k, t.answer, ResultMessages(t.outcomes))
  {
    hide SequenceCalls, BatchOf;
    var calls, behaviors := SequenceCalls(t.answer.content), BehaviorsOf(world, k, t.answer);
    ExecutedOnly(world, k, t.answer, t.used.tools, n);
    forall i | 0 <= i < n ensures ResultMessages(t.outcomes)[i].ToolResult? && behaviors[i] in behaviors {
    }
  }

  // ----- a run -----

  datatype Cause = CallbackRaised(source: Source) | PrepareRaised | StopRaised | CancelledBefore | ResponseRaised | ToolThrew

  /** A run under way, ended by itself, or broken off by an exception.  `waiting` is to be injected in
      the next turn.  A run that broke off had begun a turn with some messages, the last perhaps still in
      flight (`stale`); `lost` is what a queue gave to the callback that raised. */
  datatype Run =
    | Going(turns: seq<TurnRecord>, drains: seq<Drain>, queues: Queued, waiting: seq<Message>, used: InUse, more: bool)
    | Over(turns: seq<TurnRecord>, drains: seq<Drain>, queues: Queued, used: InUse, ending: Ending)
    | Broke(turns: seq<TurnRecord>, drains: seq<Drain>, queues: Queued, used: InUse, waiting: seq<Message>,
            cause: Cause, cancelled: bool, begun: seq<Message>, stale: seq<Message>, lost: seq<Message>)

  /** One call of a queue callback. */
  function OnAsk(world: World, s: Run, source: Source): Run
    requires s.Going?
  {
    var n := |s.drains|;
    var local, left := LocalAt(world, s.queues, n, source), LeftAt(world, s.queues, n, source);
    match world.callbacks(n)
    case Raised(cancelled) => Broke(s.turns, s.drains, left, s.used, [], CallbackRaised(source), cancelled, [], [], local)
    case Value(external) => Going(s.turns, s.drains + [Drain(source, local, external)], left, local + external, s.used, s.more)
  }

  /** The hook between turns. */
  function OnPrepare(world: World, s: Run): Run
    requires s.Going? && s.turns != []
  {
    match world.prepares(|s.turns| - 1)
    case Raised(cancelled) => Broke(s.turns, s.drains, s.queues, s.used, s.waiting, PrepareRaised, cancelled, [], [], [])
    case Value(None) => s
    case Value(Some(handover)) => Going(s.turns, s.drains, s.queues, s.waiting, InUse(Some(|s.turns| - 1), handover.context.tools), s.more)
  }

  /** Before a turn that is not the first: the hook, and another look at the steering queue if nothing
      waits. */
  function OnOpening(world: World, s: Run): Run
    requires s.Going? && s.turns != []
  {
    var p := OnPrepare(world, s);
    if p.Going? && p.waiting == [] then OnAsk(world, p, Steering) else p
  }

  /** The turn: what waits is injected, the provider answers, and the calls of its answer are executed. */
  function OnAnswer(world: World, s: Run): Run
    requires s.Going?
  {
    var k := |s.turns|;
    var response := world.responses(k);
    if IsCancelled(world, k, 0) then Broke(s.turns, s.drains, s.queues, s.used, [], CancelledBefore, true, s.waiting, [], [])
    else
      match AnswerOf(response)
      case Raised(cancelled) =>
        Broke(s.turns, s.drains, s.queues, s.used, [], ResponseRaised, cancelled, s.waiting + ClosedBy(response), StaleOf(response), [])
      case Value(answer) =>
        if Failed(answer) then Over(s.turns + [TurnRecord(s.waiting, s.used, answer, [])], s.drains, s.queues, s.used, AssistantFailed)
        else
          var e := BatchOf(world, k, answer, s.used.tools);
          var outcomes := Outcomes(SequenceCalls(answer.content), BehaviorsOf(world, k, answer), e.n);
          var t := TurnRecord(s.waiting, s.used, answer, outcomes);
          if e.Threw? then Broke(s.turns, s.drains, s.queues, s.used, [], ToolThrew, world.thrown(k), TurnMessages(t), [], [])
          else Going(s.turns + [t], s.drains, s.queues, [], s.used, Wants(t))
  }

  /** After a turn: the hook, and the steering queue. */
  function OnClosing(world: World, s: Run): Run
    requires s.Going? && s.turns != []
  {
    match world.stops(|s.turns| - 1)
    case Raised(cancelled) => Broke(s.turns, s.drains, s.queues, s.used, [], StopRaised, cancelled, [], [], [])
    case Value(true) => Over(s.turns, s.drains, s.queues, s.used, StoppedByHook)
    case Value(false) => OnAsk(world, s, Steering)
  }

  /** A pass of the inner loop, up to the end of its turn. */
  function OnTurn(world: World, s: Run): Run
    requires s.Going?
  {
    var h := if s.turns == [] then s else OnOpening(world, s);
    if h.Going? then OnAnswer(world, h) else h
  }

  /** A whole pass. */
  function OnPass(world: World, s: Run): Run
    requires s.Going?
  {
    var a := OnTurn(world, s);
    if a.Going? then OnClosing(world, a) else a
  }

  /** Out of the inner loop: the follow-up queue, and the end if it gives nothing. */
  function OnFollowUp(world: World, s: Run): Run
    requires s.Going?
  {
    var a := OnAsk(world, s, FollowUp);
    if !a.Going? then a
    else if a.waiting == [] then Over(a.turns, a.drains, a.queues, a.used, FellThrough)
    else a.(more := true)
  }

  /** What the loop does next: a pass as long as more is wanted or something waits. */
  function Next(world: World, s: Run): Run {
    if !s.Going? then s
    else if s.more || s.waiting != [] then OnPass(world, s)
    else OnFollowUp(world, s)
  }

  /** A run begins with a look at the steering queue. */
  function OnStart(world: World, q: Queued, tools: seq<Tool>): Run {
    OnAsk(world, Going([], [], q, [], InUse(None, tools), true), Steering)
  }

  function Play(world: World, q: Queued, tools: seq<Tool>, n: nat): Run {
    if n == 0 then OnStart(world, q, tools) else Next(world, Play(world, q, tools, n - 1))
  }

  ghost predicate Reached(world: World, q: Queued, tools: seq<Tool>, s: Run) {
    exists n: nat :: s == Play(world, q, tools, n)
  }

  lemma {:induction false} PlayStays(world: World, q: Queued, tools: seq<Tool>, n: nat, m: nat)
    requires n <= m && !Play(world, q, tools, n).Going?
    ensures Play(world, q, tools, m) == Play(world, q, tools, n)
    decreases m - n
  {
    hide OnPass, OnFollowUp;
    if n < m {
      PlayStays(world, q, tools, n, m - 1);
    }
  }

  /** A run ends in one way. */
  lemma OneEnding(world: World, q: Queued, tools: seq<Tool>, s: Run, z: Run)
    requires Reached(world, q, tools, s) && Reached(world, q, tools, z) && !s.Going? && !z.Going?
    ensures s == z
  {
    hide Play;
    var n: nat :| s == Play(world, q, tools, n);
    var m: nat :| z == Play(world, q, tools, m);
    if n <= m {
      PlayStays(world, q, tools, n, m);
    } else {
      PlayStays(world, q, tools, m, n);
    }
  }

  // ----- what every run keeps -----

  /** The k-th turn is what the environment answered: the run was not cancelled before it, its answer is
      the k-th response's, and its outcomes are those of the calls that were run; a failed answer has
      none. */
  ghost predicate TurnOk(world: World, k: nat, t: TurnRecord) {
    && !IsCancelled(world, k, 0) && AnswerOf(world.responses(k)) == Value(t.answer)
    && var calls := SequenceCalls(t.answer.content);
    && var e := BatchOf(world, k, t.answer, t.used.tools);
    && if Failed(t.answer) then t.outcomes == []
       else e.Ran? && t.outcomes == Outcomes(calls, BehaviorsOf(world, k, t.answer), e.n) && ResultsTell(world, k, t.answer, ResultMessages(t.outcomes))
  }

  /** Every turn used the first context, or the one that the last hook to do so handed over. */
  ghost predicate ContextsOk(world: World, tools: seq<Tool>, turns: seq<TurnRecord>) {
    forall k :: 0 <= k < |turns| ==> turns[k].used == InUseAt(world, tools, k)
  }

  function InUseAt(world: World, tools: seq<Tool>, k: nat): InUse {
    if k == 0 then InUse(None, tools)
    else if HandsOver(world, k - 1) then InUse(Some(k - 1), world.prepares(k - 1).value.value.context.tools)
    else InUseAt(world, tools, k - 1)
  }

  /** After the k-th turn another one was taken: its answer did not fail, the hooks let the run go on, and
      it wanted another turn or something was injected in the next one. */
  ghost predicate Followed(world: World, turns: seq<TurnRecord>, k: nat)
    requires k + 1 < |turns|
  {
    && !Failed(turns[k].answer) && world.stops(k) == Value(false) && world.prepares(k).Value?
    && (Unsatisfied(world, k, turns[k]) || turns[k + 1].injected != [])
  }

  /** The n-th drain has what the n-th callback answered. */
  ghost predicate DrainsOk(world: World, drains: seq<Drain>) {
    forall n :: 0 <= n < |drains| ==> world.callbacks(n) == Value(drains[n].external)
  }

  ghost predicate History(world: World, tools: seq<Tool>, turns: seq<TurnRecord>, drains: seq<Drain>) {
    && (forall k :: 0 <= k < |turns| ==> TurnOk(world, k, turns[k]))
    && (forall k :: 0 <= k < |turns| - 1 ==> Followed(world, turns, k))
    && ContextsOk(world, tools, turns) && DrainsOk(world, drains)
  }

  /** What was drained last was nothing, from the steering queue and then from the follow-up queue. */
  ghost predicate BothDrainedEmpty(drains: seq<Drain>) {
    && |drains| >= 2
    && drains[|drains| - 2] == Drain(Steering, [], []) && drains[|drains| - 1] == Drain(FollowUp, [], [])
  }

  ghost predicate DrainedFrom(drains: seq<Drain>, source: Source) {
    drains != [] && drains[|drains| - 1].source == source
  }

  function Last(turns: seq<TurnRecord>): TurnRecord
    requires turns != []
  {
    turns[|turns| - 1]
  }

  /** Every message that a callback gave was injected, or waits. */
  ghost predicate Conserved(s: Run) {
    match s
    case Going(turns, drains, _, waiting, _, _) => Flat(drains) == InjectedIn(turns) + waiting && waiting == Given(drains)
    case Over(turns, drains, _, _, _) => Flat(drains) == InjectedIn(turns)
    case Broke(turns, drains, _, _, waiting, cause, _, _, _, _) =>
      && waiting == (if cause.PrepareRaised? then Given(drains) else [])
      && Flat(drains) == InjectedIn(turns) + if cause.CallbackRaised? || cause.StopRaised? then [] else Given(drains)
  }

  /** A run under way, between two passes. */
  ghost predicate MayGoOn(world: World, s: Run)
    requires s.Going?
  {
    && s.drains != []
    && if s.turns == [] then s.more
       else
         && !Failed(Last(s.turns).answer) && world.stops(|s.turns| - 1) == Value(false)
         && (if s.more then Unsatisfied(world, |s.turns| - 1, Last(s.turns)) || s.waiting != []
             else !Unsatisfied(world, |s.turns| - 1, Last(s.turns)) && DrainedFrom(s.drains, Steering))
  }

  /** Why a run ended by itself: its last answer failed, the hook stopped it, or nothing more was wanted
      and both queues had just been drained empty. */
  ghost predicate EndsBecause(world: World, s: Run)
    requires s.Over?
  {
    && s.turns != []
    && var last := Last(s.turns);
    && (s.ending == AssistantFailed <==> last.answer.stop == Error || last.answer.stop == Aborted)
    && (s.ending == StoppedByHook <==> !Failed(last.answer) && world.stops(|s.turns| - 1) == Value(true))
    && (s.ending == FellThrough <==> !Failed(last.answer) && world.stops(|s.turns| - 1) == Value(false))
    && (s.ending == FellThrough ==> !Unsatisfied(world, |s.turns| - 1, last) && BothDrainedEmpty(s.drains))
  }

  /** Which answer of the environment broke a run off, and the messages of the turn it had begun. */
  ghost predicate BreaksBecause(world: World, tools: seq<Tool>, s: Run)
    requires s.Broke?
  {
    var k := |s.turns|;
    && (s.turns != [] ==> !Failed(Last(s.turns).answer))
    && (!s.cause.CallbackRaised? ==> s.lost == [])
    && match s.cause
       case CallbackRaised(_) => world.callbacks(|s.drains|) == Raised(s.cancelled) && s.begun == s.stale == []
       case PrepareRaised => k > 0 && world.prepares(k - 1) == Raised(s.cancelled) && s.begun == s.stale == []
       case StopRaised => k > 0 && world.stops(k - 1) == Raised(s.cancelled) && s.begun == s.stale == []
       case CancelledBefore => IsCancelled(world, k, 0) && s.cancelled && s.begun == Given(s.drains) && s.stale == []
       case ResponseRaised =>
         var response := world.responses(k);
         && !IsCancelled(world, k, 0) && AnswerOf(response) == Raised(s.cancelled)
         && s.begun == Given(s.drains) + ClosedBy(response) && s.stale == StaleOf(response)
       case ToolThrew =>
         && !IsCancelled(world, k, 0) && AnswerOf(world.responses(k)).Value? && s.cancelled == world.thrown(k)
         && var answer := AnswerOf(world.responses(k)).value;
         && var e := BatchOf(world, k, answer, InUseAt(world, tools, k).tools);
         && !Failed(answer) && e.Threw? && s.stale == []
         && s.begun == Given(s.drains) + [answer] + ResultMessages(Outcomes(SequenceCalls(answer.content), BehaviorsOf(world, k, answer), e.n))
  }

  /** What can be said of a run at any time. */
  ghost predicate Explained(world: World, tools: seq<Tool>, s: Run) {
    && History(world, tools, s.turns, s.drains) && Conserved(s)
    && match s
       case Going(turns, _, _, _, used, _) => MayGoOn(world, s) && used == if turns == [] then InUse(None, tools) else Last(turns).used
       case Over(_, _, _, _, _) => EndsBecause(world, s)
       case Broke(_, _, _, _, _, _, _, _, _, _) => BreaksBecause(world, tools, s)
  }

  lemma {:induction false} HowRunsGo(world: World, q: Queued, tools: seq<Tool>, n: nat)
    ensures Explained(world, tools, Play(world, q, tools, n))
  {
    hide Explained, OnPass, OnFollowUp, OnAsk;
    if n == 0 {
      StartIsExplained(world, q, tools);
    } else {
      HowRunsGo(world, q, tools, n - 1);
      NextIsExplained(world, tools, Play(world, q, tools, n - 1));
    }
  }

  lemma StartIsExplained(world: World, q: Queued, tools: seq<Tool>)
    ensures Explained(world, tools, OnStart(world, q, tools))
  {
    hide Taken;
    FlatAppend([], Drain(Steering, LocalAt(world, q, 0, Steering), if world.callbacks(0).Value? then world.callbacks(0).value else []));
  }

  lemma NextIsExplained(world: World, tools: seq<Tool>, s: Run)
    requires Explained(world, tools, s)
    ensures Explained(world, tools, Next(world, s))
  {
    hide Explained, Ready, Turned, OnAnswer, OnOpening, OnClosing, OnFollowUp;
    if s.Going? {
      if s.more || s.waiting != [] {
        if s.turns == [] {
          FirstIsReady(world, tools, s);
        } else {
          OpeningExplained(world, tools, s);
        }
        var h := if s.turns == [] then s else OnOpening(world, s);
        if h.Going? {
          AnswerExplained(world, tools, h);
          var t := OnAnswer(world, h);
          if t.Going? {
            HasTurned(world, tools, t);
            ClosingExplained(world, tools, t);
          }
        }
      } else {
        FollowUpExplained(world, tools, s);
      }
    }
  }

  /** A run about to inject what waits. */
  ghost predicate Ready(world: World, tools: seq<Tool>, s: Run) {
    && s.Going? && History(world, tools, s.turns, s.drains) && Conserved(s) && s.used == InUseAt(world, tools, |s.turns|)
    && (s.turns != [] ==>
          && !Failed(Last(s.turns).answer) && world.stops(|s.turns| - 1) == Value(false) && world.prepares(|s.turns| - 1).Value?
          && (Unsatisfied(world, |s.turns| - 1, Last(s.turns)) || s.waiting != []))
  }

  /** A run whose turn has just ended. */
  ghost predicate Turned(world: World, tools: seq<Tool>, s: Run) {
    && s.Going? && History(world, tools, s.turns, s.drains) && Flat(s.drains) == InjectedIn(s.turns)
    && s.turns != [] && s.waiting == [] && !Failed(Last(s.turns).answer)
    && s.used == Last(s.turns).used && s.more == Unsatisfied(world, |s.turns| - 1, Last(s.turns))
  }

  lemma HasTurned(world: World, tools: seq<Tool>, s: Run)
    requires Turned(world, tools, s)
    ensures s.turns != []
  {
    hide History, Failed, Unsatisfied, Flat, InjectedIn;
  }

  lemma FirstIsReady(world: World, tools: seq<Tool>, s: Run)
    requires Explained(world, tools, s) && s.Going? && s.turns == []
    ensures Ready(world, tools, s)
  {
    hide History, Conserved;
  }

  /** Asking a queue when nothing waits. */
  lemma AskExplained(world: World, tools: seq<Tool>, s: Run, source: Source)
    requires s.Going? && History(world, tools, s.turns, s.drains) && Flat(s.drains) == InjectedIn(s.turns)
    requires s.turns != [] ==> !Failed(Last(s.turns).answer)
    ensures var z := OnAsk(world, s, source);
            if z.Going? then
              && History(world, tools, z.turns, z.drains) && Conserved(z) && z.turns == s.turns && z.used == s.used && z.more == s.more
              && DrainedFrom(z.drains, source) && |z.drains| == |s.drains| + 1 && z.drains[..|s.drains|] == s.drains
              && z.drains[|s.drains|].local + z.drains[|s.drains|].external == z.waiting
            else Explained(world, tools, z)
  {
    hide TurnOk, Followed, ContextsOk, Failed, Flat, InjectedIn, LocalAt, LeftAt, Unsatisfied;
    if world.callbacks(|s.drains|).Value? {
      FlatAppend(s.drains, Drain(source, LocalAt(world, s.queues, |s.drains|, source), world.callbacks(|s.drains|).value));
    }
  }

  lemma PrepareExplained(world: World, tools: seq<Tool>, s: Run)
    requires Explained(world, tools, s) && s.Going? && s.turns != [] && (s.more || s.waiting != [])
    ensures var p := OnPrepare(world, s);
            if p.Going? then
              && world.prepares(|s.turns| - 1).Value? && p.used == InUseAt(world, tools, |s.turns|)
              && (p.turns, p.drains, p.queues, p.waiting, p.more) == (s.turns, s.drains, s.queues, s.waiting, s.more)
            else Explained(world, tools, p)
  {
    hide TurnOk, Followed, DrainsOk, Failed, Flat, InjectedIn, Unsatisfied;
  }

  lemma OpeningExplained(world: World, tools: seq<Tool>, s: Run)
    requires Explained(world, tools, s) && s.Going? && s.turns != [] && (s.more || s.waiting != [])
    ensures var h := OnOpening(world, s); if h.Going? then Ready(world, tools, h) else Explained(world, tools, h)
  {
    hide OnPrepare, TurnOk, Followed, ContextsOk, DrainsOk, Failed, Flat, InjectedIn, LocalAt, LeftAt, Unsatisfied, OnAsk, IsCancelled, InUseAt, BreaksBecause;
    var p := OnPrepare(world, s);
    PrepareExplained(world, tools, s);
    if p.Going? && p.waiting == [] {
      assert Flat(p.drains) == InjectedIn(p.turns) by {
        assert InjectedIn(p.turns) + [] == InjectedIn(p.turns);
      }
      AskExplained(world, tools, p, Steering);
    }
  }

  lemma AnswerExplained(world: World, tools: seq<Tool>, s: Run)
    requires Ready(world, tools, s)
    ensures var z := OnAnswer(world, s); if z.Going? then Turned(world, tools, z) else Explained(world, tools, z)
  {
    hide TurnOk, Followed, ContextsOk, DrainsOk, Flat, InjectedIn, Wants, Unsatisfied, InUseAt, BatchOf, BehaviorsOf, AnswerOf, SequenceCalls, StaleOf, ClosedBy, ResultMessages, Outcomes;
    var answer := AnswerOf(world.responses(|s.turns|));
    if !IsCancelled(world, |s.turns|, 0) && answer.Value? {
      var e := BatchOf(world, |s.turns|, answer.value, s.used.tools);
      var n := if Failed(answer.value) then 0 else e.n;
      var t := TurnRecord(s.waiting, s.used, answer.value, if Failed(answer.value) then [] else Outcomes(SequenceCalls(answer.value.content), BehaviorsOf(world, |s.turns|, answer.value), e.n));
      if Failed(answer.value) || e.Ran? {
        TurnIsOk(world, |s.turns|, t, e);
        TurnAdded(world, tools, s, t);
      }
    }
  }

  lemma TurnIsOk(world: World, k: nat, t: TurnRecord, e: Execution)
    requires !IsCancelled(world, k, 0) && AnswerOf(world.responses(k)) == Value(t.answer) && e == BatchOf(world, k, t.answer, t.used.tools)
    requires if Failed(t.answer) then t.outcomes == []
             else e.Ran? && t.outcomes == Outcomes(SequenceCalls(t.answer.content), BehaviorsOf(world, k, t.answer), e.n)
    ensures TurnOk(world, k, t)
    ensures !Failed(t.answer) ==> (Wants(t) <==> Unsatisfied(world, k, t))
  {
    hide Wants, Unsatisfied, ResultsTell, BatchOf, BehaviorsOf, AnswerOf, SequenceCalls, ResultMessages, Outcomes;
    if !Failed(t.answer) {
      WantsExactly(world, k, t, e.n);
      ResultsTold(world, k, t, e.n);
    }
  }

  lemma TurnAdded(world: World, tools: seq<Tool>, s: Run, t: TurnRecord)
    requires Ready(world, tools, s) && TurnOk(world, |s.turns|, t) && t.injected == s.waiting && t.used == s.used
    ensures History(world, tools, s.turns + [t], s.drains) && Flat(s.drains) == InjectedIn(s.turns + [t])
  {
    hide DrainsOk, Failed, Flat, InjectedIn, Unsatisfied, InUseAt, TurnOk;
    FlatTurnsAppend(s.turns, t);
    var turns := s.turns + [t];
    forall k | 0 <= k < |turns| - 1 ensures Followed(world, turns, k) {
      if k < |s.turns| - 1 {
        assert Followed(world, s.turns, k);
      }
    }
  }

  lemma ClosingExplained(world: World, tools: seq<Tool>, s: Run)
    requires Turned(world, tools, s)
    ensures Explained(world, tools, OnClosing(world, s))
  {
    hide TurnOk, Followed, ContextsOk, DrainsOk, Flat, InjectedIn, Unsatisfied, OnAsk;
    AskExplained(world, tools, s, Steering);
  }

  lemma FollowUpExplained(world: World, tools: seq<Tool>, s: Run)
    requires Explained(world, tools, s) && s.Going? && !s.more && s.waiting == []
    ensures Explained(world, tools, OnFollowUp(world, s))
  {
    hide TurnOk, Followed, ContextsOk, DrainsOk, Flat, InjectedIn, Unsatisfied, OnAsk;
    assert InjectedIn(s.turns) + [] == InjectedIn(s.turns);
    AskExplained(world, tools, s, FollowUp);
    var a := OnAsk(world, s, FollowUp);
    if a.Going? && a.waiting == [] {
      var n := |s.drains|;
      assert s.drains[n - 1].local + s.drains[n - 1].external == [];
      assert s.drains[n - 1] == a.drains[n - 1];
      assert InjectedIn(a.turns) + [] == InjectedIn(a.turns);
    }
  }

  // ----- why a run ends, and what it loses -----

  /** Why a run ended by itself, exactly; and that every answer it had met before let it go on. */
  lemma HowRunsEnd(world: World, q: Queued, tools: seq<Tool>, s: Run)
    requires Reached(world, q, tools, s) && s.Over?
    ensures History(world, tools, s.turns, s.drains) && Flat(s.drains) == InjectedIn(s.turns) && EndsBecause(world, s)
    ensures forall k :: 0 <= k < |s.turns| - 1 ==> world.stops(k) == Value(false) && !Failed(s.turns[k].answer)
  {
    hide Play, TurnOk, ContextsOk, DrainsOk, Flat, InjectedIn, EndsBecause;
    var n: nat :| s == Play(world, q, tools, n);
    HowRunsGo(world, q, tools, n);
    forall k | 0 <= k < |s.turns| - 1 ensures world.stops(k) == Value(false) && !Failed(s.turns[k].answer) {
      assert Followed(world, s.turns, k);
    }
  }

  /** Why a run broke off. */
  lemma HowRunsBreak(world: World, q: Queued, tools: seq<Tool>, s: Run)
    requires Reached(world, q, tools, s) && s.Broke?
    ensures History(world, tools, s.turns, s.drains) && Conserved(s) && BreaksBecause(world, tools, s)
  {
    hide Play, History, Conserved, BreaksBecause;
    var n: nat :| s == Play(world, q, tools, n);
    HowRunsGo(world, q, tools, n);
  }

  /** A finished run leaves messages that a callback gave exactly when the hook between turns raised and
      the last callback before it gave something. */
  lemma LeftBehind(world: World, q: Queued, tools: seq<Tool>, s: Run)
    requires Reached(world, q, tools, s) && !s.Going?
    ensures (s.Broke? && s.waiting != []) <==>
      && s.Broke? && s.cause == PrepareRaised && s.turns != [] && world.prepares(|s.turns| - 1).Raised? && Given(s.drains) != []
  {
    hide Play, History, Flat, InjectedIn;
    var n: nat :| s == Play(world, q, tools, n);
    HowRunsGo(world, q, tools, n);
  }

  /** The tools at hand in the next turn. */
  function ToolsNext(world: World, s: Run): seq<Tool> {
    if s.turns != [] && HandsOver(world, |s.turns| - 1) then world.prepares(|s.turns| - 1).value.value.context.tools else s.used.tools
  }

  /** A call of the k-th answer throws: any, if they run side by side; in sequence, one before which none
      throws and after none of which the run is found cancelled. */
  ghost predicate CallThrows(world: World, k: nat, answer: Message, tools: seq<Tool>)
    requires answer.Assistant?
  {
    var calls, behaviors := SequenceCalls(answer.content), BehaviorsOf(world, k, answer);
    && answer.stop != Length
    && if Sequential(world, tools, calls) then
         exists i :: 0 <= i < |behaviors| && behaviors[i].Throws? && Undisturbed(world, k, behaviors, 0, i)
       else exists i :: 0 <= i < |behaviors| && behaviors[i].Throws?
  }

  /** From call `i` on, none before call `n` throws, and the run is not found cancelled after any of them. */
  ghost predicate Undisturbed(world: World, k: nat, behaviors: seq<Behavior>, i: nat, n: nat)
    requires n <= |behaviors|
  {
    && (forall j :: i <= j < n ==> !behaviors[j].Throws?)
    && (forall j :: i < j <= n ==> !IsCancelled(world, k, j))
  }

  lemma {:induction false} ThrowsInOrder(world: World, k: nat, behaviors: seq<Behavior>, i: nat)
    requires i <= |behaviors|
    ensures InOrder(world, k, behaviors, i).Threw? <==>
      exists n :: i <= n < |behaviors| && behaviors[n].Throws? && Undisturbed(world, k, behaviors, i, n)
    decreases |behaviors| - i
  {
    hide IsCancelled;
    if i < |behaviors| {
      ThrowsInOrder(world, k, behaviors, i + 1);
      if behaviors[i].Throws? {
        assert Undisturbed(world, k, behaviors, i, i);
      } else {
        forall n | i + 1 <= n < |behaviors|
          ensures Undisturbed(world, k, behaviors, i, n) <==> !IsCancelled(world, k, i + 1) && Undisturbed(world, k, behaviors, i + 1, n)
        {
        }
      }
    }
  }

  lemma WhenThrown(world: World, k: nat, answer: Message, tools: seq<Tool>)
    requires answer.Assistant?
    ensures BatchOf(world, k, answer, tools).Threw? <==> CallThrows(world, k, answer, tools)
  {
    hide Undisturbed, IsCancelled, SequenceCalls, WantsSequential;
    ThrowsInOrder(world, k, BehaviorsOf(world, k, answer), 0);
  }

  /** What breaks a run off at its next step, in the order in which the loop meets it. */
  ghost predicate PassBreaks(world: World, s: Run)
    requires s.Going?
  {
    var k, n := |s.turns|, |s.drains|;
    || (k > 0 && world.prepares(k - 1).Raised?)
    || (k > 0 && s.waiting == [] && world.callbacks(n).Raised?)
    || IsCancelled(world, k, 0)
    || AnswerOf(world.responses(k)).Raised?
    || var answer := AnswerOf(world.responses(k)).value;
       && !Failed(answer)
       && (|| CallThrows(world, k, answer, ToolsNext(world, s))
           || world.stops(k).Raised?
           || (world.stops(k) == Value(false) && world.callbacks(if k > 0 && s.waiting == [] then n + 1 else n).Raised?))
  }

  /** A pass breaks off exactly when one of the answers that it meets raises, or the run is found
      cancelled before the request. */
  lemma BreaksExactly(world: World, s: Run)
    requires s.Going?
    ensures s.more || s.waiting != [] ==> (Next(world, s).Broke? <==> PassBreaks(world, s))
    ensures !s.more && s.waiting == [] ==> (Next(world, s).Broke? <==> world.callbacks(|s.drains|).Raised?)
  {
    hide AnswerOf, BatchOf, BehaviorsOf, SequenceCalls, StaleOf, ClosedBy, Outcomes, LocalAt, LeftAt, Failed, Wants, TurnMessages, IsCancelled, CallThrows;
    if AnswerOf(world.responses(|s.turns|)).Value? {
      WhenThrown(world, |s.turns|, AnswerOf(world.responses(|s.turns|)).value, ToolsNext(world, s));
    }
  }

  /** A callback that raises loses what the agent's own queue gave to it: something exactly when the
      queue then had something. */
  lemma CallbackLoses(world: World, s: Run, source: Source)
    requires s.Going?
    ensures var z, waiting := OnAsk(world, s, source), Of(QueuesAt(world, s.queues, |s.drains|), source);
            && (z.Broke? <==> world.callbacks(|s.drains|).Raised?)
            && (z.Broke? ==> z.lost == Taken(waiting.mode, waiting.items) && (z.lost != [] <==> waiting.items != []))
  {}

  /** A batch in sequence is short exactly when the run is found cancelled after its last executed call,
      and after none before. */
  lemma {:induction false} ShortExactly(world: World, k: nat, behaviors: seq<Behavior>, i: nat, n: nat)
    requires i <= n <= |behaviors| && (i < n || i == |behaviors|)
    ensures InOrder(world, k, behaviors, i) == Ran(n) <==>
      && (forall j :: i <= j < n ==> !behaviors[j].Throws?)
      && (forall j :: i < j < n ==> !IsCancelled(world, k, j))
      && (n < |behaviors| ==> IsCancelled(world, k, n))
    decreases |behaviors| - i
  {
    if i < |behaviors| && !behaviors[i].Throws? && !IsCancelled(world, k, i + 1) && i + 1 < n {
      ShortExactly(world, k, behaviors, i + 1, n);
    }
    InOrderStops(world, k, behaviors, i);
  }

  lemma {:induction false} InOrderStops(world: World, k: nat, behaviors: seq<Behavior>, i: nat)
    requires i <= |behaviors|
    ensures i < |behaviors| && InOrder(world, k, behaviors, i).Ran? ==> InOrder(world, k, behaviors, i).n > i
    decreases |behaviors| - i
  {
    if i < |behaviors| && !behaviors[i].Throws? && !IsCancelled(world, k, i + 1) && i + 1 < |behaviors| {
      InOrderStops(world, k, behaviors, i + 1);
    }
  }

  /** A run that loses a message at the hook: the steering queue has two and gives one at a time; the
      first is injected in the first turn, the second waits when the hook raises. */
  lemma HookLoses(world: World, tools: seq<Tool>, a: Message, b: Message, answer: AssistantMessage)
    requires world.cancelAt == None && world.others(0) == world.others(1) == []
    requires world.callbacks(0) == world.callbacks(1) == Value([])
    requires world.responses(0) == Response(Value(true), [], Resolved(answer)) && answer == Assistant([], Stop, None)
    requires world.stops(0) == Value(false) && world.prepares(0) == Raised(false)
    ensures var s := Play(world, Queued(Queue("one-at-a-time", [a, b]), Queue("all", [])), tools, 2);
            s.Broke? && s.cause == PrepareRaised && s.waiting == [b] && |s.turns| == 1 && s.turns[0].injected == [a]
  {
    hide OnPass, OnOpening;
    var q := Queued(Queue("one-at-a-time", [a, b]), Queue("all", []));
    var first := Going([], [Drain(Steering, [a], [])], Queued(Queue("one-at-a-time", [b]), Queue("all", [])), [a], InUse(None, tools), true);
    assert [a] + [] == [a] && [b] + [] == [b] && [a, b][1..] == [b] && [b][1..] == [];
    assert OnStart(world, q, tools) == first;
    PlainTurn(world, first, answer);
    var turned := OnAnswer(world, first);
    var second := OnAsk(world, turned, Steering);
    assert OnPass(world, first) == second by {
      OnePass(world, first);
    }
    assert second.Going? && second.waiting == [b] && second.turns == turned.turns;
    assert Play(world, q, tools, 1) == Next(world, Play(world, q, tools, 0)) == second;
    BreaksAtHook(world, second);
  }

  /** A turn whose answer calls nothing. */
  lemma PlainTurn(world: World, s: Run, answer: AssistantMessage)
    requires s.Going? && !IsCancelled(world, |s.turns|, 0) && answer == Assistant([], Stop, None)
    requires world.responses(|s.turns|) == Response(Value(true), [], Resolved(answer))
    ensures OnAnswer(world, s) == Going(s.turns + [TurnRecord(s.waiting, s.used, answer, [])], s.drains, s.queues, [], s.used, false)
  {
    NothingRegular();
    var k := |s.turns|;
    assert Accepted(world.responses(k)) == [] && AnswerOf(world.responses(k)) == Value(answer);
    assert SequenceCalls(answer.content) == [] && BehaviorsOf(world, k, answer) == [];
    assert BatchOf(world, k, answer, s.used.tools) == Ran(0);
    assert Outcomes([], [], 0) == [];
  }

  lemma OnePass(world: World, s: Run)
    requires s.Going? && s.turns == [] && OnAnswer(world, s).Going? && world.stops(0) == Value(false) && |OnAnswer(world, s).turns| == 1
    ensures OnPass(world, s) == OnAsk(world, OnAnswer(world, s), Steering)
  {
    hide OnAnswer, OnAsk;
  }

  lemma BreaksAtHook(world: World, s: Run)
    requires s.Going? && s.turns != [] && s.waiting != [] && world.prepares(|s.turns| - 1).Raised?
    ensures Next(world, s) == Broke(s.turns, s.drains, s.queues, s.used, s.waiting, PrepareRaised, world.prepares(|s.turns| - 1).cancelled, [], [], [])
  {
    hide OnAnswer, OnAsk;
  }

  const NOTHING_QUEUED := Queued(Queue("all", []), Queue("all", []))

  /** Asking an empty queue whose callback has nothing either. */
  lemma NothingGiven(world: World, s: Run, source: Source)
    requires s.Going? && s.queues == NOTHING_QUEUED && world.others(|s.drains|) == [] && world.callbacks(|s.drains|) == Value([])
    ensures OnAsk(world, s, source) == Going(s.turns, s.drains + [Drain(source, [], [])], NOTHING_QUEUED, [], s.used, s.more)
  {}

  /** A turn whose answer has two calls, which both run to an end. */
  lemma TwoCalls(world: World, s: Run, a: ToolCall, b: ToolCall, first: bool, second: bool, answer: AssistantMessage)
    requires s.Going? && world.parallel && s.used.tools == [] && !IsCancelled(world, |s.turns|, 0)
    requires answer == Assistant([Call(a), Call(b)], ToolUse, None) && world.responses(|s.turns|) == Response(Value(true), [], Resolved(answer))
    requires world.behaviors(|s.turns|, 0) == Runs("", false, first) && world.behaviors(|s.turns|, 1) == Runs("", false, second)
    ensures var z := OnAnswer(world, s);
            && z.Going? && |z.turns| == |s.turns| + 1 && z.turns[..|s.turns|] == s.turns
            && (z.drains, z.queues, z.waiting, z.used) == (s.drains, s.queues, [], s.used) && z.more == !(first && second)
  {
    NothingRegular();
    var k := |s.turns|;
    assert Accepted(world.responses(k)) == [] && AnswerOf(world.responses(k)) == Value(answer);
    assert answer.content[1..] == [Call(b)] && [Call(b)][1..] == [];
    assert SequenceCalls([Call(b)]) == [b];
    var calls := SequenceCalls(answer.content);
    assert calls == [a, b];
    var behaviors := BehaviorsOf(world, k, answer);
    assert behaviors == [Runs("", false, first), Runs("", false, second)];
    assert BatchOf(world, k, answer, []) == Ran(2);
    var os := Outcomes(calls, behaviors, 2);
    assert os == [Outcome(0, a, "", false, first), Outcome(1, b, "", false, second)];
    assert os[0] in os && os[1] in os;
  }

  /** Two calls: the loop makes another request unless both ask to stop. */
  lemma BothMustStop(world: World, a: ToolCall, b: ToolCall, first: bool, second: bool, answer: AssistantMessage, after: AssistantMessage)
    requires world.parallel && world.cancelAt == None
    requires world.others(0) == world.others(1) == world.others(2) == [] && world.callbacks(0) == world.callbacks(1) == world.callbacks(2) == Value([])
    requires answer == Assistant([Call(a), Call(b)], ToolUse, None) && world.responses(0) == Response(Value(true), [], Resolved(answer))
    requires after == Assistant([], Stop, None) && world.responses(1) == Response(Value(true), [], Resolved(after))
    requires world.behaviors(0, 0) == Runs("", false, first) && world.behaviors(0, 1) == Runs("", false, second)
    requires world.stops(0) == Value(false) && world.stops(1) == Value(true) && world.prepares(0) == Value(None)
    ensures var s := Play(world, NOTHING_QUEUED, [], 2);
            s.Over? && if first && second then |s.turns| == 1 && s.ending == FellThrough else |s.turns| == 2 && s.ending == StoppedByHook
  {
    hide OnAsk, OnAnswer, OnOpening, OnClosing;
    var start := Going([], [], NOTHING_QUEUED, [], InUse(None, []), true);
    NothingGiven(world, start, Steering);
    var begun := OnStart(world, NOTHING_QUEUED, []);
    TwoCalls(world, begun, a, b, first, second, answer);
    var turned := OnAnswer(world, begun);
    NothingGiven(world, turned, Steering);
    OnePass(world, begun);
    var passed := OnAsk(world, turned, Steering);
    assert Play(world, NOTHING_QUEUED, [], 0) == begun && Play(world, NOTHING_QUEUED, [], 1) == passed;
    if first && second {
      NothingGiven(world, passed, FollowUp);
    } else {
      SecondPass(world, passed, after);
    }
  }

  /** A second pass with nothing in the queues and no hook in the way, after which the hook stops the run. */
  lemma SecondPass(world: World, s: Run, answer: AssistantMessage)
    requires s.Going? && |s.turns| == 1 && s.queues == NOTHING_QUEUED && s.waiting == [] && s.more && world.cancelAt == None
    requires world.others(|s.drains|) == [] && world.callbacks(|s.drains|) == Value([])
    requires world.prepares(0) == Value(None) && world.stops(1) == Value(true)
    requires answer == Assistant([], Stop, None) && world.responses(1) == Response(Value(true), [], Resolved(answer))
    ensures var z := Next(world, s); z.Over? && |z.turns| == 2 && z.ending == StoppedByHook
  {
    hide OnAsk, OnAnswer;
    NothingGiven(world, s, Steering);
    PlainTurn(world, OnAsk(world, s, Steering), answer);
  }
}
