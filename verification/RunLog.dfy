/** What a run's log tells besides its messages: the tool executions of every turn, and which context the
    loop used at every event. */
module RunLog {
  import opened Prelude
  import opened Transcript
  import opened LoopWorld
  import opened LoopStory
  import opened Observations

  // ----- the tools of every turn -----

  /** A turn's tool-end events without their order, how many of its executions started while another was
      open, and whether all of them started under ids that were not open. */
  datatype TurnTally = TurnTally(ends: multiset<Event>, overlaps: nat, apart: bool)

  const UNTOUCHED := TurnTally(multiset{}, 0, true)

  ghost function Counted(t: TurnTally, g: Grammar, e: Event): TurnTally {
    match e
    case ToolEnd(_, _, _, _) => t.(ends := t.ends + multiset{e})
    case ToolStart(id, _) =>
      if g.Turn? then TurnTally(t.ends, t.overlaps + (if g.tools != multiset{} then 1 else 0), t.apart && id !in g.tools) else t
    case _ => t
  }

  /** The turns that have started, one by one. */
  ghost function Tally(log: seq<Event>): seq<TurnTally> {
    if log == [] then [] else Tallied(Tally(log[..|log| - 1]), Parse(log[..|log| - 1]), log[|log| - 1])
  }

  ghost function Tallied(ts: seq<TurnTally>, g: Grammar, e: Event): seq<TurnTally> {
    if e.TurnStart? then ts + [UNTOUCHED]
    else if ts == [] then []
    else ts[|ts| - 1 := Counted(ts[|ts| - 1], g, e)]
  }

  lemma TallyAppend(log: seq<Event>, e: Event)
    ensures Tally(log + [e]) == Tallied(Tally(log), Parse(log), e)
  {
    assert (log + [e])[..|log|] == log;
  }

  /** In a turn some turn has started. */
  lemma {:induction false} TurnIsTallied(log: seq<Event>)
    ensures Parse(log).Turn? || Parse(log).Between? ==> log != []
    ensures Parse(log).Turn? ==> Tally(log) != []
  {
    if log != [] {
      TurnIsTallied(log[..|log| - 1]);
    }
  }

  ghost predicate AllApart(ts: seq<TurnTally>) {
    forall k :: 0 <= k < |ts| ==> ts[k].apart
  }

  /** When every turn's executions started apart, none ever started under an id that was open. */
  lemma {:induction false} ApartIsDistinct(log: seq<Event>)
    requires AllApart(Tally(log))
    ensures DistinctOpenIds(log)
  {
    hide Parse, Tallied;
    if log != [] {
      var front, e := log[..|log| - 1], log[|log| - 1];
      TurnIsTallied(front);
      ApartBefore(Tally(front), Parse(front), e);
      ApartIsDistinct(front);
      assert front + [e] == log;
      DistinctSnoc(front, e);
    }
  }

  lemma DistinctSnoc(log: seq<Event>, e: Event)
    requires DistinctOpenIds(log) && (e.ToolStart? && Parse(log).Turn? ==> e.id !in Parse(log).tools)
    ensures DistinctOpenIds(log + [e])
  {
    hide Parse;
    var more := log + [e];
    forall n | 0 <= n < |more| && more[n].ToolStart? && Parse(more[..n]).Turn? ensures more[n].id !in Parse(more[..n]).tools {
      if n < |log| {
        assert more[..n] == log[..n] && more[n] == log[n];
      } else {
        assert more[..n] == log;
      }
    }
  }

  lemma ApartBefore(ts: seq<TurnTally>, g: Grammar, e: Event)
    requires AllApart(Tallied(ts, g, e))
    ensures AllApart(ts)
    ensures ts != [] && e.ToolStart? && g.Turn? ==> e.id !in g.tools
  {
    var more := Tallied(ts, g, e);
    assert forall k :: 0 <= k < |ts| ==> more[k].apart ==> ts[k].apart;
  }

  /** The report of a failure has no tools and no turns. */
  lemma FailureUntallied(log: seq<Event>, failure: Message, payload: seq<Message>)
    ensures Tally(log + FailureEvents(failure, payload)) == Tally(log)
  {
    hide Tally, Parse;
    var opened_ := log + [MessageStart(failure)];
    var told := opened_ + [MessageEnd(failure)];
    TallyAppend(log, MessageStart(failure));
    TallyAppend(opened_, MessageEnd(failure));
    TallyAppend(told, TurnEnd(failure, []));
    TallyAppend(told + [TurnEnd(failure, [])], AgentEnd(payload));
    assert log + FailureEvents(failure, payload) == told + [TurnEnd(failure, [])] + [AgentEnd(payload)];
  }

  ghost function EndEvents(os: seq<Outcome>): (es: seq<Event>)
    ensures |es| == |os|
  {
    seq(|os|, i requires 0 <= i < |os| => EndEvent(os[i]))
  }

  predicate DistinctIds(calls: seq<ToolCall>) {
    forall i, j :: 0 <= i < j < |calls| ==> calls[i].id != calls[j].id
  }

  /** The calls of an answer run one after the other. */
  predicate OneByOne(world: World, answer: Message, tools: seq<Tool>)
    requires answer.Assistant?
  {
    answer.stop == Length || Sequential(world, tools, SequenceCalls(answer.content))
  }

  /** Each outcome of a turn had its one end event; calls that run one after the other did not overlap;
      and calls with distinct ids started apart. */
  ghost predicate TallyOk(world: World, t: TurnRecord, y: TurnTally) {
    && y.ends == multiset(EndEvents(t.outcomes))
    && Orderly(world, t.answer, t.used.tools, y)
  }

  ghost predicate Orderly(world: World, answer: Message, tools: seq<Tool>, y: TurnTally)
    requires answer.Assistant?
  {
    && (OneByOne(world, answer, tools) ==> y.overlaps == 0)
    && (DistinctIds(SequenceCalls(answer.content)) ==> y.apart)
  }

  /** The tallies of a run's whole turns, and of the turn that was under way when it broke off. */
  ghost predicate TurnsTallied(world: World, s: Run, ts: seq<TurnTally>) {
    && |s.turns| <= |ts| <= |s.turns| + 1
    && (forall k :: 0 <= k < |s.turns| ==> TallyOk(world, s.turns[k], ts[k]))
    && (s.Over? ==> |ts| == |s.turns|)
    && (s.Broke? && |ts| > |s.turns| ==>
          var y := ts[|s.turns|];
          if s.cause.ToolThrew? then
            AnswerOf(world.responses(|s.turns|)).Value? && Orderly(world, AnswerOf(world.responses(|s.turns|)).value, s.used.tools, y)
          else y == UNTOUCHED)
  }

  lemma SameTallies(world: World, s: Run, z: Run, ts: seq<TurnTally>)
    requires TurnsTallied(world, s, ts) && s.Going? && z.turns == s.turns && (z.Broke? ==> !z.cause.ToolThrew?)
    requires |ts| > |s.turns| ==> !z.Over? && ts[|s.turns|] == UNTOUCHED
    ensures TurnsTallied(world, z, ts)
  {
    hide TallyOk;
  }

  /** A turn without tools. */
  lemma OneMoreTally(world: World, s: Run, z: Run, ts: seq<TurnTally>)
    requires TurnsTallied(world, s, ts) && |ts| == |s.turns| + 1 && ts[|s.turns|] == UNTOUCHED && s.Going? && !z.Broke?
    requires |z.turns| == |s.turns| + 1 && z.turns[..|s.turns|] == s.turns && z.turns[|s.turns|].outcomes == []
    ensures TurnsTallied(world, z, ts)
  {
    hide OneByOne, DistinctIds, SequenceCalls;
    forall k | 0 <= k < |s.turns| ensures TallyOk(world, z.turns[k], ts[k]) {
      assert z.turns[k] == z.turns[..|s.turns|][k];
    }
  }

  /** Every answer of the environment has calls with distinct ids. */
  ghost predicate DistinctAnswers(world: World) {
    forall k :: AnswerOf(world.responses(k)).Value? ==> DistinctIds(SequenceCalls(AnswerOf(world.responses(k)).value.content))
  }

  /** A run whose answers have calls with distinct ids never starts a tool under an id that is open. */
  lemma DistinctCallsAreApart(world: World, s: Run, log: seq<Event>)
    requires !s.Going? && DistinctAnswers(world) && TurnsTallied(world, s, Tally(log))
    requires forall k :: 0 <= k < |s.turns| ==> AnswerOf(world.responses(k)) == Value(s.turns[k].answer)
    ensures DistinctOpenIds(log)
  {
    hide Tally, DistinctIds, AnswerOf, OneByOne, SequenceCalls;
    var ts := Tally(log);
    forall k | 0 <= k < |ts| ensures ts[k].apart {
      if k < |s.turns| {
        assert TallyOk(world, s.turns[k], ts[k]);
      }
    }
    ApartIsDistinct(log);
  }

  // ----- the context in use -----

  /** Which hook handed over the context in use, if any did, and how many messages the run had produced
      by then. */
  datatype Use = Use(handed: Option<nat>, mark: nat)

  const FIRST_USE := Use(None, 0)

  /** A turn's start takes over what the hook before it handed over. */
  function UseAfter(world: World, u: Use, turns: nat, produced: nat, e: Event): Use {
    if e.TurnStart? && turns > 0 && HandsOver(world, turns - 1) then Use(Some(turns - 1), produced) else u
  }

  ghost function UseOn(world: World, log: seq<Event>): Use {
    if log == [] then FIRST_USE
    else
      var front := log[..|log| - 1];
      UseAfter(world, UseOn(world, front), |Tally(front)|, |Closed(front)|, log[|log| - 1])
  }

  lemma UseAppend(world: World, log: seq<Event>, e: Event)
    ensures UseOn(world, log + [e]) == UseAfter(world, UseOn(world, log), |Tally(log)|, |Closed(log)|, e)
  {
    assert (log + [e])[..|log|] == log;
  }

  /** A context in use that began with these messages when the run had produced `mark` of its own. */
  ghost predicate IsInUse(world: World, first: AgentContext, base: seq<Message>, u: Use, contextBase: seq<Message>, mark: nat, isFirst: bool) {
    && mark == u.mark
    && if u.handed.None? then contextBase == base && isFirst
       else
         && HandsOver(world, u.handed.value)
         && var h := world.prepares(u.handed.value).value.value;
         && contextBase == h.messages && (isFirst <==> h.context == first)
  }

  /** At every event but those of a failure's report, the context is the one that the log and the hooks'
      answers tell. */
  ghost predicate AllInUse(world: World, first: AgentContext, base: seq<Message>, log: seq<Event>, trace: seq<Snapshot>) {
    && |trace| == |log|
    && forall i :: 0 <= i < |log| && trace[i].failed.None? ==> InUseOn(world, first, base, log, i, trace[i])
  }

  ghost predicate InUseOn(world: World, first: AgentContext, base: seq<Message>, log: seq<Event>, i: nat, s: Snapshot)
    requires i < |log|
  {
    IsInUse(world, first, base, UseOn(world, log[..i + 1]), s.contextBase, s.mark, s.first)
  }

  lemma AllInUseAppend(world: World, first: AgentContext, base: seq<Message>, log: seq<Event>, trace: seq<Snapshot>, e: Event, s: Snapshot)
    requires AllInUse(world, first, base, log, trace)
    requires s.failed.None? ==> IsInUse(world, first, base, UseOn(world, log + [e]), s.contextBase, s.mark, s.first)
    ensures AllInUse(world, first, base, log + [e], trace + [s])
  {
    hide IsInUse, UseOn;
    var more, longer := log + [e], trace + [s];
    forall i | 0 <= i < |more| && longer[i].failed.None? ensures InUseOn(world, first, base, more, i, longer[i]) {
      if i < |log| {
        assert more[..i + 1] == log[..i + 1] && longer[i] == trace[i];
        assert InUseOn(world, first, base, log, i, trace[i]);
      } else {
        assert more[..i + 1] == more;
      }
    }
  }

  /** All that is observed of a run. */
  ghost predicate Observed(world: World, first: AgentContext, base: seq<Message>, begun: Reduced, prompts: seq<Message>,
                           log: seq<Event>, trace: seq<Snapshot>) {
    AllAgree(base, begun, prompts, log, trace) && AllInUse(world, first, base, log, trace)
  }

  /** What the transcript has at an event, with the prompts not reported yet, or the message in flight. */
  ghost function Held(begun: Reduced, prompts: seq<Message>, log: seq<Event>, i: nat, s: Snapshot): seq<Message>
    requires i < |log|
  {
    var g := Parse(log[..i]);
    ReduceAll(begun, log[..i]).messages
    + if InFlightAt(g, s.answer) then (if Subject(log[i]).Some? then [Subject(log[i]).value] else []) else Unreported(prompts, g)
  }

  /** At every event of a run before a failure's report, the context in use is what the transcript has;
      or, when a hook has handed over another, what that one had, and what the transcript got since.
      `Held` says what the transcript has, and the message in flight is an assistant's, and the one that
      the event is about. */
  lemma ContextAt(world: World, first: AgentContext, base: seq<Message>, begun: Reduced, prompts: seq<Message>,
                  log: seq<Event>, trace: seq<Snapshot>, i: nat)
    requires Observed(world, first, base, begun, prompts, log, trace) && i < |log| && trace[i].failed.None?
    ensures var s, u, held := trace[i], UseOn(world, log[..i + 1]), Held(begun, prompts, log, i, trace[i]);
            && base + s.newMessages == held && |base| + u.mark <= |held|
            && (InFlightAt(Parse(log[..i]), s.answer) ==> Subject(log[i]).Some? && Subject(log[i]).value.Assistant?)
            && (u.handed.None? ==> s.context == held)
            && (u.handed.Some? ==>
                  && HandsOver(world, u.handed.value)
                  && s.context == world.prepares(u.handed.value).value.value.messages + held[|base| + u.mark..])
  {
    hide AllAgree, Parse, ReduceAll, Unreported, UseOn;
    AgreeAt(base, begun, prompts, log, trace, i);
    var s, u, held := trace[i], UseOn(world, log[..i + 1]), Held(begun, prompts, log, i, trace[i]);
    assert InUseOn(world, first, base, log, i, s);
    assert base + s.newMessages == held;
    assert held[|base| + s.mark..] == s.newMessages[s.mark..];
    assert u.handed.None? ==> u.mark == 0 by {
      FirstUse(world, log[..i + 1]);
    }
  }

  lemma {:induction false} FirstUse(world: World, log: seq<Event>)
    ensures UseOn(world, log).handed.None? ==> UseOn(world, log) == FIRST_USE
    ensures UseOn(world, log).handed.Some? ==> UseOn(world, log).handed.value + 1 < |Tally(log)| && HandsOver(world, UseOn(world, log).handed.value)
  {
    if log != [] {
      FirstUse(world, log[..|log| - 1]);
    }
  }

  /** When no hook that a run met handed over a context, the context is at every event what the transcript
      has, with the prompts not reported yet or the one message in flight. */
  lemma ContextIsTranscript(world: World, first: AgentContext, base: seq<Message>, begun: Reduced, prompts: seq<Message>,
                            log: seq<Event>, trace: seq<Snapshot>, i: nat)
    requires Observed(world, first, base, begun, prompts, log, trace) && i < |log| && trace[i].failed.None?
    requires forall k :: 0 <= k < |Tally(log[..i + 1])| - 1 ==> !HandsOver(world, k)
    ensures trace[i].first && trace[i].context == Held(begun, prompts, log, i, trace[i])
    ensures Subject(log[i]).None? || !Subject(log[i]).value.Assistant? ==>
              trace[i].context == ReduceAll(begun, log[..i]).messages + Unreported(prompts, Parse(log[..i]))
  {
    hide AllAgree, Parse, ReduceAll, Unreported, UseOn, Tally;
    FirstUse(world, log[..i + 1]);
    ContextAt(world, first, base, begun, prompts, log, trace, i);
    assert InUseOn(world, first, base, log, i, trace[i]);
  }
}
