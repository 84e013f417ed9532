/** What is observed at every event of a run: the copies of the transcript, against the log. */
module Observations {
  import opened Prelude
  import opened Transcript

  /** From which event on a run reports its failure, the failure's message, and the message that was
      in flight, if any. */
  datatype Failing = Failing(from: nat, failure: Message, stale: seq<Message>)

  /** The loop's copies just before an event is emitted.  `contextBase` and `mark` say which
      context is in use: its messages when it was taken over, and how many messages the run had
      produced by then; a run whose context is never replaced keeps its first ones, and its first
      context.  `answer` is the place in the turn of the message that a provider streams, once it
      has started. */
  datatype Snapshot = Snapshot(
    context: seq<Message>,
    newMessages: seq<Message>,
    contextBase: seq<Message>,
    mark: nat,
    first: bool,
    answer: Option<nat>,
    failed: Option<Failing>)

  /** The prompts whose end has not been reported. */
  function Unreported(prompts: seq<Message>, g: Grammar): seq<Message> {
    if |EndedOf(g)| < |prompts| then prompts[|EndedOf(g)|..] else []
  }

  function Subject(e: Event): Option<Message> {
    match e
    case MessageStart(m) => Some(m)
    case MessageUpdate(m) => Some(m)
    case MessageEnd(m) => Some(m)
    case _ => None
  }

  /** The event is about the message that a provider streams. */
  predicate InFlightAt(g: Grammar, answer: Option<nat>) {
    g.Turn? && answer == Some(|g.turn|)
  }

  /** A turn has no answer at first; a message's start may be its answer's, once; the answer keeps
      its place, and the turn's end names it by that place. */
  predicate AnswerMoves(last: Option<nat>, g: Grammar, e: Event, answer: Option<nat>) {
    if e == AgentStart || e == TurnStart || e.AgentEnd? then answer == None
    else
      && (if last.Some? then answer == last else answer == None || (e.MessageStart? && InFlightAt(g, answer)))
      && (e.TurnEnd? ==> g.Turn? && answer.Some? && answer.value + 1 + |e.results| == |g.turn|)
  }

  /** The copies agree at an event of a run that has not failed: the context in use is its base and
      what the run added since; base plus new messages is what the reducer holds, and the prompts
      not reported yet, or the one message in flight. */
  ghost predicate AgreeRunning(base: seq<Message>, prompts: seq<Message>, g: Grammar, st: Reduced, e: Event, s: Snapshot) {
    var rest := Unreported(prompts, g);
    && s.mark <= |s.newMessages| && s.context == s.contextBase + s.newMessages[s.mark..]
    && (rest != [] ==> e == AgentStart || e == TurnStart || e == MessageStart(rest[0]) || e == MessageEnd(rest[0]))
    && (if InFlightAt(g, s.answer) then
          && rest == [] && Subject(e).Some? && Subject(e).value.Assistant?
          && base + s.newMessages == st.messages + [Subject(e).value]
          && (e.MessageStart? <==> st.streaming == None)
        else
          !e.MessageUpdate? && base + s.newMessages == st.messages + rest)
  }

  function FailureEvent(f: Failing, k: nat, newMessages: seq<Message>): Event {
    if k == 0 then MessageStart(f.failure)
    else if k == 1 then MessageEnd(f.failure)
    else if k == 2 then TurnEnd(f.failure, [])
    else AgentEnd(newMessages + [f.failure])
  }

  /** The four events that report a failure.  The copies differ by the message that was in flight,
      which is there exactly when the log has a message open; the failure's own message goes to the
      first context. */
  ghost predicate AgreeFailing(base: seq<Message>, begun: Reduced, before: seq<Event>, e: Event, s: Snapshot)
    requires s.failed.Some?
  {
    var f := s.failed.value;
    && f.from <= |before| < f.from + 4 && e == FailureEvent(f, |before| - f.from, s.newMessages)
    && |f.stale| <= 1 && (f.stale != [] <==> Parse(before[..f.from]).Turn? && Parse(before[..f.from]).open.Some?)
    && base + s.newMessages == ReduceAll(begun, before[..f.from]).messages + f.stale
    && ReduceAll(begun, before).messages == ReduceAll(begun, before[..f.from]).messages + (if |before| <= f.from + 1 then [] else [f.failure])
    && s.mark <= |s.newMessages|
    && s.context == s.contextBase + s.newMessages[s.mark..] + (if s.first && |before| >= f.from + 2 then [f.failure] else [])
  }

  function LastAnswer(trace: seq<Snapshot>): Option<nat> {
    if trace == [] then None else trace[|trace| - 1].answer
  }

  function LastFailing(trace: seq<Snapshot>): Option<Failing> {
    if trace == [] then None else trace[|trace| - 1].failed
  }

  ghost predicate Agree(base: seq<Message>, begun: Reduced, prompts: seq<Message>, before: seq<Event>, earlier: seq<Snapshot>, e: Event, s: Snapshot) {
    if s.failed.None? then
      && LastFailing(earlier).None? && AnswerMoves(LastAnswer(earlier), Parse(before), e, s.answer)
      && AgreeRunning(base, prompts, Parse(before), ReduceAll(begun, before), e, s)
    else
      AgreeFailing(base, begun, before, e, s) && (LastFailing(earlier).Some? ==> s.failed == LastFailing(earlier))
  }

  ghost predicate AllAgree(base: seq<Message>, begun: Reduced, prompts: seq<Message>, log: seq<Event>, trace: seq<Snapshot>) {
    && |trace| == |log|
    && (log == [] || (
          var n := |log| - 1;
          AllAgree(base, begun, prompts, log[..n], trace[..n]) && Agree(base, begun, prompts, log[..n], trace[..n], log[n], trace[n])))
  }

  lemma AllAgreeAppend(base: seq<Message>, begun: Reduced, prompts: seq<Message>, log: seq<Event>, trace: seq<Snapshot>, e: Event, s: Snapshot)
    requires AllAgree(base, begun, prompts, log, trace) && Agree(base, begun, prompts, log, trace, e, s)
    ensures AllAgree(base, begun, prompts, log + [e], trace + [s])
  {
    hide Agree;
    assert (log + [e])[..|log|] == log && (trace + [s])[..|trace|] == trace;
  }

  /** At any event of a run the copies agree as the log before it says they must. */
  lemma {:induction false} AgreeAt(base: seq<Message>, begun: Reduced, prompts: seq<Message>, log: seq<Event>, trace: seq<Snapshot>, i: nat)
    requires AllAgree(base, begun, prompts, log, trace) && i < |log|
    ensures Agree(base, begun, prompts, log[..i], trace[..i], log[i], trace[i])
  {
    hide Agree;
    var n := |log| - 1;
    if i < n {
      AgreeAt(base, begun, prompts, log[..n], trace[..n], i);
      assert log[..n][..i] == log[..i] && trace[..n][..i] == trace[..i];
    }
  }

  /** Once a run reports a failure it reports nothing else, so that a run whose last event is not
      a failure's has none before. */
  lemma {:induction false} NoFailureBefore(base: seq<Message>, begun: Reduced, prompts: seq<Message>, log: seq<Event>, trace: seq<Snapshot>, i: nat)
    requires AllAgree(base, begun, prompts, log, trace) && i < |log| && LastFailing(trace) == None
    ensures trace[i].failed == None
  {
    hide AgreeRunning, AgreeFailing, AnswerMoves;
    var n := |log| - 1;
    if i < n {
      NoFailureBefore(base, begun, prompts, log[..n], trace[..n], i);
    }
  }

  lemma SameLength(base: seq<Message>, begun: Reduced, prompts: seq<Message>, log: seq<Event>, trace: seq<Snapshot>)
    requires AllAgree(base, begun, prompts, log, trace)
    ensures |trace| == |log|
  {}

  /** No turn ends or starts between two events. */
  predicate SameTurn(log: seq<Event>, i: nat, j: nat)
    requires i <= j < |log|
  {
    forall k :: i < k < j ==> !log[k].TurnEnd? && log[k] != TurnStart && log[k] != AgentStart && !log[k].AgentEnd?
  }

  /** A turn has one answer: the message in flight is the one that the turn's end names. */
  lemma {:induction false} InFlightIsTheAnswer(base: seq<Message>, begun: Reduced, prompts: seq<Message>, log: seq<Event>, trace: seq<Snapshot>, i: nat, j: nat)
    requires AllAgree(base, begun, prompts, log, trace) && i < j < |log| && LastFailing(trace) == None
    requires SameTurn(log, i, j) && log[j].TurnEnd? && trace[i].answer.Some?
    ensures Parse(log[..j]).Turn? && trace[i].answer.value + 1 + |log[j].results| == |Parse(log[..j]).turn|
  {
    hide AgreeRunning, AgreeFailing, AllAgree, Parse;
    AgreeAt(base, begun, prompts, log, trace, j);
    NoFailureBefore(base, begun, prompts, log, trace, j);
    AnswerKept(base, begun, prompts, log, trace, i, j);
  }

  lemma {:induction false} AnswerKept(base: seq<Message>, begun: Reduced, prompts: seq<Message>, log: seq<Event>, trace: seq<Snapshot>, i: nat, j: nat)
    requires AllAgree(base, begun, prompts, log, trace) && i < j < |log| && LastFailing(trace) == None
    requires SameTurn(log, i, j) && !(log[j] == TurnStart || log[j] == AgentStart || log[j].AgentEnd?) && trace[i].answer.Some?
    ensures trace[j].answer == trace[i].answer
    decreases j
  {
    hide AgreeRunning, AgreeFailing, AllAgree, Parse;
    AgreeAt(base, begun, prompts, log, trace, j);
    NoFailureBefore(base, begun, prompts, log, trace, j);
    SameLength(base, begun, prompts, log, trace);
    if j - 1 > i {
      AnswerKept(base, begun, prompts, log, trace, i, j - 1);
    }
    assert trace[..j][j - 1] == trace[j - 1];
  }
}
