/** The buffer between a provider and its consumer. */
module EventStreams {
  import opened Prelude

  /** A future that a consumer waits on.  `Cancelled` ones stay in the list of waiters. */
  datatype Future<T> = Pending | Holds(item: T) | Ended | Cancelled

  /** Where the consumer's iteration stands: about to look, waiting on a future, or over. */
  datatype Consumer = Ready | Parked(id: nat) | Finished

  /** The stream and its consumer.  Futures are named by their position.  The last three components
      are history: what the stream accepted, what the consumer got, and what was set on a future
      whose consumer was cancelled before it resumed. */
  datatype State<T, R> = State(
    queue: seq<T>,
    waiting: seq<nat>,
    futures: seq<Future<T>>,
    done: bool,
    result: Option<R>,
    consumer: Consumer,
    accepted: seq<T>,
    delivered: seq<T>,
    lost: seq<T>)

  datatype Step<T, R> = Push(event: T) | End(value: Option<R>) | Advance | Abandon

  function Initial<T, R>(): State<T, R> {
    State([], [], [], false, None, Ready, [], [], [])
  }

  predicate Named<T>(waiting: seq<nat>, futures: seq<Future<T>>) {
    forall i :: 0 <= i < |waiting| ==> waiting[i] < |futures|
  }

  /** The first waiter whose future is not done gets the value; the ones before it are dropped. */
  function Wake<T>(waiting: seq<nat>, futures: seq<Future<T>>, value: Future<T>): (r: (seq<nat>, seq<Future<T>>, bool))
    requires Named(waiting, futures)
    ensures |r.1| == |futures| && Named(r.0, futures)
  {
    if waiting == [] then ([], futures, false)
    else if futures[waiting[0]].Pending? then (waiting[1..], futures[waiting[0] := value], true)
    else Wake(waiting[1..], futures, value)
  }

  function EndAll<T>(waiting: seq<nat>, futures: seq<Future<T>>): (r: seq<Future<T>>)
    requires Named(waiting, futures)
    ensures |r| == |futures|
  {
    if waiting == [] then futures
    else EndAll(waiting[1..], if futures[waiting[0]].Pending? then futures[waiting[0] := Ended] else futures)
  }

  predicate Wellformed<T, R>(s: State<T, R>) {
    && Named(s.waiting, s.futures)
    && (s.consumer.Parked? ==> s.consumer.id < |s.futures|)
  }

  /** One step of the producer or of the consumer, each without a suspension inside. */
  function Next<T, R>(isComplete: T -> bool, extract: T -> R, s: State<T, R>, step: Step<T, R>): (r: State<T, R>)
    requires Wellformed(s)
  {
    match step
    case Push(e) =>
      if s.done then s
      else
        var (waiting, futures, woken) := Wake(s.waiting, s.futures, Holds(e));
        s.(done := isComplete(e),
           result := if isComplete(e) then Some(extract(e)) else s.result,
           waiting := waiting, futures := futures,
           queue := if woken then s.queue else s.queue + [e],
           accepted := s.accepted + [e])
    case End(value) =>
      s.(done := true,
         result := if value.Some? && s.result.None? then value else s.result,
         waiting := [], futures := EndAll(s.waiting, s.futures))
    case Advance =>
      (match s.consumer
       case Finished => s
       case Ready =>
         if s.queue != [] then s.(queue := s.queue[1..], delivered := s.delivered + [s.queue[0]])
         else if s.done then s.(consumer := Finished)
         else s.(futures := s.futures + [Pending], waiting := s.waiting + [|s.futures|], consumer := Parked(|s.futures|))
       case Parked(id) =>
         match s.futures[id]
         case Holds(e) => s.(consumer := Ready, delivered := s.delivered + [e])
         case Ended => s.(consumer := Finished)
         case _ => s)
    case Abandon =>
      if !s.consumer.Parked? then s
      else
        var f := s.futures[s.consumer.id];
        s.(consumer := Ready,
           futures := if f.Pending? then s.futures[s.consumer.id := Cancelled] else s.futures,
           lost := if f.Holds? then s.lost + [f.item] else s.lost)
  }

  // ----- the stream itself, with the state it changes -----

  class EventStream<T(==), R> {
    const isComplete: T -> bool
    const extract: T -> R
    var queue: seq<T>
    var waiting: seq<nat>
    var futures: seq<Future<T>>
    var done: bool
    var result: Option<R>
    var consumer: Consumer
    ghost var accepted: seq<T>
    ghost var delivered: seq<T>
    ghost var lost: seq<T>

    ghost function View(): State<T, R>
      reads this
    {
      State(queue, waiting, futures, done, result, consumer, accepted, delivered, lost)
    }

    ghost predicate Valid()
      reads this
    {
      Wellformed(View())
    }

    constructor (isComplete: T -> bool, extract: T -> R)
      ensures Valid() && View() == Initial() && this.isComplete == isComplete && this.extract == extract
    {
      this.isComplete, this.extract := isComplete, extract;
      queue, waiting, futures, done, result, consumer := [], [], [], false, None, Ready;
      accepted, delivered, lost := [], [], [];
    }

    method Push(event: T)
      requires Valid()
      modifies this
      ensures Valid() && View() == Next(isComplete, extract, old(View()), Step.Push(event))
    {
      if done {
        return;
      }
      if isComplete(event) {
        done := true;
        result := Some(extract(event));
      }
      accepted := accepted + [event];
      ghost var expected := Wake(waiting, futures, Holds(event));
      while waiting != []
        invariant Valid() && Wake(waiting, futures, Holds(event)) == expected
        invariant futures == old(futures) && queue == old(queue) && consumer == old(consumer)
        invariant delivered == old(delivered) && lost == old(lost) && accepted == old(accepted) + [event]
        invariant done == isComplete(event) && result == if isComplete(event) then Some(extract(event)) else old(result)
        decreases |waiting|
      {
        var waiter := waiting[0];
        waiting := waiting[1..];
        if futures[waiter].Pending? {
          futures := futures[waiter := Holds(event)];
          return;
        }
      }
      queue := queue + [event];
    }

    method End(value: Option<R>)
      requires Valid()
      modifies this
      ensures Valid() && View() == Next(isComplete, extract, old(View()), Step.End(value))
    {
      done := true;
      if value.Some? && result.None? {
        result := value;
      }
      ghost var expected := EndAll(waiting, futures);
      while waiting != []
        invariant Valid() && EndAll(waiting, futures) == expected
        invariant queue == old(queue) && consumer == old(consumer) && done
        invariant delivered == old(delivered) && lost == old(lost) && accepted == old(accepted)
        invariant result == if value.Some? && old(result).None? then value else old(result)
        decreases |waiting|
      {
        var waiter := waiting[0];
        waiting := waiting[1..];
        if futures[waiter].Pending? {
          futures := futures[waiter := Ended];
        }
      }
    }

    /** The consumer's iteration up to its next item or suspension. */
    method Advance() returns (item: Option<T>)
      requires Valid()
      modifies this
      ensures Valid() && View() == Next(isComplete, extract, old(View()), Step.Advance)
      ensures delivered == old(delivered) + if item.Some? then [item.value] else []
    {
      item := None;
      if consumer.Ready? {
        if queue != [] {
          item := Some(queue[0]);
          queue := queue[1..];
        } else if done {
          consumer := Finished;
        } else {
          consumer := Parked(|futures|);
          waiting := waiting + [|futures|];
          futures := futures + [Pending];
        }
      } else if consumer.Parked? {
        var state := futures[consumer.id];
        if state.Holds? {
          item := Some(state.item);
          consumer := Ready;
        } else if state.Ended? {
          consumer := Finished;
        }
      }
      delivered := delivered + if item.Some? then [item.value] else [];
    }

    /** The consumer is cancelled while it waits; it may iterate again later. */
    method Abandon()
      requires Valid()
      modifies this
      ensures Valid() && View() == Next(isComplete, extract, old(View()), Step.Abandon)
    {
      if consumer.Parked? {
        var state := futures[consumer.id];
        if state.Pending? {
          futures := futures[consumer.id := Cancelled];
        } else if state.Holds? {
          lost := lost + [state.item];
        }
        consumer := Ready;
      }
    }
  }

  // ----- what every interleaving keeps -----

  function InFlight<T, R>(s: State<T, R>): seq<T> {
    if s.consumer.Parked? && s.consumer.id < |s.futures| && s.futures[s.consumer.id].Holds?
    then [s.futures[s.consumer.id].item] else []
  }

  predicate TerminalOnlyLast<T>(isTerminal: T -> bool, events: seq<T>) {
    forall i :: 0 <= i < |events| - 1 ==> !isTerminal(events[i])
  }

  /** The consumer is waiting, and nothing has woken it. */
  predicate Waits<T, R>(s: State<T, R>) {
    s.consumer.Parked? && s.consumer.id < |s.futures| && s.futures[s.consumer.id].Pending?
  }

  ghost predicate Inv<T(!new), R>(isComplete: T -> bool, extract: T -> R, s: State<T, R>) {
    && Wellformed(s)
    // only the waiting consumer's future is open, and a push will find it
    && (forall id :: 0 <= id < |s.futures| && s.futures[id].Pending? ==> s.consumer == Parked(id) && id in s.waiting)
    && (s.consumer.Parked? ==> !s.futures[s.consumer.id].Cancelled?)
    // nobody waits next to an event, or after the end
    && (Waits(s) ==> s.queue == [] && !s.done)
    && (s.consumer.Parked? && s.futures[s.consumer.id].Ended? ==> s.queue == [] && s.done)
    && (s.consumer.Finished? ==> s.queue == [] && s.done)
    // conservation
    && |s.delivered| + |InFlight(s)| + |s.queue| + |s.lost| == |s.accepted|
    && (s.lost == [] ==> s.delivered + InFlight(s) + s.queue == s.accepted)
    // terminal events and the result
    && TerminalOnlyLast(isComplete, s.accepted)
    && (s.accepted != [] && isComplete(s.accepted[|s.accepted| - 1]) ==>
          s.done && s.result == Some(extract(s.accepted[|s.accepted| - 1])))
    && (s.result.Some? ==> s.done)
  }

  lemma {:induction false} WakeFinds<T>(waiting: seq<nat>, futures: seq<Future<T>>, value: Future<T>, id: nat)
    requires Named(waiting, futures)
    requires id < |futures| && futures[id].Pending? && id in waiting
    requires forall j :: 0 <= j < |futures| && futures[j].Pending? ==> j == id
    ensures var r := Wake(waiting, futures, value); r.1 == futures[id := value] && r.2
  {
    if waiting[0] != id { WakeFinds(waiting[1..], futures, value, id); }
  }

  lemma {:induction false} WakeNobody<T>(waiting: seq<nat>, futures: seq<Future<T>>, value: Future<T>)
    requires Named(waiting, futures) && forall j :: 0 <= j < |futures| ==> !futures[j].Pending?
    ensures Wake(waiting, futures, value) == ([], futures, false)
  {
    if waiting != [] { WakeNobody(waiting[1..], futures, value); }
  }

  lemma {:induction false} EndAllEnds<T>(waiting: seq<nat>, futures: seq<Future<T>>)
    requires Named(waiting, futures)
    requires forall j :: 0 <= j < |futures| && futures[j].Pending? ==> j in waiting
    ensures var r := EndAll(waiting, futures);
            forall j :: 0 <= j < |futures| ==> r[j] == if futures[j].Pending? then Ended else futures[j]
  {
    if waiting != [] {
      EndAllEnds(waiting[1..], if futures[waiting[0]].Pending? then futures[waiting[0] := Ended] else futures);
    }
  }

  lemma PushKeeps<T(!new), R>(isComplete: T -> bool, extract: T -> R, s: State<T, R>, e: T)
    requires Inv(isComplete, extract, s) && !s.done
    ensures Inv(isComplete, extract, Next(isComplete, extract, s, Push(e)))
    ensures !Waits(Next(isComplete, extract, s, Push(e)))
  {
    if Waits(s) {
      WakeFinds(s.waiting, s.futures, Holds(e), s.consumer.id);
    } else {
      assert forall j :: 0 <= j < |s.futures| ==> !s.futures[j].Pending?;
      WakeNobody(s.waiting, s.futures, Holds(e));
    }
    var r := Next(isComplete, extract, s, Push(e));
    assert r.accepted[..|s.accepted|] == s.accepted;
    forall i | 0 <= i < |r.accepted| - 1 ensures !isComplete(r.accepted[i]) {
      assert r.accepted[i] == s.accepted[i];
    }
    assert s.lost == [] ==> r.delivered + InFlight(r) + r.queue == r.accepted;
  }

  lemma EndKeeps<T(!new), R>(isComplete: T -> bool, extract: T -> R, s: State<T, R>, value: Option<R>)
    requires Inv(isComplete, extract, s)
    ensures Inv(isComplete, extract, Next(isComplete, extract, s, End(value)))
    ensures !Waits(Next(isComplete, extract, s, End(value)))
  {
    EndAllEnds(s.waiting, s.futures);
  }

  lemma LookKeeps<T(!new), R>(isComplete: T -> bool, extract: T -> R, s: State<T, R>)
    requires Inv(isComplete, extract, s) && s.consumer.Ready?
    ensures Inv(isComplete, extract, Next(isComplete, extract, s, Advance))
  {
    hide Wake, EndAll;
    var r := Next(isComplete, extract, s, Advance);
    if s.queue == [] && !s.done {
      assert r.waiting[|s.waiting|] == |s.futures|;
      assert forall id :: 0 <= id < |s.futures| ==> !s.futures[id].Pending?;
    } else if s.queue != [] {
      assert s.delivered + [s.queue[0]] + s.queue[1..] == s.delivered + s.queue;
    }
    assert s.lost == [] ==> r.delivered + InFlight(r) + r.queue == s.delivered + InFlight(s) + s.queue;
  }

  lemma ResumeKeeps<T(!new), R>(isComplete: T -> bool, extract: T -> R, s: State<T, R>)
    requires Inv(isComplete, extract, s) && s.consumer.Parked?
    ensures Inv(isComplete, extract, Next(isComplete, extract, s, Advance))
  {
    hide Wake, EndAll;
    var r := Next(isComplete, extract, s, Advance);
    assert s.lost == [] ==> r.delivered + InFlight(r) + r.queue == s.delivered + InFlight(s) + s.queue;
  }

  lemma AbandonKeeps<T(!new), R>(isComplete: T -> bool, extract: T -> R, s: State<T, R>)
    requires Inv(isComplete, extract, s)
    ensures Inv(isComplete, extract, Next(isComplete, extract, s, Abandon))
  {
    hide Wake, EndAll;
    var r := Next(isComplete, extract, s, Abandon);
    assert r.lost == [] ==> r.delivered + InFlight(r) + r.queue == s.delivered + InFlight(s) + s.queue;
  }

  lemma ConsumerKeeps<T(!new), R>(isComplete: T -> bool, extract: T -> R, s: State<T, R>, step: Step<T, R>)
    requires Inv(isComplete, extract, s) && (step.Advance? || step.Abandon?)
    ensures Inv(isComplete, extract, Next(isComplete, extract, s, step))
  {
    hide Inv;
    if step.Abandon? {
      AbandonKeeps(isComplete, extract, s);
    } else if s.consumer.Ready? {
      LookKeeps(isComplete, extract, s);
    } else if s.consumer.Parked? {
      ResumeKeeps(isComplete, extract, s);
    }
  }

  /** The state after any interleaving of steps. */
  ghost function Run<T(!new), R>(isComplete: T -> bool, extract: T -> R, steps: seq<Step<T, R>>): (s: State<T, R>)
    ensures Inv(isComplete, extract, s)
  {
    if steps == [] then Initial()
    else
      var before := Run(isComplete, extract, steps[..|steps| - 1]);
      StepKeeps(isComplete, extract, before, steps[|steps| - 1]);
      Next(isComplete, extract, before, steps[|steps| - 1])
  }

  lemma StepKeeps<T(!new), R>(isComplete: T -> bool, extract: T -> R, s: State<T, R>, step: Step<T, R>)
    requires Inv(isComplete, extract, s)
    ensures Inv(isComplete, extract, Next(isComplete, extract, s, step))
  {
    match step
    case Push(e) => if !s.done { PushKeeps(isComplete, extract, s, e); }
    case End(value) => EndKeeps(isComplete, extract, s, value);
    case Advance => ConsumerKeeps(isComplete, extract, s, step);
    case Abandon => ConsumerKeeps(isComplete, extract, s, step);
  }

  // ----- safety over all interleavings -----

  /** Somewhere the consumer is cancelled when it has been woken and has not resumed. */
  ghost predicate LateAbandon<T(!new), R>(isComplete: T -> bool, extract: T -> R, steps: seq<Step<T, R>>) {
    steps != [] &&
    var front := steps[..|steps| - 1];
    LateAbandon(isComplete, extract, front) || (steps[|steps| - 1].Abandon? && InFlight(Run(isComplete, extract, front)) != [])
  }

  lemma StepLoses<T(!new), R>(isComplete: T -> bool, extract: T -> R, s: State<T, R>, step: Step<T, R>)
    requires Wellformed(s)
    ensures Next(isComplete, extract, s, step).lost == s.lost + if step.Abandon? then InFlight(s) else []
  {
    hide Wake, EndAll;
    assert s.lost + [] == s.lost;
  }

  lemma {:induction false} LostByLateAbandon<T(!new), R>(isComplete: T -> bool, extract: T -> R, steps: seq<Step<T, R>>)
    ensures Run(isComplete, extract, steps).lost != [] <==> LateAbandon(isComplete, extract, steps)
  {
    hide Next, Inv, Wellformed;
    if steps != [] {
      var front := steps[..|steps| - 1];
      LostByLateAbandon(isComplete, extract, front);
      InvIsWellformed(isComplete, extract, Run(isComplete, extract, front));
      StepLoses(isComplete, extract, Run(isComplete, extract, front), steps[|steps| - 1]);
    }
  }

  /** What the consumer got, what is on its way to it and what is queued are the accepted events in
      order, exactly when no consumer is cancelled between being woken and resuming. */
  lemma Conservation<T(!new), R>(isComplete: T -> bool, extract: T -> R, steps: seq<Step<T, R>>)
    ensures var s := Run(isComplete, extract, steps);
            s.delivered + InFlight(s) + s.queue == s.accepted <==> !LateAbandon(isComplete, extract, steps)
  {
    hide LateAbandon, Next;
    var s := Run(isComplete, extract, steps);
    LostByLateAbandon(isComplete, extract, steps);
    if s.lost != [] { assert |s.delivered + InFlight(s) + s.queue| < |s.accepted|; }
  }

  /** A consumer cancelled after it was woken and before it resumed loses its event. */
  lemma LateCancellationLoses<T(!new), R>(isComplete: T -> bool, extract: T -> R, e: T)
    ensures var s := Run(isComplete, extract, [Advance, Push(e), Abandon]);
            s.accepted == [e] && s.lost == [e] && s.delivered == [] && InFlight(s) == [] && s.queue == []
  {
    var steps: seq<Step<T, R>> := [Advance, Push(e), Abandon];
    assert steps[..2] == [Advance, Push(e)] && steps[..2][..1] == [Advance] && steps[..2][..1][..0] == [];
    var parked := Run<T, R>(isComplete, extract, [Advance]);
    assert parked == Next(isComplete, extract, Initial(), Advance);
    assert parked.futures == [Pending] && parked.waiting == [0];
    WakeFinds(parked.waiting, parked.futures, Holds(e), 0);
    var woken := Run(isComplete, extract, steps[..2]);
    assert woken.futures == [Holds(e)];
  }

  /** The events accepted by a stream that nobody ends are the pushes up to the first terminal one. */
  function UpToTerminal<T>(isTerminal: T -> bool, pushes: seq<T>): seq<T> {
    if pushes == [] then []
    else if isTerminal(pushes[0]) then [pushes[0]]
    else [pushes[0]] + UpToTerminal(isTerminal, pushes[1..])
  }

  lemma {:induction false} AcceptedEndAtTerminal<T>(isTerminal: T -> bool, pushes: seq<T>)
    ensures TerminalOnlyLast(isTerminal, UpToTerminal(isTerminal, pushes))
  {
    if pushes != [] && !isTerminal(pushes[0]) {
      AcceptedEndAtTerminal(isTerminal, pushes[1..]);
    }
  }

  /** The pushes made before the stream is ended. */
  function PushesBeforeEnd<T, R>(steps: seq<Step<T, R>>): seq<T> {
    if steps == [] || steps[0].End? then []
    else (if steps[0].Push? then [steps[0].event] else []) + PushesBeforeEnd(steps[1..])
  }

  predicate HasTerminal<T>(isTerminal: T -> bool, pushes: seq<T>) {
    exists i :: 0 <= i < |pushes| && isTerminal(pushes[i])
  }

  lemma HasTerminalCons<T>(isTerminal: T -> bool, pushes: seq<T>)
    requires pushes != []
    ensures HasTerminal(isTerminal, pushes) <==> isTerminal(pushes[0]) || HasTerminal(isTerminal, pushes[1..])
  {
    forall i | 0 < i < |pushes| ensures pushes[i] == pushes[1..][i - 1] {}
    if HasTerminal(isTerminal, pushes[1..]) {
      var i :| 0 <= i < |pushes[1..]| && isTerminal(pushes[1..][i]);
      assert isTerminal(pushes[i + 1]);
    }
  }

  lemma {:induction false} UpToTerminalSnoc<T>(isTerminal: T -> bool, pushes: seq<T>, e: T)
    ensures UpToTerminal(isTerminal, pushes + [e])
         == if HasTerminal(isTerminal, pushes) then UpToTerminal(isTerminal, pushes)
            else UpToTerminal(isTerminal, pushes) + [e]
  {
    if pushes == [] {
      assert [] + [e] == [e] && [e][1..] == [];
    } else {
      assert (pushes + [e])[1..] == pushes[1..] + [e];
      HasTerminalCons(isTerminal, pushes);
      UpToTerminalSnoc(isTerminal, pushes[1..], e);
    }
  }

  predicate HasEnd<T, R>(steps: seq<Step<T, R>>) {
    exists i :: 0 <= i < |steps| && steps[i].End?
  }

  lemma HasEndCons<T, R>(steps: seq<Step<T, R>>)
    requires steps != []
    ensures HasEnd(steps) <==> steps[0].End? || HasEnd(steps[1..])
  {
    forall i | 0 < i < |steps| ensures steps[i] == steps[1..][i - 1] {}
    if HasEnd(steps[1..]) {
      var i :| 0 <= i < |steps[1..]| && steps[1..][i].End?;
      assert steps[i + 1].End?;
    }
  }

  lemma {:induction false} PushesSnoc<T, R>(steps: seq<Step<T, R>>, step: Step<T, R>)
    ensures PushesBeforeEnd(steps + [step])
         == PushesBeforeEnd(steps) + if step.Push? && !HasEnd(steps) then [step.event] else []
  {
    if steps != [] {
      assert (steps + [step])[1..] == steps[1..] + [step];
      HasEndCons(steps);
      PushesSnoc(steps[1..], step);
    } else {
      assert [step][1..] == [] && [] + [step] == [step];
    }
  }

  lemma StepAccepts<T(!new), R>(isComplete: T -> bool, extract: T -> R, s: State<T, R>, step: Step<T, R>)
    requires Wellformed(s)
    ensures var r := Next(isComplete, extract, s, step);
            && r.accepted == s.accepted + (if step.Push? && !s.done then [step.event] else [])
            && (r.done <==> s.done || step.End? || (step.Push? && isComplete(step.event)))
            && (s.done && s.result.Some? ==> r.result == s.result)
  {
    hide Wake, EndAll;
  }

  /** Nothing is accepted but the pushes made before the stream ends, up to the first terminal one;
      and the stream is done exactly when one of the two has happened. */
  lemma {:induction false} AcceptedExactly<T(!new), R>(isComplete: T -> bool, extract: T -> R, steps: seq<Step<T, R>>)
    ensures var s := Run(isComplete, extract, steps); var pushes := PushesBeforeEnd(steps);
            && s.accepted == UpToTerminal(isComplete, pushes)
            && (s.done <==> HasEnd(steps) || HasTerminal(isComplete, pushes))
  {
    hide Inv, Next, Wellformed, HasEnd, HasTerminal;
    if steps == [] {
      NothingYet<T, R>(isComplete);
    } else {
      var before, step := steps[..|steps| - 1], steps[|steps| - 1];
      assert steps == before + [step];
      AcceptedExactly(isComplete, extract, before);
      InvIsWellformed(isComplete, extract, Run(isComplete, extract, before));
      StepAccepts(isComplete, extract, Run(isComplete, extract, before), step);
      PushesSnoc(before, step);
      HasEndSnoc(before, step);
      var s, pushes := Run(isComplete, extract, before), PushesBeforeEnd(before);
      assert pushes + [] == pushes && s.accepted + [] == s.accepted;
      if step.Push? {
        UpToTerminalSnoc(isComplete, PushesBeforeEnd(before), step.event);
        HasTerminalSnoc(isComplete, PushesBeforeEnd(before), step.event);
      }
    }
  }

  lemma NothingYet<T, R>(isComplete: T -> bool)
    ensures !HasEnd<T, R>([]) && !HasTerminal(isComplete, [])
  {
  }

  lemma InvIsWellformed<T(!new), R>(isComplete: T -> bool, extract: T -> R, s: State<T, R>)
    requires Inv(isComplete, extract, s)
    ensures Wellformed(s) && (s.done ==> !Waits(s))
  {
  }

  lemma HasEndSnoc<T, R>(steps: seq<Step<T, R>>, step: Step<T, R>)
    ensures HasEnd(steps + [step]) <==> HasEnd(steps) || step.End?
  {
    if HasEnd(steps) {
      var i :| 0 <= i < |steps| && steps[i].End?;
      assert (steps + [step])[i].End?;
    }
    assert (steps + [step])[|steps|] == step;
  }

  lemma HasTerminalSnoc<T>(isTerminal: T -> bool, pushes: seq<T>, e: T)
    ensures HasTerminal(isTerminal, pushes + [e]) <==> HasTerminal(isTerminal, pushes) || isTerminal(e)
  {
    if HasTerminal(isTerminal, pushes) {
      var i :| 0 <= i < |pushes| && isTerminal(pushes[i]);
      assert isTerminal((pushes + [e])[i]);
    }
    assert (pushes + [e])[|pushes|] == e;
  }

  /** Once done, a stream accepts nothing and nobody comes to wait; a result once set stays. */
  lemma {:induction false} DoneIsFinal<T(!new), R>(isComplete: T -> bool, extract: T -> R, steps: seq<Step<T, R>>, more: seq<Step<T, R>>)
    requires Run(isComplete, extract, steps).done
    ensures var s, r := Run(isComplete, extract, steps), Run(isComplete, extract, steps + more);
            && r.done && r.accepted == s.accepted && !Waits(r)
            && (s.result.Some? ==> r.result == s.result)
  {
    hide Inv, Next, Wellformed, Waits;
    InvIsWellformed(isComplete, extract, Run(isComplete, extract, steps + more));
    if more == [] {
      assert steps + more == steps;
    } else {
      var all, before := steps + more, steps + more[..|more| - 1];
      assert all[..|all| - 1] == before;
      DoneIsFinal(isComplete, extract, steps, more[..|more| - 1]);
      InvIsWellformed(isComplete, extract, Run(isComplete, extract, before));
      StepAccepts(isComplete, extract, Run(isComplete, extract, before), more[|more| - 1]);
      assert all[|all| - 1] == more[|more| - 1];
    }
  }

  function AdvanceTimes<T, R>(isComplete: T -> bool, extract: T -> R, s: State<T, R>, k: nat): State<T, R>
    requires Wellformed(s)
    ensures Wellformed(AdvanceTimes(isComplete, extract, s, k))
    decreases k
  {
    if k == 0 then s else AdvanceTimes(isComplete, extract, Next(isComplete, extract, s, Advance), k - 1)
  }

  /** A done stream still yields everything it holds, terminal event included, and then ends. */
  lemma {:induction false} DoneDrains<T(!new), R>(isComplete: T -> bool, extract: T -> R, s: State<T, R>)
    requires Inv(isComplete, extract, s) && s.done
    ensures var r := AdvanceTimes(isComplete, extract, s, |s.queue| + |InFlight(s)| + 1);
            r.consumer == Finished && r.queue == [] && r.delivered == s.delivered + InFlight(s) + s.queue
    decreases |s.queue| + |InFlight(s)|
  {
    ConsumerKeeps(isComplete, extract, s, Advance);
    var next := Next(isComplete, extract, s, Advance);
    if InFlight(s) != [] || (s.consumer.Ready? && s.queue != []) {
      DoneDrains(isComplete, extract, next);
      assert next.delivered + InFlight(next) + next.queue == s.delivered + InFlight(s) + s.queue;
    } else {
      assert next.consumer == Finished && s.queue == [];
      assert AdvanceTimes(isComplete, extract, next, 0) == next;
    }
  }

  /** A consumer that has finished got every accepted event exactly when nobody abandoned the stream
      late. */
  lemma FinishedGotAll<T(!new), R>(isComplete: T -> bool, extract: T -> R, steps: seq<Step<T, R>>)
    requires Run(isComplete, extract, steps).consumer == Finished
    ensures var s := Run(isComplete, extract, steps); s.delivered == s.accepted <==> !LateAbandon(isComplete, extract, steps)
  {
    hide LateAbandon, Next;
    var s := Run(isComplete, extract, steps);
    Conservation(isComplete, extract, steps);
    assert s.delivered + InFlight(s) + s.queue == s.delivered;
  }
}
