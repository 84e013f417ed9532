/** Stored credentials, refreshed at most once at a time for each provider. */
module AuthRefresh {
  import opened Prelude

  type Provider = string

  datatype Kind = ApiKey | OAuth

  datatype Credential = Credential(provider: Provider, kind: Kind, secret: string, refreshToken: Option<string>, expiresAt: Option<real>)

  /** The instant against which an expiry is held: the clock and a margin that is never negative. */
  function Deadline(now: real, skew: real): real {
    now + if skew > 0.0 then skew else 0.0
  }

  /** `is_expired`. */
  predicate Expired(credential: Credential, deadline: real) {
    credential.expiresAt.Some? && credential.expiresAt.value <= deadline
  }

  /** A credential that can be used as it is: none, or one that never expires, or neither by now nor within the
      margin. */
  ghost predicate Usable(found: Option<Credential>, now: real, skew: real) {
    found.None? || found.value.expiresAt.None? || (found.value.expiresAt.value > now && found.value.expiresAt.value > now + skew)
  }

  /** A look at the clock, with its margin, falls into a stretch of time. */
  ghost predicate Between(first: real, now: real, skew: real, last: real) {
    (first <= now || first <= now + skew) && now <= last && now + skew <= last
  }

  predicate Refreshable(credential: Credential) {
    credential.kind == OAuth && credential.refreshToken.Some?
  }

  /** One call of `resolve` in progress. */
  datatype Resolver = Resolver(provider: Provider, number: nat)

  datatype Outcome = Returned(credential: Option<Credential>) | Failed

  /** Where a resolver stands.  `Orphan` is a write that goes on in its thread after its resolver
      has been cancelled. */
  datatype Stage =
    | Starting(canRefresh: bool)
    | Waiting
    | Locked
    | Refreshing(given: Credential)
    | Storing(refreshed: Credential)
    | Orphan(refreshed: Credential)
    | Done(outcome: Outcome)

  datatype Call = Call(resolver: Resolver, given: Credential)

  /** `locks` is who holds the refresh lock of each provider that has one, `calls` the history of
      refresh callbacks. */
  datatype State = State(
    store: map<Provider, Credential>,
    locks: map<Provider, Option<Resolver>>,
    stages: map<Resolver, Stage>,
    calls: seq<Call>)

  datatype Step =
    | Begin(resolver: Resolver, canRefresh: bool)
    | Read(resolver: Resolver, now: real, skew: real)
    | Acquire(resolver: Resolver)
    | Reread(resolver: Resolver, now: real, skew: real)
    | Answer(resolver: Resolver, reply: Reply<Credential>)
    | Write(resolver: Resolver)
    | Cancel(resolver: Resolver)
    | Land(resolver: Resolver)
    | Set(credential: Credential)
    | Remove(provider: Provider)

  function Get(store: map<Provider, Credential>, provider: Provider): Option<Credential> {
    if provider in store then Some(store[provider]) else None
  }

  function At(s: State, resolver: Resolver): Option<Stage> {
    if resolver in s.stages then Some(s.stages[resolver]) else None
  }

  function Goto(s: State, resolver: Resolver, stage: Stage): State {
    s.(stages := s.stages[resolver := stage])
  }

  /** Leaves the refresh lock. */
  function Release(s: State, resolver: Resolver, stage: Stage): State {
    Goto(s, resolver, stage).(locks := s.locks[resolver.provider := None])
  }

  function LockOf(s: State, provider: Provider): Option<Resolver> {
    if provider in s.locks then s.locks[provider] else None
  }

  predicate InLock(stage: Stage) {
    stage.Locked? || stage.Refreshing? || stage.Storing?
  }

  /** One step between two suspensions; a step that does not apply where its resolver stands
      changes nothing. */
  function Next(s: State, step: Step): State {
    match step
    case Set(credential) => s.(store := s.store[credential.provider := credential])
    case Remove(provider) => s.(store := s.store - {provider})
    case Begin(r, canRefresh) => if r in s.stages then s else Goto(s, r, Starting(canRefresh))
    case _ =>
      var r := step.resolver;
      match At(s, r)
      case None => s
      case Some(stage) => Proceed(s, r, stage, step)
  }

  function Proceed(s: State, r: Resolver, stage: Stage, step: Step): State
    requires !step.Set? && !step.Remove? && !step.Begin?
  {
    match (step, stage)
    case (Read(_, now, skew), Starting(canRefresh)) =>
      var found := Get(s.store, r.provider);
      if found.None? || !Expired(found.value, Deadline(now, skew)) || !Refreshable(found.value) || !canRefresh
      then Goto(s, r, Done(Returned(found)))
      else Goto(s, r, Waiting).(locks := s.locks[r.provider := LockOf(s, r.provider)])
    case (Acquire(_), Waiting) =>
      if LockOf(s, r.provider).Some? then s
      else Goto(s, r, Locked).(locks := s.locks[r.provider := Some(r)])
    case (Reread(_, now, skew), Locked) =>
      var latest := Get(s.store, r.provider);
      if latest.None? || !Expired(latest.value, Deadline(now, skew)) then Release(s, r, Done(Returned(latest)))
      else Goto(s, r, Refreshing(latest.value)).(calls := s.calls + [Call(r, latest.value)])
    case (Answer(_, reply), Refreshing(_)) =>
      if reply.Raised? || reply.value.provider != r.provider then Release(s, r, Done(Failed))
      else Goto(s, r, Storing(reply.value))
    case (Write(_), Storing(refreshed)) =>
      Release(s, r, Done(Returned(Some(refreshed)))).(store := s.store[refreshed.provider := refreshed])
    case (Cancel(_), Starting(_)) => Goto(s, r, Done(Failed))
    case (Cancel(_), Waiting) => Goto(s, r, Done(Failed))
    case (Cancel(_), Locked) => Release(s, r, Done(Failed))
    case (Cancel(_), Refreshing(_)) => Release(s, r, Done(Failed))
    case (Cancel(_), Storing(refreshed)) => Release(s, r, Orphan(refreshed))
    case (Land(_), Orphan(refreshed)) =>
      Goto(s, r, Done(Failed)).(store := s.store[refreshed.provider := refreshed])
    case _ => s
  }

  function Run(s: State, steps: seq<Step>): State {
    if steps == [] then s else Next(Run(s, steps[..|steps| - 1]), steps[|steps| - 1])
  }

  // ----- one refresh at a time -----

  /** Between its lock's `async with` and its end, a resolver and nobody else holds the lock. */
  ghost predicate Exclusive(stages: map<Resolver, Stage>, locks: map<Provider, Option<Resolver>>) {
    && (forall r :: r in stages && InLock(stages[r]) ==> r.provider in locks && locks[r.provider] == Some(r))
    && (forall p :: p in locks && locks[p].Some? ==>
          locks[p].value.provider == p && locks[p].value in stages && InLock(stages[locks[p].value]))
  }

  /** A credential about to be written is one of the resolver's provider. */
  ghost predicate OwnProvider(stages: map<Resolver, Stage>) {
    forall r :: r in stages && (stages[r].Storing? || stages[r].Orphan?) ==> stages[r].refreshed.provider == r.provider
  }

  ghost predicate Sound(s: State) {
    Exclusive(s.stages, s.locks) && OwnProvider(s.stages)
  }

  lemma OwnMoves(stages: map<Resolver, Stage>, r: Resolver, stage: Stage)
    requires OwnProvider(stages) && (stage.Storing? || stage.Orphan? ==> stage.refreshed.provider == r.provider)
    ensures OwnProvider(stages[r := stage])
  {}

  lemma OwnOrphan(stages: map<Resolver, Stage>, r: Resolver)
    requires OwnProvider(stages) && r in stages && (stages[r].Storing? || stages[r].Orphan?)
    ensures stages[r].refreshed.provider == r.provider
  {}

  predicate Inside(stages: map<Resolver, Stage>, r: Resolver) {
    r in stages && InLock(stages[r])
  }

  /** A move that neither enters nor leaves the lock; the provider may get its lock by it. */
  lemma MoveKeeps(stages: map<Resolver, Stage>, locks: map<Provider, Option<Resolver>>, r: Resolver, stage: Stage)
    requires Exclusive(stages, locks) && (InLock(stage) <==> Inside(stages, r))
    ensures Exclusive(stages[r := stage], locks)
    ensures r.provider !in locks ==> Exclusive(stages[r := stage], locks[r.provider := None])
  {}

  lemma EnterKeeps(stages: map<Resolver, Stage>, locks: map<Provider, Option<Resolver>>, r: Resolver, stage: Stage)
    requires Exclusive(stages, locks) && InLock(stage) && (r.provider in locks ==> locks[r.provider] == None)
    ensures Exclusive(stages[r := stage], locks[r.provider := Some(r)])
  {}

  lemma LeaveKeeps(stages: map<Resolver, Stage>, locks: map<Provider, Option<Resolver>>, r: Resolver, stage: Stage)
    requires Exclusive(stages, locks) && Inside(stages, r) && !InLock(stage)
    ensures Exclusive(stages[r := stage], locks[r.provider := None])
  {}

  lemma ProceedKeeps(s: State, r: Resolver, stage: Stage, step: Step)
    requires !step.Set? && !step.Remove? && !step.Begin? && At(s, r) == Some(stage)
    requires Sound(s)
    ensures Sound(Proceed(s, r, stage, step))
  {
    hide Exclusive, OwnProvider, Expired, Deadline;
    var z := Proceed(s, r, stage, step);
    if r in z.stages {
      if stage.Storing? || stage.Orphan? {
        OwnOrphan(s.stages, r);
      }
      OwnMoves(s.stages, r, z.stages[r]);
      if InLock(stage) == InLock(z.stages[r]) {
        MoveKeeps(s.stages, s.locks, r, z.stages[r]);
        assert s.stages == s.stages[r := stage];
        assert r.provider in s.locks ==> s.locks[r.provider := LockOf(s, r.provider)] == s.locks;
      } else if InLock(stage) {
        LeaveKeeps(s.stages, s.locks, r, z.stages[r]);
      } else {
        EnterKeeps(s.stages, s.locks, r, z.stages[r]);
      }
    }
  }

  lemma SoundStep(s: State, step: Step)
    requires Sound(s)
    ensures Sound(Next(s, step))
  {
    hide Exclusive, OwnProvider, Proceed;
    match step
    case Set(_) =>
    case Remove(_) =>
    case Begin(r, canRefresh) =>
      if r !in s.stages {
        MoveKeeps(s.stages, s.locks, r, Starting(canRefresh));
        OwnMoves(s.stages, r, Starting(canRefresh));
      }
    case _ =>
      if step.resolver in s.stages {
        ProceedKeeps(s, step.resolver, s.stages[step.resolver], step);
      }
  }

  lemma {:induction false} SoundRun(s: State, steps: seq<Step>)
    requires Sound(s)
    ensures Sound(Run(s, steps))
  {
    if steps != [] {
      SoundRun(s, steps[..|steps| - 1]);
      SoundStep(Run(s, steps[..|steps| - 1]), steps[|steps| - 1]);
    }
  }

  /** Whatever the clocks, callbacks, cancellations and other writers do, no two refresh callbacks
      of one provider are active at once. */
  lemma SingleFlight(steps: seq<Step>, a: Resolver, b: Resolver)
    requires var s := Run(State(map[], map[], map[], []), steps);
             && a in s.stages && b in s.stages && s.stages[a].Refreshing? && s.stages[b].Refreshing? && a.provider == b.provider
    ensures a == b
  {
    SoundRun(State(map[], map[], map[], []), steps);
  }

  // ----- nobody else's write is overwritten unseen -----

  /** Steps by which someone other than a provider's lock holder could write its credential. */
  predicate Meddles(step: Step, provider: Provider) {
    match step
    case Set(credential) => credential.provider == provider
    case Remove(p) => p == provider
    case Land(r) => r.provider == provider
    case _ => false
  }

  ghost predicate UpToDate(s: State, provider: Provider) {
    forall r :: r in s.stages && r.provider == provider && s.stages[r].Refreshing? ==>
      Get(s.store, provider) == Some(s.stages[r].given)
  }

  lemma UpToDateStep(s: State, step: Step, provider: Provider)
    requires Sound(s) && UpToDate(s, provider) && !Meddles(step, provider)
    ensures UpToDate(Next(s, step), provider)
  {}

  /** While its callback works, the credential a callback was given is the one in the store. */
  lemma {:induction false} NoLostUpdate(s: State, steps: seq<Step>, provider: Provider)
    requires Sound(s) && UpToDate(s, provider)
    requires forall i :: 0 <= i < |steps| ==> !Meddles(steps[i], provider)
    ensures UpToDate(Run(s, steps), provider)
  {
    if steps != [] {
      var front := steps[..|steps| - 1];
      NoLostUpdate(s, front, provider);
      SoundRun(s, front);
      UpToDateStep(Run(s, front), steps[|steps| - 1], provider);
    }
  }

  // ----- one refresh for a whole batch -----

  function CallsOf(calls: seq<Call>, provider: Provider): seq<Call> {
    if calls == [] then []
    else
      var last := calls[|calls| - 1];
      CallsOf(calls[..|calls| - 1], provider) + if last.resolver.provider == provider then [last] else []
  }

  lemma CallsSnoc(calls: seq<Call>, call: Call, provider: Provider)
    ensures CallsOf(calls + [call], provider) ==
            CallsOf(calls, provider) + if call.resolver.provider == provider then [call] else []
  {
    assert (calls + [call])[..|calls|] == calls;
  }

  /** A batch for a provider: every resolver can refresh, callbacks return credentials of the
      provider that outlive the batch, nobody is cancelled, and nobody else writes. */
  ghost predicate InBatch(step: Step, provider: Provider, first: real, last: real) {
    match step
    case Begin(r, canRefresh) => r.provider == provider ==> canRefresh
    case Read(r, now, skew) => r.provider == provider ==> Between(first, now, skew, last)
    case Reread(r, now, skew) => r.provider == provider ==> Between(first, now, skew, last)
    case Answer(r, reply) =>
      r.provider == provider ==>
        reply.Value? && reply.value.provider == provider && (reply.value.expiresAt.Some? ==> reply.value.expiresAt.value > last)
    case Cancel(r) => r.provider != provider
    case _ => !Meddles(step, provider)
  }

  /** How far a batch has come. */
  datatype Progress = Untouched | UnderWay(owner: Resolver) | Refreshed(renewed: Credential)

  /** What each resolver of the provider can be doing at that point. */
  predicate Fits(stage: Stage, r: Resolver, stale: Credential, last: real, progress: Progress) {
    match stage
    case Starting(canRefresh) => canRefresh
    case Waiting => true
    case Locked => !(progress.UnderWay? && progress.owner == r)
    case Refreshing(given) => progress == UnderWay(r) && given == stale
    case Storing(refreshed) => progress == UnderWay(r) && !Expired(refreshed, last)
    case Orphan(_) => false
    case Done(outcome) => progress.Refreshed? && outcome == Returned(Some(progress.renewed))
  }

  ghost predicate AllFit(stages: map<Resolver, Stage>, provider: Provider, stale: Credential, last: real, progress: Progress) {
    forall r :: r in stages && r.provider == provider ==> Fits(stages[r], r, stale, last, progress)
  }

  ghost predicate Stored(found: Option<Credential>, calls: seq<Call>, stale: Credential, last: real, progress: Progress) {
    match progress
    case Untouched => found == Some(stale) && calls == []
    case UnderWay(r) => found == Some(stale) && calls == [Call(r, stale)]
    case Refreshed(renewed) => found == Some(renewed) && !Expired(renewed, last) && |calls| == 1 && calls[0].given == stale
  }

  ghost predicate Batch(s: State, provider: Provider, stale: Credential, last: real, progress: Progress) {
    && AllFit(s.stages, provider, stale, last, progress)
    && Stored(Get(s.store, provider), CallsOf(s.calls, provider), stale, last, progress)
    && (progress.UnderWay? ==> progress.owner.provider == provider && Inside(s.stages, progress.owner))
  }

  lemma FitMoves(stages: map<Resolver, Stage>, r: Resolver, stage: Stage, provider: Provider, stale: Credential, last: real, progress: Progress)
    requires AllFit(stages, provider, stale, last, progress)
    requires r.provider == provider ==> Fits(stage, r, stale, last, progress)
    ensures AllFit(stages[r := stage], provider, stale, last, progress)
  {}

  lemma FitAt(stages: map<Resolver, Stage>, r: Resolver, provider: Provider, stale: Credential, last: real, progress: Progress)
    requires AllFit(stages, provider, stale, last, progress) && r in stages && r.provider == provider
    ensures Fits(stages[r], r, stale, last, progress)
  {}

  lemma AloneInside(s: State, a: Resolver, b: Resolver)
    requires Exclusive(s.stages, s.locks) && Inside(s.stages, a) && Inside(s.stages, b) && a.provider == b.provider
    ensures a == b
  {}

  /** The callback begins, or its credential has been written: the others fit as before. */
  lemma FitAdvances(s: State, r: Resolver, stage: Stage, stale: Credential, last: real, progress: Progress, later: Progress)
    requires Exclusive(s.stages, s.locks) && AllFit(s.stages, r.provider, stale, last, progress) && Inside(s.stages, r)
    requires Fits(stage, r, stale, last, later)
    requires (progress.Untouched? && later == UnderWay(r)) || (progress == UnderWay(r) && later.Refreshed?)
    ensures AllFit(s.stages[r := stage], r.provider, stale, last, later)
  {
    var stages := s.stages[r := stage];
    forall q | q in stages && q.provider == r.provider ensures Fits(stages[q], q, stale, last, later) {
      if q != r {
        FitAt(s.stages, q, r.provider, stale, last, progress);
        if Inside(s.stages, q) {
          AloneInside(s, q, r);
        }
      }
    }
  }

  /** A step of another provider's resolver leaves the batch alone. */
  lemma OtherProceeds(s: State, r: Resolver, stage: Stage, step: Step, provider: Provider)
    requires !step.Set? && !step.Remove? && !step.Begin? && At(s, r) == Some(stage) && r.provider != provider
    requires OwnProvider(s.stages)
    ensures var z := Proceed(s, r, stage, step);
            && (z.stages == s.stages || (r in z.stages && z.stages == s.stages[r := z.stages[r]]))
            && Get(z.store, provider) == Get(s.store, provider) && CallsOf(z.calls, provider) == CallsOf(s.calls, provider)
  {
    hide Expired, Deadline, CallsOf;
    if stage.Locked? && step.Reread? && r.provider in s.store {
      CallsSnoc(s.calls, Call(r, s.store[r.provider]), provider);
    }
  }

  lemma BatchReread(s: State, step: Step, provider: Provider, stale: Credential, first: real, last: real, progress: Progress)
    returns (later: Progress)
    requires Sound(s) && Batch(s, provider, stale, last, progress) && InBatch(step, provider, first, last)
    requires Expired(stale, first)
    requires step.Reread? && step.resolver.provider == provider && At(s, step.resolver) == Some(Locked)
    ensures Batch(Proceed(s, step.resolver, Locked, step), provider, stale, last, later)
  {
    hide CallsOf, AllFit, OwnProvider, Exclusive;
    var r := step.resolver;
    var z := Proceed(s, r, Locked, step);
    later := progress;
    FitAt(s.stages, r, provider, stale, last, progress);
    if progress.UnderWay? {
      AloneInside(s, r, progress.owner);
    } else if progress.Untouched? {
      later := UnderWay(r);
      FitAdvances(s, r, Refreshing(stale), stale, last, progress, later);
      CallsSnoc(s.calls, Call(r, stale), provider);
    } else {
      FitMoves(s.stages, r, z.stages[r], provider, stale, last, progress);
    }
  }

  lemma BatchWrite(s: State, step: Step, provider: Provider, stale: Credential, last: real, progress: Progress)
    returns (later: Progress)
    requires Sound(s) && Batch(s, provider, stale, last, progress)
    requires step.Write? && step.resolver.provider == provider && At(s, step.resolver).Some? && s.stages[step.resolver].Storing?
    ensures Batch(Proceed(s, step.resolver, s.stages[step.resolver], step), provider, stale, last, later)
  {
    hide CallsOf, AllFit, OwnProvider, Exclusive;
    var r := step.resolver;
    var renewed := s.stages[r].refreshed;
    OwnOrphan(s.stages, r);
    FitAt(s.stages, r, provider, stale, last, progress);
    later := Refreshed(renewed);
    FitAdvances(s, r, Done(Returned(Some(renewed))), stale, last, progress, later);
  }

  /** The steps that leave the store and the history of callbacks alone. */
  lemma BatchMoves(s: State, r: Resolver, stage: Stage, step: Step, provider: Provider, stale: Credential, first: real, last: real, progress: Progress)
    requires Sound(s) && Batch(s, provider, stale, last, progress) && InBatch(step, provider, first, last)
    requires Expired(stale, first) && Refreshable(stale)
    requires !step.Set? && !step.Remove? && !step.Begin? && step.resolver == r && At(s, r) == Some(stage) && r.provider == provider
    requires !(step.Reread? && stage.Locked?) && !(step.Write? && stage.Storing?)
    ensures Batch(Proceed(s, r, stage, step), provider, stale, last, progress)
  {
    hide CallsOf, AllFit, OwnProvider, Exclusive;
    var z := Proceed(s, r, stage, step);
    FitAt(s.stages, r, provider, stale, last, progress);
    FitMoves(s.stages, r, z.stages[r], provider, stale, last, progress);
    assert s.stages == s.stages[r := stage];
  }

  lemma BatchStep(s: State, step: Step, provider: Provider, stale: Credential, first: real, last: real, progress: Progress)
    returns (later: Progress)
    requires Sound(s) && Batch(s, provider, stale, last, progress) && InBatch(step, provider, first, last)
    requires Expired(stale, first) && Refreshable(stale)
    ensures Batch(Next(s, step), provider, stale, last, later)
  {
    hide CallsOf, AllFit, Stored, OwnProvider, Exclusive, Proceed, Expired;
    later := progress;
    match step
    case Set(_) =>
    case Remove(_) =>
    case Begin(r, canRefresh) =>
      if r !in s.stages {
        FitMoves(s.stages, r, Starting(canRefresh), provider, stale, last, progress);
      }
    case _ =>
      var r := step.resolver;
      if r in s.stages {
        var stage := s.stages[r];
        if r.provider != provider {
          OtherProceeds(s, r, stage, step, provider);
          var z := Proceed(s, r, stage, step);
          if z.stages != s.stages {
            FitMoves(s.stages, r, z.stages[r], provider, stale, last, progress);
          }
        } else if step.Reread? && stage.Locked? {
          later := BatchReread(s, step, provider, stale, first, last, progress);
        } else if step.Write? && stage.Storing? {
          later := BatchWrite(s, step, provider, stale, last, progress);
        } else {
          BatchMoves(s, r, stage, step, provider, stale, first, last, progress);
        }
      }
  }

  lemma {:induction false} BatchRun(s: State, steps: seq<Step>, provider: Provider, stale: Credential, first: real, last: real)
    returns (progress: Progress)
    requires Sound(s) && Batch(s, provider, stale, last, Untouched)
    requires forall i :: 0 <= i < |steps| ==> InBatch(steps[i], provider, first, last)
    requires Expired(stale, first) && Refreshable(stale)
    ensures Batch(Run(s, steps), provider, stale, last, progress)
  {
    hide Batch, Sound, Next, InBatch, Expired, Refreshable;
    if steps == [] {
      progress := Untouched;
    } else {
      var front := steps[..|steps| - 1];
      var before := BatchRun(s, front, provider, stale, first, last);
      SoundRun(s, front);
      progress := BatchStep(Run(s, front), steps[|steps| - 1], provider, stale, first, last, before);
    }
  }

  /** However a batch of resolvers that find an expired credential interleaves, the callbacks are
      called once at most, with that credential; and every resolver that is done was given the one
      fresh credential, which is in the store. */
  lemma OneRefreshForAll(s: State, steps: seq<Step>, provider: Provider, stale: Credential, first: real, last: real)
    requires Sound(s) && s.calls == [] && Get(s.store, provider) == Some(stale)
    requires forall r :: r in s.stages && r.provider == provider ==> s.stages[r] == Waiting || s.stages[r] == Starting(true)
    requires forall i :: 0 <= i < |steps| ==> InBatch(steps[i], provider, first, last)
    requires stale.kind == OAuth && stale.refreshToken.Some? && stale.expiresAt.Some? && stale.expiresAt.value <= first
    ensures var z := Run(s, steps);
            && |CallsOf(z.calls, provider)| <= 1
            && (forall c :: c in CallsOf(z.calls, provider) ==> c.given == stale)
            && (forall r :: r in z.stages && r.provider == provider && z.stages[r].Done? ==>
                  && |CallsOf(z.calls, provider)| == 1
                  && z.stages[r].outcome == Returned(Get(z.store, provider))
                  && provider in z.store && (z.store[provider].expiresAt.Some? ==> z.store[provider].expiresAt.value > last))
  {
    hide Next, Exclusive, OwnProvider, Run, InBatch;
    assert CallsOf([], provider) == [];
    var progress := BatchRun(s, steps, provider, stale, first, last);
    var z := Run(s, steps);
    forall r | r in z.stages && r.provider == provider ensures Fits(z.stages[r], r, stale, last, progress) {}
  }

  // ----- the storage itself, with the state it changes -----

  /** `resolve`, cut where it is suspended; each method is what runs until the next suspension. */
  class AuthStorage {
    var store: map<Provider, Credential>
    var locks: map<Provider, Option<Resolver>>
    var stages: map<Resolver, Stage>
    ghost var calls: seq<Call>

    ghost function View(): State
      reads this
    {
      State(store, locks, stages, calls)
    }

    ghost predicate Valid()
      reads this
    {
      Sound(View())
    }

    constructor (values: map<Provider, Credential>)
      ensures Valid() && View() == State(values, map[], map[], [])
    {
      store, locks, stages, calls := values, map[], map[], [];
    }

    /** The first look at the credential, without the refresh lock. */
    method Look(r: Resolver, now: real, skew: real)
      requires Valid() && At(View(), r).Some? && stages[r].Starting?
      modifies this
      ensures Valid() && View() == Next(old(View()), Read(r, now, skew))
      ensures var found := if r.provider in store then Some(store[r.provider]) else None;
              stages[r] == if Usable(found, now, skew) || found.value.kind != OAuth || found.value.refreshToken.None? || !old(stages)[r].canRefresh
                           then Done(Returned(found)) else Waiting
    {
      hide Sound;
      SoundStep(View(), Read(r, now, skew));
      var canRefresh := stages[r].canRefresh;
      var credential := Get(store, r.provider);
      if credential.None? || !Expired(credential.value, Deadline(now, skew)) {
        stages := stages[r := Done(Returned(credential))];
        return;
      }
      if credential.value.kind != OAuth || credential.value.refreshToken == None || !canRefresh {
        stages := stages[r := Done(Returned(credential))];
        return;
      }
      if r.provider !in locks {
        locks := locks[r.provider := None];
      }
      stages := stages[r := Waiting];
      assert old(locks)[r.provider := LockOf(old(View()), r.provider)] == locks;
    }

    /** The second look, inside the lock; then the callback is called with what was found. */
    method LookAgain(r: Resolver, now: real, skew: real) returns (given: Option<Credential>)
      requires Valid() && At(View(), r) == Some(Locked)
      modifies this
      ensures Valid() && View() == Next(old(View()), Reread(r, now, skew))
      ensures given.Some? <==> Inside(stages, r)
      ensures given.Some? ==> given == Get(store, r.provider) && calls == old(calls) + [Call(r, given.value)]
      ensures var found := if r.provider in store then Some(store[r.provider]) else None;
              && (given.None? <==> Usable(found, now, skew))
              && (given.None? ==> stages[r] == Done(Returned(found)) && calls == old(calls))
    {
      hide Sound;
      SoundStep(View(), Reread(r, now, skew));
      var latest := Get(store, r.provider);
      if latest.None? || !Expired(latest.value, Deadline(now, skew)) {
        locks := locks[r.provider := None];
        stages := stages[r := Done(Returned(latest))];
        return None;
      }
      calls := calls + [Call(r, latest.value)];
      stages := stages[r := Refreshing(latest.value)];
      return latest;
    }

    /** The callback is over; a credential of another provider is refused. */
    method Accept(r: Resolver, reply: Reply<Credential>)
      requires Valid() && At(View(), r).Some? && stages[r].Refreshing?
      modifies this
      ensures Valid() && View() == Next(old(View()), Answer(r, reply))
    {
      hide Sound;
      SoundStep(View(), Answer(r, reply));
      if reply.Raised? || reply.value.provider != r.provider {
        locks := locks[r.provider := None];
        stages := stages[r := Done(Failed)];
        return;
      }
      stages := stages[r := Storing(reply.value)];
    }

    /** The new credential is in the store, and the lock is left. */
    method Finish(r: Resolver)
      requires Valid() && At(View(), r).Some? && stages[r].Storing?
      modifies this
      ensures Valid() && View() == Next(old(View()), Write(r))
    {
      hide Sound;
      SoundStep(View(), Write(r));
      var refreshed := stages[r].refreshed;
      store := store[refreshed.provider := refreshed];
      locks := locks[r.provider := None];
      stages := stages[r := Done(Returned(Some(refreshed)))];
    }

    /** Waiting resolvers get the refresh lock when it is free. */
    method Enter(r: Resolver)
      requires Valid() && At(View(), r) == Some(Waiting)
      modifies this
      ensures Valid() && View() == Next(old(View()), Acquire(r))
    {
      hide Sound;
      SoundStep(View(), Acquire(r));
      if r.provider in locks && locks[r.provider] != None {
        return;
      }
      locks := locks[r.provider := Some(r)];
      stages := stages[r := Locked];
    }

    method SetCredential(credential: Credential)
      requires Valid()
      modifies this
      ensures Valid() && View() == Next(old(View()), Set(credential))
    {
      hide Sound;
      SoundStep(View(), Set(credential));
      store := store[credential.provider := credential];
    }

    method RemoveCredential(provider: Provider) returns (removed: bool)
      requires Valid()
      modifies this
      ensures Valid() && View() == Next(old(View()), Remove(provider))
      ensures removed <==> Get(old(store), provider).Some?
      ensures Get(store, provider) == None
    {
      hide Sound;
      SoundStep(View(), Remove(provider));
      removed := provider in store;
      store := store - {provider};
    }

    /** A resolver cancelled where it is suspended; the thread that writes for it goes on. */
    method Abort(r: Resolver)
      requires Valid() && At(View(), r).Some?
      modifies this
      ensures Valid() && View() == Next(old(View()), Cancel(r))
    {
      hide Sound;
      SoundStep(View(), Cancel(r));
      var stage := stages[r];
      if stage.Done? || stage.Orphan? {
        return;
      }
      if InLock(stage) {
        locks := locks[r.provider := None];
      }
      stages := stages[r := if stage.Storing? then Orphan(stage.refreshed) else Done(Failed)];
    }
  }
}
