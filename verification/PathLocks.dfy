/** Mutations of one file run one at a time; the lock of a path lives as long as somebody uses it. */
module PathLocks {
  import opened Prelude

  type Key = string

  datatype PathError = NotFound | NotSupported | Other

  datatype Canonical = Path(key: Key) | Failed(error: PathError)

  /** The name two callers must share to exclude each other; other errors are raised. */
  function LockKey(absolute: Key, canonical: Canonical): Option<Key> {
    match canonical
    case Path(key) => Some(key)
    case Failed(Other) => None
    case Failed(_) => Some(absolute)
  }

  class PathLock {
    var holder: Option<nat>
    var users: int

    constructor ()
      ensures holder == None && users == 0
    {
      holder, users := None, 0;
    }
  }

  /** Where a registered caller stands, with its own `key` and `entry`. */
  datatype Stage = Waiting(key: Key, entry: PathLock) | Running(key: Key, entry: PathLock) | Leaving(key: Key, entry: PathLock)

  /** What is done to a file: an operation begins, and it returns or raises. */
  datatype Act = Began(key: Key, caller: nat) | Finished(key: Key, caller: nat)

  datatype Step =
    | Enter(caller: nat, absolute: Key, canonical: Canonical)
    | Acquire(caller: nat)
    | Return(caller: nat)
    | Cancel(caller: nat)
    | Leave(caller: nat)

  // ----- counting callers -----

  ghost function UsersOf(callers: map<nat, Stage>, key: Key): set<nat> {
    set c | c in callers && callers[c].key == key
  }

  lemma UserAdded(callers: map<nat, Stage>, caller: nat, stage: Stage, key: Key)
    requires caller !in callers
    ensures |UsersOf(callers[caller := stage], key)| == |UsersOf(callers, key)| + if stage.key == key then 1 else 0
  {
    var grown := callers[caller := stage];
    if stage.key == key {
      assert UsersOf(grown, key) == UsersOf(callers, key) + {caller};
    } else {
      assert UsersOf(grown, key) == UsersOf(callers, key);
    }
  }

  lemma UserMoved(callers: map<nat, Stage>, caller: nat, stage: Stage, key: Key)
    requires caller in callers && callers[caller].key == stage.key
    ensures UsersOf(callers[caller := stage], key) == UsersOf(callers, key)
  {}

  lemma UserRemoved(callers: map<nat, Stage>, caller: nat, key: Key)
    requires caller in callers
    ensures |UsersOf(callers - {caller}, key)| == |UsersOf(callers, key)| - if callers[caller].key == key then 1 else 0
  {
    var rest := callers - {caller};
    assert callers == rest[caller := callers[caller]];
    UserAdded(rest, caller, callers[caller], key);
  }

  lemma UserCounts(callers: map<nat, Stage>, caller: nat)
    requires caller in callers
    ensures |UsersOf(callers, callers[caller].key)| >= 1
  {
    assert caller in UsersOf(callers, callers[caller].key);
  }

  lemma NobodyCounts(callers: map<nat, Stage>, key: Key)
    requires |UsersOf(callers, key)| == 0
    ensures forall c :: c in callers ==> callers[c].key != key
  {
    forall c | c in callers ensures callers[c].key != key {
      if callers[c].key == key {
        UserCounts(callers, c);
      }
    }
  }

  lemma SomebodyCounts(callers: map<nat, Stage>, key: Key)
    requires |UsersOf(callers, key)| > 0
    ensures exists c :: c in callers && callers[c].key == key
  {
    var c := Inhabited(UsersOf(callers, key));
  }

  // ----- what has been done to a file -----

  /** Reads a history as whole operations on one file, one after another.  None when two overlap;
      otherwise the caller whose operation is under way, if any. */
  function Serial(history: seq<Act>, key: Key): Option<Option<nat>> {
    if history == [] then Some(None)
    else
      var before, last := Serial(history[..|history| - 1], key), history[|history| - 1];
      if before == None || last.key != key then before
      else
        match last
        case Began(_, c) => if before.value == None then Some(Some(c)) else None
        case Finished(_, c) => if before.value == Some(c) then Some(None) else None
  }

  lemma SerialSnoc(history: seq<Act>, act: Act, key: Key)
    ensures Serial(history + [act], key) ==
            (var before := Serial(history, key);
             if before == None || act.key != key then before
             else match act
             case Began(_, c) => if before.value == None then Some(Some(c)) else None
             case Finished(_, c) => if before.value == Some(c) then Some(None) else None)
  {
    assert (history + [act])[..|history|] == history;
  }

  /** Serial histories have no overlap: between two beginnings on a file there is an end. */
  lemma {:induction false} NoOverlap(history: seq<Act>, key: Key, i: nat, j: nat)
    requires Serial(history, key) != None
    requires i < j < |history| && history[i].Began? && history[j].Began? && history[i].key == history[j].key == key
    ensures exists k :: i < k < j && history[k] == Finished(key, history[i].caller)
    decreases |history|
  {
    var front := history[..|history| - 1];
    if j < |history| - 1 {
      NoOverlap(front, key, i, j);
      var k :| i < k < j && front[k] == Finished(key, front[i].caller);
      assert history[k] == Finished(key, history[i].caller);
    } else {
      FinishedBefore(front, key, i);
      var k :| i < k < |front| && front[k] == Finished(key, front[i].caller);
      assert history[k] == Finished(key, history[i].caller);
    }
  }

  lemma {:induction false} FinishedBefore(history: seq<Act>, key: Key, i: nat)
    requires Serial(history, key) != None && i < |history| && history[i].Began? && history[i].key == key
    requires Serial(history, key) != Some(Some(history[i].caller))
    ensures exists k :: i < k < |history| && history[k] == Finished(key, history[i].caller)
    decreases |history|
  {
    var front := history[..|history| - 1];
    var caller := history[i].caller;
    if history[|history| - 1] == Finished(key, caller) && i < |history| - 1 {
    } else if i < |history| - 1 {
      StillOpen(history, key, caller);
      FinishedBefore(front, key, i);
      var k :| i < k < |front| && front[k] == Finished(key, front[i].caller);
      assert history[k] == Finished(key, caller);
    }
  }

  lemma StillOpen(history: seq<Act>, key: Key, caller: nat)
    requires history != [] && Serial(history, key) != None && Serial(history, key) != Some(Some(caller))
    requires history[|history| - 1] != Finished(key, caller)
    ensures Serial(history[..|history| - 1], key) != None && Serial(history[..|history| - 1], key) != Some(Some(caller))
  {}

  // ----- what holds of the callers and the map -----

  /** Registered callers of a key share the one lock the map has for it. */
  ghost predicate Shared(callers: map<nat, Stage>, paths: map<Key, PathLock>) {
    && (forall c :: c in callers ==> callers[c].key in paths && callers[c].entry == paths[callers[c].key])
    && (forall j, k :: j in paths && k in paths && paths[j] == paths[k] ==> j == k)
  }

  lemma OwnEntry(callers: map<nat, Stage>, paths: map<Key, PathLock>, caller: nat)
    requires Shared(callers, paths) && caller in callers
    ensures callers[caller].key in paths && paths[callers[caller].key] == callers[caller].entry
  {}

  lemma OtherEntries(callers: map<nat, Stage>, paths: map<Key, PathLock>, key: Key)
    requires Shared(callers, paths) && key in paths
    ensures forall k :: k in paths && k != key ==> paths[k] != paths[key]
  {}

  lemma SharesWith(callers: map<nat, Stage>, paths: map<Key, PathLock>, caller: nat, stage: Stage)
    requires Shared(callers, paths) && stage.key in paths && stage.entry == paths[stage.key]
    ensures Shared(callers[caller := stage], paths)
  {}

  lemma SharesNew(callers: map<nat, Stage>, paths: map<Key, PathLock>, key: Key, entry: PathLock)
    requires Shared(callers, paths) && key !in paths && entry !in paths.Values
    ensures Shared(callers, paths[key := entry])
  {
    forall k | k in paths ensures paths[k] != entry {
      assert paths[k] in paths.Values;
    }
  }

  lemma SharesLess(callers: map<nat, Stage>, paths: map<Key, PathLock>, caller: nat)
    requires Shared(callers, paths) && caller in callers
    ensures Shared(callers - {caller}, paths)
    ensures var key := callers[caller].key;
            (forall c :: c in callers - {caller} ==> callers[c].key != key) ==> Shared(callers - {caller}, paths - {key})
  {}

  /** The map has a key exactly while somebody uses it, and `users` is their number. */
  ghost predicate Counted(callers: map<nat, Stage>, users: map<Key, int>) {
    && (forall c :: c in callers ==> callers[c].key in users)
    && (forall k :: k in users ==> users[k] == |UsersOf(callers, k)| > 0)
  }

  /** A caller runs its operation exactly while it holds the lock. */
  ghost predicate Held(callers: map<nat, Stage>, holders: map<Key, Option<nat>>) {
    forall k, c :: k in holders ==> (holders[k] == Some(c) <==> c in callers && callers[c].Running? && callers[c].key == k)
  }

  function Runner(holders: map<Key, Option<nat>>, key: Key): Option<nat> {
    if key in holders then holders[key] else None
  }

  /** The operations done so far on a file do not overlap. */
  ghost predicate InOrder(history: seq<Act>, holders: map<Key, Option<nat>>) {
    forall k :: Serial(history, k) == Some(Runner(holders, k))
  }

  lemma CountsOneMore(callers: map<nat, Stage>, users: map<Key, int>, caller: nat, stage: Stage)
    requires Counted(callers, users) && caller !in callers
    ensures Counted(callers[caller := stage], users[stage.key := 1 + if stage.key in users then users[stage.key] else 0])
  {
    hide UsersOf;
    forall k ensures |UsersOf(callers[caller := stage], k)| == |UsersOf(callers, k)| + if stage.key == k then 1 else 0 {
      UserAdded(callers, caller, stage, k);
    }
    if stage.key !in users {
      NobodyUses(callers, users, stage.key);
    }
  }

  lemma NobodyUses(callers: map<nat, Stage>, users: map<Key, int>, key: Key)
    requires Counted(callers, users) && key !in users
    ensures |UsersOf(callers, key)| == 0
  {
    assert UsersOf(callers, key) == {};
  }

  lemma CountsTheSame(callers: map<nat, Stage>, users: map<Key, int>, caller: nat, stage: Stage)
    requires Counted(callers, users) && caller in callers && callers[caller].key == stage.key
    ensures Counted(callers[caller := stage], users)
  {
    hide UsersOf;
    forall k ensures UsersOf(callers[caller := stage], k) == UsersOf(callers, k) {
      UserMoved(callers, caller, stage, k);
    }
  }

  lemma CountsOneLess(callers: map<nat, Stage>, users: map<Key, int>, caller: nat)
    requires Counted(callers, users) && caller in callers
    ensures var key := callers[caller].key;
            && key in users
            && Counted(callers - {caller}, if users[key] == 1 then users - {key} else users[key := users[key] - 1])
            && (users[key] == 1 <==> forall c :: c in callers - {caller} ==> callers[c].key != key)
  {
    hide UsersOf;
    var key, rest := callers[caller].key, callers - {caller};
    forall k ensures |UsersOf(rest, k)| == |UsersOf(callers, k)| - if key == k then 1 else 0 {
      UserRemoved(callers, caller, k);
    }
    if users[key] == 1 {
      NobodyCounts(rest, key);
    } else {
      SomebodyCounts(rest, key);
    }
  }

  lemma NewcomerWaits(callers: map<nat, Stage>, holders: map<Key, Option<nat>>, history: seq<Act>, caller: nat, stage: Stage)
    requires Held(callers, holders) && InOrder(history, holders) && caller !in callers && !stage.Running?
    requires forall c :: c in callers ==> callers[c].key in holders
    ensures var grown := holders[stage.key := Runner(holders, stage.key)];
            Held(callers[caller := stage], grown) && InOrder(history, grown)
  {
    hide Serial;
    var grown := holders[stage.key := Runner(holders, stage.key)];
    forall k ensures Runner(grown, k) == Runner(holders, k) {}
  }

  lemma NewRunner(callers: map<nat, Stage>, holders: map<Key, Option<nat>>, history: seq<Act>, caller: nat, stage: Stage)
    requires Held(callers, holders) && InOrder(history, holders)
    requires caller in callers && callers[caller].Waiting? && stage.Running? && stage.key == callers[caller].key
    requires stage.key in holders && holders[stage.key] == None
    ensures Held(callers[caller := stage], holders[stage.key := Some(caller)])
    ensures InOrder(history + [Began(stage.key, caller)], holders[stage.key := Some(caller)])
  {
    hide Serial;
    forall k ensures Serial(history + [Began(stage.key, caller)], k) == Some(Runner(holders[stage.key := Some(caller)], k)) {
      SerialSnoc(history, Began(stage.key, caller), k);
    }
  }

  lemma RunnerGone(callers: map<nat, Stage>, holders: map<Key, Option<nat>>, history: seq<Act>, caller: nat, stage: Stage)
    requires Held(callers, holders) && InOrder(history, holders)
    requires caller in callers && callers[caller].Running? && !stage.Running? && stage.key == callers[caller].key
    requires stage.key in holders
    ensures Held(callers[caller := stage], holders[stage.key := None])
    ensures InOrder(history + [Finished(stage.key, caller)], holders[stage.key := None])
  {
    hide Serial;
    assert holders[stage.key] == Some(caller);
    forall k ensures Serial(history + [Finished(stage.key, caller)], k) == Some(Runner(holders[stage.key := None], k)) {
      SerialSnoc(history, Finished(stage.key, caller), k);
    }
  }

  /** A caller that does not run may move on, or go and take an unused lock with it. */
  lemma BystanderMoves(callers: map<nat, Stage>, holders: map<Key, Option<nat>>, caller: nat, stage: Stage)
    requires Held(callers, holders) && caller in callers && !callers[caller].Running? && !stage.Running?
    ensures Held(callers[caller := stage], holders)
    ensures Held(callers - {caller}, holders)
  {}

  lemma UnusedLockGoes(callers: map<nat, Stage>, holders: map<Key, Option<nat>>, history: seq<Act>, key: Key)
    requires Held(callers, holders) && InOrder(history, holders) && forall c :: c in callers ==> callers[c].key != key
    ensures Held(callers, holders - {key}) && InOrder(history, holders - {key})
  {
    hide Serial;
    forall k ensures Runner(holders - {key}, k) == Runner(holders, k) {
      if k == key && k in holders && holders[k] != None {
        assert false;
      }
    }
  }

  // ----- the state of one environment -----

  class EnvironmentState {
    var paths: map<Key, PathLock>
    var callers: map<nat, Stage>
    ghost var history: seq<Act>

    ghost function Users(): map<Key, int>
      reads `paths, paths.Values
    {
      map k | k in paths :: paths[k].users
    }

    ghost function Holders(): map<Key, Option<nat>>
      reads `paths, paths.Values
    {
      map k | k in paths :: paths[k].holder
    }

    ghost predicate Valid()
      reads this, paths.Values
    {
      Shared(callers, paths) && Counted(callers, Users()) && Held(callers, Holders()) && InOrder(history, Holders())
    }

    constructor ()
      ensures Valid() && callers == map[] && history == []
    {
      paths, callers, history := map[], map[], [];
    }

    /** `paths.get(key)`, or a new lock put there. */
    method FindOrMake(key: Key) returns (entry: PathLock)
      requires Shared(callers, paths)
      modifies `paths
      ensures key in paths && paths[key] == entry && Shared(callers, paths)
      ensures paths == old(paths)[key := entry]
      ensures if key in old(paths) then entry == old(paths[key]) else fresh(entry)
      ensures Users() == old(Users())[key := if key in old(paths) then old(Users()[key]) else 0]
      ensures Holders() == old(Holders())[key := Runner(old(Holders()), key)]
    {
      hide Shared;
      if key !in paths {
        entry := new PathLock();
        SharesNew(callers, paths, key, entry);
        paths := paths[key := entry];
      } else {
        entry := paths[key];
      }
    }

    method CountUser(key: Key, entry: PathLock)
      requires key in paths && paths[key] == entry && Shared(callers, paths)
      modifies entry`users
      ensures Users() == old(Users())[key := old(Users()[key]) + 1] && Holders() == old(Holders())
    {
      OtherEntries(callers, paths, key);
      hide Shared;
      entry.users := entry.users + 1;
    }

    /** The first critical section: finds or makes the lock of a key and counts one more user. */
    method Register(caller: nat, key: Key)
      requires Valid() && caller !in callers
      modifies this, paths.Values
      ensures Valid() && history == old(history)
      ensures paths.Keys == old(paths.Keys) + {key}
      ensures forall k :: k in old(paths) ==> paths[k] == old(paths[k])
      ensures key !in old(paths) ==> fresh(paths[key])
      ensures callers == old(callers)[caller := Waiting(key, paths[key])]
    {
      hide Shared, Counted, Held, InOrder, UsersOf, Runner, Users, Holders;
      ghost var users, holders := Users(), Holders();
      Keyed();
      var entry := FindOrMake(key);
      CountUser(key, entry);
      CountsOneMore(callers, users, caller, Waiting(key, entry));
      NewcomerWaits(callers, holders, history, caller, Waiting(key, entry));
      SharesWith(callers, paths, caller, Waiting(key, entry));
      assert Users() == users[key := 1 + if key in users then users[key] else 0];
      assert Holders() == holders[key := Runner(holders, key)];
      callers := callers[caller := Waiting(key, entry)];
    }

    lemma Keyed()
      requires Shared(callers, paths)
      ensures Users().Keys == Holders().Keys == paths.Keys
      ensures forall c :: c in callers ==> callers[c].key in Holders()
    {
      forall c | c in callers ensures callers[c].key in paths {
        OwnEntry(callers, paths, c);
      }
    }

    /** Entering `async with entry.lock`; a caller that finds the lock held goes on waiting. */
    method Acquire(caller: nat)
      requires Valid() && caller in callers && callers[caller].Waiting?
      modifies this, paths.Values
      ensures Valid() && paths == old(paths)
      ensures var stage := old(callers[caller]);
              if old(stage.entry.holder) != None then callers == old(callers) && history == old(history)
              else callers == old(callers)[caller := Running(stage.key, stage.entry)]
                   && history == old(history) + [Began(stage.key, caller)]
    {
      hide Shared, Counted, Held, InOrder;
      var key, entry := callers[caller].key, callers[caller].entry;
      OwnEntry(callers, paths, caller);
      if entry.holder != None {
        return;
      }
      ghost var users, holders := Users(), Holders();
      entry.holder := Some(caller);
      OtherEntries(callers, paths, key);
      SharesWith(callers, paths, caller, Running(key, entry));
      CountsTheSame(callers, users, caller, Running(key, entry));
      NewRunner(callers, holders, history, caller, Running(key, entry));
      assert Users() == users;
      assert Holders() == holders[key := Some(caller)];
      callers := callers[caller := Running(key, entry)];
      history := history + [Began(key, caller)];
    }

    /** Leaving `async with entry.lock`, when the operation has returned or raised. */
    method Return(caller: nat)
      requires Valid() && caller in callers && callers[caller].Running?
      modifies this, paths.Values
      ensures Valid() && paths == old(paths)
      ensures var stage := old(callers[caller]);
              && callers == old(callers)[caller := Leaving(stage.key, stage.entry)]
              && history == old(history) + [Finished(stage.key, caller)]
    {
      hide Shared, Counted, Held, InOrder;
      var key, entry := callers[caller].key, callers[caller].entry;
      OwnEntry(callers, paths, caller);
      ghost var users, holders := Users(), Holders();
      entry.holder := None;
      OtherEntries(callers, paths, key);
      SharesWith(callers, paths, caller, Leaving(key, entry));
      CountsTheSame(callers, users, caller, Leaving(key, entry));
      RunnerGone(callers, holders, history, caller, Leaving(key, entry));
      assert Users() == users;
      assert Holders() == holders[key := None];
      callers := callers[caller := Leaving(key, entry)];
      history := history + [Finished(key, caller)];
    }

    /** A caller cancelled while it waits for the lock: its operation never begins. */
    method Cancel(caller: nat)
      requires Valid() && caller in callers && callers[caller].Waiting?
      modifies `callers
      ensures Valid()
      ensures callers == old(callers)[caller := Leaving(old(callers[caller]).key, old(callers[caller]).entry)]
    {
      hide Shared, Counted, Held, InOrder;
      var stage := Leaving(callers[caller].key, callers[caller].entry);
      OwnEntry(callers, paths, caller);
      SharesWith(callers, paths, caller, stage);
      CountsTheSame(callers, Users(), caller, stage);
      BystanderMoves(callers, Holders(), caller, stage);
      callers := callers[caller := stage];
    }

    /** The second critical section: one user less, and with the last one the lock goes. */
    method Deregister(caller: nat)
      requires Valid() && caller in callers && callers[caller].Leaving?
      modifies this, paths.Values
      ensures Valid() && history == old(history) && callers == old(callers) - {caller}
      ensures var key := old(callers[caller].key);
              paths == if exists c :: c in callers && callers[c].key == key then old(paths) else old(paths) - {key}
    {
      hide Shared, Counted, Held, InOrder;
      var key, entry := callers[caller].key, callers[caller].entry;
      OwnEntry(callers, paths, caller);
      ghost var users, holders := Users(), Holders();
      OtherEntries(callers, paths, key);
      SharesLess(callers, paths, caller);
      CountsOneLess(callers, users, caller);
      BystanderMoves(callers, holders, caller, callers[caller]);
      entry.users := entry.users - 1;
      callers := callers - {caller};
      if entry.users == 0 && key in paths && paths[key] == entry {
        UnusedLockGoes(callers, holders, history, key);
        paths := paths - {key};
        assert Users() == users - {key};
        assert Holders() == holders - {key};
      } else {
        assert Users() == users[key := users[key] - 1];
        assert Holders() == holders;
      }
    }

    /** Any number of callers, their steps interleaved in any way.  A step that does not apply
        where its caller stands is skipped. */
    method Run(schedule: seq<Step>)
      requires Valid()
      modifies this, paths.Values
      ensures Valid()
    {
      hide Valid;
      for i := 0 to |schedule|
        invariant Valid()
        invariant fresh(paths.Values - old(paths.Values))
      {
        Perform(schedule[i]);
      }
    }

    /** Where a caller stands after a step of its own. */
    static predicate Moves(before: Option<Stage>, free: bool, step: Step, after: Option<Stage>) {
      match step
      case Enter(_, absolute, canonical) =>
        if before.None? && canonical != Failed(Other) then
          && after.Some? && after.value.Waiting?
          && (canonical.Path? ==> after.value.key == canonical.key) && (canonical.Failed? ==> after.value.key == absolute)
        else after == before
      case Acquire(_) =>
        if before.Some? && before.value.Waiting? && free then after == Some(Running(before.value.key, before.value.entry)) else after == before
      case Return(_) =>
        if before.Some? && before.value.Running? then after == Some(Leaving(before.value.key, before.value.entry)) else after == before
      case Cancel(_) =>
        if before.Some? && before.value.Waiting? then after == Some(Leaving(before.value.key, before.value.entry)) else after == before
      case Leave(_) =>
        if before.Some? && before.value.Leaving? then after == None else after == before
    }

    ghost function At(caller: nat): Option<Stage>
      reads `callers
    {
      if caller in callers then Some(callers[caller]) else None
    }

    ghost predicate LockFree(caller: nat)
      reads `callers, if caller in callers then {callers[caller].entry} else {}
    {
      caller in callers && callers[caller].entry.holder == None
    }

    /** One step of one caller; the others stay where they are. */
    method Perform(step: Step)
      requires Valid()
      modifies this, paths.Values
      ensures Valid() && fresh(paths.Values - old(paths.Values))
      ensures Moves(old(At(step.caller)), old(LockFree(step.caller)), step, At(step.caller))
      ensures forall c :: c != step.caller ==> At(c) == old(At(c))
    {
      hide Valid;
      var caller := step.caller;
      match step
      case Enter(_, absolute, canonical) =>
        var key := LockKey(absolute, canonical);
        if caller !in callers && key.Some? {
          Register(caller, key.value);
        }
      case Acquire(_) =>
        if caller in callers && callers[caller].Waiting? {
          Acquire(caller);
        }
      case Return(_) =>
        if caller in callers && callers[caller].Running? {
          Return(caller);
        }
      case Cancel(_) =>
        if caller in callers && callers[caller].Waiting? {
          Cancel(caller);
        }
      case Leave(_) =>
        if caller in callers && callers[caller].Leaving? {
          Deregister(caller);
        }
    }

    /** Callers of one key share their lock, and at most one of them runs its operation. */
    lemma MutualExclusion(a: nat, b: nat)
      requires Valid() && a in callers && b in callers && callers[a].key == callers[b].key
      ensures callers[a].entry == callers[b].entry
      ensures callers[a].Running? && callers[b].Running? ==> a == b
    {
      var key := callers[a].key;
      assert key in Holders();
      assert callers[a].Running? ==> Holders()[key] == Some(a);
    }

    /** The map holds a key exactly while a caller of that key is registered. */
    lemma KeptWhileUsed(key: Key)
      requires Valid()
      ensures key in paths <==> exists c :: c in callers && callers[c].key == key
      ensures key in paths ==> paths[key].users == |UsersOf(callers, key)|
    {
      if key in paths {
        assert Users()[key] == |UsersOf(callers, key)|;
        SomebodyCounts(callers, key);
      }
    }
  }
}
