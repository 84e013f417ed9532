/** Settings from several layers, and the nested form in which they are saved. */
module Settings {
  import opened Prelude
  import opened CodePoints
  import opened Splitting

  const DOT: CodePoint := '.' as int

  datatype Value = Atom(text: string) | List(items: seq<Value>) | Tuple(items: seq<Value>) | Dict(entries: seq<Entry>)

  /** A dictionary is its entries in order of insertion. */
  datatype Entry = Entry(key: Text, item: Value)

  // ----- dictionaries -----

  predicate Has(entries: seq<Entry>, key: Text) {
    exists i :: 0 <= i < |entries| && entries[i].key == key
  }

  ghost predicate DistinctKeys(entries: seq<Entry>) {
    forall i, j :: 0 <= i < j < |entries| ==> entries[i].key != entries[j].key
  }

  /** Where a key is; past the end if it is missing. */
  function IndexOf(entries: seq<Entry>, key: Text): (i: nat)
    ensures i <= |entries|
    ensures i < |entries| ==> entries[i].key == key
    ensures i == |entries| <==> !Has(entries, key)
  {
    if entries == [] then 0
    else if entries[0].key == key then 0
    else
      var i := IndexOf(entries[1..], key);
      assert Has(entries[1..], key) <==> Has(entries, key) by {
        if j :| 0 <= j < |entries| && entries[j].key == key {
          assert entries[1..][j - 1] == entries[j];
        }
      }
      i + 1
  }

  function Put(entries: seq<Entry>, key: Text, item: Value): seq<Entry> {
    var i := IndexOf(entries, key);
    if i < |entries| then entries[i := Entry(key, item)] else entries + [Entry(key, item)]
  }

  // ----- the nested form -----

  /** `_serializable_value`: tuples become lists, inside dictionaries too. */
  function Serializable(v: Value): Value {
    match v
    case Tuple(items) => List(seq(|items|, i requires 0 <= i < |items| => Serializable(items[i])))
    case Dict(entries) => Dict(SerializableEntries(entries))
    case _ => v
  }

  function SerializableEntries(entries: seq<Entry>): (r: seq<Entry>)
    ensures |r| == |entries| && forall i :: 0 <= i < |r| ==> r[i].key == entries[i].key
  {
    if entries == [] then []
    else
      var last := entries[|entries| - 1];
      SerializableEntries(entries[..|entries| - 1]) + [Entry(last.key, Serializable(last.item))]
  }

  /** A value as it is saved: the same, but for tuples, which are lists, in tuples and dictionaries too. */
  ghost predicate SavedAs(v: Value, w: Value)
    decreases v
  {
    match (v, w)
    case (Tuple(xs), List(ys)) => |xs| == |ys| && forall i :: 0 <= i < |xs| ==> SavedAs(xs[i], ys[i])
    case (Dict(es), Dict(fs)) => |es| == |fs| && forall i :: 0 <= i < |es| ==> es[i].key == fs[i].key && SavedAs(es[i].item, fs[i].item)
    case _ => v == w && !v.Tuple? && !v.Dict?
  }

  lemma {:induction false} SavedIsSerializable(v: Value, w: Value)
    ensures SavedAs(v, w) <==> w == Serializable(v)
    decreases v
  {
    match (v, w)
    case (Tuple(xs), List(ys)) =>
      forall i | 0 <= i < |xs| && |xs| == |ys| ensures SavedAs(xs[i], ys[i]) <==> ys[i] == Serializable(xs[i]) {
        SavedIsSerializable(xs[i], ys[i]);
      }
      var zs := Serializable(v).items;
      assert ys == zs <==> |ys| == |zs| && forall i :: 0 <= i < |zs| ==> ys[i] == zs[i];
    case (Dict(es), Dict(fs)) =>
      forall i | 0 <= i < |es| && |es| == |fs| ensures SavedAs(es[i].item, fs[i].item) <==> fs[i].item == Serializable(es[i].item) {
        SavedIsSerializable(es[i].item, fs[i].item);
      }
      SavedEntries(es);
      var gs := SerializableEntries(es);
      assert fs == gs <==> |fs| == |gs| && forall i :: 0 <= i < |gs| ==> fs[i] == gs[i];
    case _ =>
  }

  lemma {:induction false} SavedEntries(entries: seq<Entry>)
    ensures forall i :: 0 <= i < |entries| ==> SerializableEntries(entries)[i] == Entry(entries[i].key, Serializable(entries[i].item))
  {
    hide Serializable;
    if entries != [] {
      SavedEntries(entries[..|entries| - 1]);
    }
  }

  /** `_assign_nested`: anything but a dictionary on the way is replaced by a new one. */
  function Assign(target: seq<Entry>, parts: seq<Text>, value: Value): (r: seq<Entry>)
    requires parts != []
    ensures r != []
    decreases |parts|
  {
    if |parts| == 1 then Put(target, parts[0], Serializable(value))
    else
      var i := IndexOf(target, parts[0]);
      var child := if i < |target| && target[i].item.Dict? then target[i].item.entries else [];
      Put(target, parts[0], Dict(Assign(child, parts[1..], value)))
  }

  function AssignAll(values: seq<Entry>): seq<Entry> {
    if values == [] then []
    else
      var last := values[|values| - 1];
      Assign(AssignAll(values[..|values| - 1]), Split(DOT, last.key), last.item)
  }

  predicate Dotted(values: seq<Entry>) {
    exists i :: 0 <= i < |values| && DOT in values[i].key
  }

  /** `_nested_from_input`. */
  function NestedFromInput(values: seq<Entry>): seq<Entry> {
    if Dotted(values) then AssignAll(values) else SerializableEntries(values)
  }

  // ----- the flat form -----

  function Full(prefix: Text, key: Text): Text {
    if prefix == [] then key else prefix + ([DOT] + key)
  }

  predicate Opens(declared: set<Text>, item: Value, full: Text) {
    item.Dict? && full !in declared
  }

  /** `_flatten`: a declared key is not looked into. */
  function Flatten(declared: set<Text>, entries: seq<Entry>, prefix: Text): map<Text, Value>
    decreases entries
  {
    if entries == [] then map[]
    else
      var before := Flatten(declared, entries[..|entries| - 1], prefix);
      var e := entries[|entries| - 1];
      before + Piece(declared, e, prefix)
  }

  function Piece(declared: set<Text>, e: Entry, prefix: Text): map<Text, Value>
    decreases e
  {
    var full := Full(prefix, e.key);
    if Opens(declared, e.item, full) then Flatten(declared, e.item.entries, full) else map[full := e.item]
  }

  // ----- dotted keys -----

  /** `key` is `full`, or goes on from it after a dot. */
  predicate Under(full: Text, key: Text) {
    key == full || (full < key && key[|full|] == DOT)
  }

  lemma UnderTransitive(a: Text, b: Text, c: Text)
    requires Under(a, b) && Under(b, c)
    ensures Under(a, c)
  {}

  lemma FullIsUnder(prefix: Text, key: Text)
    requires prefix != []
    ensures Under(prefix, Full(prefix, key)) && Full(prefix, key) != prefix && Full(prefix, key) != []
  {
    assert Full(prefix, key)[|prefix|] == DOT;
  }

  /** A key is under one of its prefix's segments only. */
  lemma SameSegment(prefix: Text, a: Text, b: Text, key: Text)
    requires DOT !in a && DOT !in b
    requires Under(Full(prefix, a), key) && Under(Full(prefix, b), key)
    ensures a == b
  {
    var rest := if prefix == [] then key else key[|prefix| + 1..];
    SegmentStart(prefix, a, key);
    SegmentStart(prefix, b, key);
    DotInLonger(rest, a, b);
    DotInLonger(rest, b, a);
    assert |a| == |b| ==> a == rest[..|a|] == b;
  }

  lemma DotInLonger(rest: Text, a: Text, b: Text)
    requires a <= rest && b <= rest && (a == rest || rest[|a|] == DOT)
    ensures |a| < |b| ==> b[|a|] == DOT && DOT in b
  {
    if |a| < |b| {
      assert rest[|a|] == b[|a|];
    }
  }

  lemma SegmentStart(prefix: Text, a: Text, key: Text)
    requires Under(Full(prefix, a), key)
    ensures prefix != [] ==> |key| > |prefix|
    ensures var rest := if prefix == [] then key else key[|prefix| + 1..];
            a <= rest && (a == rest || rest[|a|] == DOT)
  {
    var full := Full(prefix, a);
    assert key[..|full|] == full;
    if prefix != [] {
      assert full[|prefix| + 1..] == a;
    }
  }

  // ----- trees of settings -----

  /** Names are distinct and without dots, and only non-empty prefixes are built on. */
  ghost predicate Clean(declared: set<Text>, entries: seq<Entry>, prefix: Text)
    decreases entries
  {
    && DistinctKeys(entries)
    && forall i :: 0 <= i < |entries| ==> CleanEntry(declared, entries[i], prefix)
  }

  ghost predicate CleanEntry(declared: set<Text>, e: Entry, prefix: Text)
    decreases e
  {
    var full := Full(prefix, e.key);
    DOT !in e.key && (Opens(declared, e.item, full) ==> full != [] && Clean(declared, e.item.entries, full))
  }

  /** No dictionary that is looked into is empty. */
  ghost predicate Filled(declared: set<Text>, entries: seq<Entry>, prefix: Text)
    decreases entries
  {
    forall i :: 0 <= i < |entries| ==> FilledEntry(declared, entries[i], prefix)
  }

  ghost predicate FilledEntry(declared: set<Text>, e: Entry, prefix: Text)
    decreases e
  {
    var full := Full(prefix, e.key);
    Opens(declared, e.item, full) ==> e.item.entries != [] && Filled(declared, e.item.entries, full)
  }

  lemma {:induction false} FlatKeyHasEntry(declared: set<Text>, entries: seq<Entry>, prefix: Text, key: Text) returns (i: nat)
    requires key in Flatten(declared, entries, prefix)
    ensures i < |entries| && key in Piece(declared, entries[i], prefix)
  {
    var front := entries[..|entries| - 1];
    if key in Piece(declared, entries[|entries| - 1], prefix) {
      i := |entries| - 1;
    } else {
      i := FlatKeyHasEntry(declared, front, prefix, key);
    }
  }

  lemma {:induction false} EntryIsFlat(declared: set<Text>, entries: seq<Entry>, prefix: Text, i: nat)
    requires i < |entries|
    ensures Piece(declared, entries[i], prefix).Keys <= Flatten(declared, entries, prefix).Keys
  {
    if i < |entries| - 1 {
      EntryIsFlat(declared, entries[..|entries| - 1], prefix, i);
    }
  }

  /** What an entry gives is under its own key. */
  lemma {:induction false} PieceIsUnder(declared: set<Text>, e: Entry, prefix: Text, key: Text)
    requires CleanEntry(declared, e, prefix) && key in Piece(declared, e, prefix)
    ensures Under(Full(prefix, e.key), key)
    decreases e
  {
    var full := Full(prefix, e.key);
    if Opens(declared, e.item, full) {
      var i := FlatKeyHasEntry(declared, e.item.entries, full, key);
      PieceIsUnder(declared, e.item.entries[i], full, key);
      FullIsUnder(full, e.item.entries[i].key);
      UnderTransitive(full, Full(full, e.item.entries[i].key), key);
    }
  }

  /** Every entry gives something. */
  lemma {:induction false} PieceIsSome(declared: set<Text>, e: Entry, prefix: Text) returns (key: Text)
    requires FilledEntry(declared, e, prefix)
    ensures key in Piece(declared, e, prefix)
    decreases e
  {
    var full := Full(prefix, e.key);
    if Opens(declared, e.item, full) {
      key := PieceIsSome(declared, e.item.entries[0], full);
      EntryIsFlat(declared, e.item.entries, full, 0);
    } else {
      key := full;
    }
  }

  lemma PieceIsOwn(declared: set<Text>, entries: seq<Entry>, prefix: Text, i: nat, j: nat, key: Text)
    requires Clean(declared, entries, prefix) && i < |entries| && j < |entries|
    requires key in Piece(declared, entries[i], prefix) && key in Piece(declared, entries[j], prefix)
    ensures i == j
  {
    PieceIsUnder(declared, entries[i], prefix, key);
    PieceIsUnder(declared, entries[j], prefix, key);
    SameSegment(prefix, entries[i].key, entries[j].key, key);
  }

  lemma CleanAppend(declared: set<Text>, entries: seq<Entry>, prefix: Text, e: Entry)
    requires !Has(entries, e.key)
    ensures Clean(declared, entries, prefix) && CleanEntry(declared, e, prefix) ==> Clean(declared, entries + [e], prefix)
    ensures Filled(declared, entries, prefix) && FilledEntry(declared, e, prefix) ==> Filled(declared, entries + [e], prefix)
  {
    hide CleanEntry, FilledEntry;
  }

  lemma CleanReplace(declared: set<Text>, entries: seq<Entry>, prefix: Text, i: nat, e: Entry)
    requires i < |entries| && entries[i].key == e.key
    ensures Clean(declared, entries, prefix) && CleanEntry(declared, e, prefix) ==> Clean(declared, entries[i := e], prefix)
    ensures Filled(declared, entries, prefix) && FilledEntry(declared, e, prefix) ==> Filled(declared, entries[i := e], prefix)
  {
    hide CleanEntry, FilledEntry;
  }

  lemma FlattenAppend(declared: set<Text>, entries: seq<Entry>, prefix: Text, e: Entry)
    ensures Flatten(declared, entries + [e], prefix) == Flatten(declared, entries, prefix) + Piece(declared, e, prefix)
  {
    assert (entries + [e])[..|entries|] == entries;
  }

  lemma CleanFront(declared: set<Text>, entries: seq<Entry>, prefix: Text)
    requires Clean(declared, entries, prefix) && entries != []
    ensures Clean(declared, entries[..|entries| - 1], prefix)
  {}

  /** When an entry comes to give one thing more, so does the dictionary that has it. */
  lemma {:induction false} FlattenReplace(declared: set<Text>, entries: seq<Entry>, prefix: Text, i: nat, e: Entry, key: Text, value: Value)
    requires i < |entries| && entries[i].key == e.key && Clean(declared, entries, prefix) && CleanEntry(declared, e, prefix)
    requires Piece(declared, e, prefix) == Piece(declared, entries[i], prefix)[key := value]
    ensures Flatten(declared, entries[i := e], prefix) == Flatten(declared, entries, prefix)[key := value]
  {
    hide Piece, Clean, CleanEntry, Flatten;
    var n := |entries| - 1;
    var front := entries[..n];
    var after := entries[i := e];
    if i == n {
      assert after == front + [e] && entries == front + [entries[n]];
      FlattenAppend(declared, front, prefix, e);
      FlattenAppend(declared, front, prefix, entries[n]);
    } else {
      assert after == front[i := e] + [entries[n]] && entries == front + [entries[n]];
      CleanFront(declared, entries, prefix);
      FlattenReplace(declared, front, prefix, i, e, key, value);
      FlattenAppend(declared, front, prefix, entries[n]);
      FlattenAppend(declared, front[i := e], prefix, entries[n]);
      if key in Piece(declared, entries[n], prefix) {
        CleanReplace(declared, entries, prefix, i, e);
        PieceIsOwn(declared, after, prefix, i, n, key);
      }
    }
  }

  // ----- assigning a new key -----

  /** The dotted key that leads from a prefix along some parts. */
  function Path(prefix: Text, parts: seq<Text>): Text
    decreases |parts|
  {
    if parts == [] then prefix else Path(Full(prefix, parts[0]), parts[1..])
  }

  /** No entry stands where the parts lead to, and none but dictionaries on the way. */
  ghost predicate Free(declared: set<Text>, entries: seq<Entry>, prefix: Text, parts: seq<Text>)
    requires parts != []
    decreases |parts|
  {
    var full, i := Full(prefix, parts[0]), IndexOf(entries, parts[0]);
    if |parts| == 1 then i == |entries|
    else
      && full !in declared && full != []
      && (i < |entries| ==> entries[i].item.Dict? && Free(declared, entries[i].item.entries, full, parts[1..]))
      && (i == |entries| ==> Free(declared, [], full, parts[1..]))
  }

  ghost predicate Assignable(declared: set<Text>, entries: seq<Entry>, prefix: Text, parts: seq<Text>, value: Value) {
    && parts != [] && Clean(declared, entries, prefix) && Free(declared, entries, prefix, parts)
    && (forall p :: p in parts ==> DOT !in p)
    && (value.Dict? ==> Path(prefix, parts) in declared)
  }

  lemma {:induction false} FlattenAssign(declared: set<Text>, entries: seq<Entry>, prefix: Text, parts: seq<Text>, value: Value)
    requires Assignable(declared, entries, prefix, parts, value)
    ensures Flatten(declared, Assign(entries, parts, value), prefix)
            == Flatten(declared, entries, prefix)[Path(prefix, parts) := Serializable(value)]
    ensures Clean(declared, Assign(entries, parts, value), prefix)
    ensures Filled(declared, entries, prefix) ==> Filled(declared, Assign(entries, parts, value), prefix)
    decreases |parts|
  {
    hide Clean, Filled, Flatten, Serializable;
    var full, i := Full(prefix, parts[0]), IndexOf(entries, parts[0]);
    if |parts| == 1 {
      var e := Entry(parts[0], Serializable(value));
      SerializableDict(value);
      assert Path(prefix, parts) == full;
      CleanAppend(declared, entries, prefix, e);
      FlattenAppend(declared, entries, prefix, e);
    } else {
      var child := if i < |entries| then entries[i].item.entries else [];
      if i < |entries| {
        CleanChild(declared, entries, prefix, i);
      } else {
        NothingIsClean(declared, full);
      }
      FlattenAssign(declared, child, full, parts[1..], value);
      var e := Entry(parts[0], Dict(Assign(child, parts[1..], value)));
      if i < |entries| {
        CleanReplace(declared, entries, prefix, i, e);
        FlattenReplace(declared, entries, prefix, i, e, Path(prefix, parts), Serializable(value));
      } else {
        CleanAppend(declared, entries, prefix, e);
        FlattenAppend(declared, entries, prefix, e);
      }
    }
  }

  lemma SerializableDict(value: Value)
    ensures Serializable(value).Dict? <==> value.Dict?
  {}

  lemma CleanChild(declared: set<Text>, entries: seq<Entry>, prefix: Text, i: nat)
    requires i < |entries| && Opens(declared, entries[i].item, Full(prefix, entries[i].key))
    ensures Clean(declared, entries, prefix) ==> DOT !in entries[i].key && Clean(declared, entries[i].item.entries, Full(prefix, entries[i].key))
    ensures Filled(declared, entries, prefix) ==> Filled(declared, entries[i].item.entries, Full(prefix, entries[i].key))
  {
    assert Clean(declared, entries, prefix) ==> CleanEntry(declared, entries[i], prefix);
    assert Filled(declared, entries, prefix) ==> FilledEntry(declared, entries[i], prefix);
  }

  lemma NothingIsClean(declared: set<Text>, prefix: Text)
    ensures Clean(declared, [], prefix) && Filled(declared, [], prefix) && Flatten(declared, [], prefix) == map[]
  {}

  lemma {:induction false} PathIsUnder(prefix: Text, parts: seq<Text>)
    requires prefix != [] && parts != []
    ensures Under(prefix, Path(prefix, parts)) && Path(prefix, parts) != prefix
    decreases |parts|
  {
    var full := Full(prefix, parts[0]);
    FullIsUnder(prefix, parts[0]);
    if |parts| > 1 {
      PathIsUnder(full, parts[1..]);
      UnderTransitive(prefix, full, Path(full, parts[1..]));
    }
  }

  /** An entry gives something under its own key; unless it is looked into, it gives itself. */
  lemma EntryShows(declared: set<Text>, entries: seq<Entry>, prefix: Text, i: nat) returns (key: Text)
    requires i < |entries| && Clean(declared, entries, prefix) && Filled(declared, entries, prefix)
    ensures key in Flatten(declared, entries, prefix) && Under(Full(prefix, entries[i].key), key)
    ensures !Opens(declared, entries[i].item, Full(prefix, entries[i].key)) ==> key == Full(prefix, entries[i].key)
  {
    hide Clean, Filled, Flatten, Under;
    EntryIsFlat(declared, entries, prefix, i);
    CleanAt(declared, entries, prefix, i);
    key := PieceIsSome(declared, entries[i], prefix);
    PieceIsUnder(declared, entries[i], prefix, key);
  }

  ghost predicate Apart(declared: set<Text>, keys: set<Text>, path: Text) {
    && (forall key :: key in keys ==> !Under(key, path) && !Under(path, key))
    && (forall d :: d in declared && Under(d, path) ==> d == path)
  }

  lemma ChildApart(declared: set<Text>, entries: seq<Entry>, prefix: Text, i: nat, path: Text)
    requires i < |entries| && Opens(declared, entries[i].item, Full(prefix, entries[i].key))
    requires Apart(declared, Flatten(declared, entries, prefix).Keys, path)
    ensures Apart(declared, Flatten(declared, entries[i].item.entries, Full(prefix, entries[i].key)).Keys, path)
  {
    hide Flatten, Under;
    EntryIsFlat(declared, entries, prefix, i);
  }

  /** A key that is neither under a key of a tree nor above one, nor under a declared one, is free. */
  lemma {:induction false} FreeWhenApart(declared: set<Text>, entries: seq<Entry>, prefix: Text, parts: seq<Text>)
    requires parts != [] && Clean(declared, entries, prefix) && Filled(declared, entries, prefix)
    requires |parts| > 1 ==> Full(prefix, parts[0]) != []
    requires Apart(declared, Flatten(declared, entries, prefix).Keys, Path(prefix, parts))
    ensures Free(declared, entries, prefix, parts)
    decreases |parts|
  {
    hide Clean, Filled, Flatten, Under;
    var path, full, i := Path(prefix, parts), Full(prefix, parts[0]), IndexOf(entries, parts[0]);
    if |parts| == 1 {
      assert path == Path(full, []);
      if i < |entries| {
        var key := EntryShows(declared, entries, prefix, i);
        assert false;
      }
    } else {
      PathIsUnder(full, parts[1..]);
      if i == |entries| {
        NothingIsClean(declared, full);
        FreeWhenApart(declared, [], full, parts[1..]);
      } else {
        var key := EntryShows(declared, entries, prefix, i);
        assert Opens(declared, entries[i].item, full);
        CleanChild(declared, entries, prefix, i);
        ChildApart(declared, entries, prefix, i, path);
        FreeWhenApart(declared, entries[i].item.entries, full, parts[1..]);
      }
    }
  }

  lemma CleanAt(declared: set<Text>, entries: seq<Entry>, prefix: Text, i: nat)
    requires i < |entries|
    ensures Clean(declared, entries, prefix) ==> CleanEntry(declared, entries[i], prefix)
    ensures Filled(declared, entries, prefix) ==> FilledEntry(declared, entries[i], prefix)
  {}

  // ----- splitting a key and following its parts -----

  lemma {:induction false} PathIsJoin(prefix: Text, parts: seq<Text>)
    requires prefix != [] && parts != []
    ensures Path(prefix, parts) == prefix + ([DOT] + Join(DOT, parts))
    decreases |parts|
  {
    if |parts| == 1 {
      OneLine(DOT, parts);
    } else {
      assert parts == [parts[0]] + parts[1..];
      JoinCons(DOT, parts[0], parts[1..]);
      PathIsJoin(Full(prefix, parts[0]), parts[1..]);
    }
  }

  predicate Plain(key: Text) {
    key == [] || key[0] != DOT
  }

  lemma PathOfSplit(key: Text)
    requires Plain(key)
    ensures Path([], Split(DOT, key)) == key
    ensures |Split(DOT, key)| > 1 ==> Split(DOT, key)[0] != []
  {
    hide Split, Join;
    var parts := Split(DOT, key);
    JoinSplit(DOT, key);
    if |parts| == 1 {
      OneLine(DOT, parts);
      assert Path([], parts) == Path(parts[0], []);
    } else {
      assert parts == [parts[0]] + parts[1..];
      JoinCons(DOT, parts[0], parts[1..]);
      assert key == parts[0] + ([DOT] + Join(DOT, parts[1..]));
      PathIsJoin(parts[0], parts[1..]);
    }
  }

  // ----- the round trip -----

  /** The flat settings that should come back. */
  function MapOf(values: seq<Entry>): map<Text, Value> {
    if values == [] then map[]
    else
      var last := values[|values| - 1];
      MapOf(values[..|values| - 1])[last.key := Serializable(last.item)]
  }

  /** A mapping has every setting under its own key, as it is saved, and nothing else. */
  ghost predicate HasAll(values: seq<Entry>, m: map<Text, Value>) {
    && (forall i :: 0 <= i < |values| ==> values[i].key in m && SavedAs(values[i].item, m[values[i].key]))
    && (forall key :: key in m ==> Has(values, key))
  }

  lemma HasAllIsMapOf(values: seq<Entry>, m: map<Text, Value>)
    requires DistinctKeys(values)
    ensures HasAll(values, m) <==> m == MapOf(values)
  {
    hide SavedAs, MapOf, Serializable;
    forall i | 0 <= i < |values|
      ensures values[i].key in MapOf(values) && MapOf(values)[values[i].key] == Serializable(values[i].item)
      ensures values[i].key in m ==> (SavedAs(values[i].item, m[values[i].key]) <==> m[values[i].key] == MapOf(values)[values[i].key])
    {
      MapHas(values, i);
      if values[i].key in m {
        SavedIsSerializable(values[i].item, m[values[i].key]);
      }
    }
    forall key | key in MapOf(values) ensures Has(values, key) {
      var i := MapHasOnly(values, key);
    }
    if HasAll(values, m) {
      assert m.Keys == MapOf(values).Keys;
    }
  }

  lemma {:induction false} MapHas(values: seq<Entry>, i: nat)
    requires i < |values|
    ensures values[i].key in MapOf(values)
    ensures DistinctKeys(values) ==> MapOf(values)[values[i].key] == Serializable(values[i].item)
  {
    if i < |values| - 1 {
      MapHas(values[..|values| - 1], i);
    }
  }

  lemma {:induction false} MapHasOnly(values: seq<Entry>, key: Text) returns (i: nat)
    requires key in MapOf(values)
    ensures i < |values| && values[i].key == key
  {
    i := |values| - 1;
    if values[i].key != key {
      i := MapHasOnly(values[..|values| - 1], key);
    }
  }

  /** One setting that can be saved: a dictionary is declared, and no part of the key before its
      end is. */
  predicate Savable(declared: set<Text>, e: Entry) {
    && (e.item.Dict? ==> e.key in declared)
    && (forall d :: d in declared && Under(d, e.key) ==> d == e.key)
  }

  /** No key goes on from another. */
  ghost predicate PrefixFree(values: seq<Entry>) {
    forall i, j :: 0 <= i < |values| && 0 <= j < |values| && i != j ==> !Under(values[i].key, values[j].key)
  }

  ghost predicate AllPlain(values: seq<Entry>) {
    forall i :: 0 <= i < |values| ==> Plain(values[i].key)
  }

  ghost predicate AllSavable(declared: set<Text>, values: seq<Entry>) {
    forall i :: 0 <= i < |values| ==> Savable(declared, values[i])
  }

  lemma KeysApart(declared: set<Text>, values: seq<Entry>)
    requires values != [] && PrefixFree(values) && AllSavable(declared, values)
    ensures Apart(declared, MapOf(values[..|values| - 1]).Keys, values[|values| - 1].key)
  {
    hide MapOf, Under;
    var n := |values| - 1;
    var front := values[..n];
    forall key | key in MapOf(front) ensures !Under(key, values[n].key) && !Under(values[n].key, key) {
      var i := MapHasOnly(front, key);
      assert values[i] == front[i];
    }
    assert Savable(declared, values[n]);
  }

  lemma {:induction false} SavedComesBack(declared: set<Text>, values: seq<Entry>)
    requires PrefixFree(values) && AllPlain(values) && AllSavable(declared, values)
    ensures Flatten(declared, AssignAll(values), []) == MapOf(values)
    ensures Clean(declared, AssignAll(values), []) && Filled(declared, AssignAll(values), [])
  {
    hide Clean, Filled, Flatten, Under, Split, Assign, Free, Path, Apart, Serializable;
    if values == [] {
      NothingIsClean(declared, []);
    } else {
      var n := |values| - 1;
      var front, last := values[..n], values[n];
      var parts := Split(DOT, last.key);
      SavedComesBack(declared, front);
      PathOfSplit(last.key);
      PiecesAreWhole(DOT, last.key);
      KeysApart(declared, values);
      assert Savable(declared, last);
      FreeWhenApart(declared, AssignAll(front), [], parts);
      FlattenAssign(declared, AssignAll(front), [], parts, last.item);
    }
  }

  /** Without dots in the keys nothing is nested, whichever branch is taken. */
  lemma {:induction false} UndottedIsFlat(values: seq<Entry>)
    requires DistinctKeys(values) && !Dotted(values)
    ensures AssignAll(values) == SerializableEntries(values)
  {
    if values != [] {
      var n := |values| - 1;
      var front, last := values[..n], values[n];
      assert !Dotted(front) && DOT !in last.key;
      UndottedIsFlat(front);
      UndottedSplit(last.key);
      assert !Has(AssignAll(front), last.key);
    }
  }

  lemma {:induction false} UndottedSplit(key: Text)
    requires DOT !in key
    ensures Split(DOT, key) == [key]
  {
    if key != [] {
      UndottedSplit(key[1..]);
      assert [key[0]] + key[1..] == key;
    }
  }

  // ----- and only then -----

  /** However values are assigned, the tree stays clean. */
  lemma {:induction false} AssignKeepsClean(declared: set<Text>, entries: seq<Entry>, prefix: Text, parts: seq<Text>, value: Value)
    requires parts != [] && Clean(declared, entries, prefix) && (forall p :: p in parts ==> DOT !in p)
    requires |parts| > 1 ==> Full(prefix, parts[0]) != []
    requires value.Dict? ==> Path(prefix, parts) in declared
    ensures Clean(declared, Assign(entries, parts, value), prefix)
    decreases |parts|
  {
    hide Clean, Serializable;
    var full, i := Full(prefix, parts[0]), IndexOf(entries, parts[0]);
    var e: Entry;
    if |parts| == 1 {
      e := Entry(parts[0], Serializable(value));
      SerializableDict(value);
      assert Path(prefix, parts) == Path(full, []);
    } else {
      var child := if i < |entries| && entries[i].item.Dict? then entries[i].item.entries else [];
      e := Entry(parts[0], Dict(Assign(child, parts[1..], value)));
      if full !in declared {
        if i < |entries| && entries[i].item.Dict? {
          CleanChild(declared, entries, prefix, i);
        } else {
          NothingIsClean(declared, full);
        }
        FullIsUnder(full, parts[1]);
        AssignKeepsClean(declared, child, full, parts[1..], value);
      }
    }
    if i < |entries| {
      CleanReplace(declared, entries, prefix, i, e);
    } else {
      CleanAppend(declared, entries, prefix, e);
    }
  }

  lemma {:induction false} AssignedIsClean(declared: set<Text>, values: seq<Entry>)
    requires AllPlain(values) && forall i :: 0 <= i < |values| ==> values[i].item.Dict? ==> values[i].key in declared
    ensures Clean(declared, AssignAll(values), [])
  {
    hide Clean, Split, Assign, Path;
    if values == [] {
      NothingIsClean(declared, []);
    } else {
      var front, last := values[..|values| - 1], values[|values| - 1];
      AssignedIsClean(declared, front);
      PathOfSplit(last.key);
      PiecesAreWhole(DOT, last.key);
      AssignKeepsClean(declared, AssignAll(front), [], Split(DOT, last.key), last.item);
    }
  }

  /** An undeclared dictionary is never a flat value. */
  lemma {:induction false} FlatDictIsDeclared(declared: set<Text>, entries: seq<Entry>, prefix: Text, key: Text)
    requires key in Flatten(declared, entries, prefix) && Flatten(declared, entries, prefix)[key].Dict?
    ensures key in declared
    decreases entries
  {
    var front, e := entries[..|entries| - 1], entries[|entries| - 1];
    if key !in Piece(declared, e, prefix) {
      FlatDictIsDeclared(declared, front, prefix, key);
    } else if Opens(declared, e.item, Full(prefix, e.key)) {
      FlatDictIsDeclared(declared, e.item.entries, Full(prefix, e.key), key);
    }
  }

  /** What ends inside the last segment of a key has a dot there. */
  lemma DotInSegment(prefix: Text, segment: Text, d: Text)
    requires Under(d, Full(prefix, segment)) && d != Full(prefix, segment)
    ensures prefix == [] || |d| > |prefix| ==> DOT in segment
  {
    var full := Full(prefix, segment);
    if prefix == [] {
      assert segment[|d|] == DOT;
    } else if |d| > |prefix| {
      assert full[|d|] == segment[|d| - |prefix| - 1];
    }
  }

  /** What lies above a key lies above its prefix, or is the key itself. */
  lemma NothingBetween(prefix: Text, segment: Text, d: Text)
    requires DOT !in segment && Under(d, Full(prefix, segment)) && d != Full(prefix, segment)
    ensures prefix != [] && Under(d, prefix)
  {
    DotInSegment(prefix, segment, d);
    var full := Full(prefix, segment);
    assert d == full[..|d|] == prefix[..|d|];
    assert |d| < |prefix| ==> prefix[|d|] == full[|d|];
  }

  /** Flat keys have no declared key above them. */
  lemma {:induction false} NothingDeclaredAbove(declared: set<Text>, e: Entry, prefix: Text, key: Text, d: Text)
    requires CleanEntry(declared, e, prefix) && key in Piece(declared, e, prefix)
    requires d in declared && Under(d, key) && d != key
    ensures prefix != [] && Under(d, prefix)
    decreases e
  {
    var full := Full(prefix, e.key);
    if Opens(declared, e.item, full) {
      var i := FlatKeyHasEntry(declared, e.item.entries, full, key);
      NothingDeclaredAbove(declared, e.item.entries[i], full, key, d);
    }
    NothingBetween(prefix, e.key, d);
  }

  lemma SameEntry(declared: set<Text>, entries: seq<Entry>, prefix: Text, i: nat, j: nat, a: Text, b: Text)
    requires Clean(declared, entries, prefix) && i < |entries| && j < |entries|
    requires a in Piece(declared, entries[i], prefix) && b in Piece(declared, entries[j], prefix) && Under(a, b)
    ensures i == j
  {
    hide Under, Piece;
    PieceIsUnder(declared, entries[i], prefix, a);
    PieceIsUnder(declared, entries[j], prefix, b);
    UnderTransitive(Full(prefix, entries[i].key), a, b);
    SameSegment(prefix, entries[i].key, entries[j].key, b);
  }

  /** Flat keys are not under one another. */
  lemma {:induction false} FlatKeysApart(declared: set<Text>, entries: seq<Entry>, prefix: Text, a: Text, b: Text)
    requires Clean(declared, entries, prefix)
    requires a in Flatten(declared, entries, prefix) && b in Flatten(declared, entries, prefix) && Under(a, b)
    ensures a == b
    decreases entries
  {
    hide Under, Flatten;
    var i := FlatKeyHasEntry(declared, entries, prefix, a);
    var j := FlatKeyHasEntry(declared, entries, prefix, b);
    SameEntry(declared, entries, prefix, i, j, a, b);
    var full := Full(prefix, entries[i].key);
    if Opens(declared, entries[i].item, full) {
      FlatKeysApart(declared, entries[i].item.entries, full, a, b);
    }
  }

  lemma CameBackSavable(declared: set<Text>, values: seq<Entry>, i: nat)
    requires DistinctKeys(values) && AllPlain(values) && i < |values|
    requires Flatten(declared, AssignAll(values), []) == MapOf(values)
    ensures values[i].item.Dict? ==> values[i].key in declared
  {
    hide Flatten, AssignAll, MapOf, Serializable;
    MapHas(values, i);
    SerializableDict(values[i].item);
    if values[i].item.Dict? {
      FlatDictIsDeclared(declared, AssignAll(values), [], values[i].key);
    }
  }

  lemma CameBack(declared: set<Text>, values: seq<Entry>)
    requires DistinctKeys(values) && AllPlain(values)
    requires Flatten(declared, AssignAll(values), []) == MapOf(values)
    ensures PrefixFree(values) && AllSavable(declared, values)
  {
    hide Flatten, AssignAll, MapOf, Serializable, Clean, Under;
    var tree := AssignAll(values);
    forall i | 0 <= i < |values| ensures values[i].item.Dict? ==> values[i].key in declared {
      CameBackSavable(declared, values, i);
    }
    AssignedIsClean(declared, values);
    forall i | 0 <= i < |values| ensures Savable(declared, values[i]) {
      MapHas(values, i);
      var key := values[i].key;
      var k := FlatKeyHasEntry(declared, tree, [], key);
      CleanAt(declared, tree, [], k);
      forall d | d in declared && Under(d, key) ensures d == key {
        if d != key {
          NothingDeclaredAbove(declared, tree[k], [], key, d);
        }
      }
    }
    forall i, j | 0 <= i < |values| && 0 <= j < |values| && i != j ensures !Under(values[i].key, values[j].key) {
      MapHas(values, i);
      MapHas(values, j);
      if Under(values[i].key, values[j].key) {
        FlatKeysApart(declared, tree, [], values[i].key, values[j].key);
      }
    }
  }

  /** Saved settings, flattened as when they are loaded, are the settings again, with lists for
      tuples, exactly when no key goes on from another or from a declared key, and dictionaries
      stand under declared keys only.  Keys that begin with a dot are left out: see `LeadingDot`. */
  lemma RoundTrip(declared: set<Text>, values: seq<Entry>)
    requires DistinctKeys(values) && AllPlain(values)
    ensures HasAll(values, Flatten(declared, NestedFromInput(values), []))
            <==> PrefixFree(values) && AllSavable(declared, values)
  {
    HasAllIsMapOf(values, Flatten(declared, NestedFromInput(values), []));
    hide HasAll, Flatten, AssignAll, MapOf, Serializable, SerializableEntries, PrefixFree, AllSavable, AllPlain;
    if !Dotted(values) {
      UndottedIsFlat(values);
    }
    if PrefixFree(values) && AllSavable(declared, values) {
      SavedComesBack(declared, values);
    }
    if Flatten(declared, AssignAll(values), []) == MapOf(values) {
      CameBack(declared, values);
    }
  }

  /** A setting whose key has one dot, in both forms. */
  lemma DotNests(text: string)
    ensures var a: Text, b: Text := ['a' as int], ['b' as int];
            var values := [Entry(a + ['.' as int] + b, Atom(text))];
            NestedFromInput(values) == [Entry(a, Dict([Entry(b, Atom(text))]))]
  {
    var a: Text, b: Text := ['a' as int], ['b' as int];
    var key := a + ['.' as int] + b;
    var values := [Entry(key, Atom(text))];
    assert DOT in values[0].key by {
      assert key[1] == DOT;
    }
    assert forall p: Text :: p in [a, b] ==> DOT !in p;
    assert Join(DOT, [b]) == b && Join(DOT, [a, b]) == key by {
      OneLine(DOT, [b]);
      JoinCons(DOT, a, [b]);
      assert [a] + [b] == [a, b];
    }
    SplitJoin(DOT, [a, b]);
    assert [a, b][1..] == [b];
    assert Assign([], [b], Atom(text)) == [Entry(b, Atom(text))];
    assert Assign([], [a, b], Atom(text)) == [Entry(a, Dict([Entry(b, Atom(text))]))];
    assert values[..0] == [] && AssignAll([]) == [];
  }

  // ----- keys that begin with a dot -----

  /** No name inside a dictionary has a dot. */
  predicate Undotted(v: Value)
    decreases v
  {
    v.Dict? ==> UndottedEntries(v.entries)
  }

  predicate UndottedEntries(entries: seq<Entry>)
    decreases entries
  {
    forall i :: 0 <= i < |entries| ==> DOT !in entries[i].key && Undotted(entries[i].item)
  }

  lemma {:induction false} SerializableStaysUndotted(v: Value)
    requires Undotted(v)
    ensures Undotted(Serializable(v))
    decreases v, 1
  {
    if v.Dict? {
      EntriesStayUndotted(v.entries);
    }
  }

  lemma {:induction false} EntriesStayUndotted(entries: seq<Entry>)
    requires UndottedEntries(entries)
    ensures UndottedEntries(SerializableEntries(entries))
    decreases entries, 0
  {
    if entries != [] {
      var last := entries[|entries| - 1];
      EntriesStayUndotted(entries[..|entries| - 1]);
      SerializableStaysUndotted(last.item);
    }
  }

  lemma {:induction false} AssignStaysUndotted(entries: seq<Entry>, parts: seq<Text>, value: Value)
    requires parts != [] && UndottedEntries(entries) && Undotted(value) && (forall p :: p in parts ==> DOT !in p)
    ensures UndottedEntries(Assign(entries, parts, value))
    decreases |parts|
  {
    if |parts| == 1 {
      SerializableStaysUndotted(value);
    } else {
      var i := IndexOf(entries, parts[0]);
      var child := if i < |entries| && entries[i].item.Dict? then entries[i].item.entries else [];
      assert UndottedEntries(child) by {
        if i < |entries| {
          assert Undotted(entries[i].item);
        }
      }
      AssignStaysUndotted(child, parts[1..], value);
    }
  }

  lemma {:induction false} AllStaysUndotted(values: seq<Entry>)
    requires forall i :: 0 <= i < |values| ==> Undotted(values[i].item)
    ensures UndottedEntries(AssignAll(values))
  {
    hide Assign, Split, Undotted, UndottedEntries;
    if values == [] {
      NothingIsUndotted();
    } else {
      var last := values[|values| - 1];
      AllStaysUndotted(values[..|values| - 1]);
      PiecesAreWhole(DOT, last.key);
      AssignStaysUndotted(AssignAll(values[..|values| - 1]), Split(DOT, last.key), last.item);
    }
  }

  lemma NothingIsUndotted()
    ensures UndottedEntries([])
  {}

  /** A dot at the beginning of a flat key can only come from the name of an entry. */
  lemma {:induction false} FlatKeyIsPlain(declared: set<Text>, entries: seq<Entry>, prefix: Text, key: Text)
    requires UndottedEntries(entries) && Plain(prefix) && key in Flatten(declared, entries, prefix)
    ensures Plain(key)
    decreases entries
  {
    var i := FlatKeyHasEntry(declared, entries, prefix, key);
    var full := Full(prefix, entries[i].key);
    assert Undotted(entries[i].item);
    assert Plain(full);
    if Opens(declared, entries[i].item, full) {
      FlatKeyIsPlain(declared, entries[i].item.entries, full, key);
    }
  }

  /** The exact condition for the keys of any settings, when the names inside dictionaries have no
      dots: a key that begins with a dot never comes back. */
  lemma LeadingDot(declared: set<Text>, values: seq<Entry>)
    requires DistinctKeys(values) && forall i :: 0 <= i < |values| ==> Undotted(values[i].item)
    ensures HasAll(values, Flatten(declared, NestedFromInput(values), []))
            <==> AllPlain(values) && PrefixFree(values) && AllSavable(declared, values)
  {
    HasAllIsMapOf(values, Flatten(declared, NestedFromInput(values), []));
    hide HasAll, Flatten, AssignAll, MapOf, Serializable, SerializableEntries, PrefixFree, AllSavable, Undotted, UndottedEntries;
    if !Dotted(values) {
      UndottedIsFlat(values);
    }
    AllStaysUndotted(values);
    if Flatten(declared, NestedFromInput(values), []) == MapOf(values) {
      forall i | 0 <= i < |values| ensures Plain(values[i].key) {
        MapHas(values, i);
        FlatKeyIsPlain(declared, AssignAll(values), [], values[i].key);
      }
    }
    if AllPlain(values) {
      RoundTrip(declared, values);
    }
  }
}
