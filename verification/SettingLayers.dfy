/** Settings resolved from layers of increasing strength. */
module SettingLayers {
  import opened Prelude
  import opened CodePoints
  import Settings

  type Value = Settings.Value
  type Entry = Settings.Entry

  datatype Layer = Default | Global | Project | Environment | Cli | Runtime

  /** A declared setting; `coerce` gives None where the source raises. */
  datatype Spec = Spec(default: Value, coerce: Value -> Option<Value>, validate: Value -> bool)

  datatype Sources = Sources(
    global: Option<seq<Entry>>,
    project: Option<seq<Entry>>,
    environment: map<Text, Value>,
    cli: Option<seq<Entry>>,
    runtime: Option<seq<Entry>>)

  datatype Input = Input(layer: Layer, mapping: map<Text, Value>)

  datatype Snapshot = Snapshot(values: map<Text, Value>, origins: map<Text, Layer>, warnings: set<(Layer, Text)>)

  function FromEntries(declared: set<Text>, layer: Layer, entries: Option<seq<Entry>>): seq<Input> {
    if entries.None? then [] else [Input(layer, Settings.Flatten(declared, entries.value, []))]
  }

  /** The layers that are there, the weakest first. */
  function Inputs(declared: set<Text>, sources: Sources): seq<Input> {
    FromEntries(declared, Global, sources.global) + FromEntries(declared, Project, sources.project)
    + [Input(Environment, sources.environment)]
    + FromEntries(declared, Cli, sources.cli) + FromEntries(declared, Runtime, sources.runtime)
  }

  function Strength(layer: Layer): nat {
    match layer
    case Default => 0
    case Global => 1
    case Project => 2
    case Environment => 3
    case Cli => 4
    case Runtime => 5
  }

  function NestedSource(sources: Sources, layer: Layer): Option<seq<Entry>> {
    match layer
    case Global => sources.global
    case Project => sources.project
    case Cli => sources.cli
    case Runtime => sources.runtime
    case _ => None
  }

  /** Stronger layers come later, and each is there exactly when its source is, flattened. */
  lemma LayersAscend(declared: set<Text>, sources: Sources)
    ensures var inputs := Inputs(declared, sources);
            && (forall i, j :: 0 <= i < j < |inputs| ==> Strength(inputs[i].layer) < Strength(inputs[j].layer))
            && (forall input :: input in inputs <==>
                  || input == Input(Environment, sources.environment)
                  || (NestedSource(sources, input.layer).Some?
                      && input.mapping == Settings.Flatten(declared, NestedSource(sources, input.layer).value, [])))
  {
    hide Strength, FromEntries;
    forall layer, entries, input ensures input in FromEntries(declared, layer, entries) <==>
      entries.Some? && input == Input(layer, Settings.Flatten(declared, entries.value, []))
    {
      InEntries(declared, layer, entries, input);
    }
    InputsAscend(declared, sources);
    var global, project := FromEntries(declared, Global, sources.global), FromEntries(declared, Project, sources.project);
    var cli, runtime := FromEntries(declared, Cli, sources.cli), FromEntries(declared, Runtime, sources.runtime);
    forall input ensures input in Inputs(declared, sources) <==>
      input in global || input in project || input == Input(Environment, sources.environment) || input in cli || input in runtime {}
  }

  lemma InEntries(declared: set<Text>, layer: Layer, entries: Option<seq<Entry>>, input: Input)
    ensures input in FromEntries(declared, layer, entries) <==>
            entries.Some? && input == Input(layer, Settings.Flatten(declared, entries.value, []))
  {}

  lemma InputsAscend(declared: set<Text>, sources: Sources)
    ensures var inputs := Inputs(declared, sources);
            forall i, j :: 0 <= i < j < |inputs| ==> Strength(inputs[i].layer) < Strength(inputs[j].layer)
  {}

  function Accepted(spec: Spec, raw: Value): Option<Value> {
    var value := spec.coerce(raw);
    if value.Some? && spec.validate(value.value) then value else None
  }

  predicate Taken(specs: map<Text, Spec>, strict: bool, key: Text, raw: Value) {
    if key in specs then Accepted(specs[key], raw).Some? else !strict
  }

  /** The strongest layer that sets a key. */
  function Strongest(inputs: seq<Input>, key: Text): (r: Option<nat>)
    ensures r.Some? ==> r.value < |inputs| && key in inputs[r.value].mapping
    ensures r.Some? ==> forall i :: r.value < i < |inputs| ==> key !in inputs[i].mapping
    ensures r.None? ==> forall i :: 0 <= i < |inputs| ==> key !in inputs[i].mapping
  {
    if inputs == [] then None
    else if key in inputs[|inputs| - 1].mapping then Some(|inputs| - 1)
    else Strongest(inputs[..|inputs| - 1], key)
  }

  ghost predicate AllTaken(specs: map<Text, Spec>, strict: bool, mapping: map<Text, Value>) {
    forall key :: key in mapping ==> Taken(specs, strict, key, mapping[key])
  }

  lemma StrongestSnoc(inputs: seq<Input>, input: Input, key: Text)
    ensures Strongest(inputs + [input], key) == if key in input.mapping then Some(|inputs|) else Strongest(inputs, key)
  {
    assert (inputs + [input])[..|inputs|] == inputs;
  }

  lemma TakenSnoc(specs: map<Text, Spec>, strict: bool, mapping: map<Text, Value>, key: Text, raw: Value)
    requires key !in mapping
    ensures AllTaken(specs, strict, mapping[key := raw]) <==> AllTaken(specs, strict, mapping) && Taken(specs, strict, key, raw)
  {
    hide Taken;
    var more := mapping[key := raw];
    assert forall k :: k in mapping ==> more[k] == mapping[k];
    assert more[key] == raw;
  }

  // ----- one layer -----

  ghost predicate Complete(specs: map<Text, Spec>, s: Snapshot) {
    s.values.Keys == s.origins.Keys == specs.Keys
  }

  /** What one setting becomes under one more layer. */
  ghost predicate SetBy(spec: Spec, input: Input, key: Text, before: Snapshot, after: Snapshot)
    requires key in before.values && key in before.origins && key in after.values && key in after.origins
  {
    if key in input.mapping then Accepted(spec, input.mapping[key]) == Some(after.values[key]) && after.origins[key] == input.layer
    else after.values[key] == before.values[key] && after.origins[key] == before.origins[key]
  }

  predicate UnknownIn(specs: map<Text, Spec>, input: Input, w: (Layer, Text)) {
    w.0 == input.layer && w.1 in input.mapping && w.1 !in specs
  }

  ghost predicate Warned(specs: map<Text, Spec>, input: Input, before: set<(Layer, Text)>, after: set<(Layer, Text)>) {
    forall w :: w in after <==> w in before || UnknownIn(specs, input, w)
  }

  ghost predicate Over(specs: map<Text, Spec>, input: Input, before: Snapshot, after: Snapshot) {
    && Complete(specs, before) && Complete(specs, after)
    && (forall key :: key in specs ==> SetBy(specs[key], input, key, before, after))
    && Warned(specs, input, before.warnings, after.warnings)
  }

  lemma OverNothing(specs: map<Text, Spec>, layer: Layer, before: Snapshot)
    requires Complete(specs, before)
    ensures Over(specs, Input(layer, map[]), before, before)
  {}

  lemma OverKnown(specs: map<Text, Spec>, input: Input, before: Snapshot, s: Snapshot, key: Text, raw: Value, value: Value)
    requires Over(specs, input, before, s) && key in specs && key !in input.mapping && Accepted(specs[key], raw) == Some(value)
    ensures Over(specs, input.(mapping := input.mapping[key := raw]), before,
                 s.(values := s.values[key := value], origins := s.origins[key := input.layer]))
  {
    hide Accepted;
  }

  lemma OverUnknown(specs: map<Text, Spec>, input: Input, before: Snapshot, s: Snapshot, key: Text, raw: Value)
    requires Over(specs, input, before, s) && key !in specs
    ensures Over(specs, input.(mapping := input.mapping[key := raw]), before, s.(warnings := s.warnings + {(input.layer, key)}))
  {
    hide Accepted;
  }

  /** `_apply_mapping`: errors are collected and raised at the end. */
  method ApplyMapping(specs: map<Text, Spec>, before: Snapshot, input: Input, strict: bool) returns (result: Option<Snapshot>)
    requires Complete(specs, before)
    ensures result.Some? <==> AllTaken(specs, strict, input.mapping)
    ensures result.Some? ==> Over(specs, input, before, result.value)
  {
    hide Over, AllTaken;
    var s, failed := before, false;
    var keys := input.mapping.Keys;
    ghost var seen: map<Text, Value> := map[];
    OverNothing(specs, input.layer, before);
    NothingTaken(specs, strict);
    while keys != {}
      invariant keys !! seen.Keys && keys + seen.Keys == input.mapping.Keys
      invariant forall k :: k in seen ==> seen[k] == input.mapping[k]
      invariant failed <==> !AllTaken(specs, strict, seen)
      invariant Complete(specs, s)
      invariant !failed ==> Over(specs, Input(input.layer, seen), before, s)
      decreases keys
    {
      ghost var any := Inhabited(keys);
      var key :| key in keys;
      var raw := input.mapping[key];
      TakenSnoc(specs, strict, seen, key, raw);
      ghost var done := Input(input.layer, seen);
      keys, seen := keys - {key}, seen[key := raw];
      if key !in specs {
        if strict {
          failed := true;
        } else {
          if !failed {
            OverUnknown(specs, done, before, s, key, raw);
          }
          s := s.(warnings := s.warnings + {(input.layer, key)});
        }
        continue;
      }
      var value := specs[key].coerce(raw);
      if value.None? {
        failed := true;
        continue;
      }
      if !specs[key].validate(value.value) {
        failed := true;
        continue;
      }
      if !failed {
        OverKnown(specs, done, before, s, key, raw, value.value);
      }
      s := s.(values := s.values[key := value.value], origins := s.origins[key := input.layer]);
    }
    assert seen == input.mapping;
    if failed {
      return None;
    }
    return Some(s);
  }

  lemma NothingTaken(specs: map<Text, Spec>, strict: bool)
    ensures AllTaken(specs, strict, map[])
  {}

  // ----- all layers -----

  /** A setting has the value that the strongest layer setting it gives, and names that layer. */
  ghost predicate FromStrongest(spec: Spec, inputs: seq<Input>, key: Text, value: Value, origin: Layer) {
    match Strongest(inputs, key)
    case None => value == spec.default && origin == Default
    case Some(i) => Accepted(spec, inputs[i].mapping[key]) == Some(value) && origin == inputs[i].layer
  }

  ghost predicate UnknownSomewhere(specs: map<Text, Spec>, inputs: seq<Input>, w: (Layer, Text)) {
    exists i :: 0 <= i < |inputs| && UnknownIn(specs, inputs[i], w)
  }

  ghost predicate Resolved(specs: map<Text, Spec>, inputs: seq<Input>, s: Snapshot) {
    && Complete(specs, s)
    && (forall key :: key in specs ==> FromStrongest(specs[key], inputs, key, s.values[key], s.origins[key]))
    && (forall w :: w in s.warnings <==> UnknownSomewhere(specs, inputs, w))
  }

  lemma UnknownSnoc(specs: map<Text, Spec>, inputs: seq<Input>, input: Input, w: (Layer, Text))
    ensures UnknownSomewhere(specs, inputs + [input], w) <==> UnknownSomewhere(specs, inputs, w) || UnknownIn(specs, input, w)
  {
    hide UnknownIn;
    var more := inputs + [input];
    assert more[|inputs|] == input;
    assert forall i :: 0 <= i < |inputs| ==> more[i] == inputs[i];
    if i :| 0 <= i < |inputs| && UnknownIn(specs, inputs[i], w) {
      assert UnknownIn(specs, more[i], w);
    }
  }

  lemma StrongestStep(specs: map<Text, Spec>, inputs: seq<Input>, input: Input, before: Snapshot, after: Snapshot, key: Text)
    requires Complete(specs, before) && Complete(specs, after) && key in specs
    requires FromStrongest(specs[key], inputs, key, before.values[key], before.origins[key])
    requires SetBy(specs[key], input, key, before, after)
    ensures FromStrongest(specs[key], inputs + [input], key, after.values[key], after.origins[key])
  {
    hide Strongest, Accepted;
    StrongestSnoc(inputs, input, key);
  }

  lemma ResolvedSnoc(specs: map<Text, Spec>, inputs: seq<Input>, input: Input, before: Snapshot, after: Snapshot)
    requires Resolved(specs, inputs, before) && Over(specs, input, before, after)
    ensures Resolved(specs, inputs + [input], after)
  {
    hide FromStrongest, SetBy, UnknownSomewhere, UnknownIn;
    forall key | key in specs ensures FromStrongest(specs[key], inputs + [input], key, after.values[key], after.origins[key]) {
      StrongestStep(specs, inputs, input, before, after, key);
    }
    forall w ensures w in after.warnings <==> UnknownSomewhere(specs, inputs + [input], w) {
      UnknownSnoc(specs, inputs, input, w);
    }
  }

  /** `resolve`; `crossFields` is the check of the values together. */
  method Resolve(specs: map<Text, Spec>, declared: set<Text>, sources: Sources, strict: bool, crossFields: map<Text, Value> -> bool)
    returns (result: Option<Snapshot>)
    ensures var inputs := Inputs(declared, sources);
            if result.Some? then
              && (forall i :: 0 <= i < |inputs| ==> AllTaken(specs, strict, inputs[i].mapping))
              && Resolved(specs, inputs, result.value) && crossFields(result.value.values)
            else
              || (exists i :: 0 <= i < |inputs| && !AllTaken(specs, strict, inputs[i].mapping))
              || (exists s :: Resolved(specs, inputs, s) && !crossFields(s.values))
  {
    hide Resolved, AllTaken, Over, Inputs, Complete;
    var s := Snapshot(map k | k in specs :: specs[k].default, map k | k in specs :: Default, {});
    DefaultsResolved(specs, s);
    ResolvedIsComplete(specs, [], s);
    var inputs := Inputs(declared, sources);
    for n := 0 to |inputs|
      invariant Resolved(specs, inputs[..n], s) && Complete(specs, s)
      invariant forall i :: 0 <= i < n ==> AllTaken(specs, strict, inputs[i].mapping)
    {
      var after := ApplyMapping(specs, s, inputs[n], strict);
      if after.None? {
        assert !AllTaken(specs, strict, inputs[n].mapping);
        return None;
      }
      ResolvedSnoc(specs, inputs[..n], inputs[n], s, after.value);
      assert inputs[..n + 1] == inputs[..n] + [inputs[n]];
      s := after.value;
      ResolvedIsComplete(specs, inputs[..n + 1], s);
    }
    assert inputs[..|inputs|] == inputs;
    if !crossFields(s.values) {
      assert Resolved(specs, inputs, s);
      return None;
    }
    return Some(s);
  }

  lemma DefaultsResolved(specs: map<Text, Spec>, s: Snapshot)
    requires s == Snapshot(map k | k in specs :: specs[k].default, map k | k in specs :: Default, {})
    ensures Resolved(specs, [], s)
  {}

  lemma ResolvedIsComplete(specs: map<Text, Spec>, inputs: seq<Input>, s: Snapshot)
    requires Resolved(specs, inputs, s)
    ensures Complete(specs, s)
  {}

  lemma SameSetting(specs: map<Text, Spec>, inputs: seq<Input>, a: Snapshot, b: Snapshot, key: Text)
    requires Resolved(specs, inputs, a) && Resolved(specs, inputs, b) && key in specs
    ensures a.values[key] == b.values[key] && a.origins[key] == b.origins[key]
  {
    hide Strongest, Accepted, UnknownSomewhere;
    assert FromStrongest(specs[key], inputs, key, a.values[key], a.origins[key]);
    assert FromStrongest(specs[key], inputs, key, b.values[key], b.origins[key]);
  }

  /** The layers determine what is resolved from them. */
  lemma ResolvedIsUnique(specs: map<Text, Spec>, inputs: seq<Input>, a: Snapshot, b: Snapshot)
    requires Resolved(specs, inputs, a) && Resolved(specs, inputs, b)
    ensures a == b
  {
    hide FromStrongest, UnknownSomewhere;
    forall key | key in specs ensures a.values[key] == b.values[key] && a.origins[key] == b.origins[key] {
      SameSetting(specs, inputs, a, b, key);
    }
    assert a.values == b.values && a.origins == b.origins && a.warnings == b.warnings;
  }
}
