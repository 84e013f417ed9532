/** The JSON Schema subset against which tool arguments are validated. */
module Schema {
  import opened Prelude
  import opened JsonValues

  /** `re.search(pattern, value) is not None`. */
  type Search = (string, string) -> bool

  // ----- what a schema means -----

  ghost predicate SchemaList(j: Json) {
    j.Arr? && forall i :: 0 <= i < |j.items| ==> j.items[i].Obj?
  }

  ghost predicate Same(a: Json, b: Json) {
    Normal(a) == Normal(b)
  }

  /** `_json_type`. */
  function TypeName(value: Json): string {
    match value
    case Null => "null"
    case Bool(_) => "boolean"
    case Int(_) => "integer"
    case Float(_) => "number"
    case Str(_) => "string"
    case Arr(_) => "array"
    case Obj(_) => "object"
  }

  /** A value has its own type's name; integers are numbers too. */
  ghost predicate IsNamed(value: Json, name: string) {
    name == TypeName(value) || (value.Int? && name == "number")
  }

  /** `schema["type"]`, where one name stands for a list of it; a missing type or null allows all. */
  ghost predicate TypeHolds(value: Json, expected: Json) {
    match expected
    case Null => true
    case Str(name) => IsNamed(value, name)
    case Arr(names) =>
      && (forall i :: 0 <= i < |names| ==> names[i].Str?)
      && (exists i :: 0 <= i < |names| && IsNamed(value, names[i].s))
    case _ => false
  }

  ghost predicate ValueHolds(value: Json, fields: Fields) {
    && ("const" in fields ==> Same(value, fields["const"]))
    && ("enum" in fields ==> fields["enum"].Arr? && exists i :: 0 <= i < |fields["enum"].items| && Same(value, fields["enum"].items[i]))
    && ("type" in fields ==> TypeHolds(value, fields["type"]))
  }

  /** A limit on a size counts when it is an `int`, which a truth value is too. */
  ghost predicate LimitIs(fields: Fields, key: string, n: int) {
    key in fields && (fields[key] == Int(n) || (fields[key] == Bool(true) && n == 1) || (fields[key] == Bool(false) && n == 0))
  }

  ghost predicate SizeHolds(size: nat, fields: Fields, minimum: string, maximum: string) {
    && (forall n :: LimitIs(fields, minimum, n) ==> n <= size)
    && (forall n :: LimitIs(fields, maximum, n) ==> size <= n)
  }

  /** A bound on a number counts when it is one. */
  ghost predicate BoundIs(fields: Fields, key: string, x: real) {
    key in fields && ((fields[key].Int? && x == fields[key].n as real) || fields[key] == Float(x))
  }

  ghost predicate RangeHolds(value: real, fields: Fields) {
    && (forall x :: BoundIs(fields, "minimum", x) ==> x <= value)
    && (forall x :: BoundIs(fields, "maximum", x) ==> value <= x)
    && (forall x :: BoundIs(fields, "exclusiveMinimum", x) ==> x < value)
    && (forall x :: BoundIs(fields, "exclusiveMaximum", x) ==> value < x)
  }

  ghost predicate StringHolds(value: string, fields: Fields, search: Search) {
    && SizeHolds(|value|, fields, "minLength", "maxLength")
    && ("pattern" in fields && fields["pattern"].Str? ==> search(fields["pattern"].s, value))
  }

  ghost predicate Unique(items: seq<Json>) {
    forall i, j :: 0 <= i < j < |items| ==> !Same(items[i], items[j])
  }

  ghost predicate RequiredHolds(value: Fields, fields: Fields) {
    "required" in fields ==>
      fields["required"].Arr? &&
      forall i :: 0 <= i < |fields["required"].items| && fields["required"].items[i].Str? ==> fields["required"].items[i].s in value
  }

  ghost predicate Holds(value: Json, schema: Json, search: Search)
    requires schema.Obj?
    decreases schema, 2
  {
    && CombinatorsHold(value, schema, search)
    && ValueHolds(value, schema.fields)
    && (value.Obj? ==> ObjectHolds(value.fields, schema, search))
    && (value.Arr? ==> ArrayHolds(value.items, schema, search))
    && (value.Str? ==> StringHolds(value.s, schema.fields, search))
    && (value.Int? ==> RangeHolds(value.n as real, schema.fields))
    && (value.Float? ==> RangeHolds(value.x, schema.fields))
  }

  ghost predicate CombinatorsHold(value: Json, schema: Json, search: Search)
    requires schema.Obj?
    decreases schema, 1
  {
    var s := schema.fields;
    && ("allOf" in s ==> SchemaList(s["allOf"]) && forall i :: 0 <= i < |s["allOf"].items| ==> Holds(value, s["allOf"].items[i], search))
    && ("anyOf" in s ==> SchemaList(s["anyOf"]) && exists i :: 0 <= i < |s["anyOf"].items| && Holds(value, s["anyOf"].items[i], search))
    && ("oneOf" in s ==> SchemaList(s["oneOf"]) && ExactlyOne(value, s["oneOf"], search))
    && ("not" in s && s["not"].Obj? ==> !Holds(value, s["not"], search))
  }

  ghost predicate ExactlyOne(value: Json, list: Json, search: Search)
    requires SchemaList(list)
    decreases list, 3
  {
    exists i :: OnlyOne(value, list, i, search)
  }

  ghost predicate OnlyOne(value: Json, list: Json, i: nat, search: Search)
    requires SchemaList(list)
    decreases list, 2
  {
    && i < |list.items| && Holds(value, list.items[i], search)
    && forall j :: 0 <= j < |list.items| && j != i ==> !Holds(value, list.items[j], search)
  }

  ghost predicate ObjectHolds(value: Fields, schema: Json, search: Search)
    requires schema.Obj?
    decreases schema, 1
  {
    var s := schema.fields;
    && RequiredHolds(value, s)
    && ("properties" in s ==> s["properties"].Obj?)
    && (forall key :: key in value ==> PropertyHolds(value, schema, key, search))
    && SizeHolds(|value|, s, "minProperties", "maxProperties")
  }

  ghost predicate ArrayHolds(items: seq<Json>, schema: Json, search: Search)
    requires schema.Obj?
    decreases schema, 1
  {
    var s := schema.fields;
    && SizeHolds(|items|, s, "minItems", "maxItems")
    && ("uniqueItems" in s && s["uniqueItems"] == Bool(true) ==> Unique(items))
    && ("items" in s && s["items"].Obj? ==> forall i :: 0 <= i < |items| ==> Holds(items[i], s["items"], search))
  }

  // ----- checking one keyword -----

  predicate IsNumber(j: Json) {
    j.Int? || j.Float?
  }

  /** `_matches_type`. */
  predicate MatchesType(value: Json, name: string) {
    || (name == "object" && value.Obj?)
    || (name == "array" && value.Arr?)
    || (name == "string" && value.Str?)
    || (name == "number" && IsNumber(value))
    || (name == "integer" && value.Int?)
    || (name == "boolean" && value.Bool?)
    || (name == "null" && value.Null?)
  }

  /** The test against a name and the name that is reported agree. */
  lemma TypeNames(value: Json, name: string)
    ensures MatchesType(value, name) <==> IsNamed(value, name)
  {}

  lemma SameIsEqual(a: Json, b: Json)
    ensures PyEqual(a, b) <==> Same(a, b)
  {
    EqualByForm(a, b);
  }

  /** `_schema_list`. */
  method IsSchemaList(j: Json) returns (ok: bool)
    ensures ok <==> SchemaList(j)
  {
    if !j.Arr? {
      return false;
    }
    for i := 0 to |j.items|
      invariant forall k :: 0 <= k < i ==> j.items[k].Obj?
    {
      if !j.items[i].Obj? {
        return false;
      }
    }
    return true;
  }

  method CheckType(value: Json, expected: Json) returns (ok: bool)
    ensures ok <==> TypeHolds(value, expected)
  {
    hide IsNamed, MatchesType;
    if expected.Null? {
      return true;
    }
    var names := if expected.Str? then [expected] else if expected.Arr? then expected.items else [];
    for i := 0 to |names|
      invariant forall k :: 0 <= k < i ==> names[k].Str?
    {
      if !names[i].Str? {
        return false;
      }
    }
    for i := 0 to |names|
      invariant forall k :: 0 <= k < i ==> !IsNamed(value, names[k].s)
    {
      TypeNames(value, names[i].s);
      if MatchesType(value, names[i].s) {
        assert expected.Str? ==> names[0] == expected;
        return true;
      }
    }
    assert expected.Str? ==> names[0] == expected;
    return false;
  }

  /** The keywords `const`, `enum` and `type`. */
  method CheckValue(value: Json, fields: Fields) returns (ok: bool)
    ensures ok <==> ValueHolds(value, fields)
  {
    hide TypeHolds, PyEqual, Same;
    if "const" in fields {
      SameIsEqual(value, fields["const"]);
      if !PyEqual(value, fields["const"]) {
        return false;
      }
    }
    if "enum" in fields {
      if !fields["enum"].Arr? {
        return false;
      }
      var found := Contains(fields["enum"].items, value);
      SameBothWays(fields["enum"].items, value);
      if !found {
        return false;
      }
    }
    if "type" in fields {
      ok := CheckType(value, fields["type"]);
      return;
    }
    return true;
  }

  lemma SameBothWays(items: seq<Json>, value: Json)
    ensures forall i :: 0 <= i < |items| ==> (Same(items[i], value) <==> Same(value, items[i]))
  {}

  /** `isinstance(limit, int)`. */
  method SizeLimit(fields: Fields, key: string) returns (limit: Option<int>)
    ensures limit.Some? ==> LimitIs(fields, key, limit.value)
    ensures forall n :: LimitIs(fields, key, n) ==> limit == Some(n)
  {
    match Get(fields, key)
    case Some(Int(n)) => return Some(n);
    case Some(Bool(b)) => return Some(if b then 1 else 0);
    case _ => return None;
  }

  /** `_check_size`. */
  method CheckSize(size: nat, fields: Fields, minimum: string, maximum: string) returns (ok: bool)
    ensures ok <==> SizeHolds(size, fields, minimum, maximum)
  {
    hide LimitIs;
    var least := SizeLimit(fields, minimum);
    var most := SizeLimit(fields, maximum);
    return !(least.Some? && size < least.value) && !(most.Some? && size > most.value);
  }

  /** A bound that is a number. */
  method Bound(fields: Fields, key: string) returns (bound: Option<real>)
    ensures bound.Some? ==> BoundIs(fields, key, bound.value)
    ensures forall x :: BoundIs(fields, key, x) ==> bound == Some(x)
  {
    var field := Get(fields, key);
    return if field.Some? && IsNumber(field.value) then Some(Number(field.value)) else None;
  }

  method CheckRange(value: real, fields: Fields) returns (ok: bool)
    ensures ok <==> RangeHolds(value, fields)
  {
    hide BoundIs;
    var minimum := Bound(fields, "minimum");
    var maximum := Bound(fields, "maximum");
    var exclusiveMinimum := Bound(fields, "exclusiveMinimum");
    var exclusiveMaximum := Bound(fields, "exclusiveMaximum");
    if minimum.Some? && value < minimum.value {
      return false;
    }
    if maximum.Some? && value > maximum.value {
      return false;
    }
    if exclusiveMinimum.Some? && value <= exclusiveMinimum.value {
      return false;
    }
    return !(exclusiveMaximum.Some? && value >= exclusiveMaximum.value);
  }

  method CheckString(value: string, fields: Fields, search: Search) returns (ok: bool)
    ensures ok <==> StringHolds(value, fields, search)
  {
    hide SizeHolds;
    ok := CheckSize(|value|, fields, "minLength", "maxLength");
    var pattern := Get(fields, "pattern");
    if ok && pattern.Some? && pattern.value.Str? {
      ok := search(pattern.value.s, value);
    }
  }

  method CheckRequired(value: Fields, fields: Fields) returns (ok: bool)
    ensures ok <==> RequiredHolds(value, fields)
  {
    if "required" !in fields {
      return true;
    }
    if !fields["required"].Arr? {
      return false;
    }
    var required := fields["required"].items;
    for i := 0 to |required|
      invariant forall k :: 0 <= k < i && required[k].Str? ==> required[k].s in value
    {
      if required[i].Str? && required[i].s !in value {
        return false;
      }
    }
    return true;
  }

  // ----- validating -----

  method AllOf(value: Json, list: Json, search: Search) returns (ok: bool)
    requires SchemaList(list)
    ensures ok <==> forall i :: 0 <= i < |list.items| ==> Holds(value, list.items[i], search)
    decreases list, 2
  {
    hide Holds;
    for i := 0 to |list.items|
      invariant forall j :: 0 <= j < i ==> Holds(value, list.items[j], search)
    {
      var valid := Validate(value, list.items[i], search);
      if !valid {
        return false;
      }
    }
    return true;
  }

  method AnyOf(value: Json, list: Json, search: Search) returns (ok: bool)
    requires SchemaList(list)
    ensures ok <==> exists i :: 0 <= i < |list.items| && Holds(value, list.items[i], search)
    decreases list, 2
  {
    hide Holds;
    for i := 0 to |list.items|
      invariant forall j :: 0 <= j < i ==> !Holds(value, list.items[j], search)
    {
      var valid := Validate(value, list.items[i], search);
      if valid {
        return true;
      }
    }
    return false;
  }

  /** `sum(_is_valid(...)) == 1`. */
  method OneOf(value: Json, list: Json, search: Search) returns (ok: bool)
    requires SchemaList(list)
    ensures ok <==> ExactlyOne(value, list, search)
    decreases list, 3
  {
    hide Holds;
    var matches := 0;
    ghost var first, second := 0, 0;
    for i := 0 to |list.items|
      invariant matches == 0 ==> forall j :: 0 <= j < i ==> !Holds(value, list.items[j], search)
      invariant matches >= 1 ==> first < i && Holds(value, list.items[first], search)
      invariant matches == 1 ==> forall j :: 0 <= j < i && j != first ==> !Holds(value, list.items[j], search)
      invariant matches >= 2 ==> first < second < i && Holds(value, list.items[second], search)
    {
      var valid := Validate(value, list.items[i], search);
      if valid {
        if matches == 0 {
          first := i;
        } else {
          second := i;
        }
        matches := matches + 1;
      }
    }
    ok := matches == 1;
    assert ok ==> OnlyOne(value, list, first, search);
  }

  method ValidateCombinators(value: Json, schema: Json, search: Search) returns (ok: bool)
    requires schema.Obj?
    ensures ok <==> CombinatorsHold(value, schema, search)
    decreases schema, 1
  {
    hide Holds;
    var s := schema.fields;
    if "allOf" in s {
      var listed := IsSchemaList(s["allOf"]);
      if !listed {
        return false;
      }
      var valid := AllOf(value, s["allOf"], search);
      if !valid {
        return false;
      }
    }
    if "anyOf" in s {
      var listed := IsSchemaList(s["anyOf"]);
      if !listed {
        return false;
      }
      var valid := AnyOf(value, s["anyOf"], search);
      if !valid {
        return false;
      }
    }
    if "oneOf" in s {
      var listed := IsSchemaList(s["oneOf"]);
      if !listed {
        return false;
      }
      var valid := OneOf(value, s["oneOf"], search);
      if !valid {
        return false;
      }
    }
    if "not" in s && s["not"].Obj? {
      var valid := Validate(value, s["not"], search);
      if valid {
        return false;
      }
    }
    return true;
  }

  /** `item in items`. */
  method Contains(items: seq<Json>, item: Json) returns (found: bool)
    ensures found <==> exists i :: 0 <= i < |items| && Same(items[i], item)
  {
    hide PyEqual, Same;
    for i := 0 to |items|
      invariant forall j :: 0 <= j < i ==> !Same(items[j], item)
    {
      SameIsEqual(items[i], item);
      if PyEqual(items[i], item) {
        return true;
      }
    }
    return false;
  }

  method AllUnique(items: seq<Json>) returns (ok: bool)
    ensures ok <==> Unique(items)
  {
    hide Same;
    for i := 0 to |items|
      invariant Unique(items[..i])
    {
      var found := Contains(items[..i], items[i]);
      if found {
        return false;
      }
      assert items[..i + 1] == items[..i] + [items[i]];
    }
    assert items[..|items|] == items;
    return true;
  }

  method ValidateArray(items: seq<Json>, schema: Json, search: Search) returns (ok: bool)
    requires schema.Obj?
    ensures ok <==> ArrayHolds(items, schema, search)
    decreases schema, 1
  {
    hide Holds, SizeHolds, Unique;
    var s := schema.fields;
    var sized := CheckSize(|items|, s, "minItems", "maxItems");
    if !sized {
      return false;
    }
    if Get(s, "uniqueItems") == Some(Bool(true)) {
      var unique := AllUnique(items);
      if !unique {
        return false;
      }
    }
    if "items" in s && s["items"].Obj? {
      for i := 0 to |items|
        invariant forall j :: 0 <= j < i ==> Holds(items[j], s["items"], search)
      {
        var valid := Validate(items[i], s["items"], search);
        if !valid {
          return false;
        }
      }
    }
    return true;
  }

  /** A property has its own schema if that is an object, and otherwise the one for additional properties; false
      there forbids it. */
  ghost predicate PropertyHolds(value: Fields, schema: Json, key: string, search: Search)
    requires schema.Obj? && key in value
    decreases schema, 0
  {
    var s := schema.fields;
    if "properties" in s && s["properties"].Obj? && key in s["properties"].fields && s["properties"].fields[key].Obj? then
      Holds(value[key], s["properties"].fields[key], search)
    else
      "additionalProperties" in s ==>
        && s["additionalProperties"] != Bool(false)
        && (s["additionalProperties"].Obj? ==> Holds(value[key], s["additionalProperties"], search))
  }

  method ValidateProperty(value: Fields, schema: Json, key: string, search: Search) returns (ok: bool)
    requires schema.Obj? && key in value
    ensures ok <==> PropertyHolds(value, schema, key, search)
    decreases schema, 0
  {
    hide Holds;
    var own := if "properties" in schema.fields && schema.fields["properties"].Obj? then Get(schema.fields["properties"].fields, key) else None;
    if own.Some? && own.value.Obj? {
      ok := Validate(value[key], own.value, search);
      return;
    }
    var additional := Get(schema.fields, "additionalProperties");
    if additional == Some(Bool(false)) {
      return false;
    }
    if additional.Some? && additional.value.Obj? {
      ok := Validate(value[key], additional.value, search);
      return;
    }
    return true;
  }

  method ValidateObject(value: Fields, schema: Json, search: Search) returns (ok: bool)
    requires schema.Obj?
    ensures ok <==> ObjectHolds(value, schema, search)
    decreases schema, 1
  {
    hide Holds, SizeHolds, RequiredHolds, PropertyHolds;
    var s := schema.fields;
    var complete := CheckRequired(value, s);
    if !complete {
      return false;
    }
    if "properties" in s && !s["properties"].Obj? {
      return false;
    }
    var keys := value.Keys;
    while keys != {}
      invariant keys <= value.Keys
      invariant forall key :: key in value && key !in keys ==> PropertyHolds(value, schema, key, search)
      decreases keys
    {
      ghost var any := Inhabited(keys);
      var key :| key in keys;
      var valid := ValidateProperty(value, schema, key, search);
      if !valid {
        return false;
      }
      keys := keys - {key};
    }
    ok := CheckSize(|value|, s, "minProperties", "maxProperties");
  }

  /** `validate_json_schema` raises exactly when the value does not have what the schema says. */
  method Validate(value: Json, schema: Json, search: Search) returns (ok: bool)
    requires schema.Obj?
    ensures ok <==> Holds(value, schema, search)
    decreases schema, 2
  {
    hide CombinatorsHold, ObjectHolds, ArrayHolds, ValueHolds, StringHolds, RangeHolds;
    var combined := ValidateCombinators(value, schema, search);
    if !combined {
      return false;
    }
    var valued := CheckValue(value, schema.fields);
    if !valued {
      return false;
    }
    if value.Obj? {
      ok := ValidateObject(value.fields, schema, search);
      return;
    }
    if value.Arr? {
      ok := ValidateArray(value.items, schema, search);
      return;
    }
    if value.Str? {
      ok := CheckString(value.s, schema.fields, search);
      return;
    }
    if IsNumber(value) {
      ok := CheckRange(Number(value), schema.fields);
      return;
    }
    return true;
  }
}
