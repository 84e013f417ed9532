/** JSON values as Python holds them, and their equality. */
module JsonValues {
  import opened Prelude

  datatype Json = Null | Bool(b: bool) | Int(n: int) | Float(x: real) | Str(s: string) | Arr(items: seq<Json>) | Obj(fields: map<string, Json>)

  type Fields = map<string, Json>

  function Get(fields: Fields, key: string): Option<Json> {
    if key in fields then Some(fields[key]) else None
  }

  /** A truth value counts as 0 or 1 in comparisons. */
  predicate Numeric(j: Json) {
    j.Bool? || j.Int? || j.Float?
  }

  function Number(j: Json): real
    requires Numeric(j)
  {
    match j
    case Bool(b) => if b then 1.0 else 0.0
    case Int(n) => n as real
    case Float(x) => x
  }

  /** What two values share when they are equal: numbers and truth values are their real number. */
  datatype Form = NullForm | NumberForm(x: real) | TextForm(s: string) | ListForm(items: seq<Form>) | DictForm(fields: map<string, Form>)

  ghost function Normal(j: Json): Form {
    match j
    case Null => NullForm
    case Bool(b) => NumberForm(if b then 1.0 else 0.0)
    case Int(n) => NumberForm(n as real)
    case Float(x) => NumberForm(x)
    case Str(s) => TextForm(s)
    case Arr(items) => ListForm(seq(|items|, i requires 0 <= i < |items| => Normal(items[i])))
    case Obj(fields) => DictForm(map key | key in fields :: Normal(fields[key]))
  }

  /** `==`: numbers by value, whatever their types, and containers by their contents. */
  predicate PyEqual(a: Json, b: Json)
    decreases a
  {
    if Numeric(a) && Numeric(b) then Number(a) == Number(b)
    else
      match (a, b)
      case (Arr(xs), Arr(ys)) => |xs| == |ys| && forall i :: 0 <= i < |xs| ==> PyEqual(xs[i], ys[i])
      case (Obj(f), Obj(g)) => f.Keys == g.Keys && forall key :: key in f ==> key in g && PyEqual(f[key], g[key])
      case _ => a == b
  }

  /** Values are equal exactly when they have one normal form; equality is therefore an equivalence. */
  lemma {:induction false} EqualByForm(a: Json, b: Json)
    ensures PyEqual(a, b) <==> Normal(a) == Normal(b)
    decreases a
  {
    match (a, b)
    case (Arr(xs), Arr(ys)) =>
      forall i | 0 <= i < |xs| && |xs| == |ys| ensures PyEqual(xs[i], ys[i]) <==> Normal(xs[i]) == Normal(ys[i]) {
        EqualByForm(xs[i], ys[i]);
      }
      SameItems(xs, ys);
    case (Obj(f), Obj(g)) =>
      forall key | key in f && key in g ensures PyEqual(f[key], g[key]) <==> Normal(f[key]) == Normal(g[key]) {
        EqualByForm(f[key], g[key]);
      }
      SameFields(f, g);
    case _ =>
  }

  lemma SameItems(xs: seq<Json>, ys: seq<Json>)
    ensures Normal(Arr(xs)) == Normal(Arr(ys)) <==> |xs| == |ys| && forall i :: 0 <= i < |xs| ==> Normal(xs[i]) == Normal(ys[i])
  {
    var fs, gs := Normal(Arr(xs)).items, Normal(Arr(ys)).items;
    assert |fs| == |xs| && (forall i :: 0 <= i < |xs| ==> fs[i] == Normal(xs[i]));
    assert |gs| == |ys| && (forall i :: 0 <= i < |ys| ==> gs[i] == Normal(ys[i]));
  }

  lemma SameFields(f: Fields, g: Fields)
    ensures Normal(Obj(f)) == Normal(Obj(g)) <==> f.Keys == g.Keys && forall key :: key in f ==> Normal(f[key]) == Normal(g[key])
  {
    var fs, gs := Normal(Obj(f)).fields, Normal(Obj(g)).fields;
    assert fs.Keys == f.Keys && (forall key :: key in f ==> fs[key] == Normal(f[key]));
    assert gs.Keys == g.Keys && (forall key :: key in g ==> gs[key] == Normal(g[key]));
  }

  lemma Reflexive(a: Json)
    ensures PyEqual(a, a)
  {
    EqualByForm(a, a);
  }

  lemma Symmetric(a: Json, b: Json)
    requires PyEqual(a, b)
    ensures PyEqual(b, a)
  {
    EqualByForm(a, b);
    EqualByForm(b, a);
  }

  lemma Transitive(a: Json, b: Json, c: Json)
    requires PyEqual(a, b) && PyEqual(b, c)
    ensures PyEqual(a, c)
  {
    EqualByForm(a, b);
    EqualByForm(b, c);
    EqualByForm(a, c);
  }
}
