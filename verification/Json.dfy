/** Parsed YAML documents as the filter script sees them: finite trees. */
module Json {
  import opened Domain

  datatype Json =
    | Null
    | Bool(b: bool)
    | Num(n: int)
    | Str(s: string)
    | Arr(items: seq<Json>)
    | Obj(fields: map<string, Json>)

  // ----- array and string indices as property names -----

  function Digit(n: nat): char
    requires n < 10
  {
    "0123456789"[n]
  }

  function IndexName(n: nat): (name: string)
    ensures name != ""
  {
    if n < 10 then [Digit(n)] else IndexName(n / 10) + [Digit(n % 10)]
  }

  lemma {:induction false} IndexNameInjective(m: nat, n: nat)
    requires IndexName(m) == IndexName(n)
    ensures m == n
  {
    var a, b := IndexName(m), IndexName(n);
    assert a[|a| - 1] == Digit(m % 10) && b[|b| - 1] == Digit(n % 10);
    assert m % 10 == n % 10;
    if m >= 10 {
      assert |a| > 1;
      assert a[..|a| - 1] == IndexName(m / 10) && b[..|b| - 1] == IndexName(n / 10);
      IndexNameInjective(m / 10, n / 10);
    }
  }

  // ----- own enumerable properties -----

  /** What `Object.entries` lists, for anything but null and undefined. Inherited
      properties never hold references, so `Prop` reads own properties only. */
  function OwnProps(j: Json): map<string, Json> {
    match j
    case Obj(fields) => fields
    case Arr(items) => Indexed(items)
    case Str(s) => Indexed(seq(|s|, i requires 0 <= i < |s| => Str([s[i]])))
    case _ => map[]
  }

  function Indexed(items: seq<Json>): (m: map<string, Json>)
    ensures forall k :: k in m ==> m[k] in items
  {
    assert forall i, j :: 0 <= i < |items| && 0 <= j < |items| && IndexName(i) == IndexName(j) ==> i == j by {
      forall i: nat, j: nat | IndexName(i) == IndexName(j) ensures i == j {
        IndexNameInjective(i, j);
      }
    }
    map i | 0 <= i < |items| :: IndexName(i) := items[i]
  }

  function Prop(j: Option<Json>, name: string): Option<Json> {
    if j.Some? && name in OwnProps(j.value) then Some(OwnProps(j.value)[name]) else None
  }

  predicate Falsy(j: Json) {
    j == Null || j == Bool(false) || j == Num(0) || j == Str("")
  }

  predicate Truthy(j: Option<Json>) {
    j.Some? && !Falsy(j.value)
  }

  /** `x ?? {}` */
  function OrEmpty(j: Option<Json>): Json {
    if j.None? || j.value == Null then Obj(map[]) else j.value
  }

  // ----- references -----

  const REF: string := "$ref"

  function RefsAt(key: string, value: Json): set<string>
    decreases value, 1
  {
    if key == REF && value.Str? then {value.s} else Refs(value)
  }

  /** Every `$ref` string anywhere inside the document. */
  function Refs(j: Json): set<string>
    decreases j, 0
  {
    match j
    case Arr(items) => set i, r | 0 <= i < |items| && r in Refs(items[i]) :: r
    case Obj(fields) => set k, r | k in fields && r in RefsAt(k, fields[k]) :: r
    case _ => {}
  }

  ghost function ItemRefs(items: seq<Json>): set<string> {
    set i, r | 0 <= i < |items| && r in Refs(items[i]) :: r
  }

  ghost function FieldRefs(fields: map<string, Json>, keys: set<string>): set<string>
    requires keys <= fields.Keys
  {
    set k, r | k in keys && r in RefsAt(k, fields[k]) :: r
  }

  lemma ItemRefsNext(items: seq<Json>, i: nat)
    requires i < |items|
    ensures ItemRefs(items[..i + 1]) == ItemRefs(items[..i]) + Refs(items[i])
  {
    assert forall k :: 0 <= k < i ==> items[..i + 1][k] == items[..i][k];
    assert items[..i + 1][i] == items[i];
  }

  lemma FieldRefsNext(fields: map<string, Json>, done: set<string>, key: string)
    requires done <= fields.Keys && key in fields
    ensures FieldRefs(fields, done + {key}) == FieldRefs(fields, done) + RefsAt(key, fields[key])
  {
  }

  /** The recursive walk that adds to a shared set, in any field order. */
  method CollectRefs(j: Json, refs: set<string>) returns (all: set<string>)
    ensures all == refs + Refs(j)
    decreases j, 1
  {
    match j {
      case Arr(_) => all := CollectItems(j, refs);
      case Obj(_) => all := CollectFields(j, refs);
      case _ => all := refs;
    }
  }

  method CollectItems(j: Json, refs: set<string>) returns (all: set<string>)
    requires j.Arr?
    ensures all == refs + Refs(j)
    decreases j, 0
  {
    all := refs;
    for i := 0 to |j.items|
      invariant all == refs + ItemRefs(j.items[..i])
    {
      ItemRefsNext(j.items, i);
      all := CollectRefs(j.items[i], all);
    }
    assert j.items[..|j.items|] == j.items;
    assert ItemRefs(j.items) == Refs(j);
  }

  method CollectFields(j: Json, refs: set<string>) returns (all: set<string>)
    requires j.Obj?
    ensures all == refs + Refs(j)
    decreases j, 0
  {
    all := refs;
    var keys := j.fields.Keys;
    ghost var done: set<string> := {};
    while keys != {}
      invariant keys <= j.fields.Keys && done == j.fields.Keys - keys
      invariant all == refs + FieldRefs(j.fields, done)
      decreases |keys|
    {
      var key :| key in keys;
      FieldRefsNext(j.fields, done, key);
      all := CollectField(j, key, all);
      keys := keys - {key};
      done := done + {key};
    }
    assert FieldRefs(j.fields, j.fields.Keys) == Refs(j);
  }

  /** One entry: a `$ref` string is taken, anything else walked. */
  method CollectField(j: Json, key: string, refs: set<string>) returns (all: set<string>)
    requires j.Obj? && key in j.fields
    ensures all == refs + RefsAt(key, j.fields[key])
    decreases j.fields[key], 2
  {
    if key == REF && j.fields[key].Str? {
      all := refs + {j.fields[key].s};
    } else {
      all := CollectRefs(j.fields[key], refs);
    }
  }
}
