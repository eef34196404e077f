/** References told by their place in the document. */
module RefPaths {
  import opened Domain
  import opened Json
  import opened RefClosure

  predicate IsDigit(c: char) {
    '0' <= c <= '9'
  }

  lemma {:induction false} IndexDigits(n: nat)
    ensures forall i :: 0 <= i < |IndexName(n)| ==> IsDigit(IndexName(n)[i])
  {
    if n >= 10 {
      IndexDigits(n / 10);
    }
  }

  /** A name that does not start with a digit is no index. */
  lemma NotIndex(name: string, items: seq<Json>)
    requires name != "" && !IsDigit(name[0])
    ensures name !in Indexed(items)
  {
    forall n: nat ensures IndexName(n) != name {
      IndexDigits(n);
    }
  }

  lemma IndexedAt(items: seq<Json>, i: nat)
    requires i < |items|
    ensures IndexName(i) in Indexed(items) && Indexed(items)[IndexName(i)] == items[i]
  {
    var k :| 0 <= k < |items| && IndexName(k) == IndexName(i) && Indexed(items)[IndexName(i)] == items[k];
    IndexNameInjective(k, i);
  }

  /** Such a property belongs to an object. */
  lemma NamedIsField(j: Json, name: string)
    requires name != "" && !IsDigit(name[0])
    ensures Prop(Some(j), name) == if j.Obj? && name in j.fields then Some(j.fields[name]) else None
  {
    match j {
      case Arr(items) => NotIndex(name, items);
      case Str(s) => NotIndex(name, seq(|s|, i requires 0 <= i < |s| => Str([s[i]])));
      case _ =>
    }
  }

  /** Walking this path from the document leads to an object whose `$ref` is this string. */
  ghost predicate RefersAt(j: Json, path: seq<string>, ref: string) {
    var at := Walk(Some(j), path);
    at.Some? && at.value.Obj? && REF in at.value.fields && at.value.fields[REF] == Str(ref)
  }

  lemma {:induction false} PathOf(j: Json, ref: string) returns (path: seq<string>)
    requires ref in Refs(j)
    ensures RefersAt(j, path, ref)
    decreases j
  {
    match j {
      case Arr(items) =>
        var i :| 0 <= i < |items| && ref in Refs(items[i]);
        var rest := PathOf(items[i], ref);
        IndexedAt(items, i);
        path := [IndexName(i)] + rest;
        assert path[1..] == rest;
      case Obj(fields) =>
        var k :| k in fields && ref in RefsAt(k, fields[k]);
        if k == REF && fields[k].Str? {
          path := [];
        } else {
          var rest := PathOf(fields[k], ref);
          path := [k] + rest;
          assert path[1..] == rest;
        }
    }
  }

  lemma {:induction false} FoundAt(j: Json, path: seq<string>, ref: string)
    requires RefersAt(j, path, ref)
    ensures ref in Refs(j)
    decreases |path|
  {
    if path == [] {
      assert ref in RefsAt(REF, j.fields[REF]);
    } else if Prop(Some(j), path[0]).Some? {
      PropRefs(Some(j), path[0]);
      FoundAt(Prop(Some(j), path[0]).value, path[1..], ref);
    } else {
      WalkNone(path[1..]);
    }
  }

  /** The references of a document are exactly the strings that some object in it, at
      whatever depth, has as its `$ref`. */
  lemma RefsExact(j: Json, ref: string)
    ensures ref in Refs(j) <==> exists path :: RefersAt(j, path, ref)
  {
    if ref in Refs(j) {
      var path := PathOf(j, ref);
    }
    if exists path :: RefersAt(j, path, ref) {
      var path :| RefersAt(j, path, ref);
      FoundAt(j, path, ref);
    }
  }
}
