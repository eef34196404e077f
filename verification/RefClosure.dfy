/** The transitive `$ref` closure: a worklist that computes reachability. */
module RefClosure {
  import opened Domain
  import opened Json

  const SLASH: char := '/'

  function Split(s: string): (parts: seq<string>)
    ensures |parts| >= 1
  {
    if s == "" then [""]
    else
      var rest := Split(s[1..]);
      if s[0] == SLASH then [""] + rest else [[s[0]] + rest[0]] + rest[1..]
  }

  function Walk(at: Option<Json>, parts: seq<string>): Option<Json>
    decreases |parts|
  {
    if parts == [] then at else Walk(Prop(at, parts[0]), parts[1..])
  }

  lemma {:induction false} WalkNone(parts: seq<string>)
    ensures Walk(None, parts) == None
    decreases |parts|
  {
    if parts != [] {
      WalkNone(parts[1..]);
    }
  }

  /** The object a reference of the form `#/a/b/...` points to. */
  function Resolve(spec: Json, ref: string): Option<Json> {
    if "#/" <= ref then Walk(Some(spec), Split(ref[2..])) else None
  }

  /** The references inside the object that `ref` points to. */
  function Follow(spec: Json, ref: string): set<string> {
    var target := Resolve(spec, ref);
    if target.Some? then Refs(target.value) else {}
  }

  // ----- reachability -----

  ghost predicate IsChain(spec: Json, chain: seq<string>) {
    forall i :: 0 <= i < |chain| - 1 ==> chain[i + 1] in Follow(spec, chain[i])
  }

  ghost predicate Reaches(spec: Json, initial: set<string>, chain: seq<string>, ref: string) {
    chain != [] && chain[0] in initial && chain[|chain| - 1] == ref && IsChain(spec, chain)
  }

  ghost predicate Reachable(spec: Json, initial: set<string>, ref: string) {
    exists chain :: Reaches(spec, initial, chain, ref)
  }

  ghost predicate Closed(spec: Json, refs: set<string>) {
    forall r :: r in refs ==> Follow(spec, r) <= refs
  }

  lemma PropRefs(j: Option<Json>, name: string)
    ensures Prop(j, name).Some? ==> Refs(Prop(j, name).value) <= Refs(j.value)
  {
    if Prop(j, name).Some? {
      match j.value
      case Obj(fields) => assert Refs(fields[name]) <= RefsAt(name, fields[name]);
      case Arr(items) =>
        var i :| 0 <= i < |items| && items[i] == Indexed(items)[name];
      case Str(s) =>
        var chars := seq(|s|, i requires 0 <= i < |s| => Str([s[i]]));
        var i :| 0 <= i < |chars| && chars[i] == Indexed(chars)[name];
      case _ =>
    }
  }

  lemma {:induction false} WalkRefs(at: Option<Json>, parts: seq<string>)
    ensures Walk(at, parts).Some? ==> at.Some? && Refs(Walk(at, parts).value) <= Refs(at.value)
    decreases |parts|
  {
    if parts != [] {
      PropRefs(at, parts[0]);
      WalkRefs(Prop(at, parts[0]), parts[1..]);
    }
  }

  /** Nothing outside the document can be discovered: the termination measure. */
  lemma FollowBounded(spec: Json, ref: string)
    ensures Follow(spec, ref) <= Refs(spec)
  {
    if "#/" <= ref {
      WalkRefs(Some(spec), Split(ref[2..]));
    }
  }

  lemma {:induction false} ClosedHoldsChain(spec: Json, initial: set<string>, refs: set<string>, chain: seq<string>, ref: string)
    requires initial <= refs && Closed(spec, refs) && Reaches(spec, initial, chain, ref)
    ensures ref in refs
  {
    var n := |chain| - 1;
    if n > 0 {
      assert chain[n - 1 + 1] in Follow(spec, chain[n - 1]);
      ClosedHoldsChain(spec, initial, refs, chain[..n], chain[n - 1]);
    }
  }

  lemma ReachableNext(spec: Json, initial: set<string>, ref: string, next: string)
    requires Reachable(spec, initial, ref) && next in Follow(spec, ref)
    ensures Reachable(spec, initial, next)
  {
    var chain :| Reaches(spec, initial, chain, ref);
    var longer := chain + [next];
    assert IsChain(spec, longer) by {
      forall i | 0 <= i < |longer| - 1 ensures longer[i + 1] in Follow(spec, longer[i]) {
        assert i < |chain| - 1 ==> chain[i + 1] in Follow(spec, chain[i]);
      }
    }
    assert Reaches(spec, initial, longer, next);
  }

  lemma ReachableInitially(spec: Json, initial: set<string>, ref: string)
    requires ref in initial
    ensures Reachable(spec, initial, ref)
  {
    assert Reaches(spec, initial, [ref], ref);
  }

  /** A reference is reachable exactly when every closed superset of the initial
      references has it: the reachable ones are the least such set. */
  lemma ReachableIsLeast(spec: Json, initial: set<string>, all: set<string>)
    requires forall r :: r in all <==> Reachable(spec, initial, r)
    ensures initial <= all && Closed(spec, all)
    ensures forall other: set<string> :: initial <= other && Closed(spec, other) ==> all <= other
  {
    forall r | r in initial ensures r in all {
      ReachableInitially(spec, initial, r);
    }
    forall r, n | r in all && n in Follow(spec, r) ensures n in all {
      ReachableNext(spec, initial, r, n);
    }
    forall other: set<string>, r | initial <= other && Closed(spec, other) && r in all ensures r in other {
      var chain :| Reaches(spec, initial, chain, r);
      ClosedHoldsChain(spec, initial, other, chain, r);
    }
  }

  // ----- the worklist -----

  method Listed(refs: set<string>) returns (queue: seq<string>)
    ensures forall r :: r in queue <==> r in refs
  {
    queue := [];
    var rest := refs;
    while rest != {}
      invariant rest <= refs
      invariant forall r :: r in queue <==> r in refs - rest
      decreases |rest|
    {
      var r :| r in rest;
      queue := queue + [r];
      rest := rest - {r};
    }
  }

  ghost predicate AllReachable(spec: Json, initial: set<string>, refs: set<string>) {
    forall r :: r in refs ==> Reachable(spec, initial, r)
  }

  /** Everything known and no longer waiting has been followed. */
  ghost predicate Processed(spec: Json, known: set<string>, waiting: seq<string>) {
    forall r :: r in known && r !in waiting ==> Follow(spec, r) <= known
  }

  lemma FollowedReachable(spec: Json, initial: set<string>, known: set<string>, ref: string)
    requires AllReachable(spec, initial, known) && ref in known
    ensures AllReachable(spec, initial, known + Follow(spec, ref))
  {
    forall r | r in Follow(spec, ref) ensures Reachable(spec, initial, r) {
      ReachableNext(spec, initial, ref, r);
    }
  }

  lemma StillProcessed(spec: Json, known: set<string>, waiting: seq<string>, ref: string, all: set<string>, queue: seq<string>)
    requires Processed(spec, known, waiting + [ref])
    requires all == known + Follow(spec, ref)
    requires forall r :: r in queue <==> r in waiting || r in all - known
    ensures Processed(spec, all, queue)
  {
    forall r | r in all && r !in queue ensures Follow(spec, r) <= all {
      assert r in known && r !in waiting;
      assert r != ref ==> r !in waiting + [ref];
    }
  }

  /** What the worklist loop keeps. */
  ghost predicate WorkInv(spec: Json, initial: set<string>, known: set<string>, waiting: seq<string>) {
    && initial <= known <= initial + Refs(spec)
    && (forall r :: r in waiting ==> r in known)
    && AllReachable(spec, initial, known)
    && Processed(spec, known, waiting)
  }

  lemma WorkDone(spec: Json, initial: set<string>, known: set<string>)
    requires WorkInv(spec, initial, known, [])
    ensures forall r :: r in known <==> Reachable(spec, initial, r)
  {
    assert Closed(spec, known);
    forall r | Reachable(spec, initial, r) ensures r in known {
      var chain :| Reaches(spec, initial, chain, r);
      ClosedHoldsChain(spec, initial, known, chain, r);
    }
  }

  /** Terminates on every document, cyclic references or not, with exactly the
      reachable references. */
  method CollectRefsTransitive(spec: Json, initial: set<string>) returns (all: set<string>)
    ensures forall r :: r in all <==> Reachable(spec, initial, r)
  {
    all := initial;
    var queue := Listed(initial);
    forall r | r in initial ensures Reachable(spec, initial, r) {
      ReachableInitially(spec, initial, r);
    }
    while |queue| > 0
      invariant WorkInv(spec, initial, all, queue)
      decreases |initial + Refs(spec) - all|, |queue|
    {
      all, queue := Turn(spec, initial, all, queue);
    }
    WorkDone(spec, initial, all);
  }

  /** One turn: pop a reference and queue whatever it leads to and is new. */
  method Turn(spec: Json, ghost initial: set<string>, known: set<string>, queue: seq<string>)
    returns (all: set<string>, longer: seq<string>)
    requires WorkInv(spec, initial, known, queue) && queue != []
    ensures WorkInv(spec, initial, all, longer)
    ensures var universe := initial + Refs(spec);
            |universe - all| < |universe - known| || (all == known && |longer| < |queue|)
  {
    var ref := queue[|queue| - 1];
    var waiting := queue[..|queue| - 1];
    assert queue == waiting + [ref];
    var found := FollowRef(spec, ref);
    all, longer := Enqueue(found, known, waiting);
    TurnKeeps(spec, initial, known, queue, waiting, ref, all, longer);
  }

  /** Resolve a reference and collect what is inside the object it points to. */
  method FollowRef(spec: Json, ref: string) returns (found: set<string>)
    ensures found == Follow(spec, ref)
  {
    found := {};
    var target := Resolve(spec, ref);
    if target.Some? {
      found := CollectRefs(target.value, {});
    }
  }

  lemma FollowedBounded(spec: Json, initial: set<string>, known: set<string>, queue: seq<string>, ref: string)
    requires WorkInv(spec, initial, known, queue)
    ensures known <= initial + Refs(spec) && Follow(spec, ref) <= initial + Refs(spec)
  {
    FollowBounded(spec, ref);
  }

  lemma TurnKeeps(spec: Json, initial: set<string>, known: set<string>, queue: seq<string>, waiting: seq<string>,
                  ref: string, all: set<string>, longer: seq<string>)
    requires WorkInv(spec, initial, known, queue) && queue == waiting + [ref]
    requires all == known + Follow(spec, ref)
    requires forall r :: r in longer <==> r in waiting || r in all - known
    ensures WorkInv(spec, initial, all, longer)
    ensures var universe := initial + Refs(spec);
            all == known || |universe - all| < |universe - known|
  {
    if all != known {
      FollowedBounded(spec, initial, known, queue, ref);
      Shrinks(initial + Refs(spec), known, all);
    }
    assert forall r :: r in waiting || r == ref ==> r in waiting + [ref];
    FollowBounded(spec, ref);
    FollowedReachable(spec, initial, known, ref);
    StillProcessed(spec, known, waiting, ref, all, longer);
  }

  /** The inner loop: whatever has been found and is new is queued. */
  method Enqueue(found: set<string>, known: set<string>, waiting: seq<string>)
    returns (all: set<string>, queue: seq<string>)
    ensures all == known + found
    ensures forall r :: r in queue <==> r in waiting || r in all - known
    ensures all == known ==> queue == waiting
  {
    all, queue := known, waiting;
    var rest := found;
    while rest != {}
      invariant rest <= found && known <= all
      invariant all + rest == known + found
      invariant forall r :: r in queue <==> r in waiting || r in all - known
      invariant all == known ==> queue == waiting
      decreases |rest|
    {
      var r :| r in rest;
      if r !in all {
        all := all + {r};
        queue := queue + [r];
      }
      rest := rest - {r};
    }
  }

  lemma Shrinks(universe: set<string>, known: set<string>, all: set<string>)
    requires known < all <= universe
    ensures |universe - all| < |universe - known|
  {
    assert universe - known == (universe - all) + (all - known);
    assert all - known != {};
  }
}
