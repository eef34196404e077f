/** A filtered document keeps the references it needs, and no other component. */
module FilterProofs {
  import opened Domain
  import opened Json
  import opened RefClosure
  import opened SpecFilter

  predicate Slashless(s: string) {
    forall i :: 0 <= i < |s| ==> s[i] != SLASH
  }

  // ----- splitting canonical references -----

  lemma {:induction false} SplitOne(s: string)
    requires Slashless(s)
    ensures Split(s) == [s]
  {
    if s != "" {
      SplitOne(s[1..]);
      assert [s[0]] + s[1..] == s;
      assert [s[1..]][1..] == [];
    }
  }

  lemma {:induction false} SplitAppends(s: string, rest: string)
    ensures Split(s + [SLASH] + rest) == Split(s) + Split(rest)
  {
    var whole := s + [SLASH] + rest;
    if s == "" {
      assert whole[0] == SLASH && whole[1..] == rest;
    } else {
      SplitAppends(s[1..], rest);
      assert whole[0] == s[0] && whole[1..] == s[1..] + [SLASH] + rest;
      SplitCons(s[0], Split(s[1..]), Split(rest));
    }
  }

  /** Prepending a character to the first of the parts commutes with appending. */
  lemma SplitCons(c: char, parts: seq<string>, more: seq<string>)
    requires parts != []
    ensures [""] + (parts + more) == ([""] + parts) + more
    ensures [[c] + (parts + more)[0]] + (parts + more)[1..] == ([[c] + parts[0]] + parts[1..]) + more
  {
    assert (parts + more)[1..] == parts[1..] + more;
  }

  /** The component at a section and name, however it is spelled. */
  function Component(doc: Json, section: string, name: string): Option<Json> {
    Prop(Prop(Prop(Some(doc), COMPONENTS), section), name)
  }

  lemma CanonParts(section: string, name: string)
    ensures "#/" <= Canon(section, name)
    ensures Canon(section, name)[2..] == COMPONENTS + [SLASH] + (section + [SLASH] + name)
  {
    assert COMPONENT_PREFIX == "#/" + COMPONENTS + [SLASH];
  }

  lemma SplitCanon(section: string, name: string)
    ensures Split(Canon(section, name)[2..]) == [COMPONENTS] + Split(section) + Split(name)
  {
    CanonParts(section, name);
    SplitOne(COMPONENTS);
    SplitThree(COMPONENTS, section, name);
  }

  lemma SplitThree(a: string, b: string, c: string)
    ensures Split(a + [SLASH] + (b + [SLASH] + c)) == Split(a) + Split(b) + Split(c)
  {
    SplitAppends(a, b + [SLASH] + c);
    SplitAppends(b, c);
    assert Split(a) + (Split(b) + Split(c)) == Split(a) + Split(b) + Split(c);
  }

  /** Without slashes in it, a canonical reference resolves to its component. */
  lemma ResolveCanon(doc: Json, section: string, name: string)
    requires Slashless(section) && Slashless(name)
    ensures Resolve(doc, Canon(section, name)) == Component(doc, section, name)
  {
    CanonParts(section, name);
    SplitCanon(section, name);
    SplitOne(section);
    SplitOne(name);
    WalkThree(doc, COMPONENTS, section, name);
    assert [COMPONENTS] + [section] + [name] == [COMPONENTS, section, name];
  }

  lemma WalkThree(doc: Json, a: string, b: string, c: string)
    ensures Walk(Some(doc), [a, b, c]) == Prop(Prop(Prop(Some(doc), a), b), c)
  {
    var at := Some(doc);
    assert [a, b, c][1..] == [b, c] && [b, c][1..] == [c] && [c][1..] == [];
    assert Walk(at, [a, b, c]) == Walk(Prop(at, a), [b, c]);
    assert Walk(Prop(at, a), [b, c]) == Walk(Prop(Prop(at, a), b), [c]);
  }

  // ----- what pruning keeps -----

  lemma FalsyHasNothing(j: Option<Json>, name: string)
    requires !Truthy(j)
    ensures Prop(j, name) == None
  {
    assert j.Some? ==> OwnProps(j.value) == map[];
  }

  /** Exactly the components whose canonical reference is kept survive, unchanged. */
  lemma PrunedComponent(doc: Json, out: Json, kept: set<string>, section: string, name: string)
    requires Prune(Prop(Some(doc), COMPONENTS), kept) == Ok(Prop(Some(out), COMPONENTS))
    ensures Component(out, section, name)
         == if Canon(section, name) in kept then Component(doc, section, name) else None
  {
    var before, after := Prop(Some(doc), COMPONENTS), Prop(Some(out), COMPONENTS);
    if Truthy(before) {
      PrunedSections(before.value, kept, after.value, section, name);
    } else {
      FalsyHasNothing(before, section);
      FalsyHasNothing(after, section);
    }
  }

  lemma PrunedSections(before: Json, kept: set<string>, after: Json, section: string, name: string)
    requires Truthy(Some(before)) && Prune(Some(before), kept) == Ok(Some(after))
    ensures Prop(Prop(Some(after), section), name)
         == if Canon(section, name) in kept then Prop(Prop(Some(before), section), name) else None
  {
    var sections := OwnProps(before);
    PrunedSection(before, kept, after, section);
    if section in sections {
      PrunedEntry(section, sections[section], kept, name);
    }
  }

  lemma PrunedSection(before: Json, kept: set<string>, after: Json, section: string)
    requires Truthy(Some(before)) && Prune(Some(before), kept) == Ok(Some(after))
    ensures Prop(Some(after), section)
         == if section in OwnProps(before) then Some(Obj(PruneSection(section, OwnProps(before)[section], kept))) else None
  {
  }

  lemma PrunedEntry(section: string, entries: Json, kept: set<string>, name: string)
    ensures Prop(Some(Obj(PruneSection(section, entries, kept))), name)
         == if Canon(section, name) in kept then Prop(Some(entries), name) else None
  {
  }

  /** Every component reference found in a root or in a kept component still
      resolves to the object it resolved to before. */
  ghost predicate KeepsReferences(doc: Json, out: Json, roots: Json) {
    forall section, name :: Slashless(section) && Slashless(name) && Component(doc, section, name).Some?
      && (Canon(section, name) in Refs(roots) || ReferredToBy(out, Canon(section, name)))
      ==> Resolve(out, Canon(section, name)) == Resolve(doc, Canon(section, name))
  }

  /** Some component of the document, itself spelled without slashes, has the reference. */
  ghost predicate ReferredToBy(doc: Json, ref: string) {
    exists section, name :: Slashless(section) && Slashless(name) && RefersTo(doc, section, name, ref)
  }

  ghost predicate RefersTo(doc: Json, section: string, name: string, ref: string) {
    Component(doc, section, name).Some? && ref in Refs(Component(doc, section, name).value)
  }

  ghost predicate KeepsOnlyReached(doc: Json, out: Json, roots: Json) {
    forall section, name :: Component(out, section, name).Some? ==>
      Reachable(doc, Refs(roots), Canon(section, name))
  }

  lemma ComponentFollowed(doc: Json, out: Json, roots: Json, section: string, name: string, ref: string)
    requires Prune(Prop(Some(doc), COMPONENTS), Closure(doc, Refs(roots))) == Ok(Prop(Some(out), COMPONENTS))
    requires Slashless(section) && Slashless(name) && RefersTo(out, section, name, ref)
    ensures ref in Closure(doc, Refs(roots))
  {
    PrunedComponent(doc, out, Closure(doc, Refs(roots)), section, name);
    ResolveCanon(doc, section, name);
    assert ref in Follow(doc, Canon(section, name));
    ReachableNext(doc, Refs(roots), Canon(section, name), ref);
    FollowBounded(doc, Canon(section, name));
  }

  lemma PrunedByClosure(doc: Json, out: Json, roots: Json)
    requires Prune(Prop(Some(doc), COMPONENTS), Closure(doc, Refs(roots))) == Ok(Prop(Some(out), COMPONENTS))
    ensures KeepsReferences(doc, out, roots) && KeepsOnlyReached(doc, out, roots)
  {
    var kept := Closure(doc, Refs(roots));
    forall section, name | Slashless(section) && Slashless(name) && Component(doc, section, name).Some?
      && (Canon(section, name) in Refs(roots) || ReferredToBy(out, Canon(section, name)))
      ensures Resolve(out, Canon(section, name)) == Resolve(doc, Canon(section, name))
    {
      var ref := Canon(section, name);
      if ref in Refs(roots) {
        ReachableInitially(doc, Refs(roots), ref);
      } else {
        var s, n :| Slashless(s) && Slashless(n) && RefersTo(out, s, n, ref);
        ComponentFollowed(doc, out, roots, s, n, ref);
      }
      PrunedComponent(doc, out, kept, section, name);
      ResolveCanon(doc, section, name);
      ResolveCanon(out, section, name);
    }
    forall section, name | Component(out, section, name).Some?
      ensures Reachable(doc, Refs(roots), Canon(section, name))
    {
      PrunedComponent(doc, out, kept, section, name);
    }
  }

  /** AsyncAPI v2: closed and minimal with respect to the kept channels. */
  lemma FilterV2Sound(spec: map<string, Json>, tag: string)
    requires FilteredV2(spec, tag).Ok?
    ensures var out := Obj(FilteredV2(spec, tag).value);
            var channels := Prop(Some(out), CHANNELS);
            && channels.Some?
            && KeepsReferences(Obj(spec), out, channels.value)
            && KeepsOnlyReached(Obj(spec), out, channels.value)
  {
    var out := Obj(FilteredV2(spec, tag).value);
    PrunedByClosure(Obj(spec), out, Prop(Some(out), CHANNELS).value);
  }

  lemma FieldsV3(spec: map<string, Json>, ops: Json, channels: Json, components: Option<Json>)
    requires components.None? ==> Prop(Some(Obj(spec)), COMPONENTS) == None
    ensures var out := Some(Obj(WithComponents(spec[OPERATIONS := ops][CHANNELS := channels], components)));
            && Prop(out, OPERATIONS) == Some(ops)
            && Prop(out, CHANNELS) == Some(channels)
            && Prop(out, COMPONENTS) == components
  {
    assert OPERATIONS[0] != COMPONENTS[0] && OPERATIONS[0] != CHANNELS[0] && |CHANNELS| != |COMPONENTS|;
  }

  /** AsyncAPI v3: closed and minimal with respect to the kept operations and channels. */
  lemma FilterV3Sound(spec: map<string, Json>, tag: string)
    requires FilteredV3(spec, tag).Ok?
    ensures var out := Obj(FilteredV3(spec, tag).value);
            var ops, channels := Prop(Some(out), OPERATIONS), Prop(Some(out), CHANNELS);
            && ops.Some? && ops.value.Obj? && channels.Some? && channels.value.Obj?
            && KeepsReferences(Obj(spec), out, RootsV3(ops.value.fields, channels.value.fields))
            && KeepsOnlyReached(Obj(spec), out, RootsV3(ops.value.fields, channels.value.fields))
  {
    var all := OwnProps(OrEmpty(Prop(Some(Obj(spec)), OPERATIONS)));
    var declared := Prop(Some(Obj(spec)), CHANNELS);
    var ops := KeptOperations(all, declared, tag);
    var channels := NamedChannels(ops, declared);
    var components := Prune(Prop(Some(Obj(spec)), COMPONENTS), Closure(Obj(spec), Refs(RootsV3(ops, channels))));
    FieldsV3(spec, Obj(ops), Obj(channels), components.value);
    PrunedByClosure(Obj(spec), Obj(FilteredV3(spec, tag).value), RootsV3(ops, channels));
  }
}
