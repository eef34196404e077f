/** Which references survive the v2 filter in every document: for each of the others,
    a document in which it is lost. */
module FilterLosses {
  import opened Domain
  import opened Json
  import opened RefClosure
  import opened SpecFilter
  import opened FilterProofs
  import opened FilterReferences

  // ----- documents in which the other forms are lost -----

  function Pointer(ref: string): Json {
    Obj(map[REF := Str(ref)])
  }

  function Tagged(tag: string, ref: string): Json {
    Obj(map["tags" := Arr([Str(tag)]), "message" := Pointer(ref)])
  }

  lemma OneFieldRefs(name: string, value: Json)
    ensures Refs(Obj(map[name := value])) == RefsAt(name, value)
  {
    var fields := map[name := value];
    forall r ensures r in Refs(Obj(fields)) <==> r in RefsAt(name, value) {
      assert name in fields && fields[name] == value;
    }
  }

  lemma PointerRefs(ref: string)
    ensures Refs(Pointer(ref)) == {ref}
  {
    OneFieldRefs(REF, Str(ref));
  }

  lemma TaggedRefs(tag: string, ref: string)
    ensures Refs(Tagged(tag, ref)) == {ref}
    ensures HasTag(Some(Tagged(tag, ref)), tag)
  {
    var fields := Tagged(tag, ref).fields;
    PointerRefs(ref);
    assert Refs(Arr([Str(tag)])) == {};
    assert "message" in fields && RefsAt("message", fields["message"]) == {ref};
    assert "tags" in fields && RefsAt("tags", fields["tags"]) == {};
    assert forall k :: k in fields ==> k == "tags" || k == "message";
    forall r ensures r in Refs(Obj(fields)) <==> r == ref {
    }
    assert Names(Arr([Str(tag)]).items[0], tag);
  }

  /** A value at the end of a path. */
  function Nest(parts: seq<string>, leaf: Json): Json {
    if parts == [] then leaf else Obj(map[parts[0] := Nest(parts[1..], leaf)])
  }

  lemma {:induction false} NestWalk(parts: seq<string>, leaf: Json)
    ensures Walk(Some(Nest(parts, leaf)), parts) == Some(leaf)
  {
    if parts != [] {
      NestWalk(parts[1..], leaf);
    }
  }

  lemma {:induction false} NestPlain(parts: seq<string>, leaf: Json)
    requires leaf == Num(7) || leaf == Null
    ensures Refs(Nest(parts, leaf)) == {} && !Nest(parts, leaf).Str? && !Nest(parts, leaf).Arr?
    ensures parts != [] ==> Nest(parts, leaf) != Null
  {
    if parts != [] {
      NestPlain(parts[1..], leaf);
      OneFieldRefs(parts[0], Nest(parts[1..], leaf));
    }
  }

  lemma NestTagless(parts: seq<string>, leaf: Json, tag: string)
    requires leaf == Num(7) || leaf == Null
    ensures !HasTag(Some(Nest(parts, leaf)), tag)
  {
    if parts != [] {
      NestPlain(parts[1..], leaf);
    }
  }

  lemma NestIrrelevant(parts: seq<string>, tag: string)
    ensures !Relevant(Nest(parts, Num(7)), tag)
  {
    NestTagless(parts, Num(7), tag);
    if parts != [] {
      NestTagless(parts[1..], Num(7), tag);
    }
  }

  /** A name without slashes, longer than anything else around. */
  function Far(section: string, name: string, ref: string): string {
    seq(|section| + |name| + |ref| + 1, i => 't')
  }

  lemma FarAway(p: string, section: string, name: string, ref: string)
    ensures var far := Far(section, name, ref);
            && Slashless(far) && far != name && far != section
            && Canon(p, far) != Canon(section, name) && Canon(p, far) != ref
  {
    assert |Canon(p, Far(section, name, ref))| > |Canon(section, name)|;
    assert |Canon(p, Far(section, name, ref))| > |ref|;
  }

  /** Two components: (section, name) with the reference, and v at (a, b). */
  function Shelf(section: string, name: string, ref: string, a: string, b: string, v: Json): map<string, Json> {
    if a == section then map[section := Obj(map[name := Pointer(ref), b := v])]
    else map[section := Obj(map[name := Pointer(ref)]), a := Obj(map[b := v])]
  }

  lemma TwoFieldRefs(k: string, x: Json, l: string, y: Json)
    requires k != l
    ensures Refs(Obj(map[k := x, l := y])) == RefsAt(k, x) + RefsAt(l, y)
  {
    var fields := map[k := x, l := y];
    forall r ensures r in Refs(Obj(fields)) <==> r in RefsAt(k, x) + RefsAt(l, y) {
      assert k in fields && fields[k] == x && l in fields && fields[l] == y;
    }
  }

  lemma RefsAtNonString(k: string, x: Json)
    requires !x.Str?
    ensures RefsAt(k, x) == Refs(x)
  {
  }

  lemma ShelfRefs(section: string, name: string, ref: string, a: string, b: string, v: Json)
    requires (a, b) != (section, name) && !v.Str? && Refs(v) == {}
    ensures Refs(Obj(Shelf(section, name, ref, a, b, v))) == {ref}
  {
    PointerRefs(ref);
    if a == section {
      TwoFieldRefs(name, Pointer(ref), b, v);
      OneFieldRefs(section, Obj(map[name := Pointer(ref), b := v]));
    } else {
      OneFieldRefs(name, Pointer(ref));
      OneFieldRefs(b, v);
      TwoFieldRefs(section, Obj(map[name := Pointer(ref)]), a, Obj(map[b := v]));
    }
  }

  /** What the documents below have in common: the component (section, name) is
      kept, and nothing but its own spelling and its reference can be reached. */
  ghost predicate Staged(doc: Json, out: Json, closure: set<string>, section: string, name: string, ref: string,
                         a: string, b: string, v: Json) {
    && Prune(Prop(Some(doc), COMPONENTS), closure) == Ok(Prop(Some(out), COMPONENTS))
    && Canon(section, name) in closure && closure <= {Canon(section, name), ref}
    && Prop(Some(doc), COMPONENTS) == Some(Obj(Shelf(section, name, ref, a, b, v)))
    && (a, b) != (section, name)
  }

  lemma ShelfHolds(doc: Json, section: string, name: string, ref: string, a: string, b: string, v: Json)
    requires Prop(Some(doc), COMPONENTS) == Some(Obj(Shelf(section, name, ref, a, b, v)))
    requires (a, b) != (section, name)
    ensures Component(doc, section, name) == Some(Pointer(ref))
    ensures Component(doc, a, b) == Some(v)
  {
  }

  lemma StagedRefers(doc: Json, out: Json, closure: set<string>, section: string, name: string, ref: string,
                     a: string, b: string, v: Json)
    requires Staged(doc, out, closure, section, name, ref, a, b, v)
    ensures RefersTo(out, section, name, ref)
  {
    ShelfHolds(doc, section, name, ref, a, b, v);
    PrunedComponent(doc, out, closure, section, name);
    PointerRefs(ref);
  }

  /** Too short: the table of components, or a section of it, has lost an entry. */
  lemma ShortLost(doc: Json, out: Json, closure: set<string>, section: string, name: string, ref: string,
                  a: string, b: string, v: Json)
    requires Staged(doc, out, closure, section, name, ref, a, b, v) && Canon(a, b) !in closure
    requires Local(ref) && Parts(ref)[0] == COMPONENTS && |Parts(ref)| < 3
    requires |Parts(ref)| == 2 ==> Parts(ref)[1] == a
    ensures Resolve(out, ref) != Resolve(doc, ref)
  {
    var parts := Parts(ref);
    ShelfHolds(doc, section, name, ref, a, b, v);
    PrunedComponent(doc, out, closure, a, b);
    assert parts[0..] == parts;
    WalkNext(Some(doc), parts, 0);
    WalkNext(Some(out), parts, 0);
    if |parts| == 1 {
      assert parts[1..] == [];
    } else {
      WalkNext(Prop(Some(doc), COMPONENTS), parts, 1);
      WalkNext(Prop(Some(out), COMPONENTS), parts, 1);
      assert parts[2..] == [];
    }
  }

  /** Into a component that was dropped. */
  lemma DroppedLost(doc: Json, out: Json, closure: set<string>, section: string, name: string, ref: string, leaf: Json)
    requires IntoComponent(ref)
    requires Staged(doc, out, closure, section, name, ref, Parts(ref)[1], Parts(ref)[2], Nest(Parts(ref)[3..], leaf))
    requires Canon(Parts(ref)[1], Parts(ref)[2]) !in closure
    ensures Resolve(doc, ref) == Some(leaf) && Resolve(out, ref) == None
  {
    var parts := Parts(ref);
    ShelfHolds(doc, section, name, ref, parts[1], parts[2], Nest(parts[3..], leaf));
    WalkInto(doc, parts);
    NestWalk(parts[3..], leaf);
    ComponentFate(doc, out, closure, parts);
  }

  /** Into a table, at an entry that was dropped, or at the table itself. */
  lemma EntryLost(doc: Json, out: Json, ref: string, kept: map<string, Json>, entry: string, value: Json)
    requires Local(ref) && Prop(Some(out), Parts(ref)[0]) == Some(Obj(kept)) && entry !in kept
    requires Prop(Prop(Some(doc), Parts(ref)[0]), entry) == Some(value)
    requires |Parts(ref)| >= 2 ==> entry == Parts(ref)[1] && Walk(Some(value), Parts(ref)[2..]).Some?
    ensures Resolve(out, ref) != Resolve(doc, ref)
  {
    var parts := Parts(ref);
    assert parts[0..] == parts;
    WalkNext(Some(doc), parts, 0);
    WalkNext(Some(out), parts, 0);
    if |parts| == 1 {
      assert parts[1..] == [];
    } else {
      WalkNext(Prop(Some(doc), parts[0]), parts, 1);
      WalkNext(Prop(Some(out), parts[0]), parts, 1);
      WalkNone(parts[2..]);
    }
  }

  /** A spelling with slashes resolves to nothing on the shelf. */
  lemma SlashedUnresolved(doc: Json, section: string, name: string, ref: string, a: string, b: string)
    requires Prop(Some(doc), COMPONENTS) == Some(Obj(Shelf(section, name, ref, a, b, Num(7))))
    requires !Slashless(section) || !Slashless(name)
    ensures Resolve(doc, Canon(section, name)) == None
  {
    var parts := Parts(Canon(section, name));
    CanonSplits(section, name);
    SplitWhole(section);
    SplitWhole(name);
    SplitSlashless(Canon(section, name)[2..]);
    WalkInto(doc, parts);
    assert |parts| > 3;
    assert Component(doc, parts[1], parts[2]) == None || Component(doc, parts[1], parts[2]) == Some(Num(7));
    WalkNext(Component(doc, parts[1], parts[2]), parts, 3);
    WalkNone(parts[4..]);
  }

  lemma SecondFollows(doc: Json, initial: set<string>, chain: seq<string>, last: string)
    requires Reaches(doc, initial, chain, last) && |chain| > 1
    ensures chain[1] in Follow(doc, chain[0])
  {
    assert chain[0 + 1] in Follow(doc, chain[0]);
  }

  lemma {:induction false} ChainEndsAtOnce(doc: Json, ref: string, chain: seq<string>, last: string)
    requires Follow(doc, ref) == {} && Reaches(doc, {ref}, chain, last)
    ensures last == ref
  {
    if |chain| > 1 {
      SecondFollows(doc, {ref}, chain, last);
    }
  }

  lemma UnfollowedClosure(doc: Json, ref: string)
    requires Follow(doc, ref) == {}
    ensures Closure(doc, {ref}) == {ref}
  {
    ReachableInitially(doc, {ref}, ref);
    forall r | Reachable(doc, {ref}, r) ensures r == ref {
      var chain :| Reaches(doc, {ref}, chain, r);
      ChainEndsAtOnce(doc, ref, chain, r);
    }
  }

  // ----- choosing the document for a reference -----

  function SpotA(section: string, ref: string): string {
    if IntoComponent(ref) || (Local(ref) && |Parts(ref)| == 2 && Parts(ref)[0] == COMPONENTS) then Parts(ref)[1] else section
  }

  function SpotB(section: string, name: string, ref: string): string {
    if IntoComponent(ref) then Parts(ref)[2] else Far(section, name, ref)
  }

  function SpotValue(ref: string): Json {
    if IntoComponent(ref) then Nest(Parts(ref)[3..], Num(7)) else Num(7)
  }

  function ShelfFor(section: string, name: string, ref: string): map<string, Json> {
    Shelf(section, name, ref, SpotA(section, ref), SpotB(section, name, ref), SpotValue(ref))
  }

  /** The spot is no component that can be reached, unless the reference is safe. */
  lemma SpotFree(section: string, name: string, ref: string, tables: set<string>)
    requires !Safe(section, name, ref, tables)
    ensures var a, b := SpotA(section, ref), SpotB(section, name, ref);
            && (a, b) != (section, name) && Canon(a, b) != Canon(section, name)
            && (Canon(a, b) == ref ==> TwoPart(ref) && (!Slashless(section) || !Slashless(name)))
    ensures !SpotValue(ref).Str? && Refs(SpotValue(ref)) == {}
  {
    var a, b := SpotA(section, ref), SpotB(section, name, ref);
    if IntoComponent(ref) {
      var parts := Parts(ref);
      SplitSlashless(ref[2..]);
      NestPlain(parts[3..], Num(7));
      if Canon(a, b) == Canon(section, name) {
        CanonInjective(a, b, section, name);
      }
      CanonSplits(a, b);
      SplitOne(a);
      SplitOne(b);
    } else {
      FarAway(a, section, name, ref);
    }
  }

  predicate IntoTable(ref: string, table: string) {
    Local(ref) && |Parts(ref)| >= 2 && Parts(ref)[0] == table
  }

  function EntryName(ref: string, table: string): string {
    if IntoTable(ref, table) then Parts(ref)[1] else "x"
  }

  function EntryValue(ref: string, table: string): Json {
    if IntoTable(ref, table) then Nest(Parts(ref)[2..], Num(7)) else Num(7)
  }

  lemma EntryPlain(ref: string, table: string, tag: string)
    ensures !EntryValue(ref, table).Str? && Refs(EntryValue(ref, table)) == {}
    ensures EntryValue(ref, table) != Null && !Relevant(EntryValue(ref, table), tag)
    ensures IntoTable(ref, table) ==> Walk(Some(EntryValue(ref, table)), Parts(ref)[2..]).Some?
  {
    if IntoTable(ref, table) {
      NestPlain(Parts(ref)[2..], Num(7));
      NestIrrelevant(Parts(ref)[2..], tag);
      NestWalk(Parts(ref)[2..], Num(7));
    }
  }

  // ----- AsyncAPI v2 -----

  /** One channel with the tag, which uses the component (section, name), and one
      without, where the reference may point to. */
  function TwoChannels(section: string, name: string, ref: string, tag: string): map<string, Json> {
    var x := EntryName(ref, CHANNELS);
    map["c" + x := Tagged(tag, Canon(section, name)), x := EntryValue(ref, CHANNELS)]
  }

  function SpecV2(section: string, name: string, ref: string, tag: string): map<string, Json> {
    map[CHANNELS := Obj(TwoChannels(section, name, ref, tag)), COMPONENTS := Obj(ShelfFor(section, name, ref))]
  }

  lemma NoneAmong(channels: map<string, Json>, tag: string)
    ensures RelevantAmong(channels, {}, tag) == map[]
  {
  }

  lemma OneAmong(channels: map<string, Json>, k: string, tag: string)
    requires k in channels && Relevant(channels[k], tag)
    ensures RelevantAmong(channels, {k}, tag) == map[k := channels[k]]
  {
    NoneAmong(channels, tag);
    RelevantAmongMore(channels, {}, k, tag);
    assert {} + {k} == {k};
  }

  lemma TwoKeys(k: string, v: Json, x: string, w: Json)
    ensures map[k := v, x := w].Keys == {k} + {x}
  {
  }

  lemma OnlyTagged(k: string, channel: Json, x: string, other: Json, tag: string)
    requires k != x && Relevant(channel, tag) && !Relevant(other, tag)
    ensures KeptChannels(map[k := channel, x := other], tag) == map[k := channel]
  {
    var channels := map[k := channel, x := other];
    TwoKeys(k, channel, x, other);
    OneAmong(channels, k, tag);
    RelevantAmongMore(channels, {k}, x, tag);
  }

  lemma SpecV2Field(section: string, name: string, ref: string, tag: string)
    ensures ChannelsIn(SpecV2(section, name, ref, tag)) == TwoChannels(section, name, ref, tag)
  {
    TableNames();
  }

  lemma SpecV2Channels(section: string, name: string, ref: string, tag: string)
    ensures var x := EntryName(ref, CHANNELS);
            var channels := ChannelsIn(SpecV2(section, name, ref, tag));
            && channels == TwoChannels(section, name, ref, tag) && !HasNull(channels)
            && KeptChannels(channels, tag) == map["c" + x := Tagged(tag, Canon(section, name))]
            && Refs(Obj(KeptChannels(channels, tag))) == {Canon(section, name)}
  {
    var x, channel := EntryName(ref, CHANNELS), Tagged(tag, Canon(section, name));
    SpecV2Field(section, name, ref, tag);
    assert "c" + x != x;
    EntryPlain(ref, CHANNELS, tag);
    TaggedRefs(tag, Canon(section, name));
    OnlyTagged("c" + x, channel, x, EntryValue(ref, CHANNELS), tag);
    OneFieldRefs("c" + x, channel);
  }

  lemma SpecV2Refs(section: string, name: string, ref: string, tag: string)
    requires !Safe(section, name, ref, {CHANNELS})
    ensures Refs(Obj(SpecV2(section, name, ref, tag))) == {Canon(section, name), ref}
  {
    var x, shelf := EntryName(ref, CHANNELS), ShelfFor(section, name, ref);
    SpotFree(section, name, ref, {CHANNELS});
    ShelfRefs(section, name, ref, SpotA(section, ref), SpotB(section, name, ref), SpotValue(ref));
    TaggedRefs(tag, Canon(section, name));
    EntryPlain(ref, CHANNELS, tag);
    TableNames();
    assert "c" + x != x;
    TwoFieldRefs("c" + x, Tagged(tag, Canon(section, name)), x, EntryValue(ref, CHANNELS));
    TwoFieldRefs(CHANNELS, Obj(TwoChannels(section, name, ref, tag)), COMPONENTS, Obj(shelf));
  }

  lemma ShelfSound(section: string, name: string, ref: string, spec: map<string, Json>)
    requires COMPONENTS in spec && spec[COMPONENTS] == Obj(ShelfFor(section, name, ref))
    ensures Prop(Some(Obj(spec)), COMPONENTS) == Some(Obj(ShelfFor(section, name, ref)))
    ensures forall kept :: Prune(Prop(Some(Obj(spec)), COMPONENTS), kept).Ok?
  {
  }

  lemma ClosureBounds(doc: Json, section: string, name: string, ref: string)
    requires Refs(doc) <= {Canon(section, name), ref}
    ensures var closure := Closure(doc, {Canon(section, name)});
            Canon(section, name) in closure && closure <= {Canon(section, name), ref}
  {
    ReachableInitially(doc, {Canon(section, name)}, Canon(section, name));
  }

  lemma StagedV2(section: string, name: string, ref: string, tag: string)
    requires !Safe(section, name, ref, {CHANNELS})
    ensures var spec := SpecV2(section, name, ref, tag);
            && FilteredV2(spec, tag).Ok?
            && ClosureV2(spec, tag) == Closure(Obj(spec), {Canon(section, name)})
            && Staged(Obj(spec), Obj(FilteredV2(spec, tag).value), ClosureV2(spec, tag), section, name, ref,
                      SpotA(section, ref), SpotB(section, name, ref), SpotValue(ref))
            && Prop(Some(Obj(FilteredV2(spec, tag).value)), CHANNELS)
            == Some(Obj(map["c" + EntryName(ref, CHANNELS) := Tagged(tag, Canon(section, name))]))
  {
    var spec := SpecV2(section, name, ref, tag);
    SpecV2Channels(section, name, ref, tag);
    SpecV2Refs(section, name, ref, tag);
    SpotFree(section, name, ref, {CHANNELS});
    ClosureBounds(Obj(spec), section, name, ref);
    ShelfSound(section, name, ref, spec);
    var components := Prune(Prop(Some(Obj(spec)), COMPONENTS), ClosureV2(spec, tag));
    FilteredChannels(spec, KeptChannels(ChannelsIn(spec), tag), components.value, ClosureV2(spec, tag));
  }

  /** Components first: whichever way the reference is unsafe, it is lost. */
  lemma ShelfLoses(doc: Json, out: Json, section: string, name: string, ref: string, tables: set<string>)
    requires !Safe(section, name, ref, tables) && Parts(ref)[0] == COMPONENTS
    requires Staged(doc, out, Closure(doc, {Canon(section, name)}), section, name, ref,
                    SpotA(section, ref), SpotB(section, name, ref), SpotValue(ref))
    ensures Resolve(out, ref) != Resolve(doc, ref)
  {
    var closure := Closure(doc, {Canon(section, name)});
    SpotDropped(doc, out, section, name, ref, tables);
    if IntoComponent(ref) {
      DroppedLost(doc, out, closure, section, name, ref, Num(7));
    } else {
      ShortLost(doc, out, closure, section, name, ref, SpotA(section, ref), SpotB(section, name, ref), SpotValue(ref));
    }
  }

  lemma SlashedDropped(doc: Json, section: string, name: string, ref: string, a: string, b: string)
    requires Prop(Some(doc), COMPONENTS) == Some(Obj(Shelf(section, name, ref, a, b, Num(7))))
    requires !Slashless(section) || !Slashless(name)
    ensures Closure(doc, {Canon(section, name)}) == {Canon(section, name)}
  {
    SlashedUnresolved(doc, section, name, ref, a, b);
    UnfollowedClosure(doc, Canon(section, name));
  }

  lemma SpotDropped(doc: Json, out: Json, section: string, name: string, ref: string, tables: set<string>)
    requires !Safe(section, name, ref, tables)
    requires Staged(doc, out, Closure(doc, {Canon(section, name)}), section, name, ref,
                    SpotA(section, ref), SpotB(section, name, ref), SpotValue(ref))
    ensures Canon(SpotA(section, ref), SpotB(section, name, ref)) !in Closure(doc, {Canon(section, name)})
  {
    var a, b := SpotA(section, ref), SpotB(section, name, ref);
    SpotFree(section, name, ref, tables);
    if Canon(a, b) == ref {
      TwoPartSpot(ref);
      SlashedDropped(doc, section, name, ref, a, b);
    }
  }

  lemma TwoPartSpot(ref: string)
    requires TwoPart(ref)
    ensures SpotValue(ref) == Num(7)
  {
    assert Parts(ref)[3..] == [];
  }

  /** Every unsafe reference is lost from a kept component in some document. */
  lemma UnsafeLostV2(section: string, name: string, ref: string, tag: string)
    requires !Safe(section, name, ref, {CHANNELS})
    ensures var spec := SpecV2(section, name, ref, tag);
            && FilteredV2(spec, tag).Ok?
            && RefersTo(Obj(FilteredV2(spec, tag).value), section, name, ref)
            && Resolve(Obj(FilteredV2(spec, tag).value), ref) != Resolve(Obj(spec), ref)
  {
    var spec := SpecV2(section, name, ref, tag);
    StagedV2(section, name, ref, tag);
    var doc, out := Obj(spec), Obj(FilteredV2(spec, tag).value);
    StagedRefers(doc, out, ClosureV2(spec, tag), section, name, ref,
                 SpotA(section, ref), SpotB(section, name, ref), SpotValue(ref));
    if Parts(ref)[0] == COMPONENTS {
      ShelfLoses(doc, out, section, name, ref, {CHANNELS});
    } else {
      var x := EntryName(ref, CHANNELS);
      SpecV2Channels(section, name, ref, tag);
      EntryPlain(ref, CHANNELS, tag);
      EntryLost(doc, out, ref, map["c" + x := Tagged(tag, Canon(section, name))], x, EntryValue(ref, CHANNELS));
    }
  }

  ghost predicate SurvivesV2(spec: map<string, Json>, tag: string, ref: string)
    requires FilteredV2(spec, tag).Ok?
  {
    Resolve(Obj(FilteredV2(spec, tag).value), ref) == Resolve(Obj(spec), ref)
  }

  ghost predicate AlwaysKeepsV2(section: string, name: string, ref: string, tag: string) {
    forall spec :: FilteredV2(spec, tag).Ok? && RefersTo(Obj(FilteredV2(spec, tag).value), section, name, ref) ==>
      SurvivesV2(spec, tag, ref)
  }

  /** A reference inside a kept component resolves as before in every document, if and
      only if it is safe as it is written. */
  lemma ComponentReferencesV2(section: string, name: string, ref: string, tag: string)
    ensures AlwaysKeepsV2(section, name, ref, tag) <==> Safe(section, name, ref, {CHANNELS})
  {
    if Safe(section, name, ref, {CHANNELS}) {
      forall spec | FilteredV2(spec, tag).Ok? && RefersTo(Obj(FilteredV2(spec, tag).value), section, name, ref)
        ensures SurvivesV2(spec, tag, ref)
      {
        FateV2(spec, tag, ref);
        var kept := KeptChannels(ChannelsIn(spec), tag);
        SafeSurvives(Obj(spec), Obj(FilteredV2(spec, tag).value), TablesV2(kept), Obj(kept), section, name, ref);
      }
    } else {
      UnsafeLostV2(section, name, ref, tag);
      assert !SurvivesV2(SpecV2(section, name, ref, tag), tag, ref);
    }
  }

  /** The same for every reference that is reached from a kept channel. */
  lemma ReachedReferencesV2(ref: string, tag: string)
    ensures (forall spec :: FilteredV2(spec, tag).Ok? && ref in ClosureV2(spec, tag) ==> SurvivesV2(spec, tag, ref))
       <==> Untouched(ref, {CHANNELS}) || TwoPart(ref)
  {
    if Untouched(ref, {CHANNELS}) || TwoPart(ref) {
      forall spec | FilteredV2(spec, tag).Ok? && ref in ClosureV2(spec, tag) ensures SurvivesV2(spec, tag, ref) {
        FateV2(spec, tag, ref);
        ReachedSurvives(Obj(spec), Obj(FilteredV2(spec, tag).value), TablesV2(KeptChannels(ChannelsIn(spec), tag)),
                        ClosureV2(spec, tag), ref);
      }
    } else {
      var far := Far("", "", ref);
      var spec := SpecV2(far, far, ref, tag);
      FarAway("", "", "", ref);
      FarUnsafe(ref, {CHANNELS});
      UnsafeLostV2(far, far, ref, tag);
      FateV2(spec, tag, ref);
      ComponentFollowed(Obj(spec), Obj(FilteredV2(spec, tag).value), Obj(KeptChannels(ChannelsIn(spec), tag)), far, far, ref);
      assert !SurvivesV2(spec, tag, ref);
    }
  }

  lemma FarUnsafe(ref: string, tables: set<string>)
    requires !Untouched(ref, tables) && !TwoPart(ref)
    ensures !Safe(Far("", "", ref), Far("", "", ref), ref, tables)
  {
    if IntoComponent(ref) {
      PartShorter(ref[2..], 1);
    }
  }

  lemma {:induction false} PartShorter(s: string, i: nat)
    requires i < |Split(s)|
    ensures |Split(s)[i]| <= |s|
  {
    if s != "" {
      var rest := Split(s[1..]);
      if i > 0 {
        PartShorter(s[1..], if s[0] == SLASH then i - 1 else i);
      } else if s[0] != SLASH {
        PartShorter(s[1..], 0);
      }
    }
  }

  /** A reference from one component to somewhere inside another, spelled without
      slashes: it is followed, and lost. */
  lemma DeepReferenceLost(section: string, name: string, a: string, b: string, rest: string, tag: string)
    requires Slashless(a) && Slashless(b) && (a, b) != (section, name)
    ensures Lost(SpecV2(section, name, Canon(a, b) + [SLASH] + rest, tag), section, name, Canon(a, b) + [SLASH] + rest, tag)
  {
    var ref := Canon(a, b) + [SLASH] + rest;
    DeepParts(a, b, rest);
    IntoDropped(section, name, ref, tag);
  }

  /** Accepted, with the reference in a kept component; it led to a value and leads
      nowhere now. */
  ghost predicate Lost(spec: map<string, Json>, section: string, name: string, ref: string, tag: string) {
    && FilteredV2(spec, tag).Ok?
    && RefersTo(Obj(FilteredV2(spec, tag).value), section, name, ref)
    && Resolve(Obj(spec), ref) == Some(Num(7))
    && Resolve(Obj(FilteredV2(spec, tag).value), ref) == None
  }

  lemma IntoDropped(section: string, name: string, ref: string, tag: string)
    requires IntoComponent(ref) && !TwoPart(ref) && !Safe(section, name, ref, {CHANNELS})
    ensures Lost(SpecV2(section, name, ref, tag), section, name, ref, tag)
  {
    UnsafeLostV2(section, name, ref, tag);
    DeepDropped(section, name, ref, tag);
  }

  lemma DeepDropped(section: string, name: string, ref: string, tag: string)
    requires IntoComponent(ref) && !TwoPart(ref) && !Safe(section, name, ref, {CHANNELS})
    requires FilteredV2(SpecV2(section, name, ref, tag), tag).Ok?
    ensures var spec := SpecV2(section, name, ref, tag);
            && Resolve(Obj(spec), ref) == Some(Num(7))
            && Resolve(Obj(FilteredV2(spec, tag).value), ref) == None
  {
    var spec := SpecV2(section, name, ref, tag);
    var doc, out := Obj(spec), Obj(FilteredV2(spec, tag).value);
    StagedV2(section, name, ref, tag);
    SpotDropped(doc, out, section, name, ref, {CHANNELS});
    DroppedLost(doc, out, ClosureV2(spec, tag), section, name, ref, Num(7));
  }

  lemma DeepParts(a: string, b: string, rest: string)
    requires Slashless(a) && Slashless(b)
    ensures var ref := Canon(a, b) + [SLASH] + rest;
            && IntoComponent(ref) && !TwoPart(ref)
            && Parts(ref)[1] == a && Parts(ref)[2] == b
  {
    var canon := Canon(a, b);
    var ref := canon + [SLASH] + rest;
    CanonSplits(a, b);
    SplitOne(a);
    SplitOne(b);
    assert ref[..2] == canon[..2] && ref[2..] == canon[2..] + [SLASH] + rest;
    SplitAppends(canon[2..], rest);
  }

  /** From #/components/m/M to #/components/s/F/id. */
  lemma DeepInput(tag: string)
    ensures var ref := Canon("s", "F") + "/id";
            Lost(SpecV2("m", "M", ref, tag), "m", "M", ref, tag)
  {
    assert "/id" == [SLASH] + "id";
    assert Canon("s", "F") + "/id" == Canon("s", "F") + [SLASH] + "id";
    DeepReferenceLost("m", "M", "s", "F", "id", tag);
  }

  /** References of exactly a section and a name, from a kept component: they all
      survive if and only if that component is spelled without slashes. */
  lemma SlashesExact(section: string, name: string, tag: string)
    ensures (forall a, b :: Slashless(a) && Slashless(b) ==> AlwaysKeepsV2(section, name, Canon(a, b), tag))
       <==> Slashless(section) && Slashless(name)
  {
    if Slashless(section) && Slashless(name) {
      forall a, b | Slashless(a) && Slashless(b) ensures AlwaysKeepsV2(section, name, Canon(a, b), tag) {
        PlainParts(a, b);
        ComponentReferencesV2(section, name, Canon(a, b), tag);
      }
    } else {
      var far := Far(section, name, "");
      FarAway("", section, name, "");
      PlainParts(far, far);
      ComponentReferencesV2(section, name, Canon(far, far), tag);
    }
  }

  lemma PlainParts(a: string, b: string)
    requires Slashless(a) && Slashless(b)
    ensures TwoPart(Canon(a, b)) && Parts(Canon(a, b)) == [COMPONENTS, a, b]
  {
    CanonSplits(a, b);
    SplitOne(a);
    SplitOne(b);
  }
}
