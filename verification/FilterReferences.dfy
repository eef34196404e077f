/** What becomes of every single reference when a document is filtered, and which
    forms of reference are safe in every document. */
module FilterReferences {
  import opened Domain
  import opened Json
  import opened RefClosure
  import opened SpecFilter
  import opened FilterProofs

  // ----- the parts of a reference -----

  function Join(parts: seq<string>): string
    requires parts != []
  {
    if |parts| == 1 then parts[0] else parts[0] + [SLASH] + Join(parts[1..])
  }

  lemma {:induction false} JoinSplit(s: string)
    ensures Join(Split(s)) == s
  {
    if s != "" {
      var rest := Split(s[1..]);
      JoinSplit(s[1..]);
      assert s == [s[0]] + s[1..];
      if s[0] == SLASH {
        assert ([""] + rest)[1..] == rest;
      } else {
        assert ([[s[0]] + rest[0]] + rest[1..])[1..] == rest[1..];
      }
    }
  }

  lemma {:induction false} SplitSlashless(s: string)
    ensures forall i :: 0 <= i < |Split(s)| ==> Slashless(Split(s)[i])
  {
    if s != "" {
      SplitSlashless(s[1..]);
    }
  }

  lemma SplitWhole(s: string)
    ensures |Split(s)| == 1 <==> Slashless(s)
    ensures Slashless(s) ==> Split(s) == [s]
  {
    JoinSplit(s);
    SplitSlashless(s);
    if Slashless(s) {
      SplitOne(s);
    }
  }

  /** A reference that is followed at all. */
  predicate Local(ref: string) {
    "#/" <= ref
  }

  function Parts(ref: string): (parts: seq<string>)
    requires Local(ref)
    ensures |parts| >= 1
  {
    Split(ref[2..])
  }

  /** Exactly a section and a name: the only form the pruning looks at. */
  predicate TwoPart(ref: string) {
    Local(ref) && |Parts(ref)| == 3 && Parts(ref)[0] == COMPONENTS
  }

  /** Into a component, at whatever depth. */
  predicate IntoComponent(ref: string) {
    Local(ref) && |Parts(ref)| >= 3 && Parts(ref)[0] == COMPONENTS
  }

  lemma TwoPartCanon(ref: string)
    requires TwoPart(ref)
    ensures ref == Canon(Parts(ref)[1], Parts(ref)[2])
    ensures Slashless(Parts(ref)[1]) && Slashless(Parts(ref)[2])
  {
    var parts := Parts(ref);
    SplitSlashless(ref[2..]);
    JoinSplit(ref[2..]);
    JoinThree(parts);
    CanonParts(parts[1], parts[2]);
    SamePrefix(ref, Canon(parts[1], parts[2]));
  }

  lemma JoinThree(parts: seq<string>)
    requires |parts| == 3
    ensures Join(parts) == parts[0] + [SLASH] + (parts[1] + [SLASH] + parts[2])
  {
    var tail := parts[1..];
    assert tail[0] == parts[1] && tail[1..] == [parts[2]];
    assert Join([parts[2]]) == parts[2];
    assert Join(tail) == parts[1] + [SLASH] + parts[2];
  }

  lemma SamePrefix(a: string, b: string)
    requires Local(a) && Local(b) && a[2..] == b[2..]
    ensures a == b
  {
    assert a == a[..2] + a[2..] && b == b[..2] + b[2..];
  }

  lemma CanonSplits(section: string, name: string)
    ensures Local(Canon(section, name))
    ensures Parts(Canon(section, name)) == [COMPONENTS] + Split(section) + Split(name)
  {
    CanonParts(section, name);
    SplitCanon(section, name);
  }

  /** A spelling without slashes is the canonical reference of one component only. */
  lemma CanonInjective(a: string, b: string, section: string, name: string)
    requires Slashless(a) && Slashless(b) && Canon(a, b) == Canon(section, name)
    ensures section == a && name == b
  {
    CanonSplits(a, b);
    CanonSplits(section, name);
    SplitOne(a);
    SplitOne(b);
    var parts := [COMPONENTS] + Split(section) + Split(name);
    assert parts == [COMPONENTS, a, b];
    assert |Split(section)| == 1 && parts[1] == Split(section)[0] && parts[2] == Split(name)[0];
    JoinSplit(section);
    JoinSplit(name);
  }

  lemma WalkInto(doc: Json, parts: seq<string>)
    requires |parts| >= 3 && parts[0] == COMPONENTS
    ensures Walk(Some(doc), parts) == Walk(Component(doc, parts[1], parts[2]), parts[3..])
  {
    var at := Prop(Some(doc), parts[0]);
    WalkNext(Some(doc), parts, 0);
    WalkNext(at, parts, 1);
    WalkNext(Prop(at, parts[1]), parts, 2);
    assert parts[0..] == parts;
  }

  lemma WalkNext(at: Option<Json>, parts: seq<string>, i: nat)
    requires i < |parts|
    ensures Walk(at, parts[i..]) == Walk(Prop(at, parts[i]), parts[i + 1..])
  {
    var tail := parts[i..];
    assert tail != [] && tail[0] == parts[i] && tail[1..] == parts[i + 1..];
  }

  // ----- the fate of every reference -----

  /** What a reference into a table resolves to when only the kept entries are left. */
  function FromTable(doc: Json, parts: seq<string>, kept: map<string, Json>): Option<Json>
    requires parts != []
  {
    if |parts| == 1 then Some(Obj(kept))
    else if parts[1] in kept then Walk(Some(doc), parts)
    else None
  }

  /** What a reference resolves to after filtering: `tables` are the pruned tables of
      channels and operations, `pruned` the components left of them. */
  function Fate(doc: Json, ref: string, tables: map<string, map<string, Json>>, closure: set<string>, pruned: Option<Json>):
      Option<Json>
  {
    if !Local(ref) then None
    else
      var parts := Parts(ref);
      if parts[0] in tables then FromTable(doc, parts, tables[parts[0]])
      else if parts[0] != COMPONENTS then Resolve(doc, ref)
      else if |parts| < 3 then Walk(pruned, parts[1..])
      else if Canon(parts[1], parts[2]) in closure then Resolve(doc, ref)
      else None
  }

  /** `out` is `doc` with its components pruned and some tables replaced by part of
      what they held. */
  ghost predicate Filtered(doc: Json, out: Json, tables: map<string, map<string, Json>>, closure: set<string>) {
    && COMPONENTS !in tables
    && Prune(Prop(Some(doc), COMPONENTS), closure) == Ok(Prop(Some(out), COMPONENTS))
    && (forall t :: t in tables ==> Prop(Some(out), t) == Some(Obj(tables[t])))
    && (forall t, n :: t in tables && n in tables[t] ==> Prop(Prop(Some(doc), t), n) == Some(tables[t][n]))
    && (forall p :: p != COMPONENTS && p !in tables ==> Prop(Some(out), p) == Prop(Some(doc), p))
  }

  lemma TableLeft(doc: Json, out: Json, tables: map<string, map<string, Json>>, closure: set<string>, t: string)
    requires Filtered(doc, out, tables, closure) && t in tables
    ensures Prop(Some(out), t) == Some(Obj(tables[t]))
  {
  }

  lemma RestLeft(doc: Json, out: Json, tables: map<string, map<string, Json>>, closure: set<string>, p: string)
    requires Filtered(doc, out, tables, closure) && p != COMPONENTS && p !in tables
    ensures Prop(Some(out), p) == Prop(Some(doc), p)
  {
  }

  lemma ComponentFate(doc: Json, out: Json, closure: set<string>, parts: seq<string>)
    requires Prune(Prop(Some(doc), COMPONENTS), closure) == Ok(Prop(Some(out), COMPONENTS))
    requires |parts| >= 3 && parts[0] == COMPONENTS
    ensures Walk(Some(out), parts)
         == if Canon(parts[1], parts[2]) in closure then Walk(Some(doc), parts) else None
  {
    WalkInto(doc, parts);
    WalkInto(out, parts);
    PrunedComponent(doc, out, closure, parts[1], parts[2]);
    WalkNone(parts[3..]);
  }

  lemma TableFate(doc: Json, out: Json, parts: seq<string>, kept: map<string, Json>)
    requires parts != [] && Prop(Some(out), parts[0]) == Some(Obj(kept))
    requires forall n :: n in kept ==> Prop(Prop(Some(doc), parts[0]), n) == Some(kept[n])
    ensures Walk(Some(out), parts) == FromTable(doc, parts, kept)
  {
    assert parts[0..] == parts;
    WalkNext(Some(out), parts, 0);
    WalkNext(Some(doc), parts, 0);
    if |parts| == 1 {
      assert parts[1..] == [];
    } else {
      EntryFate(Prop(Some(doc), parts[0]), parts, kept);
    }
  }

  lemma EntryFate(table: Option<Json>, parts: seq<string>, kept: map<string, Json>)
    requires |parts| >= 2
    requires forall n :: n in kept ==> Prop(table, n) == Some(kept[n])
    ensures Walk(Some(Obj(kept)), parts[1..]) == if parts[1] in kept then Walk(table, parts[1..]) else None
  {
    WalkNext(Some(Obj(kept)), parts, 1);
    WalkNext(table, parts, 1);
    WalkNone(parts[2..]);
  }

  /** Every reference: an entry of a table and a component are found again exactly
      when they were kept, and nothing else is touched. */
  lemma FateExact(doc: Json, out: Json, tables: map<string, map<string, Json>>, closure: set<string>, ref: string)
    requires Filtered(doc, out, tables, closure)
    ensures Resolve(out, ref) == Fate(doc, ref, tables, closure, Prop(Some(out), COMPONENTS))
  {
    if Local(ref) {
      var parts := Parts(ref);
      if parts[0] in tables {
        TableFate(doc, out, parts, tables[parts[0]]);
      } else if parts[0] == COMPONENTS && |parts| >= 3 {
        ComponentFate(doc, out, closure, parts);
      }
    }
  }

  function TablesV2(channels: map<string, Json>): map<string, map<string, Json>> {
    map[CHANNELS := channels]
  }

  function TablesV3(ops: map<string, Json>, channels: map<string, Json>): map<string, map<string, Json>> {
    map[OPERATIONS := ops, CHANNELS := channels]
  }

  lemma TwoTables(ops: map<string, Json>, channels: map<string, Json>)
    ensures OPERATIONS in TablesV3(ops, channels) && TablesV3(ops, channels)[OPERATIONS] == ops
    ensures CHANNELS in TablesV3(ops, channels) && TablesV3(ops, channels)[CHANNELS] == channels
  {
    TableNames();
  }

  lemma OnlyTables(ops: map<string, Json>, channels: map<string, Json>, p: string)
    requires p != OPERATIONS && p != CHANNELS
    ensures p !in TablesV3(ops, channels)
  {
  }

  function ChannelsIn(spec: map<string, Json>): map<string, Json> {
    OwnProps(OrEmpty(Prop(Some(Obj(spec)), CHANNELS)))
  }

  function OperationsIn(spec: map<string, Json>): map<string, Json> {
    OwnProps(OrEmpty(Prop(Some(Obj(spec)), OPERATIONS)))
  }

  ghost function ClosureV2(spec: map<string, Json>, tag: string): set<string> {
    Closure(Obj(spec), Refs(Obj(KeptChannels(ChannelsIn(spec), tag))))
  }

  lemma TableNames()
    ensures CHANNELS != COMPONENTS && OPERATIONS != COMPONENTS && OPERATIONS != CHANNELS
  {
    assert OPERATIONS[0] != COMPONENTS[0] && OPERATIONS[0] != CHANNELS[0] && |CHANNELS| != |COMPONENTS|;
  }

  /** AsyncAPI v2: the fate of every reference in terms of the kept channels and the closure. */
  lemma FateV2(spec: map<string, Json>, tag: string, ref: string)
    requires FilteredV2(spec, tag).Ok?
    ensures var out := Obj(FilteredV2(spec, tag).value);
            var tables := TablesV2(KeptChannels(ChannelsIn(spec), tag));
            && Filtered(Obj(spec), out, tables, ClosureV2(spec, tag))
            && Resolve(out, ref) == Fate(Obj(spec), ref, tables, ClosureV2(spec, tag), Prop(Some(out), COMPONENTS))
  {
    var kept, closure := KeptChannels(ChannelsIn(spec), tag), ClosureV2(spec, tag);
    var components := Prune(Prop(Some(Obj(spec)), COMPONENTS), closure);
    FilteredChannels(spec, kept, components.value, closure);
    FateExact(Obj(spec), Obj(FilteredV2(spec, tag).value), TablesV2(kept), closure, ref);
  }

  lemma FilteredChannels(spec: map<string, Json>, channels: map<string, Json>, components: Option<Json>, closure: set<string>)
    requires Prune(Prop(Some(Obj(spec)), COMPONENTS), closure) == Ok(components)
    requires forall n :: n in channels ==> Prop(Prop(Some(Obj(spec)), CHANNELS), n) == Some(channels[n])
    ensures Filtered(Obj(spec), Obj(WithComponents(spec[CHANNELS := Obj(channels)], components)), TablesV2(channels), closure)
  {
    TableNames();
  }

  /** The operations and channels that v3 keeps, and what their references reach. */
  ghost function OpsV3(spec: map<string, Json>, tag: string): map<string, Json>
    requires !NamesFail(OperationsIn(spec))
  {
    KeptOperations(OperationsIn(spec), Prop(Some(Obj(spec)), CHANNELS), tag)
  }

  ghost function ChannelsV3(spec: map<string, Json>, tag: string): map<string, Json>
    requires !NamesFail(OperationsIn(spec))
  {
    NamedChannels(OpsV3(spec, tag), Prop(Some(Obj(spec)), CHANNELS))
  }

  ghost function ClosureV3(spec: map<string, Json>, tag: string): set<string>
    requires !NamesFail(OperationsIn(spec))
  {
    Closure(Obj(spec), Refs(RootsV3(OpsV3(spec, tag), ChannelsV3(spec, tag))))
  }

  lemma TablesHoldV3(spec: map<string, Json>, tag: string)
    requires FilteredV3(spec, tag).Ok?
    ensures Filtered(Obj(spec), Obj(FilteredV3(spec, tag).value), TablesV3(OpsV3(spec, tag), ChannelsV3(spec, tag)),
                     ClosureV3(spec, tag))
  {
    var declared := Prop(Some(Obj(spec)), CHANNELS);
    var ops, channels := OpsV3(spec, tag), ChannelsV3(spec, tag);
    forall n | n in channels ensures Prop(declared, n) == Some(channels[n]) {
      ExpectedChannel(ops, declared, n);
    }
    var components := Prune(Prop(Some(Obj(spec)), COMPONENTS), ClosureV3(spec, tag));
    FilteredTables(spec, ops, channels, components.value, ClosureV3(spec, tag));
  }

  lemma FilteredTables(spec: map<string, Json>, ops: map<string, Json>, channels: map<string, Json>,
                       components: Option<Json>, closure: set<string>)
    requires Prune(Prop(Some(Obj(spec)), COMPONENTS), closure) == Ok(components)
    requires forall n :: n in ops ==> Prop(Prop(Some(Obj(spec)), OPERATIONS), n) == Some(ops[n])
    requires forall n :: n in channels ==> Prop(Prop(Some(Obj(spec)), CHANNELS), n) == Some(channels[n])
    ensures Filtered(Obj(spec), Obj(WithComponents(spec[OPERATIONS := Obj(ops)][CHANNELS := Obj(channels)], components)),
                     TablesV3(ops, channels), closure)
  {
    TableNames();
    FieldsV3(spec, Obj(ops), Obj(channels), components);
  }

  lemma KeptTables(spec: map<string, Json>, tag: string)
    requires FilteredV3(spec, tag).Ok?
    requires Filtered(Obj(spec), Obj(FilteredV3(spec, tag).value), TablesV3(OpsV3(spec, tag), ChannelsV3(spec, tag)),
                      ClosureV3(spec, tag))
    ensures Prop(Some(Obj(FilteredV3(spec, tag).value)), OPERATIONS) == Some(Obj(OpsV3(spec, tag)))
    ensures Prop(Some(Obj(FilteredV3(spec, tag).value)), CHANNELS) == Some(Obj(ChannelsV3(spec, tag)))
  {
    var ops, channels := OpsV3(spec, tag), ChannelsV3(spec, tag);
    TwoTables(ops, channels);
    TableLeft(Obj(spec), Obj(FilteredV3(spec, tag).value), TablesV3(ops, channels), ClosureV3(spec, tag), OPERATIONS);
    TableLeft(Obj(spec), Obj(FilteredV3(spec, tag).value), TablesV3(ops, channels), ClosureV3(spec, tag), CHANNELS);
  }

  /** AsyncAPI v3: the same in terms of the kept operations, the channels they name
      and the closure. */
  lemma FateV3(spec: map<string, Json>, tag: string, ref: string)
    requires FilteredV3(spec, tag).Ok?
    ensures var out := Obj(FilteredV3(spec, tag).value);
            Resolve(out, ref) == Fate(Obj(spec), ref, TablesV3(OpsV3(spec, tag), ChannelsV3(spec, tag)),
                                      ClosureV3(spec, tag), Prop(Some(out), COMPONENTS))
  {
    TablesHoldV3(spec, tag);
    FateExact(Obj(spec), Obj(FilteredV3(spec, tag).value), TablesV3(OpsV3(spec, tag), ChannelsV3(spec, tag)),
              ClosureV3(spec, tag), ref);
  }

  /** The channel reference of a kept operation survives, if the name has no slash
      and the channel is there at all. */
  lemma OwnChannelSurvives(spec: map<string, Json>, tag: string, o: string, name: string)
    requires FilteredV3(spec, tag).Ok? && o in OpsV3(spec, tag)
    requires ChannelName(OpsV3(spec, tag)[o]) == Ok(Some(name)) && name != "" && Slashless(name)
    requires Truthy(Prop(Prop(Some(Obj(spec)), CHANNELS), name))
    ensures var ref := CHANNEL_PREFIX + name;
            Resolve(Obj(FilteredV3(spec, tag).value), ref) == Resolve(Obj(spec), ref)
  {
    var declared := Prop(Some(Obj(spec)), CHANNELS);
    ChannelParts(name);
    TableNames();
    FateV3(spec, tag, CHANNEL_PREFIX + name);
    assert ChannelOf(declared, ChannelName(OpsV3(spec, tag)[o]).value) == Prop(declared, name);
    assert name in ChannelsV3(spec, tag);
  }

  lemma ChannelParts(name: string)
    requires Slashless(name)
    ensures Local(CHANNEL_PREFIX + name) && Parts(CHANNEL_PREFIX + name) == [CHANNELS, name]
  {
    var ref := CHANNEL_PREFIX + name;
    assert CHANNEL_PREFIX == "#/" + CHANNELS + [SLASH];
    assert ref[2..] == CHANNELS + [SLASH] + name;
    SplitAppends(CHANNELS, name);
    SplitOne(CHANNELS);
    SplitOne(name);
  }

  // ----- safe forms of reference -----

  predicate Untouched(ref: string, tables: set<string>) {
    !Local(ref) || (Parts(ref)[0] !in tables && Parts(ref)[0] != COMPONENTS)
  }

  /** When a reference inside the component (section, name) survives with it: it points
      outside everything that is filtered, or into that component itself, or it has
      exactly a section and a name and the component is spelled without slashes. */
  predicate Safe(section: string, name: string, ref: string, tables: set<string>) {
    || Untouched(ref, tables)
    || (IntoComponent(ref) && Parts(ref)[1] == section && Parts(ref)[2] == name)
    || (TwoPart(ref) && Slashless(section) && Slashless(name))
  }

  lemma SafeSurvives(doc: Json, out: Json, tables: map<string, map<string, Json>>, roots: Json,
                     section: string, name: string, ref: string)
    requires Filtered(doc, out, tables, Closure(doc, Refs(roots)))
    requires RefersTo(out, section, name, ref) && Safe(section, name, ref, tables.Keys)
    ensures Resolve(out, ref) == Resolve(doc, ref)
  {
    var closure := Closure(doc, Refs(roots));
    FateExact(doc, out, tables, closure, ref);
    PrunedComponent(doc, out, closure, section, name);
    if TwoPart(ref) && Slashless(section) && Slashless(name) {
      TwoPartCanon(ref);
      ComponentFollowed(doc, out, roots, section, name, ref);
    }
  }

  /** The same for what is reached from the kept roots, wherever it stands. */
  lemma ReachedSurvives(doc: Json, out: Json, tables: map<string, map<string, Json>>, closure: set<string>, ref: string)
    requires Filtered(doc, out, tables, closure) && ref in closure
    requires Untouched(ref, tables.Keys) || TwoPart(ref)
    ensures Resolve(out, ref) == Resolve(doc, ref)
  {
    FateExact(doc, out, tables, closure, ref);
    if TwoPart(ref) {
      TwoPartCanon(ref);
    }
  }
}
