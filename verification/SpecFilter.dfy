/** Filtering an AsyncAPI document by tag: which channels, operations and
    components stay. A document is an object; `Threw` is a TypeError. */
module SpecFilter {
  import opened Domain
  import opened Json
  import opened RefClosure

  datatype Outcome<+T> = Ok(value: T) | Threw

  const CHANNELS: string := "channels"
  const OPERATIONS: string := "operations"
  const COMPONENTS: string := "components"
  const COMPONENT_PREFIX: string := "#/components/"
  const CHANNEL_PREFIX: string := "#/channels/"

  // ----- tags -----

  predicate Names(item: Json, tag: string) {
    if item.Str? then item.s == tag else Prop(Some(item), "name") == Some(Str(tag))
  }

  predicate HasTag(obj: Option<Json>, tag: string) {
    var tags := Prop(obj, "tags");
    tags.Some? && tags.value.Arr? && exists i :: 0 <= i < |tags.value.items| && Names(tags.value.items[i], tag)
  }

  // ----- components -----

  function Canon(section: string, name: string): string {
    COMPONENT_PREFIX + section + "/" + name
  }

  function PruneSection(section: string, entries: Json, kept: set<string>): map<string, Json> {
    map n | n in OwnProps(entries) && Canon(section, n) in kept :: OwnProps(entries)[n]
  }

  predicate HasNull(entries: map<string, Json>) {
    exists k :: k in entries && entries[k] == Null
  }

  function Prune(components: Option<Json>, kept: set<string>): Outcome<Option<Json>> {
    if !Truthy(components) then Ok(components)
    else
      var sections := OwnProps(components.value);
      if HasNull(sections) then Threw
      else Ok(Some(Obj(map s | s in sections :: Obj(PruneSection(s, sections[s], kept)))))
  }

  /** The inner loop of the pruning: the entries that pass the test. */
  method Sift(entries: map<string, Json>, keep: string -> bool) returns (out: map<string, Json>)
    ensures out == map n | n in entries && keep(n) :: entries[n]
  {
    out := map[];
    var names := entries.Keys;
    while names != {}
      invariant names <= entries.Keys
      invariant out == map n | n in entries.Keys - names && keep(n) :: entries[n]
      decreases |names|
    {
      var n :| n in names;
      if keep(n) {
        out := out[n := entries[n]];
      }
      names := names - {n};
    }
  }

  method PruneComponents(components: Option<Json>, kept: set<string>) returns (pruned: Outcome<Option<Json>>)
    ensures pruned == Prune(components, kept)
  {
    if !Truthy(components) {
      return Ok(components);
    }
    var sections := OwnProps(components.value);
    var out: map<string, Json> := map[];
    var rest := sections.Keys;
    while rest != {}
      invariant rest <= sections.Keys
      invariant out == map s | s in sections.Keys - rest :: Obj(PruneSection(s, sections[s], kept))
      invariant forall s :: s in sections.Keys - rest ==> sections[s] != Null
      decreases |rest|
    {
      var s :| s in rest;
      if sections[s] == Null {
        return Threw;
      }
      var keptEntries := Sift(OwnProps(sections[s]), n => Canon(s, n) in kept);
      assert keptEntries == PruneSection(s, sections[s], kept);
      out := out[s := Obj(keptEntries)];
      rest := rest - {s};
    }
    assert out == map s | s in sections :: Obj(PruneSection(s, sections[s], kept));
    pruned := Ok(Some(Obj(out)));
  }

  // ----- the closure as a set -----

  ghost function Closure(spec: Json, initial: set<string>): set<string> {
    set r | r in initial + Refs(spec) && Reachable(spec, initial, r)
  }

  lemma ClosureIsReachable(spec: Json, initial: set<string>, all: set<string>)
    requires forall r :: r in all <==> Reachable(spec, initial, r)
    ensures all == Closure(spec, initial)
  {
    forall r | r in all ensures r in initial + Refs(spec) {
      forall x ensures Follow(spec, x) <= initial + Refs(spec) {
        FollowBounded(spec, x);
      }
      var chain :| Reaches(spec, initial, chain, r);
      ClosedHoldsChain(spec, initial, initial + Refs(spec), chain, r);
    }
  }

  /** Collects the references of the kept roots, closes them and prunes. */
  method PruneFor(spec: Json, roots: Json) returns (components: Outcome<Option<Json>>)
    ensures components == Prune(Prop(Some(spec), COMPONENTS), Closure(spec, Refs(roots)))
  {
    var initial := CollectRefs(roots, {});
    assert initial == Refs(roots);
    var refs := CollectRefsTransitive(spec, initial);
    ClosureIsReachable(spec, initial, refs);
    components := PruneComponents(Prop(Some(spec), COMPONENTS), refs);
  }

  // ----- AsyncAPI v2 -----

  predicate Relevant(channel: Json, tag: string) {
    || HasTag(Some(channel), tag)
    || HasTag(Prop(Some(channel), "subscribe"), tag)
    || HasTag(Prop(Some(channel), "publish"), tag)
  }

  function WithComponents(fields: map<string, Json>, components: Option<Json>): map<string, Json> {
    if components.Some? then fields[COMPONENTS := components.value] else fields
  }

  function KeptChannels(channels: map<string, Json>, tag: string): map<string, Json> {
    RelevantAmong(channels, channels.Keys, tag)
  }

  ghost function FilteredV2(spec: map<string, Json>, tag: string): Outcome<map<string, Json>> {
    var channels := OwnProps(OrEmpty(Prop(Some(Obj(spec)), CHANNELS)));
    if HasNull(channels) then Threw
    else
      var kept := Obj(KeptChannels(channels, tag));
      var components := Prune(Prop(Some(Obj(spec)), COMPONENTS), Closure(Obj(spec), Refs(kept)));
      if components.Threw? then Threw
      else Ok(WithComponents(spec[CHANNELS := kept], components.value))
  }

  method KeepChannels(channels: map<string, Json>, tag: string) returns (out: Outcome<map<string, Json>>)
    ensures out == if HasNull(channels) then Threw else Ok(KeptChannels(channels, tag))
  {
    var kept: map<string, Json> := map[];
    var rest := channels.Keys;
    while rest != {}
      invariant rest <= channels.Keys
      invariant kept == RelevantAmong(channels, channels.Keys - rest, tag)
      invariant forall c :: c in channels.Keys - rest ==> channels[c] != Null
      decreases |rest|
    {
      var c :| c in rest;
      if channels[c] == Null {
        return Threw;
      }
      RelevantAmongMore(channels, channels.Keys - rest, c, tag);
      if Relevant(channels[c], tag) {
        kept := kept[c := channels[c]];
      }
      assert channels.Keys - (rest - {c}) == channels.Keys - rest + {c};
      rest := rest - {c};
    }
    assert channels.Keys - rest == channels.Keys;
    out := Ok(kept);
  }

  function RelevantAmong(channels: map<string, Json>, keys: set<string>, tag: string): map<string, Json>
    requires keys <= channels.Keys
  {
    map c | c in keys && Relevant(channels[c], tag) :: channels[c]
  }

  lemma RelevantAmongMore(channels: map<string, Json>, keys: set<string>, c: string, tag: string)
    requires keys <= channels.Keys && c in channels && c !in keys
    ensures RelevantAmong(channels, keys + {c}, tag)
         == if Relevant(channels[c], tag) then RelevantAmong(channels, keys, tag)[c := channels[c]]
            else RelevantAmong(channels, keys, tag)
  {
  }

  method FilterV2(spec: map<string, Json>, tag: string) returns (out: Outcome<map<string, Json>>)
    ensures out == FilteredV2(spec, tag)
  {
    var channels := OwnProps(OrEmpty(Prop(Some(Obj(spec)), CHANNELS)));
    var sifted := KeepChannels(channels, tag);
    if sifted.Threw? {
      return Threw;
    }
    var kept := sifted.value;
    var components := PruneFor(Obj(spec), Obj(kept));
    if components.Threw? {
      return Threw;
    }
    out := Ok(WithComponents(spec[CHANNELS := Obj(kept)], components.value));
  }

  // ----- AsyncAPI v3 -----

  function StripChannel(ref: string): string {
    if CHANNEL_PREFIX <= ref then ref[|CHANNEL_PREFIX|..] else ref
  }

  /** The channel an operation names; a reference that is no string has no `replace`. */
  function ChannelName(op: Json): Outcome<Option<string>> {
    if op == Null then Threw
    else
      var ref := Prop(Prop(Some(op), "channel"), REF);
      if ref.None? || ref.value == Null then Ok(None)
      else if ref.value.Str? then Ok(Some(StripChannel(ref.value.s)))
      else Threw
  }

  function ChannelOf(channels: Option<Json>, name: Option<string>): Option<Json> {
    if name.Some? && name.value != "" then Prop(channels, name.value) else None
  }

  predicate NamesFail(ops: map<string, Json>) {
    exists o :: o in ops && ChannelName(ops[o]).Threw?
  }

  predicate Wanted(op: Json, channels: Option<Json>, tag: string)
    requires ChannelName(op).Ok?
  {
    HasTag(Some(op), tag) || HasTag(ChannelOf(channels, ChannelName(op).value), tag)
  }

  predicate AllNamed(ops: map<string, Json>, keys: set<string>) {
    keys <= ops.Keys && forall o :: o in keys ==> ChannelName(ops[o]).Ok?
  }

  function KeptAmong(ops: map<string, Json>, keys: set<string>, channels: Option<Json>, tag: string): map<string, Json>
    requires AllNamed(ops, keys)
  {
    map o | o in keys && Wanted(ops[o], channels, tag) :: ops[o]
  }

  function KeptOperations(ops: map<string, Json>, channels: Option<Json>, tag: string): map<string, Json>
    requires !NamesFail(ops)
  {
    KeptAmong(ops, ops.Keys, channels, tag)
  }

  /** The channels that kept operations name and that exist. */
  function NamedChannels(kept: map<string, Json>, channels: Option<Json>): map<string, Json> {
    map o | o in kept && ChannelName(kept[o]).Ok? && Truthy(ChannelOf(channels, ChannelName(kept[o]).value))
      :: ChannelName(kept[o]).value.value := ChannelOf(channels, ChannelName(kept[o]).value).value
  }

  function RootsV3(ops: map<string, Json>, channels: map<string, Json>): Json {
    Obj(map[OPERATIONS := Obj(ops), CHANNELS := Obj(channels)])
  }

  ghost function FilteredV3(spec: map<string, Json>, tag: string): Outcome<map<string, Json>> {
    var ops := OwnProps(OrEmpty(Prop(Some(Obj(spec)), OPERATIONS)));
    var channels := Prop(Some(Obj(spec)), CHANNELS);
    if NamesFail(ops) then Threw
    else
      var keptOps := KeptOperations(ops, channels, tag);
      var keptChannels := NamedChannels(keptOps, channels);
      var refs := Closure(Obj(spec), Refs(RootsV3(keptOps, keptChannels)));
      var components := Prune(Prop(Some(Obj(spec)), COMPONENTS), refs);
      if components.Threw? then Threw
      else Ok(WithComponents(spec[OPERATIONS := Obj(keptOps)][CHANNELS := Obj(keptChannels)], components.value))
  }

  ghost predicate NamedBy(names: set<string>, keptOps: map<string, Json>) {
    forall n :: n in names <==> n != "" && exists o :: o in keptOps && ChannelName(keptOps[o]) == Ok(Some(n))
  }

  /** The loop over the operations: those kept, and the channels they name. */
  method KeepOperations(ops: map<string, Json>, channels: Option<Json>, tag: string)
    returns (kept: Outcome<(map<string, Json>, set<string>)>)
    ensures kept.Threw? <==> NamesFail(ops)
    ensures kept.Ok? ==> kept.value.0 == KeptOperations(ops, channels, tag) && NamedBy(kept.value.1, kept.value.0)
  {
    var keptOps: map<string, Json> := map[];
    var names: set<string> := {};
    var rest := ops.Keys;
    while rest != {}
      invariant rest <= ops.Keys && AllNamed(ops, ops.Keys - rest)
      invariant keptOps == KeptAmong(ops, ops.Keys - rest, channels, tag)
      invariant NamedBy(names, keptOps)
      decreases |rest|
    {
      var o :| o in rest;
      var name := ChannelName(ops[o]);
      if name.Threw? {
        return Threw;
      }
      KeptAmongMore(ops, ops.Keys - rest, o, channels, tag);
      assert ops.Keys - (rest - {o}) == ops.Keys - rest + {o};
      if Wanted(ops[o], channels, tag) {
        NamedByMore(names, keptOps, o, ops[o]);
        keptOps := keptOps[o := ops[o]];
        if name.value.Some? && name.value.value != "" {
          names := names + {name.value.value};
        }
      }
      rest := rest - {o};
    }
    assert ops.Keys - rest == ops.Keys;
    kept := Ok((keptOps, names));
  }

  lemma KeptAmongMore(ops: map<string, Json>, keys: set<string>, o: string, channels: Option<Json>, tag: string)
    requires AllNamed(ops, keys) && o in ops && o !in keys && ChannelName(ops[o]).Ok?
    ensures AllNamed(ops, keys + {o})
    ensures KeptAmong(ops, keys + {o}, channels, tag)
         == if Wanted(ops[o], channels, tag) then KeptAmong(ops, keys, channels, tag)[o := ops[o]]
            else KeptAmong(ops, keys, channels, tag)
  {
  }

  lemma NamedByMore(names: set<string>, keptOps: map<string, Json>, o: string, op: Json)
    requires NamedBy(names, keptOps) && o !in keptOps && ChannelName(op).Ok?
    ensures var name := ChannelName(op).value;
            NamedBy(if name.Some? && name.value != "" then names + {name.value} else names, keptOps[o := op])
  {
    var name, more := ChannelName(op).value, keptOps[o := op];
    assert forall x :: x in keptOps ==> more[x] == keptOps[x];
    assert more[o] == op;
  }

  lemma NamedChannelFound(keptOps: map<string, Json>, channels: Option<Json>, o: string, n: string)
    requires o in keptOps && ChannelName(keptOps[o]) == Ok(Some(n)) && n != "" && Truthy(Prop(channels, n))
    ensures n in NamedChannels(keptOps, channels)
  {
    assert ChannelOf(channels, Some(n)) == Prop(channels, n);
  }

  lemma NamedChannelsExist(keptOps: map<string, Json>, names: set<string>, channels: Option<Json>, kept: map<string, Json>)
    requires NamedBy(names, keptOps)
    requires kept == map n | n in names && Truthy(Prop(channels, n)) :: Prop(channels, n).value
    ensures kept == NamedChannels(keptOps, channels)
  {
    var expected := NamedChannels(keptOps, channels);
    forall n | n in kept ensures n in expected {
      var o :| o in keptOps && ChannelName(keptOps[o]) == Ok(Some(n));
      NamedChannelFound(keptOps, channels, o, n);
    }
    forall n | n in expected ensures n in kept && expected[n] == kept[n] {
      ExpectedChannel(keptOps, channels, n);
    }
  }

  lemma ExpectedChannel(keptOps: map<string, Json>, channels: Option<Json>, n: string)
    requires n in NamedChannels(keptOps, channels)
    ensures n != "" && exists o :: o in keptOps && ChannelName(keptOps[o]) == Ok(Some(n))
    ensures Truthy(Prop(channels, n)) && NamedChannels(keptOps, channels)[n] == Prop(channels, n).value
  {
    var o :| o in keptOps && ChannelName(keptOps[o]).Ok?
             && Truthy(ChannelOf(channels, ChannelName(keptOps[o]).value))
             && ChannelName(keptOps[o]).value.value == n;
    assert ChannelName(keptOps[o]) == Ok(Some(n));
  }

  method FilterV3(spec: map<string, Json>, tag: string) returns (out: Outcome<map<string, Json>>)
    ensures out == FilteredV3(spec, tag)
  {
    var ops := OwnProps(OrEmpty(Prop(Some(Obj(spec)), OPERATIONS)));
    var channels := Prop(Some(Obj(spec)), CHANNELS);
    var kept := KeepOperations(ops, channels, tag);
    if kept.Threw? {
      return Threw;
    }
    var keptOps := kept.value.0;
    var keptChannels := ExistingChannels(kept.value.1, channels);
    NamedChannelsExist(keptOps, kept.value.1, channels, keptChannels);
    var components := PruneFor(Obj(spec), RootsV3(keptOps, keptChannels));
    if components.Threw? {
      return Threw;
    }
    out := Ok(WithComponents(spec[OPERATIONS := Obj(keptOps)][CHANNELS := Obj(keptChannels)], components.value));
  }

  method ExistingChannels(names: set<string>, channels: Option<Json>) returns (kept: map<string, Json>)
    ensures kept == map n | n in names && Truthy(Prop(channels, n)) :: Prop(channels, n).value
  {
    kept := map[];
    var rest := names;
    while rest != {}
      invariant rest <= names
      invariant kept == map n | n in names - rest && Truthy(Prop(channels, n)) :: Prop(channels, n).value
      decreases |rest|
    {
      var n :| n in rest;
      var channel := Prop(channels, n);
      if Truthy(channel) {
        kept := kept[n := channel.value];
      }
      rest := rest - {n};
    }
  }
}
