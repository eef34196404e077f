/** The same for v3, whose filter also prunes the operations. */
module FilterLossesV3 {
  import opened Domain
  import opened Json
  import opened RefClosure
  import opened SpecFilter
  import opened FilterProofs
  import opened FilterReferences
  import opened FilterLosses

  // ----- text as a document -----

  /** A path that leads from a text to one of its characters. */
  ghost predicate OnText(parts: seq<string>) {
    && parts != []
    && (exists n: nat :: parts[0] == IndexName(n))
    && forall i :: 1 <= i < |parts| ==> parts[i] == IndexName(0)
  }

  lemma CharacterAt(s: string, n: nat)
    requires n < |s|
    ensures Prop(Some(Str(s)), IndexName(n)) == Some(Str([s[n]]))
  {
    var items := seq(|s|, i requires 0 <= i < |s| => Str([s[i]]));
    assert IndexName(n) in Indexed(items);
    var i :| 0 <= i < |items| && IndexName(i) == IndexName(n) && Indexed(items)[IndexName(n)] == items[i];
    IndexNameInjective(i, n);
  }

  lemma CharacterName(s: string, name: string)
    requires Prop(Some(Str(s)), name).Some?
    ensures exists n: nat :: n < |s| && name == IndexName(n) && Prop(Some(Str(s)), name) == Some(Str([s[n]]))
  {
    var items := seq(|s|, i requires 0 <= i < |s| => Str([s[i]]));
    var n: nat :| n < |items| && name == IndexName(n);
    CharacterAt(s, n);
  }

  lemma {:induction false} CharacterWalk(c: string, parts: seq<string>)
    requires |c| == 1
    ensures Walk(Some(Str(c)), parts).Some? <==> forall i :: 0 <= i < |parts| ==> parts[i] == IndexName(0)
    decreases |parts|
  {
    if parts != [] {
      CharacterAt(c, 0);
      CharacterWalk(c, parts[1..]);
      if Prop(Some(Str(c)), parts[0]).Some? {
        CharacterName(c, parts[0]);
        assert forall i :: 1 <= i < |parts| ==> parts[i] == parts[1..][i - 1];
      } else {
        WalkNone(parts[1..]);
      }
    }
  }

  lemma TextWalk(s: string, parts: seq<string>)
    requires parts != [] && Walk(Some(Str(s)), parts).Some?
    ensures OnText(parts)
  {
    if Prop(Some(Str(s)), parts[0]).None? {
      WalkNone(parts[1..]);
    }
    CharacterName(s, parts[0]);
    var n: nat :| n < |s| && parts[0] == IndexName(n) && Prop(Some(Str(s)), parts[0]) == Some(Str([s[n]]));
    CharacterWalk([s[n]], parts[1..]);
    assert forall i :: 1 <= i < |parts| ==> parts[i] == parts[1..][i - 1];
  }

  function Text(n: nat): string {
    seq(n + 1, i => 'a')
  }

  lemma TextReaches(n: nat, parts: seq<string>)
    requires OnText(parts) && parts[0] == IndexName(n)
    ensures Walk(Some(Str(Text(n))), parts).Some?
  {
    CharacterAt(Text(n), n);
    CharacterWalk([Text(n)[n]], parts[1..]);
    assert Walk(Some(Str(Text(n))), parts) == Walk(Prop(Some(Str(Text(n))), parts[0]), parts[1..]);
  }

  // ----- what an operation's channel reference can hold -----

  predicate ThroughChannel(parts: seq<string>) {
    |parts| >= 3 && parts[0] == "channel" && parts[1] == REF
  }

  /** Into the text of an operation's own channel reference, where there is no such
      character: it resolves in no document that the filter accepts. */
  ghost predicate Blocked(ref: string) {
    IntoTable(ref, OPERATIONS) && ThroughChannel(Parts(ref)[2..]) && !OnText(Parts(ref)[4..])
  }

  lemma ThroughUnresolved(op: Json, parts: seq<string>)
    requires ChannelName(op).Ok? && ThroughChannel(parts) && !OnText(parts[2..])
    ensures Walk(Some(op), parts) == None
  {
    assert parts[0..] == parts;
    WalkNext(Some(op), parts, 0);
    WalkNext(Prop(Some(op), "channel"), parts, 1);
    var ref := Prop(Prop(Some(op), "channel"), REF);
    if ref.None? {
      WalkNone(parts[2..]);
    } else if ref.value == Null {
      WalkNext(ref, parts, 2);
      WalkNone(parts[3..]);
    } else if Walk(ref, parts[2..]).Some? {
      TextWalk(ref.value.s, parts[2..]);
    }
  }

  lemma BlockedInDocument(spec: map<string, Json>, ref: string)
    requires !NamesFail(OperationsIn(spec)) && Blocked(ref)
    ensures Resolve(Obj(spec), ref) == None
  {
    var parts := Parts(ref);
    var table := Prop(Some(Obj(spec)), OPERATIONS);
    assert parts[0..] == parts;
    WalkNext(Some(Obj(spec)), parts, 0);
    WalkNext(table, parts, 1);
    var op := Prop(table, parts[1]);
    if op.None? {
      WalkNone(parts[2..]);
    } else {
      EntryIn(spec, parts[1]);
      assert parts[2..][2..] == parts[4..];
      ThroughUnresolved(op.value, parts[2..]);
    }
  }

  lemma EntryIn(spec: map<string, Json>, o: string)
    requires Prop(Prop(Some(Obj(spec)), OPERATIONS), o).Some?
    ensures o in OperationsIn(spec) && OperationsIn(spec)[o] == Prop(Prop(Some(Obj(spec)), OPERATIONS), o).value
  {
  }

  lemma BlockedUnresolved(spec: map<string, Json>, tag: string, ref: string)
    requires FilteredV3(spec, tag).Ok? && Blocked(ref)
    ensures Resolve(Obj(spec), ref) == None && Resolve(Obj(FilteredV3(spec, tag).value), ref) == None
  {
    BlockedInDocument(spec, ref);
    FateV3(spec, tag, ref);
    var tables := TablesV3(OpsV3(spec, tag), ChannelsV3(spec, tag));
    assert OPERATIONS in tables;
  }

  // ----- the documents -----

  /** A reference that survives v3 whenever it stands in the component (section, name). */
  ghost predicate SafeV3(section: string, name: string, ref: string) {
    Safe(section, name, ref, {OPERATIONS, CHANNELS}) || Blocked(ref)
  }

  function OpValue(ref: string, text: string): Json {
    if !IntoTable(ref, OPERATIONS) || Parts(ref)[2..] == [] then Num(7)
    else if ThroughChannel(Parts(ref)[2..]) then Obj(map["channel" := Pointer(text)])
    else Nest(Parts(ref)[2..], Null)
  }

  lemma OpPlain(ref: string, text: string, channels: Option<Json>, tag: string)
    requires forall n :: !HasTag(Prop(channels, n), tag)
    ensures ChannelName(OpValue(ref, text)).Ok? && !Wanted(OpValue(ref, text), channels, tag)
  {
    if IntoTable(ref, OPERATIONS) && Parts(ref)[2..] != [] {
      var rest := Parts(ref)[2..];
      if ThroughChannel(rest) {
        assert !HasTag(Some(OpValue(ref, text)), tag);
      } else {
        NestTagless(rest, Null, tag);
        NestPlain(rest, Null);
        NestChannel(rest);
      }
    }
  }

  lemma NestOne(parts: seq<string>)
    requires |parts| == 1
    ensures Nest(parts, Null) == Obj(map[parts[0] := Null])
  {
    assert parts[1..] == [];
  }

  lemma NestChannel(parts: seq<string>)
    requires parts != [] && !ThroughChannel(parts)
    ensures ChannelName(Nest(parts, Null)) == Ok(None)
  {
    NestPlain(parts, Null);
    var op := Nest(parts, Null);
    if parts[0] == "channel" {
      var inner := Nest(parts[1..], Null);
      assert Prop(Some(op), "channel") == Some(inner);
      if |parts| > 1 && parts[1] == REF {
        NestOne(parts[1..]);
      } else {
        assert Prop(Some(inner), REF) == None;
      }
    } else {
      assert Prop(Some(op), "channel") == None;
    }
  }

  lemma OpReached(ref: string, n: nat)
    requires IntoTable(ref, OPERATIONS)
    requires ThroughChannel(Parts(ref)[2..]) ==> OnText(Parts(ref)[4..]) && Parts(ref)[4] == IndexName(n)
    ensures Walk(Some(OpValue(ref, Text(n))), Parts(ref)[2..]).Some?
  {
    var rest := Parts(ref)[2..];
    if ThroughChannel(rest) {
      assert rest[2..] == Parts(ref)[4..] && rest[0..] == rest;
      var op := OpValue(ref, Text(n));
      WalkNext(Some(op), rest, 0);
      WalkNext(Prop(Some(op), "channel"), rest, 1);
      TextReaches(n, rest[2..]);
    } else {
      NestWalk(rest, Null);
    }
  }

  function TwoOperations(section: string, name: string, ref: string, tag: string, text: string): map<string, Json> {
    var y := EntryName(ref, OPERATIONS);
    map["c" + y := Tagged(tag, Canon(section, name)), y := OpValue(ref, text)]
  }

  function SpecV3(section: string, name: string, ref: string, tag: string, text: string): map<string, Json> {
    map[OPERATIONS := Obj(TwoOperations(section, name, ref, tag, text)),
        CHANNELS := Obj(map[EntryName(ref, CHANNELS) := EntryValue(ref, CHANNELS)]),
        COMPONENTS := Obj(ShelfFor(section, name, ref))]
  }

  lemma OnlyWanted(k: string, op: Json, y: string, other: Json, channels: Option<Json>, tag: string)
    requires k != y && ChannelName(op) == Ok(None) && HasTag(Some(op), tag)
    requires ChannelName(other).Ok? && !Wanted(other, channels, tag)
    ensures !NamesFail(map[k := op, y := other])
    ensures KeptOperations(map[k := op, y := other], channels, tag) == map[k := op]
  {
    var ops := map[k := op, y := other];
    assert ops[k] == op && ops[y] == other;
    assert Wanted(op, channels, tag);
  }

  lemma NoneNamed(k: string, op: Json, channels: Option<Json>)
    requires ChannelName(op) == Ok(None)
    ensures NamedChannels(map[k := op], channels) == map[]
  {
  }

  lemma SpecV3Fields(section: string, name: string, ref: string, tag: string, text: string)
    ensures var spec := SpecV3(section, name, ref, tag, text);
            && OperationsIn(spec) == TwoOperations(section, name, ref, tag, text)
            && Prop(Some(Obj(spec)), CHANNELS) == Some(Obj(map[EntryName(ref, CHANNELS) := EntryValue(ref, CHANNELS)]))
  {
    TableNames();
  }

  lemma OneTagless(x: string, value: Json, tag: string)
    requires !Relevant(value, tag)
    ensures forall n :: !HasTag(Prop(Some(Obj(map[x := value])), n), tag)
  {
  }

  lemma OneKept(spec: map<string, Json>, k: string, op: Json, y: string, other: Json, tag: string)
    requires OperationsIn(spec) == map[k := op, y := other] && k != y
    requires ChannelName(op) == Ok(None) && HasTag(Some(op), tag) && op.Obj?
    requires ChannelName(other).Ok? && !Wanted(other, Prop(Some(Obj(spec)), CHANNELS), tag)
    ensures !NamesFail(OperationsIn(spec))
    ensures OpsV3(spec, tag) == map[k := op] && ChannelsV3(spec, tag) == map[]
    ensures ClosureV3(spec, tag) == Closure(Obj(spec), Refs(op))
  {
    var channels := Prop(Some(Obj(spec)), CHANNELS);
    OnlyWanted(k, op, y, other, channels, tag);
    NoneNamed(k, op, channels);
    RootRefs(k, op);
  }

  lemma SpecV3Operations(section: string, name: string, ref: string, tag: string, text: string)
    ensures var spec := SpecV3(section, name, ref, tag, text);
            && !NamesFail(OperationsIn(spec))
            && OpsV3(spec, tag) == map["c" + EntryName(ref, OPERATIONS) := Tagged(tag, Canon(section, name))]
            && ChannelsV3(spec, tag) == map[]
            && ClosureV3(spec, tag) == Closure(Obj(spec), {Canon(section, name)})
  {
    var spec := SpecV3(section, name, ref, tag, text);
    var k, op := "c" + EntryName(ref, OPERATIONS), Tagged(tag, Canon(section, name));
    SpecV3Fields(section, name, ref, tag, text);
    EntryPlain(ref, CHANNELS, tag);
    OneTagless(EntryName(ref, CHANNELS), EntryValue(ref, CHANNELS), tag);
    OpPlain(ref, text, Prop(Some(Obj(spec)), CHANNELS), tag);
    TaggedRefs(tag, Canon(section, name));
    TaggedChannel(tag, Canon(section, name));
    assert |k| != |EntryName(ref, OPERATIONS)|;
    OneKept(spec, k, op, EntryName(ref, OPERATIONS), OpValue(ref, text), tag);
  }

  lemma TaggedChannel(tag: string, ref: string)
    ensures ChannelName(Tagged(tag, ref)) == Ok(None)
  {
    assert "channel" !in Tagged(tag, ref).fields;
  }

  lemma RootRefs(k: string, op: Json)
    requires !op.Str?
    ensures Refs(RootsV3(map[k := op], map[])) == Refs(op)
  {
    TableNames();
    OneFieldRefs(k, op);
    TwoFieldRefs(OPERATIONS, Obj(map[k := op]), CHANNELS, Obj(map[]));
  }

  lemma ThreeFieldRefs(k: string, x: Json, l: string, y: Json, m: string, z: Json)
    requires k != l && l != m && k != m
    ensures Refs(Obj(map[k := x, l := y, m := z])) == RefsAt(k, x) + RefsAt(l, y) + RefsAt(m, z)
  {
    var fields := map[k := x, l := y, m := z];
    forall r ensures r in Refs(Obj(fields)) <==> r in RefsAt(k, x) + RefsAt(l, y) + RefsAt(m, z) {
      assert k in fields && fields[k] == x && l in fields && fields[l] == y && m in fields && fields[m] == z;
    }
  }

  lemma SpecV3Refs(section: string, name: string, ref: string, tag: string, text: string)
    requires !SafeV3(section, name, ref) && Parts(ref)[0] == COMPONENTS
    ensures Refs(Obj(SpecV3(section, name, ref, tag, text))) == {Canon(section, name), ref}
  {
    var y, shelf := EntryName(ref, OPERATIONS), ShelfFor(section, name, ref);
    SpotFree(section, name, ref, {OPERATIONS, CHANNELS});
    ShelfRefs(section, name, ref, SpotA(section, ref), SpotB(section, name, ref), SpotValue(ref));
    TaggedRefs(tag, Canon(section, name));
    EntryPlain(ref, CHANNELS, tag);
    TableNames();
    assert "c" + y != y;
    TwoFieldRefs("c" + y, Tagged(tag, Canon(section, name)), y, Num(7));
    OneFieldRefs(EntryName(ref, CHANNELS), EntryValue(ref, CHANNELS));
    ThreeFieldRefs(OPERATIONS, Obj(TwoOperations(section, name, ref, tag, text)),
                   CHANNELS, Obj(map[EntryName(ref, CHANNELS) := EntryValue(ref, CHANNELS)]), COMPONENTS, Obj(shelf));
  }

  /** The document is accepted and keeps the component with the reference. */
  lemma AcceptedV3(section: string, name: string, ref: string, tag: string, text: string)
    requires !SafeV3(section, name, ref)
    ensures var spec := SpecV3(section, name, ref, tag, text);
            && FilteredV3(spec, tag).Ok?
            && RefersTo(Obj(FilteredV3(spec, tag).value), section, name, ref)
            && Filtered(Obj(spec), Obj(FilteredV3(spec, tag).value), TablesV3(OpsV3(spec, tag), ChannelsV3(spec, tag)),
                        ClosureV3(spec, tag))
  {
    var spec := SpecV3(section, name, ref, tag, text);
    SpecV3Operations(section, name, ref, tag, text);
    SpotFree(section, name, ref, {OPERATIONS, CHANNELS});
    ShelfSound(section, name, ref, spec);
    TablesHoldV3(spec, tag);
    ReachableInitially(Obj(spec), {Canon(section, name)}, Canon(section, name));
    ShelfHolds(Obj(spec), section, name, ref, SpotA(section, ref), SpotB(section, name, ref), SpotValue(ref));
    PrunedComponent(Obj(spec), Obj(FilteredV3(spec, tag).value), ClosureV3(spec, tag), section, name);
    PointerRefs(ref);
  }

  lemma ShelfLosesV3(section: string, name: string, ref: string, tag: string, text: string)
    requires !SafeV3(section, name, ref) && Parts(ref)[0] == COMPONENTS
    ensures var spec := SpecV3(section, name, ref, tag, text);
            && FilteredV3(spec, tag).Ok?
            && Resolve(Obj(FilteredV3(spec, tag).value), ref) != Resolve(Obj(spec), ref)
  {
    var spec := SpecV3(section, name, ref, tag, text);
    AcceptedV3(section, name, ref, tag, text);
    SpecV3Operations(section, name, ref, tag, text);
    SpecV3Refs(section, name, ref, tag, text);
    ClosureBounds(Obj(spec), section, name, ref);
    ShelfSound(section, name, ref, spec);
    SpotFree(section, name, ref, {OPERATIONS, CHANNELS});
    ShelfLoses(Obj(spec), Obj(FilteredV3(spec, tag).value), section, name, ref, {OPERATIONS, CHANNELS});
  }

  /** Every other reference is lost from a kept component in some document. */
  lemma PickText(ref: string) returns (n: nat)
    requires !Blocked(ref)
    ensures IntoTable(ref, OPERATIONS) && ThroughChannel(Parts(ref)[2..]) ==>
      OnText(Parts(ref)[4..]) && Parts(ref)[4] == IndexName(n)
  {
    n := 0;
    if IntoTable(ref, OPERATIONS) && ThroughChannel(Parts(ref)[2..]) {
      n :| Parts(ref)[4..][0] == IndexName(n);
    }
  }

  lemma UnsafeLostV3(section: string, name: string, ref: string, tag: string) returns (text: string)
    requires !SafeV3(section, name, ref)
    ensures var spec := SpecV3(section, name, ref, tag, text);
            && FilteredV3(spec, tag).Ok?
            && RefersTo(Obj(FilteredV3(spec, tag).value), section, name, ref)
            && Resolve(Obj(FilteredV3(spec, tag).value), ref) != Resolve(Obj(spec), ref)
  {
    var n := PickText(ref);
    text := Text(n);
    AcceptedV3(section, name, ref, tag, text);
    TouchedCases(ref);
    TouchedLostV3(section, name, ref, tag, n);
  }

  lemma TouchedCases(ref: string)
    requires !Untouched(ref, {OPERATIONS, CHANNELS})
    ensures Parts(ref)[0] == COMPONENTS || Parts(ref)[0] == CHANNELS || Parts(ref)[0] == OPERATIONS
  {
  }

  lemma TouchedLostV3(section: string, name: string, ref: string, tag: string, n: nat)
    requires !SafeV3(section, name, ref)
    requires Parts(ref)[0] == COMPONENTS || Parts(ref)[0] == CHANNELS || Parts(ref)[0] == OPERATIONS
    requires IntoTable(ref, OPERATIONS) && ThroughChannel(Parts(ref)[2..]) ==>
      OnText(Parts(ref)[4..]) && Parts(ref)[4] == IndexName(n)
    requires FilteredV3(SpecV3(section, name, ref, tag, Text(n)), tag).Ok?
    ensures var spec := SpecV3(section, name, ref, tag, Text(n));
            Resolve(Obj(FilteredV3(spec, tag).value), ref) != Resolve(Obj(spec), ref)
  {
    if Parts(ref)[0] == COMPONENTS {
      ShelfLosesV3(section, name, ref, tag, Text(n));
    } else if Parts(ref)[0] == CHANNELS {
      ChannelLosesV3(section, name, ref, tag, Text(n));
    } else {
      OperationLosesV3(section, name, ref, tag, n);
    }
  }

  lemma SpecV3Channel(section: string, name: string, ref: string, tag: string, text: string)
    ensures var x := EntryName(ref, CHANNELS);
            Prop(Prop(Some(Obj(SpecV3(section, name, ref, tag, text))), CHANNELS), x) == Some(EntryValue(ref, CHANNELS))
  {
    SpecV3Fields(section, name, ref, tag, text);
  }

  lemma ChannelLosesV3(section: string, name: string, ref: string, tag: string, text: string)
    requires !SafeV3(section, name, ref) && Parts(ref)[0] == CHANNELS
    requires FilteredV3(SpecV3(section, name, ref, tag, text), tag).Ok?
    ensures var spec := SpecV3(section, name, ref, tag, text);
            Resolve(Obj(FilteredV3(spec, tag).value), ref) != Resolve(Obj(spec), ref)
  {
    var spec := SpecV3(section, name, ref, tag, text);
    SpecV3Channel(section, name, ref, tag, text);
    SpecV3Operations(section, name, ref, tag, text);
    TablesHoldV3(spec, tag);
    KeptTables(spec, tag);
    EntryPlain(ref, CHANNELS, tag);
    EntryLost(Obj(spec), Obj(FilteredV3(spec, tag).value), ref, map[], EntryName(ref, CHANNELS), EntryValue(ref, CHANNELS));
  }

  lemma OperationLosesV3(section: string, name: string, ref: string, tag: string, n: nat)
    requires !SafeV3(section, name, ref) && Parts(ref)[0] == OPERATIONS
    requires IntoTable(ref, OPERATIONS) && ThroughChannel(Parts(ref)[2..]) ==>
      OnText(Parts(ref)[4..]) && Parts(ref)[4] == IndexName(n)
    requires FilteredV3(SpecV3(section, name, ref, tag, Text(n)), tag).Ok?
    ensures var spec := SpecV3(section, name, ref, tag, Text(n));
            Resolve(Obj(FilteredV3(spec, tag).value), ref) != Resolve(Obj(spec), ref)
  {
    var spec := SpecV3(section, name, ref, tag, Text(n));
    var y := EntryName(ref, OPERATIONS);
    assert "c" + y != y;
    SpecV3Operations(section, name, ref, tag, Text(n));
    SpecV3Entry(section, name, ref, tag, Text(n));
    TablesHoldV3(spec, tag);
    KeptTables(spec, tag);
    if IntoTable(ref, OPERATIONS) {
      OpReached(ref, n);
    }
    EntryLost(Obj(spec), Obj(FilteredV3(spec, tag).value), ref, OpsV3(spec, tag), y, OpValue(ref, Text(n)));
  }

  lemma SpecV3Entry(section: string, name: string, ref: string, tag: string, text: string)
    ensures var y := EntryName(ref, OPERATIONS);
            Prop(Prop(Some(Obj(SpecV3(section, name, ref, tag, text))), OPERATIONS), y) == Some(OpValue(ref, text))
  {
    TableNames();
  }

  ghost predicate SurvivesV3(spec: map<string, Json>, tag: string, ref: string)
    requires FilteredV3(spec, tag).Ok?
  {
    Resolve(Obj(FilteredV3(spec, tag).value), ref) == Resolve(Obj(spec), ref)
  }

  ghost predicate AlwaysKeepsV3(section: string, name: string, ref: string, tag: string) {
    forall spec :: FilteredV3(spec, tag).Ok? && RefersTo(Obj(FilteredV3(spec, tag).value), section, name, ref) ==>
      SurvivesV3(spec, tag, ref)
  }

  /** A reference inside a kept component resolves as before in every document, if and
      only if it is safe as it is written. */
  lemma ComponentReferencesV3(section: string, name: string, ref: string, tag: string)
    ensures AlwaysKeepsV3(section, name, ref, tag) <==> SafeV3(section, name, ref)
  {
    if SafeV3(section, name, ref) {
      forall spec | FilteredV3(spec, tag).Ok? && RefersTo(Obj(FilteredV3(spec, tag).value), section, name, ref)
        ensures SurvivesV3(spec, tag, ref)
      {
        if Blocked(ref) {
          BlockedUnresolved(spec, tag, ref);
        } else {
          var ops, channels := OpsV3(spec, tag), ChannelsV3(spec, tag);
          TablesHoldV3(spec, tag);
          SafeSurvives(Obj(spec), Obj(FilteredV3(spec, tag).value), TablesV3(ops, channels), RootsV3(ops, channels),
                       section, name, ref);
        }
      }
    } else {
      var text := UnsafeLostV3(section, name, ref, tag);
      assert !SurvivesV3(SpecV3(section, name, ref, tag, text), tag, ref);
    }
  }

  lemma KeysV3(ops: map<string, Json>, channels: map<string, Json>)
    ensures TablesV3(ops, channels).Keys == {OPERATIONS, CHANNELS}
  {
  }

  lemma ReachedSurvivesV3(spec: map<string, Json>, ref: string, tag: string)
    requires FilteredV3(spec, tag).Ok? && ref in ClosureV3(spec, tag)
    requires Untouched(ref, {OPERATIONS, CHANNELS}) || TwoPart(ref) || Blocked(ref)
    ensures SurvivesV3(spec, tag, ref)
  {
    if Blocked(ref) {
      BlockedUnresolved(spec, tag, ref);
    } else {
      var ops, channels := OpsV3(spec, tag), ChannelsV3(spec, tag);
      TablesHoldV3(spec, tag);
      KeysV3(ops, channels);
      ReachedSurvives(Obj(spec), Obj(FilteredV3(spec, tag).value), TablesV3(ops, channels), ClosureV3(spec, tag), ref);
    }
  }

  lemma ReachedLostV3(ref: string, tag: string) returns (spec: map<string, Json>)
    requires !Untouched(ref, {OPERATIONS, CHANNELS}) && !TwoPart(ref) && !Blocked(ref)
    ensures FilteredV3(spec, tag).Ok? && ref in ClosureV3(spec, tag) && !SurvivesV3(spec, tag, ref)
  {
    var far := Far("", "", ref);
    FarAway("", "", "", ref);
    FarUnsafe(ref, {OPERATIONS, CHANNELS});
    var text := UnsafeLostV3(far, far, ref, tag);
    spec := SpecV3(far, far, ref, tag, text);
    TablesHoldV3(spec, tag);
    ComponentFollowed(Obj(spec), Obj(FilteredV3(spec, tag).value), RootsV3(OpsV3(spec, tag), ChannelsV3(spec, tag)),
                      far, far, ref);
  }

  /** The same for every reference that is reached from a kept operation or channel. */
  lemma ReachedReferencesV3(ref: string, tag: string)
    ensures (forall spec :: FilteredV3(spec, tag).Ok? && ref in ClosureV3(spec, tag) ==> SurvivesV3(spec, tag, ref))
       <==> Untouched(ref, {OPERATIONS, CHANNELS}) || TwoPart(ref) || Blocked(ref)
  {
    if Untouched(ref, {OPERATIONS, CHANNELS}) || TwoPart(ref) || Blocked(ref) {
      forall spec | FilteredV3(spec, tag).Ok? && ref in ClosureV3(spec, tag) ensures SurvivesV3(spec, tag, ref) {
        ReachedSurvivesV3(spec, ref, tag);
      }
    } else {
      var spec := ReachedLostV3(ref, tag);
    }
  }

  /** In particular a reference to a channel, from a place that does not make the
      filter keep that channel. */
  lemma ChannelReferenceLostV3(name: string, tag: string) returns (spec: map<string, Json>)
    requires Slashless(name)
    ensures var ref := CHANNEL_PREFIX + name;
            FilteredV3(spec, tag).Ok? && ref in ClosureV3(spec, tag) && !SurvivesV3(spec, tag, ref)
  {
    ChannelParts(name);
    ChannelTouched(name);
    spec := ReachedLostV3(CHANNEL_PREFIX + name, tag);
  }

  lemma ChannelTouched(name: string)
    requires Slashless(name) && Parts(CHANNEL_PREFIX + name) == [CHANNELS, name]
    ensures var ref := CHANNEL_PREFIX + name;
            !Untouched(ref, {OPERATIONS, CHANNELS}) && !TwoPart(ref) && !Blocked(ref)
  {
    TableNames();
    ChannelParts(name);
  }
}
