/** Which channels and operations stay, and when the filter throws, told on the
    document. */
module FilterKeeps {
  import opened Domain
  import opened Json
  import opened RefClosure
  import opened RefPaths
  import opened SpecFilter
  import opened FilterReferences

  lemma NamesAsWritten()
    ensures CHANNELS == "channels" && OPERATIONS == "operations" && COMPONENTS == "components" && REF == "$ref"
    ensures CHANNEL_PREFIX == "#/channels/" && COMPONENT_PREFIX == "#/components/"
  {
  }

  // ----- tags -----

  /** The tag as a plain string, or as the name of a tag object. */
  predicate Says(item: Json, tag: string) {
    item == Str(tag) || (item.Obj? && "name" in item.fields && item.fields["name"] == Str(tag))
  }

  /** An object whose list of tags has this one. */
  predicate TagAt(obj: Option<Json>, tag: string) {
    && obj.Some? && obj.value.Obj? && "tags" in obj.value.fields
    && obj.value.fields["tags"].Arr?
    && exists i :: 0 <= i < |obj.value.fields["tags"].items| && Says(obj.value.fields["tags"].items[i], tag)
  }

  lemma NamesExact(item: Json, tag: string)
    ensures Names(item, tag) <==> Says(item, tag)
  {
    NamedIsField(item, "name");
  }

  lemma HasTagExact(obj: Option<Json>, tag: string)
    ensures HasTag(obj, tag) <==> TagAt(obj, tag)
  {
    if obj.Some? {
      NamedIsField(obj.value, "tags");
      if Prop(obj, "tags").Some? && Prop(obj, "tags").value.Arr? {
        var items := Prop(obj, "tags").value.items;
        forall i | 0 <= i < |items| ensures Names(items[i], tag) <==> Says(items[i], tag) {
          NamesExact(items[i], tag);
        }
      }
    }
  }

  // ----- AsyncAPI v2 -----

  /** The tag is on the channel, on what it publishes or on what it subscribes to. */
  predicate ChannelTagged(channel: Option<Json>, tag: string) {
    TagAt(channel, tag) || TagAt(Prop(channel, "publish"), tag) || TagAt(Prop(channel, "subscribe"), tag)
  }

  lemma RelevantExact(channel: Json, tag: string)
    ensures Relevant(channel, tag) <==> ChannelTagged(Some(channel), tag)
  {
    HasTagExact(Some(channel), tag);
    HasTagExact(Prop(Some(channel), "publish"), tag);
    HasTagExact(Prop(Some(channel), "subscribe"), tag);
  }

  function Entry(doc: Json, table: string, name: string): Option<Json> {
    Prop(Prop(Some(doc), table), name)
  }

  /** A channel stays, unchanged, exactly when it has the tag, on itself or on one of its
      two operations; and the rest of the document but components stays as it is. */
  lemma KeptV2(spec: map<string, Json>, tag: string, name: string)
    requires FilteredV2(spec, tag).Ok?
    ensures var doc, out := Obj(spec), Obj(FilteredV2(spec, tag).value);
            && Entry(out, CHANNELS, name)
               == (if ChannelTagged(Entry(doc, CHANNELS, name), tag) then Entry(doc, CHANNELS, name) else None)
            && (name != CHANNELS && name != COMPONENTS ==> Prop(Some(out), name) == Prop(Some(doc), name))
  {
    var kept := KeptChannels(ChannelsIn(spec), tag);
    FateV2(spec, tag, "");
    TableNames();
    assert CHANNELS in TablesV2(kept);
    if name in ChannelsIn(spec) {
      RelevantExact(ChannelsIn(spec)[name], tag);
      assert Entry(Obj(spec), CHANNELS, name) == Some(ChannelsIn(spec)[name]);
    } else {
      assert Entry(Obj(spec), CHANNELS, name) == None;
    }
  }

  /** The components are there, and one of their sections is null. */
  predicate NullSection(spec: map<string, Json>) {
    var components := Prop(Some(Obj(spec)), COMPONENTS);
    Truthy(components) && exists s :: s in OwnProps(components.value) && OwnProps(components.value)[s] == Null
  }

  /** The v2 filter throws exactly on a null channel or a null section of components. */
  lemma ThrowsV2(spec: map<string, Json>, tag: string)
    ensures FilteredV2(spec, tag).Threw?
       <==> (exists c :: c in ChannelsIn(spec) && ChannelsIn(spec)[c] == Null) || NullSection(spec)
  {
    PruneThrows(spec, ClosureV2(spec, tag));
    assert HasNull(ChannelsIn(spec)) <==> exists c :: c in ChannelsIn(spec) && ChannelsIn(spec)[c] == Null;
  }

  lemma PruneThrows(spec: map<string, Json>, closure: set<string>)
    ensures Prune(Prop(Some(Obj(spec)), COMPONENTS), closure).Threw? <==> NullSection(spec)
  {
  }

  // ----- AsyncAPI v3 -----

  /** The channel an operation names with its own reference: the text after the prefix, or
      all of it without the prefix. */
  ghost predicate NamesChannel(op: Json, name: string) {
    var ref := Prop(Prop(Some(op), "channel"), REF);
    && ref.Some? && ref.value.Str?
    && (ref.value.s == CHANNEL_PREFIX + name || (ref.value.s == name && !(CHANNEL_PREFIX <= name)))
  }

  lemma ChannelNameExact(op: Json, name: string)
    requires ChannelName(op).Ok?
    ensures ChannelName(op) == Ok(Some(name)) <==> NamesChannel(op, name)
  {
    var ref := Prop(Prop(Some(op), "channel"), REF);
    if ref.Some? && ref.value.Str? && CHANNEL_PREFIX <= ref.value.s {
      var s := ref.value.s;
      assert s == CHANNEL_PREFIX + s[|CHANNEL_PREFIX|..];
      assert (CHANNEL_PREFIX + name)[|CHANNEL_PREFIX|..] == name;
    }
  }

  /** The tag is on the operation, or on the channel it names. */
  ghost predicate OperationTagged(spec: map<string, Json>, op: Json, tag: string) {
    || TagAt(Some(op), tag)
    || exists name :: name != "" && NamesChannel(op, name) && TagAt(Entry(Obj(spec), CHANNELS, name), tag)
  }

  lemma WantedExact(spec: map<string, Json>, op: Json, tag: string)
    requires ChannelName(op).Ok?
    ensures Wanted(op, Prop(Some(Obj(spec)), CHANNELS), tag) <==> OperationTagged(spec, op, tag)
  {
    var channels := Prop(Some(Obj(spec)), CHANNELS);
    HasTagExact(Some(op), tag);
    HasTagExact(ChannelOf(channels, ChannelName(op).value), tag);
    if ChannelName(op).value.Some? {
      ChannelNameExact(op, ChannelName(op).value.value);
    }
    forall name | name != "" && NamesChannel(op, name)
      ensures ChannelOf(channels, ChannelName(op).value) == Entry(Obj(spec), CHANNELS, name)
    {
      ChannelNameExact(op, name);
    }
  }

  lemma OperationEntry(spec: map<string, Json>, o: string)
    ensures Entry(Obj(spec), OPERATIONS, o) == if o in OperationsIn(spec) then Some(OperationsIn(spec)[o]) else None
  {
  }

  lemma EntryOf(out: Json, table: string, fields: map<string, Json>, name: string)
    requires Prop(Some(out), table) == Some(Obj(fields))
    ensures Entry(out, table, name) == if name in fields then Some(fields[name]) else None
  {
  }

  lemma OutOperation(spec: map<string, Json>, tag: string, o: string)
    requires FilteredV3(spec, tag).Ok?
    ensures Entry(Obj(FilteredV3(spec, tag).value), OPERATIONS, o)
         == if o in OpsV3(spec, tag) then Some(OpsV3(spec, tag)[o]) else None
  {
    OutTables(spec, tag);
    EntryOf(Obj(FilteredV3(spec, tag).value), OPERATIONS, OpsV3(spec, tag), o);
  }

  lemma OutChannel(spec: map<string, Json>, tag: string, name: string)
    requires FilteredV3(spec, tag).Ok?
    ensures Entry(Obj(FilteredV3(spec, tag).value), CHANNELS, name)
         == if name in ChannelsV3(spec, tag) then Some(ChannelsV3(spec, tag)[name]) else None
  {
    OutTables(spec, tag);
    EntryOf(Obj(FilteredV3(spec, tag).value), CHANNELS, ChannelsV3(spec, tag), name);
  }

  /** An operation stays, unchanged, exactly when it or the channel it names has the tag. */
  lemma KeptOperationsV3(spec: map<string, Json>, tag: string, o: string)
    requires FilteredV3(spec, tag).Ok?
    ensures var doc, out := Obj(spec), Obj(FilteredV3(spec, tag).value);
            Entry(out, OPERATIONS, o)
            == match Entry(doc, OPERATIONS, o)
               case None => None
               case Some(op) => if OperationTagged(spec, op, tag) then Some(op) else None
  {
    OperationEntry(spec, o);
    OutOperation(spec, tag, o);
    if o in OperationsIn(spec) {
      WantedExact(spec, OperationsIn(spec)[o], tag);
    }
  }

  /** Some operation that stays names this channel. */
  ghost predicate NamedByKept(out: Json, name: string) {
    exists o :: Entry(out, OPERATIONS, o).Some? && NamesChannel(Entry(out, OPERATIONS, o).value, name)
  }

  /** A channel stays, unchanged, exactly when it exists and an operation that stays
      names it, whether or not it has the tag itself. */
  lemma KeptChannelsV3(spec: map<string, Json>, tag: string, name: string)
    requires FilteredV3(spec, tag).Ok?
    ensures var doc, out := Obj(spec), Obj(FilteredV3(spec, tag).value);
            Entry(out, CHANNELS, name)
            == (if name != "" && Truthy(Entry(doc, CHANNELS, name)) && NamedByKept(out, name)
                then Entry(doc, CHANNELS, name) else None)
  {
    var ops, declared := OpsV3(spec, tag), Prop(Some(Obj(spec)), CHANNELS);
    OutChannel(spec, tag, name);
    NamedExact(spec, tag, name);
    if name in ChannelsV3(spec, tag) {
      ExpectedChannel(ops, declared, name);
      var o :| o in ops && ChannelName(ops[o]) == Ok(Some(name));
    } else if name != "" && Truthy(Prop(declared, name)) && exists o :: o in ops && ChannelName(ops[o]) == Ok(Some(name)) {
      var o :| o in ops && ChannelName(ops[o]) == Ok(Some(name));
      NamedChannelFound(ops, declared, o, name);
    }
  }

  lemma NamedAmong(out: Json, ops: map<string, Json>, name: string)
    requires Prop(Some(out), OPERATIONS) == Some(Obj(ops)) && forall o :: o in ops ==> ChannelName(ops[o]).Ok?
    ensures NamedByKept(out, name) <==> exists o :: o in ops && ChannelName(ops[o]) == Ok(Some(name))
  {
    forall o ensures Entry(out, OPERATIONS, o) == if o in ops then Some(ops[o]) else None {
      EntryOf(out, OPERATIONS, ops, o);
    }
    forall o | o in ops ensures ChannelName(ops[o]) == Ok(Some(name)) <==> NamesChannel(ops[o], name) {
      ChannelNameExact(ops[o], name);
    }
    if exists o :: o in ops && ChannelName(ops[o]) == Ok(Some(name)) {
      var o :| o in ops && ChannelName(ops[o]) == Ok(Some(name));
      assert Entry(out, OPERATIONS, o).Some? && NamesChannel(Entry(out, OPERATIONS, o).value, name);
    }
  }

  lemma NamedExact(spec: map<string, Json>, tag: string, name: string)
    requires FilteredV3(spec, tag).Ok?
    ensures NamedByKept(Obj(FilteredV3(spec, tag).value), name)
       <==> exists o :: o in OpsV3(spec, tag) && ChannelName(OpsV3(spec, tag)[o]) == Ok(Some(name))
  {
    OutTables(spec, tag);
    NamedAmong(Obj(FilteredV3(spec, tag).value), OpsV3(spec, tag), name);
  }

  lemma OutTables(spec: map<string, Json>, tag: string)
    requires FilteredV3(spec, tag).Ok?
    ensures var out := Obj(FilteredV3(spec, tag).value);
            && Prop(Some(out), OPERATIONS) == Some(Obj(OpsV3(spec, tag)))
            && Prop(Some(out), CHANNELS) == Some(Obj(ChannelsV3(spec, tag)))
  {
    TablesHoldV3(spec, tag);
    KeptTables(spec, tag);
  }

  /** The v3 filter throws exactly on a null operation, on one whose channel reference is
      neither a string nor null, and on a null section of components. */
  lemma ThrowsV3(spec: map<string, Json>, tag: string)
    ensures FilteredV3(spec, tag).Threw?
       <==> (exists o :: o in OperationsIn(spec) && BadOperation(OperationsIn(spec)[o])) || NullSection(spec)
  {
    forall o | o in OperationsIn(spec) ensures BadOperation(OperationsIn(spec)[o]) <==> ChannelName(OperationsIn(spec)[o]).Threw? {
      BadExact(OperationsIn(spec)[o]);
    }
    assert NamesFail(OperationsIn(spec)) <==> exists o :: o in OperationsIn(spec) && BadOperation(OperationsIn(spec)[o]);
    if !NamesFail(OperationsIn(spec)) {
      PruneThrows(spec, ClosureV3(spec, tag));
    }
  }

  lemma BadExact(op: Json)
    ensures BadOperation(op) <==> ChannelName(op).Threw?
  {
  }

  predicate BadOperation(op: Json) {
    var ref := Prop(Prop(Some(op), "channel"), REF);
    op == Null || (ref.Some? && ref.value != Null && !ref.value.Str?)
  }

  /** The rest of the document stays as it is. */
  lemma RestV3(spec: map<string, Json>, tag: string, name: string)
    requires FilteredV3(spec, tag).Ok? && name != OPERATIONS && name != CHANNELS && name != COMPONENTS
    ensures Prop(Some(Obj(FilteredV3(spec, tag).value)), name) == Prop(Some(Obj(spec)), name)
  {
    var ops, channels := OpsV3(spec, tag), ChannelsV3(spec, tag);
    TablesHoldV3(spec, tag);
    OnlyTables(ops, channels, name);
    RestLeft(Obj(spec), Obj(FilteredV3(spec, tag).value), TablesV3(ops, channels), ClosureV3(spec, tag), name);
  }
}
