/** The migration runner: resumable application of versioned scripts, each in
    one transaction together with the record of its version. */
module Migrations {
  import opened Domain

  datatype Entry = Entry(name: string, isDir: bool)

  /** The embedded directory, and what executing a script does: None is an error. */
  datatype Scripts<!S> = Scripts(entries: seq<Entry>, exec: (S, string) -> Option<S>)

  /** `versions` is the schema_migrations table, absent before the first run;
      `committed` is history: the scripts whose effects were committed, in order. */
  datatype Db<S> = Db(versions: Option<set<string>>, schema: S, committed: seq<string>)

  /** Which calls to the database or the file system fail, by position in the run.
      A crash is a failure too: nothing outside a committed transaction remains. */
  type Cut = nat -> bool

  const CALLS_PER_SCRIPT: nat := 6

  function WithTable<S>(db: Db<S>): Db<S> {
    if db.versions.None? then db.(versions := Some({})) else db
  }

  function Commit<S>(db: Db<S>, name: string, schema: S): Db<S>
    requires db.versions.Some?
  {
    db.(versions := Some(db.versions.value + {name}), schema := schema, committed := db.committed + [name])
  }

  /** One script, with `k` the number of its first call: check, read, begin,
      execute, record, commit. */
  function ApplyOne<S>(scripts: Scripts<S>, db: Db<S>, name: string, cut: Cut, k: nat): (r: (Db<S>, bool))
    requires db.versions.Some?
    ensures r.0.versions.Some?
  {
    if cut(k) then (db, false)
    else if name in db.versions.value then (db, true)
    else if cut(k + 1) || cut(k + 2) || cut(k + 3) then (db, false)
    else
      match scripts.exec(db.schema, name)
      case None => (db, false)
      case Some(schema) => if cut(k + 4) || cut(k + 5) then (db, false) else (Commit(db, name, schema), true)
  }

  function ApplyFrom<S>(scripts: Scripts<S>, db: Db<S>, entries: seq<Entry>, cut: Cut, k: nat): (Db<S>, bool)
    requires db.versions.Some?
    decreases |entries|
  {
    if entries == [] then (db, true)
    else if entries[0].isDir then ApplyFrom(scripts, db, entries[1..], cut, k + CALLS_PER_SCRIPT)
    else
      var (d, ok) := ApplyOne(scripts, db, entries[0].name, cut, k);
      if ok then ApplyFrom(scripts, d, entries[1..], cut, k + CALLS_PER_SCRIPT) else (d, false)
  }

  /** A whole run: create the table, list the directory, apply the scripts. */
  function RunOnce<S>(scripts: Scripts<S>, db: Db<S>, cut: Cut): (Db<S>, bool) {
    if cut(0) then (db, false)
    else if cut(1) then (WithTable(db), false)
    else ApplyFrom(scripts, WithTable(db), scripts.entries, cut, 2)
  }

  class Store<!S> {
    var versions: Option<set<string>>
    var schema: S
    ghost var committed: seq<string>

    constructor (schema: S)
      ensures Snapshot() == Db(None, schema, [])
    {
      versions, this.schema, committed := None, schema, [];
    }

    ghost function Snapshot(): Db<S>
      reads this
    {
      Db(versions, schema, committed)
    }

    method RunMigrations(scripts: Scripts<S>, cut: Cut) returns (ok: bool)
      modifies this
      ensures (Snapshot(), ok) == RunOnce(scripts, old(Snapshot()), cut)
    {
      if cut(0) {
        return false;
      }
      if versions.None? {
        versions := Some({});
      }
      if cut(1) {
        return false;
      }
      ghost var start := Snapshot();
      var k: nat := 2;
      for i := 0 to |scripts.entries|
        invariant versions.Some?
        invariant ApplyFrom(scripts, Snapshot(), scripts.entries[i..], cut, k)
               == ApplyFrom(scripts, start, scripts.entries, cut, 2)
      {
        if !scripts.entries[i].isDir {
          var applied := ApplyMigration(scripts, scripts.entries[i].name, cut, k);
          if !applied {
            return false;
          }
        }
        k := k + CALLS_PER_SCRIPT;
      }
      ok := true;
    }

    method ApplyMigration(scripts: Scripts<S>, version: string, cut: Cut, k: nat) returns (ok: bool)
      requires versions.Some?
      modifies this
      ensures versions.Some?
      ensures (Snapshot(), ok) == ApplyOne(scripts, old(Snapshot()), version, cut, k)
    {
      if cut(k) {
        return false;
      }
      if version in versions.value {
        return true;
      }
      if cut(k + 1) || cut(k + 2) || cut(k + 3) {
        return false;
      }
      // the transaction works on its own copies until it commits
      var txSchema := scripts.exec(schema, version);
      if txSchema.None? || cut(k + 4) {
        return false;
      }
      var txVersions := versions.value + {version};
      if cut(k + 5) {
        return false;
      }
      versions, schema := Some(txVersions), txSchema.value;
      committed := committed + [version];
      ok := true;
    }
  }

  // ----- one uninterrupted upgrade -----

  /** The scripts still to be applied, each once, in directory order. */
  function Pending(applied: set<string>, entries: seq<Entry>): seq<string>
    decreases |entries|
  {
    if entries == [] then []
    else if entries[0].isDir || entries[0].name in applied then Pending(applied, entries[1..])
    else [entries[0].name] + Pending(applied + {entries[0].name}, entries[1..])
  }

  /** The name of some script of the directory. */
  predicate Listed(entries: seq<Entry>, name: string) {
    exists i :: 0 <= i < |entries| && !entries[i].isDir && entries[i].name == name
  }

  lemma ListedRest(entries: seq<Entry>, name: string)
    requires entries != []
    ensures Listed(entries, name) <==> (!entries[0].isDir && entries[0].name == name) || Listed(entries[1..], name)
  {
    if Listed(entries, name) && !(!entries[0].isDir && entries[0].name == name) {
      var i :| 0 <= i < |entries| && !entries[i].isDir && entries[i].name == name;
      assert entries[1..][i - 1] == entries[i];
    }
  }

  /** Pending are exactly the scripts listed and not yet applied, each once. */
  lemma {:induction false} PendingExact(applied: set<string>, entries: seq<Entry>)
    ensures forall n :: n in Pending(applied, entries) <==> Listed(entries, n) && n !in applied
    ensures forall i, j :: 0 <= i < j < |Pending(applied, entries)| ==>
      Pending(applied, entries)[i] != Pending(applied, entries)[j]
    decreases |entries|
  {
    if entries != [] {
      var skips := entries[0].isDir || entries[0].name in applied;
      PendingExact(if skips then applied else applied + {entries[0].name}, entries[1..]);
      forall n ensures Listed(entries, n) <==> (!entries[0].isDir && entries[0].name == n) || Listed(entries[1..], n) {
        ListedRest(entries, n);
      }
    }
  }

  /** They keep the order of the directory: what precedes in it is applied first. */
  lemma {:induction false} PendingInOrder(applied: set<string>, first: seq<Entry>, second: seq<Entry>)
    ensures Pending(applied, first + second)
         == Pending(applied, first) + Pending(applied + Members(Pending(applied, first)), second)
    decreases |first|
  {
    if first == [] {
      assert first + second == second && applied + Members([]) == applied;
    } else {
      assert (first + second)[1..] == first[1..] + second;
      if first[0].isDir || first[0].name in applied {
        PendingInOrder(applied, first[1..], second);
      } else {
        var name := first[0].name;
        var rest := Pending(applied + {name}, first[1..]);
        PendingInOrder(applied + {name}, first[1..], second);
        assert applied + Members([name] + rest) == applied + {name} + Members(rest);
      }
    }
  }

  function ExecAll<S>(scripts: Scripts<S>, schema: S, names: seq<string>): Option<S>
    decreases |names|
  {
    if names == [] then Some(schema)
    else
      match scripts.exec(schema, names[0])
      case None => None
      case Some(next) => ExecAll(scripts, next, names[1..])
  }

  function Members(names: seq<string>): set<string> {
    set n | n in names
  }

  /** What an upgrade must do: execute the pending scripts in order, or fail. */
  function Upgraded<S>(scripts: Scripts<S>, db: Db<S>, entries: seq<Entry>): Option<Db<S>>
    requires db.versions.Some?
  {
    var names := Pending(db.versions.value, entries);
    match ExecAll(scripts, db.schema, names)
    case None => None
    case Some(schema) => Some(Db(Some(db.versions.value + Members(names)), schema, db.committed + names))
  }

  /** Executing the first pending script moves one step towards the upgrade. */
  lemma UpgradedStep<S>(scripts: Scripts<S>, db: Db<S>, entries: seq<Entry>)
    requires db.versions.Some? && entries != []
    ensures entries[0].isDir || entries[0].name in db.versions.value ==>
              Upgraded(scripts, db, entries) == Upgraded(scripts, db, entries[1..])
    ensures !entries[0].isDir && entries[0].name !in db.versions.value ==>
              Upgraded(scripts, db, entries) ==
              match scripts.exec(db.schema, entries[0].name)
              case None => None
              case Some(schema) => Upgraded(scripts, Commit(db, entries[0].name, schema), entries[1..])
  {
    var name := entries[0].name;
    if !entries[0].isDir && name !in db.versions.value {
      var rest := Pending(db.versions.value + {name}, entries[1..]);
      assert ([name] + rest)[1..] == rest;
      assert db.versions.value + Members([name] + rest) == db.versions.value + {name} + Members(rest);
      assert db.committed + ([name] + rest) == db.committed + [name] + rest;
    }
  }

  /** A completed run is the uninterrupted upgrade. */
  lemma {:induction false} CompletedFrom<S>(scripts: Scripts<S>, db: Db<S>, entries: seq<Entry>, cut: Cut, k: nat)
    requires db.versions.Some?
    requires ApplyFrom(scripts, db, entries, cut, k).1
    ensures Upgraded(scripts, db, entries) == Some(ApplyFrom(scripts, db, entries, cut, k).0)
    decreases |entries|
  {
    if entries == [] {
      assert db.versions.value + Members([]) == db.versions.value && db.committed + [] == db.committed;
    } else {
      UpgradedStep(scripts, db, entries);
      if entries[0].isDir {
        CompletedFrom(scripts, db, entries[1..], cut, k + CALLS_PER_SCRIPT);
      } else {
        var d := ApplyOne(scripts, db, entries[0].name, cut, k).0;
        CompletedFrom(scripts, d, entries[1..], cut, k + CALLS_PER_SCRIPT);
      }
    }
  }

  lemma {:induction false} VersionsGrow<S>(scripts: Scripts<S>, db: Db<S>, entries: seq<Entry>, cut: Cut, k: nat)
    requires db.versions.Some?
    ensures var d := ApplyFrom(scripts, db, entries, cut, k).0;
            d.versions.Some? && db.versions.value <= d.versions.value
    decreases |entries|
  {
    if entries != [] {
      if entries[0].isDir {
        VersionsGrow(scripts, db, entries[1..], cut, k + CALLS_PER_SCRIPT);
      } else {
        var (d, ok) := ApplyOne(scripts, db, entries[0].name, cut, k);
        if ok {
          VersionsGrow(scripts, d, entries[1..], cut, k + CALLS_PER_SCRIPT);
        }
      }
    }
  }

  /** A run cut short anywhere leaves the upgrade that remains to be done with
      the same result. */
  lemma {:induction false} InterruptedFrom<S>(scripts: Scripts<S>, db: Db<S>, entries: seq<Entry>, cut: Cut, k: nat)
    requires db.versions.Some?
    ensures var d := ApplyFrom(scripts, db, entries, cut, k).0;
            d.versions.Some? && Upgraded(scripts, d, entries) == Upgraded(scripts, db, entries)
    decreases |entries|
  {
    VersionsGrow(scripts, db, entries, cut, k);
    if entries != [] {
      var d := ApplyFrom(scripts, db, entries, cut, k).0;
      UpgradedStep(scripts, db, entries);
      UpgradedStep(scripts, d, entries);
      if entries[0].isDir {
        InterruptedFrom(scripts, db, entries[1..], cut, k + CALLS_PER_SCRIPT);
      } else {
        var (one, ok) := ApplyOne(scripts, db, entries[0].name, cut, k);
        if ok {
          VersionsGrow(scripts, one, entries[1..], cut, k + CALLS_PER_SCRIPT);
          InterruptedFrom(scripts, one, entries[1..], cut, k + CALLS_PER_SCRIPT);
        }
      }
    }
  }

  function RunMany<S>(scripts: Scripts<S>, db: Db<S>, cuts: seq<Cut>): Db<S> {
    if cuts == [] then db
    else RunOnce(scripts, RunMany(scripts, db, cuts[..|cuts| - 1]), cuts[|cuts| - 1]).0
  }

  lemma {:induction false} RunsConverge<S>(scripts: Scripts<S>, db: Db<S>, cuts: seq<Cut>)
    ensures Upgraded(scripts, WithTable(RunMany(scripts, db, cuts)), scripts.entries)
         == Upgraded(scripts, WithTable(db), scripts.entries)
  {
    if cuts != [] {
      var before, cut := RunMany(scripts, db, cuts[..|cuts| - 1]), cuts[|cuts| - 1];
      RunsConverge(scripts, db, cuts[..|cuts| - 1]);
      InterruptedFrom(scripts, WithTable(before), scripts.entries, cut, 2);
    }
  }

  /** Any number of runs, each cut short at any point, followed by one that
      completes: the database, the version set and the order of the committed
      scripts are those of a single uninterrupted upgrade. */
  lemma ResumedEqualsUninterrupted<S>(scripts: Scripts<S>, db: Db<S>, cuts: seq<Cut>, last: Cut)
    requires RunOnce(scripts, RunMany(scripts, db, cuts), last).1
    ensures Upgraded(scripts, WithTable(db), scripts.entries)
         == Some(RunOnce(scripts, RunMany(scripts, db, cuts), last).0)
  {
    RunsConverge(scripts, db, cuts);
    CompletedFrom(scripts, WithTable(RunMany(scripts, db, cuts)), scripts.entries, last, 2);
  }

  lemma {:induction false} NothingPending(applied: set<string>, entries: seq<Entry>)
    requires forall i :: 0 <= i < |entries| && !entries[i].isDir ==> entries[i].name in applied
    ensures Pending(applied, entries) == []
  {
    if entries != [] {
      NothingPending(applied, entries[1..]);
    }
  }

  lemma {:induction false} CompletedCovers<S>(scripts: Scripts<S>, db: Db<S>, entries: seq<Entry>, cut: Cut, k: nat)
    requires db.versions.Some? && ApplyFrom(scripts, db, entries, cut, k).1
    ensures var d := ApplyFrom(scripts, db, entries, cut, k).0;
            d.versions.Some? && forall i :: 0 <= i < |entries| && !entries[i].isDir ==> entries[i].name in d.versions.value
    decreases |entries|
  {
    VersionsGrow(scripts, db, entries, cut, k);
    if entries != [] {
      var one := if entries[0].isDir then db else ApplyOne(scripts, db, entries[0].name, cut, k).0;
      VersionsGrow(scripts, one, entries[1..], cut, k + CALLS_PER_SCRIPT);
      CompletedCovers(scripts, one, entries[1..], cut, k + CALLS_PER_SCRIPT);
      assert forall i :: 0 < i < |entries| ==> entries[i] == entries[1..][i - 1];
    }
  }

  lemma {:induction false} CoveredIsFixed<S>(scripts: Scripts<S>, db: Db<S>, entries: seq<Entry>, cut: Cut, k: nat)
    requires db.versions.Some?
    requires forall i :: 0 <= i < |entries| && !entries[i].isDir ==> entries[i].name in db.versions.value
    ensures ApplyFrom(scripts, db, entries, cut, k).0 == db
    decreases |entries|
  {
    if entries != [] {
      CoveredIsFixed(scripts, db, entries[1..], cut, k + CALLS_PER_SCRIPT);
    }
  }

  /** After a completed run every further run, complete or not, changes nothing. */
  lemma FurtherRunsChangeNothing<S>(scripts: Scripts<S>, db: Db<S>, first: Cut, further: Cut)
    requires RunOnce(scripts, db, first).1
    ensures var d := RunOnce(scripts, db, first).0;
            RunOnce(scripts, d, further).0 == d
  {
    CompletedCovers(scripts, WithTable(db), scripts.entries, first, 2);
    CoveredIsFixed(scripts, RunOnce(scripts, db, first).0, scripts.entries, further, 2);
  }

  /** The recorded versions are exactly the committed scripts, each committed once. */
  ghost predicate Exact<S>(db: Db<S>) {
    && (forall n :: n in db.committed <==> n in WithTable(db).versions.value)
    && (forall i, j :: 0 <= i < j < |db.committed| ==> db.committed[i] != db.committed[j])
  }

  lemma {:induction false} CommitsOnce<S>(scripts: Scripts<S>, db: Db<S>, entries: seq<Entry>, cut: Cut, k: nat)
    requires db.versions.Some? && Exact(db)
    ensures Exact(ApplyFrom(scripts, db, entries, cut, k).0)
    decreases |entries|
  {
    if entries != [] {
      var (d, ok) := if entries[0].isDir then (db, true) else ApplyOne(scripts, db, entries[0].name, cut, k);
      if ok {
        CommitsOnce(scripts, d, entries[1..], cut, k + CALLS_PER_SCRIPT);
      }
    }
  }

  /** From a fresh store, after any number of runs, each cut short at any point: no
      script was committed twice, and exactly the committed ones are recorded. */
  lemma {:induction false} CommittedOnce<S>(scripts: Scripts<S>, schema: S, cuts: seq<Cut>)
    ensures Exact(RunMany(scripts, Db(None, schema, []), cuts))
  {
    if cuts != [] {
      var before, cut := cuts[..|cuts| - 1], cuts[|cuts| - 1];
      var db := RunMany(scripts, Db(None, schema, []), before);
      CommittedOnce(scripts, schema, before);
      if !cut(0) && !cut(1) {
        CommitsOnce(scripts, WithTable(db), scripts.entries, cut, 2);
      }
    }
  }

  lemma {:induction false} UncutFrom<S>(scripts: Scripts<S>, db: Db<S>, entries: seq<Entry>, cut: Cut, k: nat)
    requires db.versions.Some? && (forall c :: !cut(c)) && Upgraded(scripts, db, entries).Some?
    ensures ApplyFrom(scripts, db, entries, cut, k).1
    decreases |entries|
  {
    if entries != [] {
      UpgradedStep(scripts, db, entries);
      if entries[0].isDir {
        UncutFrom(scripts, db, entries[1..], cut, k + CALLS_PER_SCRIPT);
      } else {
        var (d, ok) := ApplyOne(scripts, db, entries[0].name, cut, k);
        assert ok;
        UncutFrom(scripts, d, entries[1..], cut, k + CALLS_PER_SCRIPT);
      }
    }
  }

  /** A run in which no call fails completes if and only if every pending script, in its
      turn, executes. */
  lemma UncutCompletes<S>(scripts: Scripts<S>, db: Db<S>, cut: Cut)
    requires forall c :: !cut(c)
    ensures RunOnce(scripts, db, cut).1
       <==> ExecAll(scripts, db.schema, Pending(WithTable(db).versions.value, scripts.entries)).Some?
  {
    if RunOnce(scripts, db, cut).1 {
      CompletedFrom(scripts, WithTable(db), scripts.entries, cut, 2);
    }
    if ExecAll(scripts, db.schema, Pending(WithTable(db).versions.value, scripts.entries)).Some? {
      UncutFrom(scripts, WithTable(db), scripts.entries, cut, 2);
    }
  }
}
