/** The versioned database of `src/lib/state/db.svelte.ts`: the table of
  * schema versions, the version-2 record upgrade, and the constructor's
  * loop that registers each version's stores with Dexie. A record is a map
  * from property names to JSON values; Dexie itself is left out. */
module Db {
  import opened Wrappers
  import opened Text
  import opened Json
  import opened Schema

  function Auto(): FieldDef
  {
    MakeAutoIncrement(MakePrimaryKey(false))
  }

  /** Version 1 `checkpoints`. */
  function V1Checkpoints(): TableSchema
  {
    [("id", Auto()), ("timestamp", Make(StringType)), ("favorite", MakeOptional(Make(BooleanType))),
     ("projectState", MakeIndexed(Make(ObjectType), Some(false))), ("projectId", Make(StringType))]
  }

  /** Version 2 and 3 `checkpoints`. */
  function V2Checkpoints(): TableSchema
  {
    [("id", Auto()), ("timestamp", Make(StringType)), ("favorite", MakeOptional(Make(BooleanType))),
     ("conversations", MakeIndexed(Make(ArrayType), Some(false))), ("projectId", Make(StringType))]
  }

  /** Version 3 `conversations`. */
  function V3Conversations(): TableSchema
  {
    [("id", Auto()), ("config", MakeIndexed(Make(ObjectType), Some(false))),
     ("messages", MakeIndexed(Make(ArrayType), Some(false))),
     ("systemMessage", MakeIndexed(Make(ObjectType), Some(false))),
     ("streaming", MakeIndexed(MakeOptional(Make(BooleanType)), Some(false))),
     ("provider", MakeIndexed(MakeOptional(Make(StringType)), Some(false))),
     ("projectId", Make(StringType)), ("modelId", Make(StringType))]
  }

  /** Version 3 `projects`. */
  function V3Projects(): TableSchema
  {
    [("id", MakePrimaryKey(true)), ("name", Make(StringType))]
  }

  /** One entry of `versions`: its key, its tables, and whether it defines
    * an `upgrade`. */
  datatype Version = Version(key: string, tables: seq<(string, TableSchema)>, hasUpgrade: bool)

  function Versions(): seq<Version>
  {
    [Version("1", [("checkpoints", V1Checkpoints())], false),
     Version("2", [("checkpoints", V2Checkpoints())], true),
     Version("3", [("checkpoints", V2Checkpoints()), ("conversations", V3Conversations()),
                   ("projects", V3Projects())], false)]
  }

  /** The key and the two indexed fields ahead of the object or array
    * field of both checkpoint schemas. */
  lemma V1CheckpointsPrefix()
    ensures PkEntry(V1Checkpoints()[..3]) == "++id"
    ensures IndexNames(V1Checkpoints()[..3]) == ["timestamp", "favorite"]
  {
    var s := V1Checkpoints();
    assert s[..0] == [];
    SchemaStep(s, 1);
    SchemaStep(s, 2);
    SchemaStep(s, 3);
  }

  /** `"++id, timestamp, favorite, projectId"`: `projectState` is not indexed. */
  lemma V1CheckpointsStores()
    ensures Entries(V1Checkpoints()) == Some(["++id", "timestamp", "favorite", "projectId"])
  {
    var s := V1Checkpoints();
    V1CheckpointsPrefix();
    SchemaStep(s, 4);
    assert PkEntry(s[..4]) == "++id" && IndexNames(s[..4]) == ["timestamp", "favorite"];
    SchemaStep(s, 5);
    assert PkEntry(s[..5]) == "++id" && IndexNames(s[..5]) == ["timestamp", "favorite", "projectId"];
    assert s[..5] == s;
    assert ["++id"] + ["timestamp", "favorite", "projectId"] == ["++id", "timestamp", "favorite", "projectId"];
  }

  lemma V2CheckpointsPrefix()
    ensures PkEntry(V2Checkpoints()[..3]) == "++id"
    ensures IndexNames(V2Checkpoints()[..3]) == ["timestamp", "favorite"]
  {
    var s := V2Checkpoints();
    assert s[..0] == [];
    SchemaStep(s, 1);
    SchemaStep(s, 2);
    SchemaStep(s, 3);
  }

  /** `"++id, timestamp, favorite, projectId"`: `conversations` is not indexed. */
  lemma V2CheckpointsStores()
    ensures Entries(V2Checkpoints()) == Some(["++id", "timestamp", "favorite", "projectId"])
  {
    var s := V2Checkpoints();
    V2CheckpointsPrefix();
    SchemaStep(s, 4);
    assert PkEntry(s[..4]) == "++id" && IndexNames(s[..4]) == ["timestamp", "favorite"];
    SchemaStep(s, 5);
    assert PkEntry(s[..5]) == "++id" && IndexNames(s[..5]) == ["timestamp", "favorite", "projectId"];
    assert s[..5] == s;
    assert ["++id"] + ["timestamp", "favorite", "projectId"] == ["++id", "timestamp", "favorite", "projectId"];
  }

  /** The first fields of `conversations`: the key, then fields marked
    * `.indexed(false)` or of object or array type. */
  lemma V3ConversationsPrefix2()
    ensures PkEntry(V3Conversations()[..2]) == "++id" && IndexNames(V3Conversations()[..2]) == []
  {
    var s := V3Conversations();
    assert s[..0] == [];
    SchemaStep(s, 1);
    SchemaStep(s, 2);
  }

  lemma V3ConversationsPrefix4()
    ensures PkEntry(V3Conversations()[..4]) == "++id" && IndexNames(V3Conversations()[..4]) == []
  {
    var s := V3Conversations();
    V3ConversationsPrefix2();
    SchemaStep(s, 3);
    SchemaStep(s, 4);
  }

  lemma V3ConversationsPrefix6()
    ensures PkEntry(V3Conversations()[..6]) == "++id" && IndexNames(V3Conversations()[..6]) == []
  {
    var s := V3Conversations();
    V3ConversationsPrefix4();
    SchemaStep(s, 5);
    SchemaStep(s, 6);
  }

  /** `"++id, projectId, modelId"`: the fields marked `.indexed(false)` are left out. */
  lemma V3ConversationsStores()
    ensures Entries(V3Conversations()) == Some(["++id", "projectId", "modelId"])
  {
    var s := V3Conversations();
    V3ConversationsPrefix6();
    SchemaStep(s, 7);
    assert PkEntry(s[..7]) == "++id" && IndexNames(s[..7]) == ["projectId"];
    SchemaStep(s, 8);
    assert PkEntry(s[..8]) == "++id" && IndexNames(s[..8]) == ["projectId", "modelId"];
    assert s[..8] == s;
    assert ["++id"] + ["projectId", "modelId"] == ["++id", "projectId", "modelId"];
  }

  /** `"id, name"`: a string primary key is not auto-incrementing. */
  lemma V3ProjectsStores()
    ensures Entries(V3Projects()) == Some(["id", "name"])
  {
    var s := V3Projects();
    assert s[..0] == [] && s[..2] == s;
    SchemaStep(s, 1);
    assert s[0].1 == PrimaryKey(true, false);
    assert PkEntry(s[..1]) == "id" && IndexNames(s[..1]) == [];
    SchemaStep(s, 2);
    assert !s[1].1.IsPrimaryKey() && s[1].1.Indexed() == true;
    assert PkEntry(s[..2]) == "id" && IndexNames(s[..2]) == ["name"];
    assert ["id"] + ["name"] == ["id", "name"];
  }

  // ----- the version 2 upgrade -----

  type Record = map<string, Json>

  /** `checkpoint?.projectState?.conversations ?? []` */
  function OldConversations(rec: Record): Json
  {
    if "projectState" in rec && rec["projectState"].JObj? then
      match Get(rec["projectState"], "conversations")
      case Some(v) => if v.JNull? then JArr([]) else v
      case None => JArr([])
    else JArr([])
  }

  /** The record after the upgrade: `conversations` set, `projectState`
    * deleted. */
  function UpgradeRecord(rec: Record): (r: Record)
    ensures "projectState" !in r && "conversations" in r
    ensures r["conversations"] == OldConversations(rec)
    ensures forall k :: k != "projectState" && k != "conversations" ==> (k in r <==> k in rec)
    ensures forall k :: k in r && k != "conversations" ==> k in rec && r[k] == rec[k]
  {
    rec["conversations" := OldConversations(rec)] - {"projectState"}
  }

  /** A record whose project state holds conversations gets them; one
    * without a project state gets none. */
  lemma UpgradeMovesConversations(rec: Record, ps: seq<Member>, convs: seq<Json>)
    requires "projectState" in rec && rec["projectState"] == JObj(ps)
    requires Get(JObj(ps), "conversations") == Some(JArr(convs))
    ensures UpgradeRecord(rec)["conversations"] == JArr(convs)
  {
  }

  lemma UpgradeWithoutProjectState(rec: Record)
    requires "projectState" !in rec
    ensures UpgradeRecord(rec) == rec["conversations" := JArr([])]
  {
  }

  /** The upgrade is idempotent once there is no project state left to
    * read, apart from resetting `conversations`. */
  lemma UpgradeTwice(rec: Record)
    ensures UpgradeRecord(UpgradeRecord(rec)) == UpgradeRecord(rec)["conversations" := JArr([])]
  {
  }

  /** The `checkpoints` table inside the upgrade transaction. */
  class CheckpointsTable {
    var records: seq<Record>

    constructor(records: seq<Record>)
      ensures this.records == records
    {
      this.records := records;
    }

    /** `toCollection().modify(...)`: every record is changed in place. */
    method UpgradeToV2()
      modifies this
      ensures |records| == |old(records)|
      ensures forall i :: 0 <= i < |records| ==> records[i] == UpgradeRecord(old(records)[i])
    {
      var i := 0;
      while i < |records|
        invariant 0 <= i <= |records| && |records| == |old(records)|
        invariant forall k :: 0 <= k < i ==> records[k] == UpgradeRecord(old(records)[k])
        invariant forall k :: i <= k < |records| ==> records[k] == old(records)[k]
      {
        var checkpoint := records[i];
        checkpoint := checkpoint["conversations" := OldConversations(checkpoint)];
        checkpoint := checkpoint - {"projectState"};
        records := records[i := checkpoint];
        i := i + 1;
      }
    }
  }

  // ----- registering the versions -----

  /** `Number(key)` for the keys a version table can have: blank is 0,
    * decimal digits are their value, anything else is `NaN`. */
  function VersionNumber(key: string): (r: Option<nat>)
    ensures r.Some? && Trim(key) != [] ==> AllDigits(Trim(key))
  {
    var t := Trim(key);
    if t == [] then Some(0)
    else if AllDigits(t) then Some(NatValue(t))
    else None
  }

  /** What the constructor hands Dexie for one version. */
  datatype Registration = Registration(version: nat, stores: seq<(string, string)>, upgrade: bool)

  /** The stores of a version's tables, or the first table's error. */
  function StoresOf(tables: seq<(string, TableSchema)>): (r: Result<seq<(string, string)>, string>)
    ensures r.Ok? ==> |r.value| == |tables|
  {
    if tables == [] then Ok([])
    else
      match StoresOf(tables[..|tables| - 1])
      case Err(e) => Err(e)
      case Ok(prefix) =>
        var last := tables[|tables| - 1];
        match StoresString(last.1)
        case Err(e) => Err(e)
        case Ok(s) => Ok(prefix + [(last.0, s)])
  }

  /** What one version contributes: nothing for a key that is not a
    * number, the error of a table whose stores string throws, or its
    * registration. */
  function RegistrationOf(v: Version): (r: Result<Option<Registration>, string>)
    ensures VersionNumber(v.key).None? ==> r == Ok(None)
    ensures r.Err? ==> StoresOf(v.tables).Err?
  {
    var n := VersionNumber(v.key);
    if n.None? then Ok(None)
    else
      match StoresOf(v.tables)
      case Err(e) => Err(e)
      case Ok(stores) => Ok(Some(Registration(n.value, stores, v.hasUpgrade)))
  }

  /** The registrations of the versions with a numeric key, in order, or
    * the first error. */
  function Registrations(versions: seq<Version>): Result<seq<Registration>, string>
  {
    if versions == [] then Ok([])
    else
      match Registrations(versions[..|versions| - 1])
      case Err(e) => Err(e)
      case Ok(prefix) =>
        match RegistrationOf(versions[|versions| - 1])
        case Err(e) => Err(e)
        case Ok(reg) => Ok(prefix + if reg.None? then [] else [reg.value])
  }

  /** The stores for one version: `Object.fromEntries` over its tables. */
  method BuildStores(tables: seq<(string, TableSchema)>) returns (r: Result<seq<(string, string)>, string>)
    ensures r == StoresOf(tables)
  {
    var stores: seq<(string, string)> := [];
    var i := 0;
    while i < |tables|
      invariant 0 <= i <= |tables|
      invariant StoresOf(tables[..i]) == Ok(stores)
    {
      var s := GenerateStoresString(tables[i].1);
      assert tables[..i + 1][..i] == tables[..i];
      if s.Err? {
        StoresErrorSticks(tables, i + 1);
        return Err(s.error);
      }
      stores := stores + [(tables[i].0, s.value)];
      i := i + 1;
    }
    assert tables[..i] == tables;
    return Ok(stores);
  }

  /** Once a table throws, the whole version does. */
  lemma {:induction false} StoresErrorSticks(tables: seq<(string, TableSchema)>, i: nat)
    requires 0 < i <= |tables| && StoresOf(tables[..i]).Err?
    ensures StoresOf(tables) == StoresOf(tables[..i])
    decreases |tables| - i
  {
    if i < |tables| {
      assert tables[..i + 1][..i] == tables[..i];
      StoresErrorSticks(tables, i + 1);
    } else {
      assert tables[..i] == tables;
    }
  }

  /** One pass of the constructor's `forEach`. */
  method RegisterVersion(v: Version) returns (r: Result<Option<Registration>, string>)
    ensures r == RegistrationOf(v)
  {
    var n := VersionNumber(v.key);
    if n.None? {
      return Ok(None);
    }
    var stores := BuildStores(v.tables);
    if stores.Err? {
      return Err(stores.error);
    }
    return Ok(Some(Registration(n.value, stores.value, v.hasUpgrade)));
  }

  /** The constructor's `forEach` over the version keys: each numeric
    * version is registered in turn; a schema without a primary key stops
    * it with that error. */
  method RegisterAll(versions: seq<Version>) returns (regs: seq<Registration>, err: Option<string>)
    ensures err.None? <==> Registrations(versions).Ok?
    ensures err.None? ==> Registrations(versions) == Ok(regs)
    ensures err.Some? ==> Registrations(versions) == Err(err.value)
  {
    regs := [];
    err := None;
    var i := 0;
    while i < |versions|
      invariant 0 <= i <= |versions|
      invariant Registrations(versions[..i]) == Ok(regs)
    {
      var r := RegisterVersion(versions[i]);
      if r.Err? {
        RegistrationsFailAt(versions, i, r.error);
        RegistrationsErrorSticks(versions, i + 1, r.error);
        err := Some(r.error);
        return;
      }
      RegistrationsNext(versions, i, regs);
      regs := regs + if r.value.None? then [] else [r.value.value];
      i := i + 1;
    }
    assert versions[..i] == versions;
  }

  /** `new Database()`: the versions it registered, or the error its
    * constructor throws. */
  class Database {
    var registered: seq<Registration>
    var failure: Option<string>

    constructor(versions: seq<Version>)
      ensures failure.None? ==> Registrations(versions) == Ok(registered)
      ensures failure.Some? ==> Registrations(versions) == Err(failure.value)
    {
      var regs, err := RegisterAll(versions);
      registered := regs;
      failure := err;
    }
  }

  lemma RegistrationsNext(versions: seq<Version>, i: nat, regs: seq<Registration>)
    requires i < |versions| && Registrations(versions[..i]) == Ok(regs)
    requires RegistrationOf(versions[i]).Ok?
    ensures var reg := RegistrationOf(versions[i]).value;
      Registrations(versions[..i + 1]) == Ok(regs + if reg.None? then [] else [reg.value])
  {
    assert versions[..i + 1][..i] == versions[..i];
  }

  lemma RegistrationsFailAt(versions: seq<Version>, i: nat, e: string)
    requires i < |versions| && Registrations(versions[..i]).Ok?
    requires RegistrationOf(versions[i]) == Err(e)
    ensures Registrations(versions[..i + 1]) == Err(e)
  {
    assert versions[..i + 1][..i] == versions[..i];
  }

  /** Once a version throws, the constructor throws the same error. */
  lemma {:induction false} RegistrationsErrorSticks(versions: seq<Version>, i: nat, e: string)
    requires 0 < i <= |versions| && Registrations(versions[..i]) == Err(e)
    ensures Registrations(versions) == Err(e)
    decreases |versions| - i
  {
    if i < |versions| {
      assert versions[..i + 1][..i] == versions[..i];
      RegistrationsErrorSticks(versions, i + 1, e);
    } else {
      assert versions[..i] == versions;
    }
  }

  /** Versions with a non-numeric key register nothing; every other version
    * registers its stores, with the upgrade exactly when it defines one. */
  lemma RegistrationsAppend(versions: seq<Version>, v: Version)
    requires Registrations(versions).Ok?
    ensures VersionNumber(v.key).None? ==> Registrations(versions + [v]) == Registrations(versions)
    ensures VersionNumber(v.key).Some? && StoresOf(v.tables).Ok? ==>
      Registrations(versions + [v]) == Ok(Registrations(versions).value
        + [Registration(VersionNumber(v.key).value, StoresOf(v.tables).value, v.hasUpgrade)])
    ensures VersionNumber(v.key).Some? && StoresOf(v.tables).Err? ==>
      Registrations(versions + [v]) == Err(StoresOf(v.tables).error)
  {
    assert (versions + [v])[..|versions|] == versions;
    var prefix := Registrations(versions).value;
    assert prefix + [] == prefix;
  }

  /** A further table adds its stores string, or its error. */
  lemma StoresAppend(tables: seq<(string, TableSchema)>, name: string, schema: TableSchema)
    requires StoresOf(tables).Ok?
    ensures StoresOf(tables + [(name, schema)]) ==
      match StoresString(schema)
      case Err(e) => Err(e)
      case Ok(t) => Ok(StoresOf(tables).value + [(name, t)])
  {
    assert (tables + [(name, schema)])[..|tables|] == tables;
  }
}
