/** The Dexie schema builder of `src/lib/state/dexie-schema-builder.ts`:
  * field descriptors, their modifiers, and the stores string Dexie is given
  * for one table (`"++id, projectId, modelId"`). The TypeScript type-level
  * inference in that file has no run-time behaviour and is not modelled. */
module Schema {
  import opened Wrappers
  import opened Text

  /** The placeholder `_type` value only selects a TypeScript type. */
  datatype FieldType = StringType | NumberType | BooleanType | DateType | ObjectType | ArrayType

  /** A field descriptor: an ordinary field, or a primary key. */
  datatype FieldDef =
    | Field(ty: FieldType, optional: bool, indexed: bool)
    | PrimaryKey(stringKey: bool, autoIncrement: bool)
  {
    predicate IsPrimaryKey() { PrimaryKey? }

    /** `_indexed`: a primary key is always indexed. */
    predicate Indexed() { if PrimaryKey? then true else indexed }

    /** `_optional`: a primary key never is. */
    predicate Optional() { if PrimaryKey? then false else optional }

    /** `_autoIncrement`: never set on an ordinary field. */
    predicate AutoIncrement() { PrimaryKey? && autoIncrement }
  }

  /** `createBaseField(type, optional, indexed)` */
  function CreateBaseField(ty: FieldType, optional: bool, indexed: bool): (f: FieldDef)
    ensures !f.IsPrimaryKey() && !f.AutoIncrement()
    ensures f.Optional() == optional && f.Indexed() == indexed
  {
    Field(ty, optional, indexed)
  }

  /** `.optional()`: marks the field optional and keeps its index flag. */
  function MakeOptional(f: FieldDef): (r: FieldDef)
    requires f.Field?
    ensures r.Field? && r.ty == f.ty && r.Optional() && r.Indexed() == f.Indexed()
  {
    CreateBaseField(f.ty, true, f.indexed)
  }

  /** `.indexed(value)`, where `value` defaults to `true`: sets the index
    * flag and keeps the optional flag. */
  function MakeIndexed(f: FieldDef, value: Option<bool>): (r: FieldDef)
    requires f.Field?
    ensures r.Field? && r.ty == f.ty && r.Optional() == f.Optional()
    ensures r.Indexed() == value.GetOr(true)
  {
    CreateBaseField(f.ty, f.optional, value.GetOr(true))
  }

  /** `d.string()`, `d.number()`, `d.boolean()`, `d.date()`: required and
    * indexed; `d.object()`, `d.array()`: required and not indexed. */
  function Make(ty: FieldType): (f: FieldDef)
    ensures f.Field? && f.ty == ty && !f.Optional()
    ensures f.Indexed() <==> ty !in {ObjectType, ArrayType}
  {
    match ty
    case StringType => CreateBaseField(StringType, false, true)
    case NumberType => CreateBaseField(NumberType, false, true)
    case BooleanType => CreateBaseField(BooleanType, false, true)
    case DateType => CreateBaseField(DateType, false, true)
    case ObjectType => CreateBaseField(ObjectType, false, false)
    case ArrayType => CreateBaseField(ArrayType, false, false)
  }

  /** `d.primaryKey()` (numeric) and `d.strPrimaryKey()`. */
  function MakePrimaryKey(stringKey: bool): (f: FieldDef)
    ensures f.IsPrimaryKey() && f.Indexed() && !f.Optional() && !f.AutoIncrement()
  {
    PrimaryKey(stringKey, false)
  }

  /** `.autoIncrement()` on a primary key: only the auto-increment flag
    * changes. */
  function MakeAutoIncrement(f: FieldDef): (r: FieldDef)
    requires f.PrimaryKey?
    ensures r.IsPrimaryKey() && r.AutoIncrement() && r.stringKey == f.stringKey
    ensures r.Indexed() == f.Indexed() && r.Optional() == f.Optional()
  {
    f.(autoIncrement := true)
  }

  /** A table schema, its fields in enumeration order. */
  type TableSchema = seq<(string, FieldDef)>

  const MissingPrimaryKey: string := "Schema definition must include exactly one primary key using d.primaryKey()."

  /** How a primary key field is written: `++name` when auto-incrementing. */
  function KeyEntry(name: string, f: FieldDef): string
  {
    if f.AutoIncrement() then "++" + name else name
  }

  /** The entry of the last primary key field, `""` when there is none. */
  function PkEntry(schema: TableSchema): string
  {
    if schema == [] then ""
    else
      var last := schema[|schema| - 1];
      if last.1.IsPrimaryKey() then KeyEntry(last.0, last.1) else PkEntry(schema[..|schema| - 1])
  }

  /** The names of the indexed fields that are not primary keys, in order. */
  function IndexNames(schema: TableSchema): seq<string>
  {
    if schema == [] then []
    else
      var last := schema[|schema| - 1];
      IndexNames(schema[..|schema| - 1])
        + (if !last.1.IsPrimaryKey() && last.1.Indexed() then [last.0] else [])
  }

  /** The entries of the stores string, when there is a primary key entry. */
  function Entries(schema: TableSchema): Option<seq<string>>
  {
    var pk := PkEntry(schema);
    if pk == "" then None else Some([pk] + IndexNames(schema))
  }

  /** What `generateStoresString` returns or throws. */
  function StoresString(schema: TableSchema): Result<string, string>
  {
    match Entries(schema)
    case None => Err(MissingPrimaryKey)
    case Some(entries) => Ok(Join(entries, ", "))
  }

  /** `generateStoresString(schema)`: the primary-key entry (the last primary
    * key seen wins) followed by every indexed ordinary field. */
  method GenerateStoresString(schema: TableSchema) returns (r: Result<string, string>)
    ensures r == StoresString(schema)
  {
    var pk := "";
    var indexes: seq<string> := [];
    var i := 0;
    while i < |schema|
      invariant 0 <= i <= |schema|
      invariant pk == PkEntry(schema[..i]) && indexes == IndexNames(schema[..i])
    {
      var (name, definition) := schema[i];
      if definition.IsPrimaryKey() {
        pk := if definition.AutoIncrement() then "++" + name else name;
      } else if definition.Indexed() {
        indexes := indexes + [name];
      }
      assert schema[..i + 1][..i] == schema[..i];
      i := i + 1;
    }
    assert schema[..i] == schema;
    if pk == "" {
      return Err(MissingPrimaryKey);
    }
    return Ok(Join([pk] + indexes, ", "));
  }

  /** Without a primary key the builder throws. */
  lemma {:induction false} NoPrimaryKeyThrows(schema: TableSchema)
    requires forall i :: 0 <= i < |schema| ==> !schema[i].1.IsPrimaryKey()
    ensures PkEntry(schema) == "" && StoresString(schema) == Err(MissingPrimaryKey)
    decreases |schema|
  {
    if schema != [] {
      NoPrimaryKeyThrows(schema[..|schema| - 1]);
    }
  }

  /** The last primary key decides the first entry; earlier ones are
    * dropped. */
  lemma {:induction false} LastPrimaryKeyWins(schema: TableSchema, i: nat)
    requires i < |schema| && schema[i].1.IsPrimaryKey()
    requires forall k :: i < k < |schema| ==> !schema[k].1.IsPrimaryKey()
    ensures PkEntry(schema) == KeyEntry(schema[i].0, schema[i].1)
    decreases |schema|
  {
    if i < |schema| - 1 {
      LastPrimaryKeyWins(schema[..|schema| - 1], i);
    }
  }

  /** A name is listed after the key exactly when some ordinary field with
    * that name is indexed. */
  lemma {:induction false} IndexNamesMembers(schema: TableSchema, name: string)
    ensures name in IndexNames(schema) <==>
      exists i :: 0 <= i < |schema| && schema[i].0 == name
        && !schema[i].1.IsPrimaryKey() && schema[i].1.Indexed()
    decreases |schema|
  {
    if schema != [] {
      var init := schema[..|schema| - 1];
      IndexNamesMembers(init, name);
      if name in IndexNames(init) {
        var i :| 0 <= i < |init| && init[i].0 == name && !init[i].1.IsPrimaryKey() && init[i].1.Indexed();
        assert schema[i] == init[i];
      }
      if exists i :: 0 <= i < |schema| && schema[i].0 == name && !schema[i].1.IsPrimaryKey() && schema[i].1.Indexed() {
        var i :| 0 <= i < |schema| && schema[i].0 == name
          && !schema[i].1.IsPrimaryKey() && schema[i].1.Indexed();
        if i < |init| {
          assert init[i] == schema[i];
        }
      }
    }
  }

  /** Index names keep declaration order: appending a field appends its
    * name or nothing. */
  lemma IndexNamesAppend(schema: TableSchema, name: string, f: FieldDef)
    ensures IndexNames(schema + [(name, f)])
      == IndexNames(schema) + (if !f.IsPrimaryKey() && f.Indexed() then [name] else [])
  {
    assert (schema + [(name, f)])[..|schema|] == schema;
  }

  /** One more field of a schema, as the builder's loop sees it. */
  lemma SchemaStep(schema: TableSchema, k: nat)
    requires 0 < k <= |schema|
    ensures IndexNames(schema[..k]) == IndexNames(schema[..k - 1])
      + (if !schema[k - 1].1.IsPrimaryKey() && schema[k - 1].1.Indexed() then [schema[k - 1].0] else [])
    ensures PkEntry(schema[..k])
      == if schema[k - 1].1.IsPrimaryKey() then KeyEntry(schema[k - 1].0, schema[k - 1].1) else PkEntry(schema[..k - 1])
  {
    assert schema[..k][..k - 1] == schema[..k - 1];
  }
}
