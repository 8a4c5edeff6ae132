/**
 * The SQLite-backed database: `CreateTable` makes sure every table has a
 * `rowtime` column, maps each column's SQL type to a SQLite storage
 * affinity and assembles the `CREATE TABLE` statement; a map from table
 * name to schema caches what `CreateTable` made and what
 * `GetTableInsensitive` loaded, and `DropTable` forgets it.
 */
module SqliteDatabase {
  import opened Wrappers
  import opened GoStrings

  // ---------------------------------------------------------------------
  // Columns

  /** The engine's type codes the affinity switch tells apart; `Other` is every code it has no case for. */
  datatype TypeCode =
    | Int8 | Uint8 | Int16 | Uint16 | Int24 | Uint24 | Int32 | Uint32 | Int64 | Uint64
    | Float32 | Float64 | Decimal
    | Char | VarChar | Binary | VarBinary | Blob | Text
    | Enum | Set | Date | Datetime | Timestamp | Time | Year | Bit
    | TypeJson | Null | Expression | Geometry
    | Other(name: string)

  /**
   * A column's default as the type's own conversion leaves it: none, the
   * text the statement quotes, or the conversion's error.
   */
  datatype Default = NoDefault | Formatted(text: string) | Unconvertible(error: string)

  datatype Column = Column(
    name: string,
    code: TypeCode,
    nullable: bool,
    source: string,
    primaryKey: bool,
    comment: string,
    default: Default)

  type Schema = seq<Column>

  // ---------------------------------------------------------------------
  // The rowtime column

  const RowtimeName := "rowtime"
  const RowtimeComment := "rowtime represents insert time in unix nanoseconds"

  /** The column `CreateTable` adds to a schema that lacks one. */
  function RowtimeColumn(table: string): Column {
    Column(RowtimeName, Int64, false, table, true, RowtimeComment, NoDefault)
  }

  /**
   * `Schema.IndexOf(column, source)`: the first column whose name and
   * source both match, ignoring case; -1 when none does.
   */
  function IndexOf(schema: Schema, column: string, source: string): (r: int)
    ensures -1 <= r < |schema|
    ensures r >= 0 ==> ToLower(schema[r].name) == ToLower(column) && ToLower(schema[r].source) == ToLower(source)
    ensures forall i :: 0 <= i < |schema| && (r < 0 || i < r) ==>
      !(ToLower(schema[i].name) == ToLower(column) && ToLower(schema[i].source) == ToLower(source))
    decreases |schema|
  {
    if schema == [] then -1
    else if ToLower(schema[0].name) == ToLower(column) && ToLower(schema[0].source) == ToLower(source) then 0
    else
      var rest := IndexOf(schema[1..], column, source);
      if rest < 0 then -1 else rest + 1
  }

  /** The schema `CreateTable` goes on with, and where its rowtime column is. */
  function WithRowtime(table: string, schema: Schema): (r: (Schema, nat))
    ensures r.1 < |r.0|
    ensures IndexOf(schema, RowtimeName, table) < 0 ==> r.0 == [RowtimeColumn(table)] + schema && r.1 == 0
    ensures IndexOf(schema, RowtimeName, table) >= 0 ==> r.0 == schema && r.1 == IndexOf(schema, RowtimeName, table)
  {
    var i := IndexOf(schema, RowtimeName, table);
    if i < 0 then ([RowtimeColumn(table)] + schema, 0) else (schema, i)
  }

  /** The three checks on the rowtime column as the source writes them: the last one refuses a primary key. */
  function CheckRowtimeAsWritten(col: Column): Option<string> {
    if col.code != Int64 then Some("rowtime col must be of type BIGINT")
    else if col.nullable then Some("rowtime col may not be nullable")
    else if col.primaryKey then Some("rowtime col must be a primary key")
    else None
  }

  /** The three checks as their messages say: BIGINT, NOT NULL, and part of the primary key. */
  function CheckRowtime(col: Column): (r: Option<string>)
    ensures r.None? <==> col.code == Int64 && !col.nullable && col.primaryKey
    ensures col.code != Int64 ==> r == Some("rowtime col must be of type BIGINT")
    ensures col.code == Int64 && col.nullable ==> r == Some("rowtime col may not be nullable")
  {
    if col.code != Int64 then Some("rowtime col must be of type BIGINT")
    else if col.nullable then Some("rowtime col may not be nullable")
    else if !col.primaryKey then Some("rowtime col must be a primary key")
    else None
  }

  /** Rowtime injection and validation, as written. */
  function PrepareSchemaAsWritten(table: string, schema: Schema): Result<Schema, string> {
    var (withRowtime, at) := WithRowtime(table, schema);
    match CheckRowtimeAsWritten(withRowtime[at])
    case Some(e) => Failure(e)
    case None => Success(withRowtime)
  }

  /** Rowtime injection and validation, with the primary-key check the right way round. */
  function PrepareSchema(table: string, schema: Schema): (r: Result<Schema, string>)
    ensures IndexOf(schema, RowtimeName, table) < 0 ==> r == Success([RowtimeColumn(table)] + schema)
    ensures IndexOf(schema, RowtimeName, table) >= 0 ==>
      var col := schema[IndexOf(schema, RowtimeName, table)];
      && (r.Success? <==> col.code == Int64 && !col.nullable && col.primaryKey)
      && (r.Success? ==> r.value == schema)
      && (r.Failure? ==> Some(r.error) == CheckRowtime(col))
  {
    var (withRowtime, at) := WithRowtime(table, schema);
    match CheckRowtime(withRowtime[at])
    case Some(e) => Failure(e)
    case None => Success(withRowtime)
  }

  /**
   * As written, every schema without a rowtime column is refused (the
   * added column is a primary key), and so is a correct explicit one;
   * an explicit rowtime column that is not a key is let through.
   */
  lemma RowtimeCheckInverted(table: string, schema: Schema)
    ensures IndexOf(schema, RowtimeName, table) < 0 ==>
      PrepareSchemaAsWritten(table, schema) == Failure("rowtime col must be a primary key") &&
      PrepareSchema(table, schema).Success?
    ensures IndexOf(schema, RowtimeName, table) >= 0 ==>
      var col := schema[IndexOf(schema, RowtimeName, table)];
      col.code == Int64 && !col.nullable ==>
        (PrepareSchemaAsWritten(table, schema).Success? <==> !col.primaryKey) &&
        (PrepareSchema(table, schema).Success? <==> col.primaryKey)
  {
  }

  /** A prepared schema keeps the given columns in order, behind the added rowtime column if there is one. */
  lemma PrepareKeepsColumns(table: string, schema: Schema)
    requires PrepareSchema(table, schema).Success?
    ensures var prepared := PrepareSchema(table, schema).value;
      && |prepared| >= 1
      && prepared[|prepared| - |schema|..] == schema
      && exists i :: 0 <= i < |prepared| && prepared[i].primaryKey && prepared[i].code == Int64
  {
    var prepared := PrepareSchema(table, schema).value;
    var i := IndexOf(schema, RowtimeName, table);
    if i >= 0 {
      assert prepared[i].primaryKey;
    } else {
      assert prepared[0] == RowtimeColumn(table);
    }
  }

  // ---------------------------------------------------------------------
  // Storage affinity and column clauses

  predicate IsIntegerCode(code: TypeCode) {
    code in {Int8, Uint8, Int16, Uint16, Int24, Uint24, Int32, Uint32, Int64, Uint64}
  }

  /** Types stored as TEXT. */
  predicate IsTextCode(code: TypeCode) {
    code in {Char, VarChar, Binary, VarBinary, Blob, Text, Enum, Set, Date, Datetime, Timestamp,
             TypeJson, Null, Expression, Geometry}
  }

  /** The switch's cases that drop a column's default. */
  predicate IgnoresDefault(code: TypeCode) {
    code in {Null, Expression, Geometry}
  }

  /** The SQLite storage affinity of a type; a type without a case is a panic. */
  function Affinity(code: TypeCode): (r: Result<string, string>)
    ensures r == Success("INTEGER") <==> IsIntegerCode(code) || code in {Time, Year, Bit}
    ensures r == Success("REAL") <==> code in {Float32, Float64}
    ensures r == Success("NUMERIC") <==> code == Decimal
    ensures r == Success("TEXT") <==> IsTextCode(code)
    ensures r.Failure? <==> code.Other?
    ensures r.Failure? ==> r.error == "unknown sqltype: " + code.name
  {
    match code
    case Int8 | Uint8 | Int16 | Uint16 | Int24 | Uint24 | Int32 | Uint32 | Int64 | Uint64 => Success("INTEGER")
    case Float32 | Float64 => Success("REAL")
    case Char | VarChar | Binary | VarBinary | Blob | Text => Success("TEXT")
    case Decimal => Success("NUMERIC")
    case Enum => Success("TEXT")
    case Date | Datetime | Timestamp => Success("TEXT")
    case Time => Success("INTEGER")
    case Year => Success("INTEGER")
    case Set => Success("TEXT")
    case Bit => Success("INTEGER")
    case TypeJson => Success("TEXT")
    case Null => Success("TEXT")
    case Expression | Geometry => Success("TEXT")
    case Other(name) => Failure("unknown sqltype: " + name)
  }

  const DefaultKeyword := " DEFAULT "

  /** A column's clause in the statement, `name affinity` with an optional ` DEFAULT "<quoted>"`. */
  function ColumnClause(col: Column): Result<string, string> {
    var affinity :- Affinity(col.code);
    var head := col.name + " " + affinity;
    if IgnoresDefault(col.code) then Success(head)
    else
      match col.default
      case NoDefault => Success(head)
      case Unconvertible(e) => Failure(e)
      case Formatted(text) => Success(head + DefaultKeyword + Quote(text))
  }

  /**
   * A clause fails for a type without a case or a default that does not
   * convert (unless the type drops defaults); otherwise it starts with the
   * name and affinity, and carries a DEFAULT exactly when a converted
   * default is kept, quoted so that it reads back unchanged.
   */
  lemma ColumnClauseShape(col: Column)
    ensures var r := ColumnClause(col);
      && (r.Failure? <==> col.code.Other? || (!IgnoresDefault(col.code) && col.default.Unconvertible?))
      && (col.code.Other? ==> r == Failure("unknown sqltype: " + col.code.name))
      && (r.Success? ==>
            var head := col.name + " " + Affinity(col.code).value;
            && |head| <= |r.value| && r.value[..|head|] == head
            && (|r.value| > |head| <==> !IgnoresDefault(col.code) && col.default.Formatted?)
            && (|r.value| > |head| ==>
                  && |r.value| > |head| + |DefaultKeyword|
                  && r.value[|head|..|head| + |DefaultKeyword|] == DefaultKeyword
                  && Unquote(r.value[|head| + |DefaultKeyword|..]) == Some(col.default.text)))
  {
    if !col.code.Other? && !IgnoresDefault(col.code) && col.default.Formatted? {
      var head := col.name + " " + Affinity(col.code).value;
      var clause := head + DefaultKeyword + Quote(col.default.text);
      assert clause[..|head|] == head && clause[|head| + |DefaultKeyword|..] == Quote(col.default.text);
      assert clause[|head|..|head| + |DefaultKeyword|] == DefaultKeyword;
      QuoteRoundTrip(col.default.text);
    }
  }

  /** Column `i` is the first whose clause fails. */
  predicate FirstFailingColumn(schema: Schema, i: int) {
    0 <= i < |schema| && ColumnClause(schema[i]).Failure? && forall j :: 0 <= j < i ==> ColumnClause(schema[j]).Success?
  }

  /** The clauses of every column in order, or the first column's error. */
  function ColumnClauses(schema: Schema): (r: Result<seq<string>, string>)
    ensures r.Success? ==> (|r.value| == |schema| &&
      forall i :: 0 <= i < |schema| ==> ColumnClause(schema[i]) == Success(r.value[i]))
    ensures r.Failure? ==> exists i :: FirstFailingColumn(schema, i) && ColumnClause(schema[i]) == Failure(r.error)
    decreases |schema|
  {
    if schema == [] then Success([])
    else
      var first :- ColumnClause(schema[0]);
      var rest :- ColumnClauses(schema[1..]);
      Success([first] + rest)
  }

  /** The names of the primary-key columns, in schema order. */
  function PrimaryKeyNames(schema: Schema): (r: seq<string>)
    ensures |r| <= |schema|
    ensures forall i :: 0 <= i < |schema| && schema[i].primaryKey ==> schema[i].name in r
    ensures forall n :: n in r ==> exists i :: 0 <= i < |schema| && schema[i].primaryKey && schema[i].name == n
    decreases |schema|
  {
    if schema == [] then []
    else
      var rest := PrimaryKeyNames(schema[1..]);
      assert forall i :: 1 <= i < |schema| ==> schema[i] == schema[1..][i - 1];
      if schema[0].primaryKey then [schema[0].name] + rest else rest
  }

  lemma {:induction false} PrimaryKeyNamesAppend(schema: Schema, col: Column)
    ensures PrimaryKeyNames(schema + [col]) == PrimaryKeyNames(schema) + (if col.primaryKey then [col.name] else [])
    decreases |schema|
  {
    if schema != [] {
      assert (schema + [col])[1..] == schema[1..] + [col];
      PrimaryKeyNamesAppend(schema[1..], col);
    } else {
      assert PrimaryKeyNames([col]) == (if col.primaryKey then [col.name] else []) + PrimaryKeyNames([]);
    }
  }

  lemma {:induction false} ColumnClausesAppend(schema: Schema, col: Column)
    requires ColumnClauses(schema).Success? && ColumnClause(col).Success?
    ensures ColumnClauses(schema + [col]) == Success(ColumnClauses(schema).value + [ColumnClause(col).value])
    decreases |schema|
  {
    if schema != [] {
      var first := ColumnClause(schema[0]).value;
      var rest := ColumnClauses(schema[1..]).value;
      assert ColumnClauses(schema) == Success([first] + rest);
      assert (schema + [col])[0] == schema[0];
      assert (schema + [col])[1..] == schema[1..] + [col];
      ColumnClausesAppend(schema[1..], col);
      assert ColumnClauses(schema + [col]) == Success([first] + ColumnClauses(schema[1..] + [col]).value);
      assert [first] + (rest + [ColumnClause(col).value]) == [first] + rest + [ColumnClause(col).value];
    } else {
      assert schema + [col] == [col] && [col][1..] == [] && [col][0] == col;
      assert ColumnClauses(schema) == Success([]);
      var c := ColumnClause(col).value;
      assert ColumnClauses([col]) == Success([c] + []);
      assert [c] + [] == [c] && [] + [c] == [c];
    }
  }

  /** The definitions of the statement: the column clauses, then `PRIMARY KEY (...)` when some column is a key. */
  function TableDefinitions(defs: seq<string>, pks: seq<string>): seq<string> {
    if |pks| > 0 then defs + ["PRIMARY KEY (" + Join(pks, ", ") + ")"] else defs
  }

  function CreateStatement(table: string, defs: seq<string>, pks: seq<string>): string {
    "CREATE TABLE \"" + table + "\" (" + Join(TableDefinitions(defs, pks), ", ") + ")"
  }

  /**
   * The loop of `CreateTable` over the schema: a clause per column and the
   * primary-key names, stopping at the first column whose type has no case
   * or whose default does not convert.
   */
  method BuildDefinitions(schema: Schema) returns (r: Result<(seq<string>, seq<string>), string>)
    ensures r.Success? <==> ColumnClauses(schema).Success?
    ensures r.Success? ==> r.value == (ColumnClauses(schema).value, PrimaryKeyNames(schema))
    ensures r.Failure? ==> r.error == ColumnClauses(schema).error
  {
    var defs: seq<string> := [];
    var pks: seq<string> := [];
    for i := 0 to |schema|
      invariant ColumnClauses(schema[..i]) == Success(defs)
      invariant pks == PrimaryKeyNames(schema[..i])
    {
      var col := schema[i];
      assert schema[..i + 1] == schema[..i] + [col];
      PrimaryKeyNamesAppend(schema[..i], col);
      var clause := ColumnClause(col);
      if clause.Failure? {
        FirstFailure(schema, i);
        return Failure(clause.error);
      }
      ColumnClausesAppend(schema[..i], col);
      defs := defs + [clause.value];
      if col.primaryKey {
        pks := pks + [col.name];
      }
    }
    assert schema[..|schema|] == schema;
    r := Success((defs, pks));
  }

  /** The first failing column decides the error of the whole schema. */
  lemma {:induction false} FirstFailure(schema: Schema, i: nat)
    requires i < |schema| && ColumnClauses(schema[..i]).Success? && ColumnClause(schema[i]).Failure?
    ensures ColumnClauses(schema) == Failure(ColumnClause(schema[i]).error)
    decreases i
  {
    if i > 0 {
      assert schema[1..][..i - 1] == schema[..i][1..];
      FirstFailure(schema[1..], i - 1);
    }
  }

  /** Under the corrected check every prepared schema has a key, so its statement ends with a PRIMARY KEY clause. */
  lemma PreparedTablesHaveKey(table: string, schema: Schema)
    requires PrepareSchema(table, schema).Success?
    ensures PrimaryKeyNames(PrepareSchema(table, schema).value) != []
  {
    var prepared := PrepareSchema(table, schema).value;
    PrepareKeepsColumns(table, schema);
    var i :| 0 <= i < |prepared| && prepared[i].primaryKey && prepared[i].code == Int64;
    assert prepared[i].name in PrimaryKeyNames(prepared);
  }

  // ---------------------------------------------------------------------
  // The database and its schema cache

  /** How a transaction run by `inTx` went: begun or not, and what its commit answered. */
  datatype TxAnswers = TxAnswers(beginError: Option<string>, commitError: Option<string>)

  class Database {
    /** Schemas by exact table name. */
    var schemas: map<string, Schema>

    /** Every cached schema is one the lookup reports as found. */
    predicate Valid()
      reads this`schemas
    {
      forall t :: t in schemas ==> |schemas[t]| > 0
    }

    /** `NewDatabase`: an empty cache. */
    constructor ()
      ensures schemas == map[] && Valid()
    {
      schemas := map[];
    }

    /**
     * `GetTableInsensitive`: a cached schema is returned as it is; otherwise
     * `loaded` is what the schema table holds for the name (or the error
     * reading it), an empty load is "not found" and is not cached.
     */
    method GetTableInsensitive(table: string, loaded: Result<Schema, string>) returns (r: Result<Option<Schema>, string>)
      requires Valid()
      modifies this`schemas
      ensures Valid()
      ensures table in old(schemas) ==> r == Success(Some(old(schemas)[table])) && schemas == old(schemas)
      ensures table !in old(schemas) && loaded.Failure? ==> r == Failure(loaded.error) && schemas == old(schemas)
      ensures table !in old(schemas) && loaded == Success([]) ==> r == Success(None) && schemas == old(schemas)
      ensures table !in old(schemas) && loaded.Success? && loaded.value != [] ==>
        r == Success(Some(loaded.value)) && schemas == old(schemas)[table := loaded.value]
      ensures r.Success? && r.value.Some? ==> |r.value.value| > 0
    {
      if table in schemas {
        return Success(Some(schemas[table]));
      }
      if loaded.Failure? {
        return Failure(loaded.error);
      }
      if |loaded.value| == 0 {
        return Success(None);
      }
      schemas := schemas[table := loaded.value];
      r := Success(Some(loaded.value));
    }

    /**
     * `CreateTable`: prepare the schema, then in a transaction build the
     * statement and execute it (`execError` is the database's answer).
     * The cache takes the prepared schema as soon as the statement
     * succeeds, before the commit; `ddl` is the statement executed.
     */
    method CreateTable(table: string, schema: Schema, tx: TxAnswers, execError: Option<string>)
      returns (err: Option<string>, ddl: Option<string>)
      requires Valid()
      modifies this`schemas
      ensures Valid()
      ensures PrepareSchema(table, schema).Failure? ==>
        err == Some(PrepareSchema(table, schema).error) && ddl.None? && schemas == old(schemas)
      ensures PrepareSchema(table, schema).Success? && tx.beginError.Some? ==>
        err == tx.beginError && ddl.None? && schemas == old(schemas)
      ensures PrepareSchema(table, schema).Success? && tx.beginError.None? ==>
        var prepared := PrepareSchema(table, schema).value;
        match ColumnClauses(prepared)
        case Failure(e) => err == Some(e) && ddl.None? && schemas == old(schemas)
        case Success(defs) =>
          && ddl == Some(CreateStatement(table, defs, PrimaryKeyNames(prepared)))
          && (execError.Some? ==> err == execError && schemas == old(schemas))
          && (execError.None? ==> err == tx.commitError && schemas == old(schemas)[table := prepared])
    {
      ddl := None;
      var prepared := PrepareSchema(table, schema);
      if prepared.Failure? {
        return Some(prepared.error), None;
      }
      if tx.beginError.Some? {
        return tx.beginError, None;
      }
      var built := BuildDefinitions(prepared.value);
      if built.Failure? {
        return Some(built.error), None;
      }
      var (defs, pks) := built.value;
      ddl := Some(CreateStatement(table, defs, pks));
      if execError.Some? {
        return execError, ddl;
      }
      PrepareKeepsColumns(table, schema);
      schemas := schemas[table := prepared.value];
      err := tx.commitError;
    }

    /**
     * `DropTable`: in a transaction, drop the table, then delete its rows
     * of the schema table (`dropError` and `deleteError` are the
     * database's answers); the cache forgets the name once both succeed.
     */
    method DropTable(table: string, tx: TxAnswers, dropError: Option<string>, deleteError: Option<string>)
      returns (err: Option<string>)
      requires Valid()
      modifies this`schemas
      ensures Valid()
      ensures tx.beginError.Some? ==> err == tx.beginError && schemas == old(schemas)
      ensures tx.beginError.None? && dropError.Some? ==> err == dropError && schemas == old(schemas)
      ensures tx.beginError.None? && dropError.None? && deleteError.Some? ==> err == deleteError && schemas == old(schemas)
      ensures tx.beginError.None? && dropError.None? && deleteError.None? ==>
        err == tx.commitError && schemas == old(schemas) - {table} && table !in schemas
    {
      if tx.beginError.Some? {
        return tx.beginError;
      }
      if dropError.Some? {
        return dropError;
      }
      if deleteError.Some? {
        return deleteError;
      }
      schemas := schemas - {table};
      err := tx.commitError;
    }
  }
}
