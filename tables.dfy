/**
 * A table of the SQLite-backed store as the query engine sees it: one
 * partition, keyed "0", read back row by row; and an inserter that turns
 * each engine row into one parameterised `INSERT` inside a transaction,
 * stamping a missing `rowtime` with the insert time.
 */
module Tables {
  import opened Wrappers
  import opened GoStrings

  // ---------------------------------------------------------------------
  // Partitions

  /** The only partition key a table has. */
  const PartitionKey := "0"

  /** The end of an iteration (`io.EOF`). */
  datatype Eof = Eof

  /** `partitionIter`: a cursor over a fixed list of partition keys. */
  class PartitionIter {
    const keys: seq<string>
    var pos: nat

    constructor (keys: seq<string>)
      ensures this.keys == keys && pos == 0
    {
      this.keys := keys;
      pos := 0;
    }

    /** The keys `Next` has still to hand out. */
    function Remaining(): seq<string>
      reads this`pos
    {
      if pos <= |keys| then keys[pos..] else []
    }

    /** Hands out the key at the cursor and advances, or reports the end and stays put. */
    method Next() returns (r: Result<string, Eof>)
      modifies this`pos
      ensures old(pos) >= |keys| ==> r == Failure(Eof) && pos == old(pos)
      ensures old(pos) < |keys| ==> r == Success(keys[old(pos)]) && pos == old(pos) + 1
      ensures r.Failure? <==> old(Remaining()) == []
      ensures r.Success? ==> old(Remaining()) == [r.value] + Remaining()
    {
      if pos >= |keys| {
        return Failure(Eof);
      }
      r := Success(keys[pos]);
      pos := pos + 1;
    }
  }

  /** `Table.Partitions`: a fresh cursor over the single key, every key of which the table can read. */
  method Partitions() returns (it: PartitionIter)
    ensures fresh(it)
    ensures it.keys == [PartitionKey] && it.pos == 0 && it.Remaining() == [PartitionKey]
    ensures forall k :: k in it.Remaining() ==> CheckPartitionKey(k).Success?
  {
    it := new PartitionIter([PartitionKey]);
  }

  const PartitionNotFound := "partition not found: "

  /**
   * The check `PartitionRows` makes before it queries: only key "0" is
   * accepted, and the refusal quotes the key so that it reads back exactly.
   */
  function CheckPartitionKey(key: string): (r: Result<(), string>)
    ensures r.Success? <==> key == PartitionKey
    ensures r.Failure? ==>
      |r.error| > |PartitionNotFound| && r.error[..|PartitionNotFound|] == PartitionNotFound &&
      Unquote(r.error[|PartitionNotFound|..]) == Some(key)
  {
    if key == PartitionKey then Success(())
    else
      var message := PartitionNotFound + Quote(key);
      assert message[|PartitionNotFound|..] == Quote(key);
      QuoteRoundTrip(key);
      Failure(message)
  }

  // ---------------------------------------------------------------------
  // Inserting

  /** A row cell: SQL NULL (Go's nil) or some value the driver binds as given. */
  datatype Value = Null | Datum(text: string)

  const RowtimeName := "rowtime"

  /** What `Insert` sends to the database: the column list, one placeholder or literal per column, and the arguments. */
  datatype InsertPlan = InsertPlan(columns: seq<string>, placeholders: seq<string>, args: seq<Value>)

  datatype InsertError =
    /** `row[i]` on a `rowtime` column past the end of the row: a run-time panic in the source. */
    | IndexOutOfRange(index: nat, length: nat)
    /** The database refused the statement. */
    | ExecFailed(message: string)

  /** The statement text: `INSERT INTO "<table>" (c1,c2) VALUES (p1,p2)`. */
  function InsertStatement(table: string, plan: InsertPlan): string {
    "INSERT INTO \"" + table + "\" (" + Join(plan.columns, ",") + ") VALUES (" + Join(plan.placeholders, ",") + ")"
  }

  /** The number of `?` placeholders, each of which binds one argument. */
  function Binds(placeholders: seq<string>): nat
    ensures Binds(placeholders) <= |placeholders|
  {
    if placeholders == [] then 0
    else Binds(placeholders[..|placeholders| - 1]) + (if placeholders[|placeholders| - 1] == "?" then 1 else 0)
  }

  /** Where the first `rowtime` column is, if there is one. */
  function FirstRowtime(names: seq<string>): (r: Option<nat>)
    ensures r.None? <==> RowtimeName !in names
    ensures r.Some? ==> r.value < |names| && names[r.value] == RowtimeName && RowtimeName !in names[..r.value]
  {
    if names == [] then None
    else if names[0] == RowtimeName then Some(0)
    else
      var rest := FirstRowtime(names[1..]);
      assert names == [names[0]] + names[1..];
      if rest.None? then None
      else
        assert names[..rest.value + 1] == [names[0]] + names[1..][..rest.value];
        Some(rest.value + 1)
  }

  /** The schema has exactly one `rowtime` column. */
  predicate SingleRowtime(names: seq<string>) {
    FirstRowtime(names).Some? && RowtimeName !in names[FirstRowtime(names).value + 1..]
  }

  /**
   * The promises of a plan built for `names`, `row` and the insert time
   * `now`: every column listed in schema order; each placeholder `?`,
   * except a `rowtime` column stamped with the decimal time; one argument
   * dropped per stamp.  Without a `rowtime` column the row is bound as it
   * is.  With a single one, a NULL cell there is stamped and dropped and
   * the other arguments keep their order; any other cell is bound.
   */
  ghost predicate Describes(names: seq<string>, row: seq<Value>, now: int, plan: InsertPlan) {
    && plan.columns == names
    && |plan.placeholders| == |names|
    && (forall i :: 0 <= i < |names| ==>
          plan.placeholders[i] == "?" || (names[i] == RowtimeName && plan.placeholders[i] == IntToDecimal(now)))
    && |plan.args| + (|names| - Binds(plan.placeholders)) == |row|
    && (RowtimeName !in names ==> plan.args == row && Binds(plan.placeholders) == |names|)
    && (SingleRowtime(names) ==>
          var k := FirstRowtime(names).value;
          && k < |row|
          && plan.placeholders[k] == (if row[k] == Null then IntToDecimal(now) else "?")
          && plan.args == (if row[k] == Null then row[..k] + row[k + 1..] else row))
  }

  lemma StampIsNotPlaceholder(now: int)
    ensures IntToDecimal(now) != "?"
  {
    var s := IntToDecimal(now);
    assert s[0] == '-' || IsDigit(s[0]);
  }

  /** The loop's promise after the first `i` schema columns: placeholders `ph`, arguments `args` left. */
  ghost predicate Progress(names: seq<string>, row: seq<Value>, now: int, i: nat, ph: seq<string>, args: seq<Value>) {
    Counted(names, row, now, i, ph, args) && Tracked(names, row, now, i, ph, args)
  }

  /** The placeholders so far have the promised shape, and one argument is gone per stamp. */
  ghost predicate Counted(names: seq<string>, row: seq<Value>, now: int, i: nat, ph: seq<string>, args: seq<Value>) {
    && i <= |names| && |ph| == i
    && (forall j :: 0 <= j < i ==> ph[j] == "?" || (names[j] == RowtimeName && ph[j] == IntToDecimal(now)))
    && |args| + (i - Binds(ph)) == |row|
    && (RowtimeName !in names[..i] ==> args == row && Binds(ph) == i)
  }

  /** For a schema with a single `rowtime` column: the row is untouched up to it, and settled after it. */
  ghost predicate Tracked(names: seq<string>, row: seq<Value>, now: int, i: nat, ph: seq<string>, args: seq<Value>)
    requires |ph| == i
  {
    SingleRowtime(names) ==>
      var k := FirstRowtime(names).value;
      && (i <= k ==> args == row)
      && (k < i ==>
            && k < |row|
            && ph[k] == (if row[k] == Null then IntToDecimal(now) else "?")
            && args == (if row[k] == Null then row[..k] + row[k + 1..] else row))
  }

  /** What the loop does with schema column `i`: stamp a NULL `rowtime` cell and drop it, or bind the cell. */
  function Stamp(names: seq<string>, now: int, i: nat, args: seq<Value>): (string, seq<Value>)
    requires i < |names| && (names[i] == RowtimeName ==> i < |args|)
  {
    if names[i] == RowtimeName && args[i] == Null then (IntToDecimal(now), args[..i] + args[i + 1..])
    else ("?", args)
  }

  lemma CountedStep(names: seq<string>, row: seq<Value>, now: int, i: nat, ph: seq<string>, args: seq<Value>)
    requires Counted(names, row, now, i, ph, args) && i < |names|
    requires names[i] == RowtimeName ==> i < |args|
    ensures Counted(names, row, now, i + 1, ph + [Stamp(names, now, i, args).0], Stamp(names, now, i, args).1)
  {
    StampIsNotPlaceholder(now);
    BindsAppend(ph, Stamp(names, now, i, args).0);
    assert names[..i + 1] == names[..i] + [names[i]];
  }

  lemma BindsAppend(ph: seq<string>, p: string)
    ensures Binds(ph + [p]) == Binds(ph) + (if p == "?" then 1 else 0)
  {
    assert (ph + [p])[..|ph|] == ph;
  }

  lemma TrackedStep(names: seq<string>, row: seq<Value>, now: int, i: nat, ph: seq<string>, args: seq<Value>)
    requires |ph| == i && Tracked(names, row, now, i, ph, args) && i < |names|
    requires names[i] == RowtimeName ==> i < |args|
    ensures Tracked(names, row, now, i + 1, ph + [Stamp(names, now, i, args).0], Stamp(names, now, i, args).1)
  {
    if SingleRowtime(names) {
      var k := FirstRowtime(names).value;
      if i > k {
        assert names[i] in names[k + 1..];
      } else if i < k {
        assert names[i] in names[..k];
      }
    }
  }

  /** A finished loop has built a plan that keeps every promise. */
  lemma ProgressDescribes(names: seq<string>, row: seq<Value>, now: int, plan: InsertPlan)
    requires plan.columns == names && Progress(names, row, now, |names|, plan.placeholders, plan.args)
    ensures Describes(names, row, now, plan)
  {
    assert names[..|names|] == names;
  }

  /** A `rowtime` column past the end of the row: it is a single one only if it lies past the row. */
  lemma ProgressStuck(names: seq<string>, row: seq<Value>, now: int, i: nat, ph: seq<string>, args: seq<Value>)
    requires Progress(names, row, now, i, ph, args) && i < |names|
    requires names[i] == RowtimeName && i >= |args|
    ensures SingleRowtime(names) ==> |row| <= FirstRowtime(names).value
  {
  }

  /**
   * The column and placeholder lists of `rowInserter.Insert`.  The row is
   * indexed by schema position as it shrinks, so a `rowtime` column past
   * the end of the (shrunk) row is an index panic.
   */
  method PlanInsert(names: seq<string>, row: seq<Value>, now: int) returns (r: Result<InsertPlan, InsertError>)
    ensures r.Success? ==> Describes(names, row, now, r.value)
    ensures r.Failure? ==> r.error.IndexOutOfRange? && r.error.index < |names| && names[r.error.index] == RowtimeName
    ensures RowtimeName !in names ==> r.Success?
    ensures SingleRowtime(names) ==> (r.Success? <==> FirstRowtime(names).value < |row|)
  {
    var cols: seq<string> := [];
    var phdr: seq<string> := [];
    var args := row;
    for i := 0 to |names|
      invariant cols == names[..i]
      invariant Progress(names, row, now, i, phdr, args)
    {
      cols := cols + [names[i]];
      if names[i] == RowtimeName && i >= |args| {
        ProgressStuck(names, row, now, i, phdr, args);
        return Failure(IndexOutOfRange(i, |args|));
      }
      CountedStep(names, row, now, i, phdr, args);
      TrackedStep(names, row, now, i, phdr, args);
      var step := Stamp(names, now, i, args);
      phdr := phdr + [step.0];
      args := step.1;
    }
    assert cols == names;
    var plan := InsertPlan(cols, phdr, args);
    ProgressDescribes(names, row, now, plan);
    r := Success(plan);
  }

  /** When the row has one value per column, the statement binds exactly the arguments it is given. */
  lemma PlaceholdersMatchArguments(names: seq<string>, row: seq<Value>, now: int, plan: InsertPlan)
    requires Describes(names, row, now, plan) && |row| == |names|
    ensures Binds(plan.placeholders) == |plan.args|
  {
  }

  /** The open transaction's end: still open, rolled back, or committed (a commit ends it even when it fails). */
  datatype TxState = Open | RolledBack | Committed

  /**
   * `rowInserter`: a transaction begun when the inserter was made (the
   * begin error, if any, kept for `Close`), the statements executed in it,
   * and how it ended.
   */
  class RowInserter {
    const table: string
    const columns: seq<string>
    const beginError: Option<string>
    var executed: seq<(string, seq<Value>)>
    var state: TxState

    /** `Table.Inserter`, given the outcome of beginning the transaction. */
    constructor (table: string, columns: seq<string>, beginError: Option<string>)
      ensures this.table == table && this.columns == columns && this.beginError == beginError
      ensures executed == [] && state == Open
    {
      this.table := table;
      this.columns := columns;
      this.beginError := beginError;
      executed := [];
      state := Open;
    }

    /**
     * `Insert`: build the plan and execute it; `execError` is the database's
     * answer.  Only a statement the database accepted joins the log.
     */
    method Insert(row: seq<Value>, now: int, execError: Option<string>) returns (err: Option<InsertError>)
      modifies this`executed
      ensures err.None? ==> (execError.None? &&
        exists plan :: Describes(columns, row, now, plan) &&
          executed == old(executed) + [(InsertStatement(table, plan), plan.args)])
      ensures err.Some? ==> executed == old(executed)
      ensures err.Some? && err.value.ExecFailed? ==> execError == Some(err.value.message)
      ensures (RowtimeName !in columns || (SingleRowtime(columns) && FirstRowtime(columns).value < |row|)) ==>
        (err.None? <==> execError.None?)
    {
      var r := PlanInsert(columns, row, now);
      if r.Failure? {
        return Some(r.error);
      }
      if execError.Some? {
        return Some(ExecFailed(execError.value));
      }
      executed := executed + [(InsertStatement(table, r.value), r.value.args)];
      err := None;
    }

    /** `Close`: a recorded begin error rolls back and is returned; otherwise commit, whose answer is `commitError`. */
    method Close(commitError: Option<string>) returns (err: Option<string>)
      modifies this`state
      ensures beginError.Some? ==> state == RolledBack && err == beginError
      ensures beginError.None? ==> state == Committed && err == commitError
    {
      if beginError.Some? {
        state := RolledBack;
        return beginError;
      }
      state := Committed;
      err := commitError;
    }
  }
}
