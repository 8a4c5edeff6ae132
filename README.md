# streamql / mysqlite core, modelled in Dafny

mysqlite is a MySQL-dialect SQL front end whose tables live in a SQLite
file. Every table carries a `rowtime` column, an insert timestamp. The
`streamql` command uses that column to turn a one-off SELECT into a stream:

1. Find the base tables the query reads.
2. Probe each table's highest `rowtime`.
3. Run the query once, bounded by those high-water marks.
4. Loop forever: re-probe. If nothing moved, wait a second. Otherwise, for
   each table, run a "delta" query that admits only that table's rows
   newer than the previous mark.

The project models:

- **The query side**, from `cmd/streamql/main.go`:
  - base-table discovery through UNIONs, parenthesised SELECTs, subqueries, parenthesised FROM items and JOINs;
  - alias deduplication;
  - the two WHERE-clause rewriters;
  - the snapshot comparison;
  - the bootstrap/delta loop, as a class `Scheduler.Streamer` driven by oracle parameters (engine answers and cancellation).
- **The storage side**, from `internal/sqlite`:
  - the MySQL-to-engine column-type translation `ColumnTypeToType`;
  - the single-partition table and its iterator;
  - the row inserter, which stamps `rowtime`;
  - `Database.CreateTable`, which injects and checks `rowtime`, maps SQL types to SQLite affinities and assembles the DDL;
  - the table-schema cache kept by `GetTableInsensitive`, `CreateTable` and `DropTable`.

Modules:

| file | module | contents |
|---|---|---|
| wrappers.dfy | Wrappers | `Option`, `Result` |
| gostrings.dfy | GoStrings | decimal formatting and `strconv.ParseInt`, ASCII lower-casing, `strings.Join`, `%q` quoting and its inverse |
| ast.dfy | SqlAst | the slice of the SQL syntax tree the loop inspects, and WHERE evaluation over a row |
| discovery.dfy | Discovery | `parseSelectTableNames`, `parseTableExprsNames`, `dedupAliases` |
| predicates.dfy | Predicates | `setRowtimeGreaterThan`, `setRowtimesLessEqualThan` |
| snapshots.dfy | Snapshots | `maxRowtimesEqual` and the delta-window arithmetic |
| scheduler.dfy | Scheduler | the SELECT branch of `main` and `queryMaxRowTimes` |
| columntypes.dfy | ColumnTypes | `ColumnTypeToType` |
| tables.dfy | Tables | partitions, the partition iterator, the row inserter |
| database.dfy | SqliteDatabase | `CreateTable`, the affinity switch, the schema cache |

The scheduler carries ghost state beside the source's variables:

- the history of probed snapshots;
- a log of every executed statement, with its purpose: the bootstrap query, or round r's delta query for table t.

`Streamer.Valid` keeps these facts about the log:

- each statement is a SELECT over the original FROM, logged as admitting exactly the rows of its window;
- no purpose occurs twice;
- pids strictly increase along the log and stay below the next pid to be handed out, so every statement ran under a pid of its own.

`Answered` ties a run of statements to the engine: the i-th ran under the i-th pid after a given one, and returned the engine's row count for that pid.

`Settled` holds between rounds. It says that every round whose marks moved issued a delta query for every table. `Start` establishes it, and `Round` keeps it unless the process exits.

On these, `NoRowTwice` and `NoGap` state the design's promise for a table whose marks never decrease. Take a row whose rowtime for that table is at most the table's current mark. It falls in one slot, and some statement reads the table in that slot. That statement admits the row exactly when the user's WHERE does and the row lies within the slot's marks (`NoGap`). No two statements that read the table in their own slots admit the same row (`NoRowTwice`).

## Model

| member | source | states |
|---|---|---|
| Discovery.DedupAliases | cmd/streamql/main.go:300-313 | the result holds exactly the non-`dual` input references, each once, in first-occurrence order |
| Discovery.Deduped | cmd/streamql/main.go:300-313 | definition of the deduplicated list; its meaning is stated by Discovery.DedupedSpec, DedupedExtends and DedupedFixpoint |
| Discovery.SelectTables | cmd/streamql/main.go:260-274 | definition of discovery over a statement; stated against an independent reference set by Discovery.SelectTablesCorrect |
| Discovery.ExprsTables | cmd/streamql/main.go:276-298 | definition of discovery over a FROM list; stated by Discovery.ExprsTablesCorrect and ExprsTablesSplit |
| Discovery.ItemTables | cmd/streamql/main.go:279-295 | definition of discovery over one FROM item; stated by Discovery.ItemTablesCorrect |
| Discovery.DedupedSpec | cmd/streamql/main.go:300-313 | deduplication keeps every non-`dual` reference, drops `dual`, adds nothing and leaves no duplicate |
| Discovery.DedupedExtends | cmd/streamql/main.go:300-313 | deduplicating a longer list keeps the shorter list's deduplication as a prefix |
| Discovery.DedupedFixpoint | cmd/streamql/main.go:300-313 | a duplicate-free, `dual`-free list is unchanged by deduplication |
| Discovery.SelectTablesCorrect | cmd/streamql/main.go:260-274 | discovery succeeds exactly on statements built from the supported kinds; its result lists every non-`dual` base-table reference the statement mentions, once each |
| Discovery.ExprsTablesCorrect | cmd/streamql/main.go:276-298 | a FROM list succeeds iff every item is supported, and then contributes exactly its items' non-`dual` references |
| Discovery.ItemTablesCorrect | cmd/streamql/main.go:279-295 | one FROM item: a named table gives its (name, alias); a subquery gives its SELECT's tables; a paren or JOIN gives its parts' tables; any other item gives nothing |
| Discovery.UnionLeftFirst | cmd/streamql/main.go:263-265 | a UNION lists its left branch's tables first, in the left branch's order |
| Discovery.ParenSelectTransparent | cmd/streamql/main.go:266-267 | parentheses around a SELECT do not change its tables |
| Discovery.ExprsTablesSingleton | cmd/streamql/main.go:292-294 | a one-item FROM list contributes what its item does, as the JOIN branches rely on |
| Discovery.ExprsTablesSplit | cmd/streamql/main.go:276-298 | walking a FROM list in two pieces and appending gives the whole walk; the first unsupported statement still wins |
| Discovery.CollectSelectTables | cmd/streamql/main.go:260-274 | the recursive walk returns exactly the reference function's result, including the panic on an unknown statement kind |
| Discovery.CollectTableExprs | cmd/streamql/main.go:276-298 | the loop over a FROM list returns the reference function's result |
| Discovery.CollectItem | cmd/streamql/main.go:279-295 | one iteration of the FROM loop returns the reference function's result for that item |
| Predicates.SetRowtimeGreaterThan | cmd/streamql/main.go:187-211 | the new WHERE is `q.rowtime > mark` alone, or that comparison ANDed in front of the old WHERE; the qualifier is the alias, or the name when there is no alias |
| Predicates.GreaterThanHolds | cmd/streamql/main.go:187-211 | a row passes the new WHERE iff its rowtime exceeds the mark and it passes the old WHERE |
| Predicates.UpperBounds | cmd/streamql/main.go:222-240 | one comparison per enumerated table |
| Predicates.UpperBoundsAt | cmd/streamql/main.go:222-240 | comparison i is `qualifier(t_i).rowtime <= snapshot[t_i]` |
| Predicates.UpperBoundHoldsAt | cmd/streamql/main.go:227-238 | comparison i holds on a row iff that table's rowtime is within its mark |
| Predicates.LeftConjuncts | cmd/streamql/main.go:243-249 | flattening a left-nested AND yields at least one conjunct |
| Predicates.AndChainConjuncts | cmd/streamql/main.go:243-249 | the left fold `c0 AND c1 AND …` flattens back to exactly the comparisons folded |
| Predicates.AndChainHolds | cmd/streamql/main.go:243-249 | the fold holds on a row iff every comparison does |
| Predicates.AllBoundsWithin | cmd/streamql/main.go:222-249 | all comparisons holding implies every snapshot table is within its mark |
| Predicates.WithinAllBounds | cmd/streamql/main.go:222-249 | every table within its mark implies all comparisons hold |
| Predicates.BoundAll | cmd/streamql/main.go:213-258 | definition of the bounded WHERE; its meaning is stated by Predicates.BoundAllHolds and its shape by Predicates.BoundAllShape |
| Predicates.BoundAllHolds | cmd/streamql/main.go:213-258 | a row passes the bounded WHERE iff every snapshot table's rowtime is within its mark and the row passes the old WHERE |
| Predicates.BoundAllShape | cmd/streamql/main.go:214-257 | an empty snapshot returns the WHERE unchanged; otherwise the result is the comparison fold, alone or ANDed in front of the old WHERE |
| Predicates.DeltaWindowHolds | cmd/streamql/main.go:121-125 | a delta query's WHERE admits a row iff it is within every current mark, newer than the table's previous mark, and passes the user's WHERE |
| Predicates.SetRowtimesLessEqualThan | cmd/streamql/main.go:213-258 | returns the reference rewrite, and admits a row iff it is within all marks and passes the old WHERE |
| Predicates.CollectUpperBounds | cmd/streamql/main.go:221-240 | the comparison-building loop yields the reference comparison list |
| Predicates.FoldAnd | cmd/streamql/main.go:242-249 | the fold loop yields the reference left-nested AND |
| Snapshots.SameMarks | cmd/streamql/main.go:155-165 | definition of the snapshot comparison: same size, and `right` (a missing key reading as 0) agrees on every key of `left`; Snapshots.SameMarksOnSameKeys and SameMarksIsNotEquality state what it means |
| Snapshots.MaxRowtimesEqual | cmd/streamql/main.go:155-165 | true iff both snapshots have the same size and `right` (a missing key reading as 0) agrees on every key of `left` |
| Snapshots.SameMarksOnSameKeys | cmd/streamql/main.go:155-165 | on snapshots with the same tables, the comparison is map equality |
| Snapshots.SameMarksIsNotEquality | cmd/streamql/main.go:155-165 | on different tables it is not: `{a:0}` compares equal to `{b:5}` |
| Snapshots.SlotsTile | cmd/streamql/main.go:96-138 | for non-decreasing marks, the bootstrap range and the delta windows cover exactly `x <= last mark`, and no two overlap |
| Scheduler.OrigWhereAsWritten | cmd/streamql/main.go:86-89 | as written, any query with a WHERE dereferences a nil pointer; without one, origWhere is nil |
| Scheduler.OrigWhere | cmd/streamql/main.go:86-89 | the corrected copy admits exactly the rows the user's WHERE admits |
| Scheduler.OrigWhereDiscrepancy | cmd/streamql/main.go:86-89 | for every WHERE, the as-written copy fails while the corrected one keeps it |
| Scheduler.Enumerate | cmd/streamql/main.go:222 | the order the rewrite visits the snapshot in: exactly the discovered tables present in the snapshot, without duplicates |
| Scheduler.EnumerationOfCovered | cmd/streamql/main.go:222 | when the snapshot covers only discovered tables, that order enumerates its keys exactly once |
| Scheduler.ProbedByStep | cmd/streamql/main.go:169-183 | one more probe extends the snapshot: a found mark is recorded, an empty answer skips the table |
| Scheduler.WaitStep | cmd/streamql/main.go:128-135 | one more empty delta result adds one wait and records whether the context was cancelled |
| Scheduler.ZeroRowsAppend | cmd/streamql/main.go:97-136 | counting the empty results of one more query adds one iff it returned no rows |
| Scheduler.LoggedExtends | cmd/streamql/main.go:107-109 | a later probe does not change what an earlier statement was logged as reading |
| Scheduler.AllLoggedAt | cmd/streamql/main.go:96-138 | every statement of a logged log admits exactly the rows of its window |
| Scheduler.AllLoggedExtends | cmd/streamql/main.go:107-109 | a later probe keeps every statement of the log logged |
| Scheduler.LoggedBelow | cmd/streamql/main.go:96-138 | every logged statement belongs to the bootstrap or to a round already probed |
| Scheduler.PurposesBelow | cmd/streamql/main.go:107-125 | when every statement of the log belongs to a slot below a bound, so does every purpose it lists |
| Scheduler.DeltaLogged | cmd/streamql/main.go:121-125 | a delta query built from the round's starting WHERE and the table's previous mark is logged as admitting exactly that table's delta window |
| Scheduler.OnlyStatement | cmd/streamql/main.go:94-97 | the bootstrap query alone is a logged log whose purposes are unique and whose pid is below the next one |
| Scheduler.LogAppend | cmd/streamql/main.go:97-128 | one more logged query, for a purpose not issued yet and a pid above every earlier one, keeps the log logged, its purposes unique and its pids ascending, and adds exactly that purpose |
| Scheduler.AnsweredAt | cmd/streamql/main.go:55-76 | in a run answered from pid p, statement j ran under pid p+j+1 and returned the engine's row count for that pid |
| Scheduler.PidsAscendAt | cmd/streamql/main.go:55-57 | in a log with ascending pids, an earlier statement has a smaller pid than a later one, and both are below the bound |
| Scheduler.PidsBelowLast | cmd/streamql/main.go:55-57 | every pid of such a log is below the bound |
| Scheduler.PidsAscendRaise | cmd/streamql/main.go:55-57 | a higher bound keeps the pids ascending below it, as more probes hand out more pids |
| Scheduler.PurposesConcat | cmd/streamql/main.go:124-138 | the purposes of a log followed by a round are the purposes of both |
| Scheduler.PurposeFound | cmd/streamql/main.go:124-138 | a purpose the log lists is the purpose of one of its statements |
| Scheduler.PurposeListed | cmd/streamql/main.go:124-138 | every statement's purpose is listed among the log's purposes |
| Scheduler.SamePurposeSameStatement | cmd/streamql/main.go:96-138 | in a log whose purposes are unique, two statements with one purpose are one statement |
| Scheduler.FreshDelta | cmd/streamql/main.go:124-125 | within a round, the next table's delta query has a purpose not issued yet: earlier statements belong to earlier slots, and the round's own are for the other, deduplicated, tables before it |
| Scheduler.RoundStep | cmd/streamql/main.go:124-136 | one more table: the round's queries stay in discovery order, its waits count its empty results, and a wait that observes cancellation follows the last query |
| Scheduler.RoundEnds | cmd/streamql/main.go:124-138 | a loop that reached the last table, or whose last wait observed cancellation, has produced a complete round: its log, and its waits with the cancelling one last |
| Scheduler.RoundCovers | cmd/streamql/main.go:124-138 | a round keeps every earlier purpose, and a full round adds a delta query of that round for every table |
| Scheduler.SettledAt | cmd/streamql/main.go:107-138 | in a settled history, a round whose marks moved has a delta query for every table |
| Scheduler.SettledGrows | cmd/streamql/main.go:107-138 | a longer log keeps a history settled |
| Scheduler.SettledStep | cmd/streamql/main.go:107-138 | a round with equal marks, or with moved marks and a delta query for every table, keeps the history settled |
| Scheduler.RoundSettles | cmd/streamql/main.go:107-138 | a round that did not exit keeps the history settled: equal marks issued nothing, moved marks issued a full round of delta queries |
| Scheduler.LoggedInSlot | cmd/streamql/main.go:94-125 | a logged statement that reads table t in its own slot admits only rows whose rowtime for t falls in that slot |
| Scheduler.Streamer.Start | cmd/streamql/main.go:84-105 | probes every discovered table, runs the bootstrap query bounded by those marks (pid after the probes), and waits once, exiting iff cancelled, iff it returned no rows; the one-snapshot history is settled |
| Scheduler.Streamer.BootstrapQuery | cmd/streamql/main.go:94-97 | the first query runs under the next pid and is logged as admitting exactly the rows within every mark that pass the user's WHERE |
| Scheduler.Streamer.QueryMaxRowTimes | cmd/streamql/main.go:167-185 | one probe per table, each with its own fresh pid; the snapshot holds exactly the answers found |
| Scheduler.Streamer.DoQuery | cmd/streamql/main.go:55-76 | runs the statement under the next pid and returns the engine's row count |
| Scheduler.Streamer.Wait | cmd/streamql/main.go:99-104 | one wait; it exits iff the context is cancelled at that wait |
| Scheduler.Streamer.DeltaQuery | cmd/streamql/main.go:125-128 | the delta statement for one table is the original FROM with `rowtime > previous mark` in front of the bounded WHERE, and it admits exactly that table's delta window |
| Scheduler.Streamer.DeltaStep | cmd/streamql/main.go:125-136 | the next table's delta query runs under the next pid and returns the engine's row count for that pid; it is logged with its round; then one wait iff it returned no rows, recording whether that wait observed cancellation |
| Scheduler.Streamer.NextTable | cmd/streamql/main.go:124-136 | one pass of the loop over the tables: the round's log grows by the next table's query, whose purpose is new and whose pid follows the round's earlier ones, and its waits stay counted |
| Scheduler.Streamer.DeltaQueries | cmd/streamql/main.go:124-138 | one delta query per discovered table, in discovery order, each logged with its round; an empty result waits once; a wait that observes cancellation is the last thing done and follows a query that returned nothing; without one, every table was queried; the round's i-th query runs under the i-th pid after the counter's old value and returns the engine's row count for it |
| Scheduler.Streamer.RoundStart | cmd/streamql/main.go:121 | the round's starting WHERE admits exactly the rows within the new marks that pass the user's WHERE |
| Scheduler.Streamer.Reprobe | cmd/streamql/main.go:108-110 | the previous marks are kept, new ones are probed under one fresh pid per table and appended to the history, and the result is the snapshot comparison |
| Scheduler.Streamer.MovedRound | cmd/streamql/main.go:121-138 | when the marks moved: the starting WHERE bounded by the new marks, then the round's delta queries, their pids and row counts, and their waits as DeltaQueries states |
| Scheduler.Streamer.AfterProbe | cmd/streamql/main.go:110-138 | after the probe: equal marks wait once with no query, exiting iff cancelled; moved marks run MovedRound; either way a round that does not exit keeps the history settled |
| Scheduler.Streamer.Round | cmd/streamql/main.go:107-139 | one pass of the endless `for` (the loop is calling Round again while the process has not exited): the probes take the next pid per table; equal marks wait once with no query, exiting iff cancelled; moved marks run the round's delta queries under the pids after the probes' in order, each returning the engine's row count for its pid; a round that does not exit keeps the history settled |
| Scheduler.Start | cmd/streamql/main.go:82-142 | a non-SELECT statement runs once; a SELECT whose discovery panics fails; otherwise streaming starts over the discovered tables with the user's WHERE |
| Scheduler.NoRowTwice | cmd/streamql/main.go:96-138 | while a table's marks never decrease and every probe saw it, two statements that read it in their own slots and admit the same row are the same statement |
| Scheduler.NoGap | cmd/streamql/main.go:96-138 | in a settled history, under the same conditions, every row whose rowtime for t is at most t's current mark falls in the slot of a statement that reads t, and that statement admits it iff it passes the user's WHERE and is within that slot's marks |
| GoStrings.IntToDecimal | cmd/streamql/main.go:201 | `%d` formatting: a leading `-` exactly for negatives; digits only otherwise |
| GoStrings.ParseInt | internal/sqlite/util.go:82 | `strconv.ParseInt(s, 10, bits)`: a result lies within the signed `bits`-bit range; empty or digit-free text does not parse |
| GoStrings.ParseIntOfDecimal | internal/sqlite/util.go:82 | parsing a formatted in-range integer gives it back |
| GoStrings.ToLower | internal/sqlite/util.go:27 | lower-casing keeps the length, leaves no upper-case ASCII letter, and changes only upper-case letters |
| GoStrings.ToLowerIdempotent | internal/sqlite/util.go:27 | lower-casing twice is lower-casing once |
| GoStrings.Quote | internal/sqlite/table.go:56 | `%q` output starts and ends with a double quote |
| GoStrings.QuoteRoundTrip | internal/sqlite/table.go:56 | unquoting a quoted string gives the string back |
| ColumnTypes.ColumnTypeToType | internal/sqlite/util.go:26-252 | definition: the arm the lower-cased name selects, or the unsupported-type errors; stated by ColumnTypes.ArmDecides, UnsupportedNames and CaseInsensitive |
| ColumnTypes.SelectCase | internal/sqlite/util.go:27-251 | definition of the case selection; stated by ColumnTypes.CaseForFirst and CaseForAt |
| ColumnTypes.ArmType | internal/sqlite/util.go:28-238 | definition of each case's body; stated by the per-arm lemmas below and ColumnTypes.ArmMessages |
| ColumnTypes.Uint8Of | internal/sqlite/util.go:77-104 | Go's `uint8(x)` keeps x modulo 256 and leaves values in 0..255 unchanged |
| ColumnTypes.CaseForFirst | internal/sqlite/util.go:27-249 | the switch runs the first case listing the lower-cased name, and the default iff none does |
| ColumnTypes.CaseForAt | internal/sqlite/util.go:27-249 | a name listed first by case k runs case k |
| ColumnTypes.ArmMessages | internal/sqlite/util.go:175-215 | the only errors an arm formats itself are the VARCHAR and VARBINARY missing-length messages |
| ColumnTypes.UnsupportedNames | internal/sqlite/util.go:240-251 | geometry-family names fail with "type not yet implemented", names no case lists fail with "unknown type", both quoting the name as written, and nothing else gives either message |
| ColumnTypes.CaseInsensitive | internal/sqlite/util.go:27 | two spellings that lower-case alike both succeed or both fail, and give the same result in every implemented case |
| ColumnTypes.ArmIgnoresName | internal/sqlite/util.go:28-238 | an arm's result does not depend on the spelling of the name |
| ColumnTypes.ArmDecides | internal/sqlite/util.go:26-251 | once the name selects an arm, the translation is that arm's result |
| ColumnTypes.IntegerPair | internal/sqlite/util.go:32-72 | exactly the five MySQL integer names have a signed/unsigned pair |
| ColumnTypes.IntegerNamesFollowUnsigned | internal/sqlite/util.go:32-72 | tinyint, smallint, mediumint, int/integer and bigint are unsigned iff UNSIGNED is set, at their own widths |
| ColumnTypes.ExplicitWidthIgnoresUnsigned | internal/sqlite/util.go:28-72 | the explicit-width names always succeed and ignore UNSIGNED |
| ColumnTypes.BooleanIsInt8 | internal/sqlite/util.go:28-29 | `bool` and `boolean`, in any letter case, are Int8 |
| ColumnTypes.DecimalArm | internal/sqlite/util.go:77-94 | DECIMAL parses precision then scale as signed 8-bit decimals (0 when absent), the first unparsable text is the error, and both are truncated to 8 bits |
| ColumnTypes.BitArm | internal/sqlite/util.go:95-104 | BIT defaults to 1; a given length must parse as a signed 8-bit decimal and is truncated to 8 bits |
| ColumnTypes.BitLengthWraps | internal/sqlite/util.go:95-104 | the length of `bit(-1)` parses as -1 and reaches CreateBitType as 255 |
| ColumnTypes.FixedStringsDefaultToOne | internal/sqlite/util.go:151-206 | CHAR, NCHAR and BINARY without a length are one character long |
| ColumnTypes.VarcharNeedsLength | internal/sqlite/util.go:175-196 | VARCHAR (after its collation lookup) and NVARCHAR without a length fail with "VARCHAR requires a length" |
| ColumnTypes.VarbinaryNeedsLength | internal/sqlite/util.go:207-215 | VARBINARY without a length fails with its own message |
| ColumnTypes.TextSizes | internal/sqlite/util.go:120-150 | TINYTEXT, TEXT, MEDIUMTEXT and LONGTEXT hold 255, 65535, 16777215 and 4294967295 bytes divided by the collation's bytes per character |
| ColumnTypes.EnumKeepsValues | internal/sqlite/util.go:226-237 | ENUM and SET succeed iff the collation is known, and keep the declared values in order |
| Tables.Partitions | internal/sqlite/table.go:48-52 | a table has one partition, keyed "0", and a fresh iterator over it |
| Tables.PartitionIter.constructor | internal/sqlite/table.go:48-52 | a new iterator stands before its first key |
| Tables.PartitionIter.Next | internal/sqlite/table.go:81-89 | yields the next key and advances, or reports EOF, without advancing, iff none remain |
| Tables.CheckPartitionKey | internal/sqlite/table.go:54-57 | only key "0" is accepted; any other is refused with "partition not found: " and the quoted key, which unquotes back to it |
| Tables.InsertStatement | internal/sqlite/table.go:153 | definition of the INSERT text from the plan's column and placeholder lists; Tables.PlaceholdersMatchArguments states that its placeholders match the arguments |
| Tables.Binds | internal/sqlite/table.go:141-153 | counts the `?` placeholders, never more than there are |
| Tables.FirstRowtime | internal/sqlite/table.go:142-144 | none iff no column is named rowtime; otherwise the index of the first such column |
| Tables.PlanInsert | internal/sqlite/table.go:140-156 | the statement names every column; the first rowtime column gets the current time as a literal and its NULL is spliced out of the arguments; a row too short to reach it is an index error; a non-NULL rowtime value gets a `?` and is bound like any other cell; without a rowtime column the row is bound as it is |
| Tables.PlaceholdersMatchArguments | internal/sqlite/table.go:140-156 | for a row with one value per column, the statement's `?` count equals the argument count |
| Tables.StampIsNotPlaceholder | internal/sqlite/table.go:145-147 | the rowtime literal is never `?` |
| Tables.CountedStep | internal/sqlite/table.go:141-152 | one loop step keeps the placeholders and arguments in step with the row |
| Tables.TrackedStep | internal/sqlite/table.go:141-152 | one loop step keeps the rowtime splice recorded |
| Tables.BindsAppend | internal/sqlite/table.go:141-152 | appending a placeholder adds one to the count iff it is `?` |
| Tables.ProgressDescribes | internal/sqlite/table.go:140-156 | after the last column, the loop's progress is the insert plan's description |
| Tables.ProgressStuck | internal/sqlite/table.go:144-147 | when the loop reaches a rowtime column past the end of the row, a schema with a single rowtime column has a row shorter than that column's index |
| Tables.RowInserter.constructor | internal/sqlite/table.go:125-132 | a new inserter has executed nothing, with its transaction open or failed |
| Tables.RowInserter.Insert | internal/sqlite/table.go:140-156 | a row is either executed once as its planned INSERT with its planned arguments, or refused with the planning or execution error |
| Tables.RowInserter.Close | internal/sqlite/table.go:158-164 | a failed begin is rolled back and reported; otherwise the transaction is committed and the commit's answer returned |
| SqliteDatabase.IndexOf | internal/sqlite/database.go:230 | the first column whose name and source match ignoring case, or -1 iff none does |
| SqliteDatabase.WithRowtime | internal/sqlite/database.go:230-243 | a schema without rowtime gets the rowtime column in front, at index 0; one with rowtime is unchanged |
| SqliteDatabase.CheckRowtime | internal/sqlite/database.go:244-253 | (corrected; see Findings) accepts iff the rowtime column is BIGINT, not nullable and a primary key; the type is checked first, nullability second |
| SqliteDatabase.PrepareSchema | internal/sqlite/database.go:229-253 | (corrected; see Findings) a schema without rowtime gets the key column in front and is accepted; one with rowtime is kept unchanged iff its column passes the checks, else fails with the check's message |
| SqliteDatabase.CheckRowtimeAsWritten | internal/sqlite/database.go:244-253 | as written: the type and nullability checks, then a refusal when the rowtime column IS a primary key; SqliteDatabase.RowtimeCheckInverted states the consequence |
| SqliteDatabase.PrepareSchemaAsWritten | internal/sqlite/database.go:229-253 | as written: the injected key column passes through the inverted check; SqliteDatabase.RowtimeCheckInverted states that every schema without rowtime is refused |
| SqliteDatabase.RowtimeCheckInverted | internal/sqlite/database.go:251-253 | the as-written check refuses every schema that lacks a rowtime column, while the corrected one accepts it |
| SqliteDatabase.PrepareKeepsColumns | internal/sqlite/database.go:229-253 | a prepared schema ends with the input columns, in order, and has a BIGINT primary-key column |
| SqliteDatabase.Affinity | internal/sqlite/database.go:287-469 | INTEGER exactly for the integer codes, TIME, YEAR and BIT; REAL for the floats; NUMERIC for DECIMAL; TEXT for the string, enum, set, JSON, DATE, DATETIME and TIMESTAMP codes and for NULL, expression and geometry; a code without a case fails with "unknown sqltype: " and its name |
| SqliteDatabase.ColumnClauseShape | internal/sqlite/database.go:287-476 | a clause starts with the name and affinity, with a ` DEFAULT ` suffix iff a converted default is kept (not for NULL, expression or geometry types), quoted so that it unquotes to the default; a clause fails iff the type has no case or a kept default does not convert |
| SqliteDatabase.ColumnClause | internal/sqlite/database.go:471-474 | definition of one column's clause; stated by SqliteDatabase.ColumnClauseShape |
| SqliteDatabase.ColumnClauses | internal/sqlite/database.go:277-476 | one clause per column on success; on failure, the first failing column's error |
| SqliteDatabase.PrimaryKeyNames | internal/sqlite/database.go:477-479 | every primary-key column's name is listed, and every listed name is a primary-key column's |
| SqliteDatabase.PrimaryKeyNamesAppend | internal/sqlite/database.go:477-479 | one more column adds its name at the end iff it is a primary key |
| SqliteDatabase.ColumnClausesAppend | internal/sqlite/database.go:472-476 | one more column appends its clause, or the first failure stands |
| SqliteDatabase.BuildDefinitions | internal/sqlite/database.go:277-479 | the loop succeeds iff every column's clause does, returning all clauses and the primary-key names in order; otherwise the first failing column's error |
| SqliteDatabase.FirstFailure | internal/sqlite/database.go:277-476 | the loop's first error is the clause list's error |
| SqliteDatabase.TableDefinitions | internal/sqlite/database.go:517-519 | definition: the column clauses, then `PRIMARY KEY (…)` iff some column is a primary key; SqliteDatabase.PreparedTablesHaveKey states when the key clause appears |
| SqliteDatabase.CreateStatement | internal/sqlite/database.go:520 | definition of the `CREATE TABLE "name" (…)` text joining those definitions; SqliteDatabase.Database.CreateTable executes it |
| SqliteDatabase.PreparedTablesHaveKey | internal/sqlite/database.go:518-521 | with the corrected check, every prepared schema has a primary-key name, so its statement always gets a PRIMARY KEY clause |
| SqliteDatabase.Database.constructor | internal/sqlite/database.go:34-79 | a new database caches nothing |
| SqliteDatabase.Database.GetTableInsensitive | internal/sqlite/database.go:85-180 | a cached schema is returned unchanged; an empty load is "not found" and not cached; a loaded schema is cached; a schema returned is never empty |
| SqliteDatabase.Database.CreateTable | internal/sqlite/database.go:229-527 | (corrected; see Findings) refused schemas, a failed begin and a failing column leave the cache alone; otherwise it executes `CREATE TABLE` with the clauses and primary keys, and on success caches the prepared schema before the commit |
| SqliteDatabase.Database.DropTable | internal/sqlite/database.go:531-542 | the cache forgets the table only when the drop and the schema-row delete both succeed |

## Left out

- Go map iteration order: `dedupAliases` and `setRowtimesLessEqualThan` range over maps, so their output order is unspecified. The model fixes it: deduplication keeps first-occurrence order, and the comparison fold follows the discovered-table order filtered to the snapshot. Every property is stated for any such enumeration, or is order-free.
- SQL execution, rows and JSON output: engine answers (probe results, row counts) and context cancellation are oracle parameters. `fmt.Println` tracing, the JSON encoder, the one-second timer and `os.Exit` are left out.
- Scheduler.Streamer.QueryMaxRowTimes: `sql.Int64.MustConvert` panics on a non-integer probe answer; the oracle answers integers directly. The panics on a failed probe query and on a cursor error (cmd/streamql/main.go:172-174, 180) are not modelled either: the oracle's probe cannot fail.
- Scheduler.Streamer.DoQuery: `doQuery` panics when the query fails, when the cursor returns an error other than end of rows, and when encoding a row fails (cmd/streamql/main.go:59-61, 68-69, 72-74). The engine oracle cannot fail, so the model has none of these panics.
- GoStrings.ParseInt: `strconv.ParseInt` reports a syntax error and a range error as two different errors. The model merges both into `None`. The column-type code returns strconv's error unchanged; the model's `BadNumber` error keeps the refused text but not which of the two errors it was.
- Process ids: modelled as a counter on the streamer. Atomicity across goroutines is not modelled; there is only one goroutine.
- The parser: `sqlparser.Parse` and `sqlparser.String` are not modelled. Statements are syntax-tree values and the model reasons on them.
- The flag parsing, data-directory set-up and `createStreamDatabase` in `main`: not modelled. They are I/O.
- `internal/sqlite/stream.go`, `cmd/mysqlite` and the `rowIter` scanning of `PartitionRows`: not part of this model.
- `GetTableNames`, `debugColumn`, the metadata `INSERT` into the schema table inside `CreateTable` (whose errors the source ignores), and the `SELECT` that `GetTableInsensitive` runs: the loaded schema is the `loaded` parameter.
- `sql.Schema.IndexOf` is not part of the given sources: SqliteDatabase.IndexOf assumes a case-insensitive match on name and source, returning the first match.
- Library types: go-mysql-server type constructors (`CreateString`, `CreateDecimalType`, `CreateBitType`, `CreateEnumType`, …) are tags carrying their arguments. Their own range checks (for instance a decimal precision limit) are not modelled. The collation table of `sql.ParseCollation` is a parameter.
- SqliteDatabase.ColumnClause: default values are converted and formatted by the column type's library code. That result is the `Default` datatype (none, formatted text, or conversion error) rather than the conversion itself.
- GoStrings.ToLower: ASCII only; `strings.ToLower` folds all of Unicode.
- GoStrings.Quote: escapes only `"`, `\`, newline, tab and carriage return; `%q` also escapes other control and non-printable characters.
- Tables.PlanInsert: builds the column and placeholder lists as sequences rather than preallocated slices. The source also splices the rowtime NULL out of the caller's row in place, shifting its backing array. The model returns a new argument list, so that aliasing effect on the caller's row is not captured.
- Tables.RowInserter.Insert, Tables.RowInserter.Close: a failed begin leaves the source's inserter with a nil transaction. `Insert` would then execute on nil, and `Close` would roll back a nil transaction. The model logs the insert and records the rollback instead of panicking.
- Tables.PlanInsert, Tables.RowInserter.Insert: a row too short to reach the rowtime column panics on the index expression at internal/sqlite/table.go:145. The model returns the `IndexOutOfRange` error instead, and `Insert` reports it without executing anything.
- SqliteDatabase.Affinity: a type code without a case panics in the source. The model returns the panic's message as an error, and `CreateTable` reports it.
- Tables.PlanInsert, Tables.Describes: the splice shifts later cells, so a second rowtime column reads the shifted row. The model computes that as the source does, but its plan description only pins down the first rowtime column.
- `inTx`: the begin, commit and rollback answers are the `TxAnswers` parameter. Rollback's own error is ignored, as in the source.
- ColumnTypes.BooleanIsInt8: the only per-name lemma about the literal case table. Other names are reached through ColumnTypes.ArmDecides plus the per-arm lemmas rather than one lemma per spelling.
- Integer widths: rowtimes and marks are unbounded integers. int64 overflow of a timestamp is not modelled; `uint8` truncation in the DECIMAL and BIT arms is, explicitly.

## Findings

| source | as written | input that shows it | evidently intended | confidence | as-written member | corrected member |
|---|---|---|---|---|---|---|
| cmd/streamql/main.go:86-89 | `origWhere` is a nil `*Where`; `*origWhere = *stmt.Where` writes through it | any SELECT with a WHERE clause, e.g. `SELECT * FROM t WHERE x = 1` | copy the user's WHERE into a new value | not executed | Scheduler.OrigWhereAsWritten | Scheduler.OrigWhere (proved by Scheduler.OrigWhereDiscrepancy; used by Scheduler.Streamer.Start) |
| internal/sqlite/database.go:251-253 | returns "rowtime col must be a primary key" when the rowtime column IS a primary key | any schema without a rowtime column: the injected column has `PrimaryKey: true`, so every such CREATE TABLE is refused | refuse a rowtime column that is NOT a primary key | not executed | SqliteDatabase.CheckRowtimeAsWritten, SqliteDatabase.PrepareSchemaAsWritten | SqliteDatabase.CheckRowtime, SqliteDatabase.PrepareSchema (proved by SqliteDatabase.RowtimeCheckInverted; used by SqliteDatabase.Database.CreateTable) |

For both rows, the rest of the model runs on the corrected definition. As
written, the streaming loop can only serve queries without a WHERE clause,
and `CreateTable` refuses every schema that does not declare its own
rowtime column. Modelling those paths as written would leave the remaining
properties about empty behaviour.
