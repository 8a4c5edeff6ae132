/**
 * The round scheduler of `streamql`: one SELECT turned into an endless
 * stream.  A bootstrap query reads everything up to the first snapshot of
 * high-water marks; afterwards each round re-probes the marks and, if any
 * moved, issues one delta query per table that admits only that table's
 * rows newer than its previous mark.  Queries that return nothing, and
 * rounds in which nothing moved, wait once on a timer that races the
 * cancellation signal.
 *
 * The query engine, the max-rowtime probe, the timer and the signal are
 * oracles (`Engine`), indexed by the execution id (pid) each query is given
 * or by the ordinal of the wait.
 */
module Scheduler {
  import opened Wrappers
  import opened SqlAst
  import opened Discovery
  import opened Predicates
  import opened Snapshots

  /**
   * The collaborators, as data recorded for one run:
   *  - marks[(pid, name)]: the answer of the probe `SELECT COALESCE(max(rowtime), 0)`
   *    on table `name` run with that pid; no entry when it returned no row;
   *  - rows[pid]: how many rows the statement run with that pid returned (none: zero);
   *  - cancelledWaits: the waits (numbered from 0) at which cancellation wins the race.
   */
  datatype Engine = Engine(marks: map<(nat, string), int>, rows: map<nat, nat>, cancelledWaits: set<nat>)
  {
    function MaxRowtime(pid: nat, name: string): Option<int> {
      if (pid, name) in marks then Some(marks[(pid, name)]) else None
    }

    function RowCount(pid: nat): nat {
      if pid in rows then rows[pid] else 0
    }

    predicate Cancelled(k: nat) {
      k in cancelledWaits
    }
  }

  /** Why a statement was issued: the bootstrap query, or round `round`'s delta query for `table`. */
  datatype Purpose = Bootstrap | Delta(round: nat, table: Alias)

  /** One statement handed to the engine, with its pid and the number of rows emitted. */
  datatype Executed = Executed(pid: nat, stmt: SelectStatement, rows: nat, purpose: Purpose)

  datatype StreamError = NilDereference | DiscoveryFailed(e: DiscoveryError)

  /** Every table of the snapshot is one of the discovered tables. */
  predicate Covers(tables: seq<Alias>, snapshot: Snapshot) {
    forall t :: t in snapshot ==> t in tables
  }

  // ---------------------------------------------------------------------
  // Copying the user's WHERE clause

  /**
   * The copy of the original WHERE clause as written: it stores through a
   * pointer that is still nil, so any SELECT that has a WHERE clause panics.
   */
  function OrigWhereAsWritten(stmt: SelectStatement): (r: Result<Option<Expr>, StreamError>)
    requires stmt.Select?
    ensures stmt.where.None? ==> r == Success(None)
    ensures stmt.where.Some? ==> r == Failure(NilDereference)
  {
    if stmt.where.Some? then Failure(NilDereference) else Success(None)
  }

  /** The intended copy: the original predicate, kept aside untouched. */
  function OrigWhere(stmt: SelectStatement): (r: Option<Expr>)
    requires stmt.Select?
    ensures forall row :: EvalWhere(r, row) <==> EvalWhere(stmt.where, row)
  {
    stmt.where
  }

  /** The discrepancy: every SELECT with a WHERE clause dies where the intended copy keeps it. */
  lemma OrigWhereDiscrepancy(from: seq<TableExpr>, where: Expr)
    ensures OrigWhereAsWritten(Select(from, Some(where))).Failure?
    ensures OrigWhere(Select(from, Some(where))) == Some(where)
  {
  }

  // ---------------------------------------------------------------------
  // Specification functions

  /**
   * The order in which the bound builder visits a snapshot: the discovered
   * tables that the snapshot holds, in discovery order.
   */
  function Enumerate(tables: seq<Alias>, snapshot: Snapshot): (r: seq<Alias>)
    ensures forall t :: t in r <==> t in tables && t in snapshot
    ensures NoDuplicates(tables) ==> NoDuplicates(r)
    decreases |tables|
  {
    if tables == [] then []
    else
      var rest := Enumerate(tables[1..], snapshot);
      assert forall k :: 0 <= k < |tables[1..]| ==> tables[1..][k] == tables[k + 1];
      if tables[0] in snapshot then [tables[0]] + rest else rest
  }

  lemma EnumerationOfCovered(tables: seq<Alias>, snapshot: Snapshot)
    requires NoDuplicates(tables) && Covers(tables, snapshot)
    ensures IsEnumeration(Enumerate(tables, snapshot), snapshot)
  {
  }

  /** A probe's answer for table `t` agrees with the snapshot: present with that value, or absent when there was no row. */
  predicate ProbeAgrees(answer: Option<int>, t: Alias, snapshot: Snapshot) {
    if answer.Some? then t in snapshot && snapshot[t] == answer.value else t !in snapshot
  }

  /**
   * `snapshot` is what `queryMaxRowTimes` returns when its probes run with
   * pids `base + 1`, `base + 2`, ...: it holds only discovered tables, and
   * each table exactly as its own probe answered.
   */
  predicate ProbedBy(engine: Engine, tables: seq<Alias>, base: nat, snapshot: Snapshot) {
    && Covers(tables, snapshot)
    && forall i :: 0 <= i < |tables| ==> ProbeAgrees(engine.MaxRowtime(base + i + 1, tables[i].name), tables[i], snapshot)
  }

  /** One more probe: the snapshot grows by the next table's answer, if any. */
  lemma ProbedByStep(engine: Engine, tables: seq<Alias>, base: nat, i: nat, snapshot: Snapshot)
    requires NoDuplicates(tables) && i < |tables|
    requires ProbedBy(engine, tables[..i], base, snapshot)
    ensures var answer := engine.MaxRowtime(base + i + 1, tables[i].name);
      ProbedBy(engine, tables[..i + 1], base, if answer.Some? then snapshot[tables[i] := answer.value] else snapshot)
  {
    var answer := engine.MaxRowtime(base + i + 1, tables[i].name);
    var next := if answer.Some? then snapshot[tables[i] := answer.value] else snapshot;
    var probed := tables[..i + 1];
    assert tables[i] !in tables[..i];
    forall j | 0 <= j < |probed|
      ensures ProbeAgrees(engine.MaxRowtime(base + j + 1, probed[j].name), probed[j], next)
    {
      if j < i {
        assert probed[j] == tables[..i][j] != tables[i];
      }
    }
  }

  /**
   * The waits numbered `waits0` to `waits0 + waited - 1`: none but possibly
   * the last observed cancellation, and `cancelled` says whether the last did.
   */
  predicate WaitsSoFar(engine: Engine, waits0: nat, waited: nat, cancelled: bool) {
    && (forall k :: waits0 <= k < waits0 + waited - 1 ==> !engine.Cancelled(k))
    && (cancelled <==> waited > 0 && engine.Cancelled(waits0 + waited - 1))
  }

  /** One more wait after an uncancelled run of waits. */
  lemma WaitStep(engine: Engine, waits0: nat, waited: nat)
    requires WaitsSoFar(engine, waits0, waited, false)
    ensures WaitsSoFar(engine, waits0, waited + 1, engine.Cancelled(waits0 + waited))
  {
  }

  /** How many of the statements returned no row. */
  function ZeroRows(qs: seq<Executed>): nat
    decreases |qs|
  {
    if qs == [] then 0
    else ZeroRows(qs[..|qs| - 1]) + (if qs[|qs| - 1].rows == 0 then 1 else 0)
  }

  lemma ZeroRowsAppend(qs: seq<Executed>, q: Executed)
    ensures ZeroRows(qs + [q]) == ZeroRows(qs) + (if q.rows == 0 then 1 else 0)
  {
    assert (qs + [q])[..|qs|] == qs;
  }

  /**
   * The log of a round whose marks moved: the earlier log, then one delta
   * query per table in discovery order (fewer only if the process exited).
   */
  predicate DeltaRoundLog(tables: seq<Alias>, round: nat, before: seq<Executed>, after: seq<Executed>) {
    && |before| <= |after|
    && after[..|before|] == before
    && RoundPurposes(tables, round, after[|before|..])
  }

  /** The statements of a round: one delta query per table, in discovery order, up to some table. */
  predicate RoundPurposes(tables: seq<Alias>, round: nat, issued: seq<Executed>) {
    && |issued| <= |tables|
    && forall j :: 0 <= j < |issued| ==> issued[j].purpose == Delta(round, tables[j])
  }

  /**
   * The statements were executed under consecutive pids after `pid0`, and
   * each returned the engine's row count for its pid.  Defined one
   * statement at a time, from the end.
   */
  predicate Answered(engine: Engine, pid0: nat, qs: seq<Executed>)
    decreases |qs|
  {
    |qs| > 0 ==>
      && Answered(engine, pid0, qs[..|qs| - 1])
      && qs[|qs| - 1].pid == pid0 + |qs|
      && qs[|qs| - 1].rows == engine.RowCount(pid0 + |qs|)
  }

  /** Statement j of such a run has pid `pid0 + j + 1` and the engine's row count for it. */
  lemma {:induction false} AnsweredAt(engine: Engine, pid0: nat, qs: seq<Executed>, j: nat)
    requires Answered(engine, pid0, qs) && j < |qs|
    ensures qs[j].pid == pid0 + j + 1 && qs[j].rows == engine.RowCount(pid0 + j + 1)
    decreases |qs|
  {
    if j < |qs| - 1 {
      AnsweredAt(engine, pid0, qs[..|qs| - 1], j);
    }
  }

  /**
   * A round part-way: its delta queries so far, one per table in discovery
   * order, and a wait after each that returned nothing, numbered on from
   * `waits0`; if one observed cancellation, it followed the last query.
   */
  predicate RoundSoFar(engine: Engine, tables: seq<Alias>, round: nat, issued: seq<Executed>, pid0: nat,
                       waits0: nat, waited: nat, cancelled: bool) {
    && RoundPurposes(tables, round, issued)
    && Answered(engine, pid0, issued)
    && waited == ZeroRows(issued)
    && WaitsSoFar(engine, waits0, waited, cancelled)
    && (cancelled ==> |issued| > 0 && issued[|issued| - 1].rows == 0)
  }

  /** The next table's delta query, and the wait after it if it returned nothing. */
  lemma RoundStep(engine: Engine, tables: seq<Alias>, round: nat, issued: seq<Executed>, q: Executed,
                  pid0: nat, waits0: nat, waited: nat)
    requires RoundSoFar(engine, tables, round, issued, pid0, waits0, waited, false)
    requires |issued| < |tables| && q.purpose == Delta(round, tables[|issued|])
    requires q.pid == pid0 + |issued| + 1 && q.rows == engine.RowCount(q.pid)
    ensures RoundSoFar(engine, tables, round, issued + [q], pid0, waits0,
                       waited + (if q.rows == 0 then 1 else 0), q.rows == 0 && engine.Cancelled(waits0 + waited))
  {
    ZeroRowsAppend(issued, q);
    assert (issued + [q])[..|issued|] == issued;
    if q.rows == 0 {
      WaitStep(engine, waits0, waited);
    }
  }

  /**
   * The waits of such a round, numbered on from `waits0`: one per delta
   * query that returned no row; the first wait that observes cancellation
   * is the last thing the process does (it follows the last query issued,
   * which returned no row), and without one every table was queried.
   */
  predicate DeltaRoundWaits(engine: Engine, tables: seq<Alias>, before: seq<Executed>, after: seq<Executed>,
                            waits0: nat, waits: nat, exited: bool)
    requires |before| <= |after|
  {
    && waits == waits0 + ZeroRows(after[|before|..])
    && WaitsSoFar(engine, waits0, waits - waits0, exited)
    && (!exited ==> |after| == |before| + |tables|)
    && (exited ==> |after| > |before| && after[|after| - 1].rows == 0)
  }

  /**
   * A round that reached the last table, or whose last wait observed
   * cancellation, is a complete round: its log and its waits.
   */
  lemma RoundEnds(engine: Engine, tables: seq<Alias>, round: nat, before: seq<Executed>, issued: seq<Executed>,
                  pid0: nat, waits0: nat, waited: nat, cancelled: bool)
    requires RoundSoFar(engine, tables, round, issued, pid0, waits0, waited, cancelled)
    requires cancelled || |issued| == |tables|
    ensures DeltaRoundLog(tables, round, before, before + issued)
    ensures Answered(engine, pid0, (before + issued)[|before|..])
    ensures DeltaRoundWaits(engine, tables, before, before + issued, waits0, waits0 + waited, cancelled)
  {
    assert (before + issued)[..|before|] == before && (before + issued)[|before|..] == issued;
  }

  /** Table `t`'s mark in each snapshot, oldest first. */
  function Marks(history: seq<Snapshot>, t: Alias): seq<int> {
    seq(|history|, i requires 0 <= i < |history| => Lookup(history[i], t))
  }

  /** The rows the bootstrap query may admit: those within the first marks that the user's WHERE admits. */
  predicate BootstrapWindow(orig: Option<Expr>, first: Snapshot, row: Row) {
    WithinAll(row, first) && EvalWhere(orig, row)
  }

  /**
   * The rows a delta query for table `t` may admit: `t`'s rowtime above its
   * mark in the previous snapshot, every table within the current marks, and
   * the user's WHERE.
   */
  predicate DeltaWindow(orig: Option<Expr>, previous: Snapshot, current: Snapshot, t: Alias, row: Row) {
    && Lookup(previous, t) < RowtimeOf(row, Qualifier(t))
    && WithinAll(row, current)
    && EvalWhere(orig, row)
  }

  /**
   * A logged statement admits exactly the rows of its window: the bootstrap
   * query those of the first snapshot, round i's delta query for a table
   * those between the table's marks in snapshots i-1 and i.
   */
  ghost predicate Logged(orig: Option<Expr>, history: seq<Snapshot>, q: Executed) {
    && q.stmt.Select?
    && match q.purpose
       case Bootstrap =>
         && 1 <= |history|
         && forall row :: EvalWhere(q.stmt.where, row) <==> BootstrapWindow(orig, history[0], row)
       case Delta(round, t) =>
         && 1 <= round < |history|
         && forall row :: EvalWhere(q.stmt.where, row) <==> DeltaWindow(orig, history[round - 1], history[round], t, row)
  }

  /**
   * Round r's delta query for `t` is logged: the round's starting WHERE admits
   * the rows within the current marks, and lower-bounding `t` by its previous
   * mark narrows that to the table's delta window.
   */
  lemma DeltaLogged(orig: Option<Expr>, history: seq<Snapshot>, startingWhere: Option<Expr>, t: Alias, q: Executed)
    requires |history| >= 2
    requires forall row :: EvalWhere(startingWhere, row) <==> BootstrapWindow(orig, history[|history| - 1], row)
    requires q.stmt.Select? && q.purpose == Delta(|history| - 1, t)
    requires q.stmt.where == SetRowtimeGreaterThan(startingWhere, t, Lookup(history[|history| - 2], t))
    ensures Logged(orig, history, q)
  {
    forall row
      ensures EvalWhere(q.stmt.where, row) <==> DeltaWindow(orig, history[|history| - 2], history[|history| - 1], t, row)
    {
      GreaterThanHolds(startingWhere, t, Lookup(history[|history| - 2], t), row);
    }
  }

  /** Appending a snapshot to the history keeps every logged statement's window. */
  lemma LoggedExtends(orig: Option<Expr>, history: seq<Snapshot>, snapshot: Snapshot, q: Executed)
    requires Logged(orig, history, q)
    ensures Logged(orig, history + [snapshot], q)
  {
    var extended := history + [snapshot];
    assert forall i :: 0 <= i < |history| ==> extended[i] == history[i];
  }

  /** Every statement of a log is logged against `history`; defined one statement at a time, from the end. */
  ghost predicate AllLogged(orig: Option<Expr>, history: seq<Snapshot>, executed: seq<Executed>)
    decreases |executed|
  {
    |executed| > 0 ==>
      AllLogged(orig, history, executed[..|executed| - 1]) && Logged(orig, history, executed[|executed| - 1])
  }

  /** Each statement of such a log is logged. */
  lemma {:induction false} AllLoggedAt(orig: Option<Expr>, history: seq<Snapshot>, executed: seq<Executed>, k: nat)
    requires AllLogged(orig, history, executed) && k < |executed|
    ensures Logged(orig, history, executed[k])
    decreases |executed|
  {
    if k < |executed| - 1 {
      AllLoggedAt(orig, history, executed[..|executed| - 1], k);
    }
  }

  /** Appending a snapshot to the history keeps the whole log logged. */
  lemma {:induction false} AllLoggedExtends(orig: Option<Expr>, history: seq<Snapshot>, snapshot: Snapshot, executed: seq<Executed>)
    requires AllLogged(orig, history, executed)
    ensures AllLogged(orig, history + [snapshot], executed)
    decreases |executed|
  {
    if |executed| > 0 {
      AllLoggedExtends(orig, history, snapshot, executed[..|executed| - 1]);
      LoggedExtends(orig, history, snapshot, executed[|executed| - 1]);
    }
  }

  /** The log's pids strictly increase, and all lie below `bound`.  Defined one statement at a time, from the end. */
  ghost predicate PidsAscend(executed: seq<Executed>, bound: nat)
    decreases |executed|
  {
    |executed| > 0 ==>
      executed[|executed| - 1].pid < bound && PidsAscend(executed[..|executed| - 1], executed[|executed| - 1].pid)
  }

  /** In such a log, an earlier statement has a smaller pid than a later one, and every pid is below the bound. */
  lemma {:induction false} PidsAscendAt(executed: seq<Executed>, bound: nat, i: nat, j: nat)
    requires PidsAscend(executed, bound) && i < j < |executed|
    ensures executed[i].pid < executed[j].pid < bound
    decreases |executed|
  {
    var init := executed[..|executed| - 1];
    var last := executed[|executed| - 1];
    if j < |executed| - 1 {
      PidsAscendAt(init, last.pid, i, j);
      PidsBelowLast(init, last.pid, j);
    } else {
      PidsBelowLast(init, last.pid, i);
    }
  }

  /** In such a log, every pid lies below the bound. */
  lemma {:induction false} PidsBelowLast(executed: seq<Executed>, bound: nat, i: nat)
    requires PidsAscend(executed, bound) && i < |executed|
    ensures executed[i].pid < bound
    decreases |executed|
  {
    if i < |executed| - 1 {
      PidsBelowLast(executed[..|executed| - 1], executed[|executed| - 1].pid, i);
    }
  }

  /** A larger bound keeps the pids below it. */
  lemma PidsAscendRaise(executed: seq<Executed>, bound: nat, bound': nat)
    requires PidsAscend(executed, bound) && bound <= bound'
    ensures PidsAscend(executed, bound')
  {
  }

  /** Every statement of the log was issued for a slot below `bound`. */
  ghost predicate SlotsBelow(executed: seq<Executed>, bound: nat)
    decreases |executed|
  {
    |executed| > 0 ==>
      SlotsBelow(executed[..|executed| - 1], bound) && Slot(executed[|executed| - 1].purpose) < bound
  }

  /** A logged statement's slot lies in the history it was logged against. */
  lemma {:induction false} LoggedBelow(orig: Option<Expr>, history: seq<Snapshot>, executed: seq<Executed>)
    requires AllLogged(orig, history, executed)
    ensures SlotsBelow(executed, |history|)
    decreases |executed|
  {
    if |executed| > 0 {
      LoggedBelow(orig, history, executed[..|executed| - 1]);
    }
  }

  /** Below a bound, every purpose of the log is too. */
  lemma {:induction false} PurposesBelow(executed: seq<Executed>, bound: nat, p: Purpose)
    requires SlotsBelow(executed, bound) && p in Purposes(executed)
    ensures Slot(p) < bound
    decreases |executed|
  {
    if p != executed[|executed| - 1].purpose {
      PurposesBelow(executed[..|executed| - 1], bound, p);
    }
  }

  /** The purposes the statements of a log were issued for. */
  ghost function Purposes(executed: seq<Executed>): set<Purpose>
    decreases |executed|
  {
    if |executed| == 0 then {} else Purposes(executed[..|executed| - 1]) + {executed[|executed| - 1].purpose}
  }

  /** No purpose is issued twice: each statement's purpose is new to the log before it. */
  ghost predicate UniquePurposes(executed: seq<Executed>)
    decreases |executed|
  {
    |executed| > 0 ==>
      && UniquePurposes(executed[..|executed| - 1])
      && executed[|executed| - 1].purpose !in Purposes(executed[..|executed| - 1])
  }

  /** Logging one more logged statement, for a purpose not issued yet, keeps the log logged and its purposes unique. */
  lemma LogAppend(orig: Option<Expr>, history: seq<Snapshot>, executed: seq<Executed>, q: Executed)
    requires AllLogged(orig, history, executed) && UniquePurposes(executed)
    requires Logged(orig, history, q) && q.purpose !in Purposes(executed)
    requires PidsAscend(executed, q.pid)
    ensures AllLogged(orig, history, executed + [q]) && UniquePurposes(executed + [q])
    ensures PidsAscend(executed + [q], q.pid + 1)
    ensures Purposes(executed + [q]) == Purposes(executed) + {q.purpose}
  {
    assert (executed + [q])[..|executed|] == executed;
  }

  /** A log of one logged statement is logged, its purpose is unique, and its pid is below the next. */
  lemma OnlyStatement(orig: Option<Expr>, history: seq<Snapshot>, q: Executed)
    requires Logged(orig, history, q)
    ensures AllLogged(orig, history, [q]) && UniquePurposes([q]) && PidsAscend([q], q.pid + 1)
  {
    assert [q][..0] == [];
  }

  /** The purposes of two logs, one after the other, are those of each. */
  lemma {:induction false} PurposesConcat(before: seq<Executed>, issued: seq<Executed>)
    ensures Purposes(before + issued) == Purposes(before) + Purposes(issued)
    decreases |issued|
  {
    if |issued| == 0 {
      assert before + issued == before;
    } else {
      var n := |issued| - 1;
      assert (before + issued)[..|before| + n] == before + issued[..n];
      PurposesConcat(before, issued[..n]);
    }
  }

  /** A purpose of the log is that of one of its statements. */
  lemma {:induction false} PurposeFound(executed: seq<Executed>, p: Purpose) returns (k: nat)
    requires p in Purposes(executed)
    ensures k < |executed| && executed[k].purpose == p
    decreases |executed|
  {
    var n := |executed| - 1;
    if executed[n].purpose == p {
      k := n;
    } else {
      k := PurposeFound(executed[..n], p);
    }
  }

  /** Every statement's purpose is a purpose of the log. */
  lemma {:induction false} PurposeListed(executed: seq<Executed>, k: nat)
    requires k < |executed|
    ensures executed[k].purpose in Purposes(executed)
    decreases |executed|
  {
    var n := |executed| - 1;
    if k < n {
      PurposeListed(executed[..n], k);
    }
  }

  /** With unique purposes, two statements issued for the same purpose are the same statement. */
  lemma {:induction false} SamePurposeSameStatement(executed: seq<Executed>, k: nat, l: nat)
    requires UniquePurposes(executed) && k < |executed| && l < |executed|
    requires executed[k].purpose == executed[l].purpose
    ensures k == l
    decreases |executed|
  {
    var n := |executed| - 1;
    if k < n && l < n {
      SamePurposeSameStatement(executed[..n], k, l);
    } else if k < n {
      PurposeListed(executed[..n], k);
    } else if l < n {
      PurposeListed(executed[..n], l);
    }
  }

  /**
   * Within a round, the delta query for the next table is new: earlier
   * statements belong to earlier slots, and the round's own are for the
   * tables before it, all distinct from it.
   */
  lemma FreshDelta(tables: seq<Alias>, round: nat, before: seq<Executed>, issued: seq<Executed>)
    requires NoDuplicates(tables) && |issued| < |tables| && RoundPurposes(tables, round, issued)
    requires SlotsBelow(before, round)
    ensures Delta(round, tables[|issued|]) !in Purposes(before + issued)
  {
    PurposesConcat(before, issued);
    if Delta(round, tables[|issued|]) in Purposes(before) {
      PurposesBelow(before, round, Delta(round, tables[|issued|]));
    }
    if Delta(round, tables[|issued|]) in Purposes(issued) {
      var k := PurposeFound(issued, Delta(round, tables[|issued|]));
    }
  }

  /** After a full round of delta queries, every table has its query of that round, and nothing earlier is lost. */
  lemma RoundCovers(tables: seq<Alias>, round: nat, before: seq<Executed>, after: seq<Executed>)
    requires DeltaRoundLog(tables, round, before, after)
    ensures Purposes(before) <= Purposes(after)
    ensures |after| == |before| + |tables| ==> RoundIssued(tables, round, after)
  {
    var issued := after[|before|..];
    assert after == before + issued;
    PurposesConcat(before, issued);
    if |after| == |before| + |tables| {
      forall t | t in tables ensures Delta(round, t) in Purposes(after) {
        var j :| 0 <= j < |tables| && tables[j] == t;
        PurposeListed(issued, j);
      }
    }
  }

  /** Round `round` has issued a delta query for every table. */
  ghost predicate RoundIssued(tables: seq<Alias>, round: nat, executed: seq<Executed>) {
    forall t :: t in tables ==> Delta(round, t) in Purposes(executed)
  }

  /**
   * Every round of the history whose marks moved has issued a delta query
   * for every table: the state between two rounds.  Defined one round at a
   * time, from the latest.
   */
  ghost predicate Settled(history: seq<Snapshot>, tables: seq<Alias>, executed: seq<Executed>)
    decreases |history|
  {
    |history| >= 2 ==>
      && Settled(history[..|history| - 1], tables, executed)
      && (!SameMarks(history[|history| - 2], history[|history| - 1]) ==> RoundIssued(tables, |history| - 1, executed))
  }

  /** In a settled history, a round whose marks moved has a delta query for each table. */
  lemma {:induction false} SettledAt(history: seq<Snapshot>, tables: seq<Alias>, executed: seq<Executed>, r: nat, t: Alias)
    requires Settled(history, tables, executed)
    requires 1 <= r < |history| && t in tables && !SameMarks(history[r - 1], history[r])
    ensures Delta(r, t) in Purposes(executed)
    decreases |history|
  {
    if r < |history| - 1 {
      var init := history[..|history| - 1];
      assert init[r - 1] == history[r - 1] && init[r] == history[r];
      SettledAt(init, tables, executed, r, t);
    }
  }

  /** A longer log keeps a history settled. */
  lemma {:induction false} SettledGrows(history: seq<Snapshot>, tables: seq<Alias>, before: seq<Executed>, after: seq<Executed>)
    requires Settled(history, tables, before) && Purposes(before) <= Purposes(after)
    ensures Settled(history, tables, after)
    decreases |history|
  {
    if |history| >= 2 {
      SettledGrows(history[..|history| - 1], tables, before, after);
    }
  }

  /** A finished round, moved or not, keeps the history settled. */
  lemma SettledStep(history: seq<Snapshot>, snapshot: Snapshot, tables: seq<Alias>,
                    before: seq<Executed>, after: seq<Executed>)
    requires |history| >= 1 && Settled(history, tables, before)
    requires Purposes(before) <= Purposes(after)
    requires !SameMarks(history[|history| - 1], snapshot) ==> RoundIssued(tables, |history|, after)
    ensures Settled(history + [snapshot], tables, after)
  {
    SettledGrows(history, tables, before, after);
    assert (history + [snapshot])[..|history|] == history;
  }

  /**
   * A round that did not end the process keeps the history settled: with
   * equal marks it issued nothing, and with moved marks it issued a delta
   * query for every table.
   */
  lemma RoundSettles(engine: Engine, history: seq<Snapshot>, snapshot: Snapshot, tables: seq<Alias>,
                     before: seq<Executed>, after: seq<Executed>, waits0: nat, waits: nat, exited: bool)
    requires |history| >= 1 && Settled(history, tables, before) && !exited
    requires SameMarks(history[|history| - 1], snapshot) ==> after == before
    requires !SameMarks(history[|history| - 1], snapshot) ==>
      && DeltaRoundLog(tables, |history|, before, after)
      && DeltaRoundWaits(engine, tables, before, after, waits0, waits, exited)
    ensures Settled(history + [snapshot], tables, after)
  {
    if !SameMarks(history[|history| - 1], snapshot) {
      RoundCovers(tables, |history|, before, after);
    }
    SettledStep(history, snapshot, tables, before, after);
  }

  // ---------------------------------------------------------------------
  // The scheduler's state

  class Streamer {
    /** The discovered tables, deduplicated, in discovery order. */
    const tables: seq<Alias>
    /** The FROM list of the streamed SELECT. */
    const from: seq<TableExpr>
    /** The user's WHERE clause, kept aside; every rewrite starts from it. */
    const origWhere: Option<Expr>

    /** The statement whose WHERE clause each query overwrites. */
    var stmt: SelectStatement
    var maxRowtimes: Snapshot
    var prevMaxRowtimes: Snapshot
    /** The last execution id handed out. */
    var pid: nat
    /** How many waits have completed or been cut short. */
    var waits: nat
    /** Set when a wait observed cancellation and the process exited. */
    var exited: bool

    /** Every snapshot `maxRowtimes` has held, oldest first. */
    ghost var history: seq<Snapshot>
    /** Every statement executed, in order. */
    ghost var executed: seq<Executed>

    ghost predicate Valid()
      reads this`stmt, this`maxRowtimes, this`history, this`executed, this`pid
    {
      && stmt.Select? && stmt.from == from
      && NoDuplicates(tables)
      && |history| >= 1
      && history[|history| - 1] == maxRowtimes
      && (forall k :: 0 <= k < |executed| ==> executed[k].stmt.Select? && executed[k].stmt.from == from)
      && AllLogged(origWhere, history, executed)
      && PidsAscend(executed, pid + 1)
      && UniquePurposes(executed)
      && |executed| >= 1 && executed[0].purpose == Bootstrap
    }

    /**
     * The SELECT branch up to the first round: keep the WHERE clause aside,
     * probe the marks, run the bootstrap query bounded by them, and wait once
     * if it returned nothing.
     */
    constructor Start(select: SelectStatement, discovered: seq<Alias>, engine: Engine)
      requires select.Select? && NoDuplicates(discovered)
      ensures Valid()
      ensures tables == discovered && from == select.from && origWhere == OrigWhere(select)
      ensures history == [maxRowtimes] && ProbedBy(engine, discovered, 0, maxRowtimes)
      ensures pid == |discovered| + 1
      ensures executed == [Executed(pid, stmt, engine.RowCount(pid), Bootstrap)]
      ensures waits == (if executed[0].rows == 0 then 1 else 0)
      ensures exited == (executed[0].rows == 0 && engine.Cancelled(0))
      ensures Settled(history, tables, executed)
    {
      tables := discovered;
      from := select.from;
      origWhere := OrigWhere(select);
      stmt := select;
      pid := 0;
      waits := 0;
      exited := false;
      maxRowtimes := map[];
      prevMaxRowtimes := map[];
      history := [];
      executed := [];
      new;
      var marks := QueryMaxRowTimes(engine);
      maxRowtimes := marks;
      history := [marks];
      var count := BootstrapQuery(engine);
      if count == 0 {
        Wait(engine);
      }
    }

    /** The bootstrap query: everything up to the first marks. */
    method BootstrapQuery(engine: Engine) returns (count: nat)
      requires NoDuplicates(tables) && history == [maxRowtimes] && Covers(tables, maxRowtimes)
      requires stmt.Select? && stmt.from == from && executed == []
      modifies this`stmt, this`pid, this`executed
      ensures Valid()
      ensures pid == old(pid) + 1
      ensures count == engine.RowCount(pid)
      ensures executed == [Executed(pid, stmt, count, Bootstrap)]
    {
      var where := RoundStart();
      stmt := Select(from, where);
      count := DoQuery(engine, Bootstrap);
      OnlyStatement(origWhere, history, executed[0]);
    }

    /** `queryMaxRowTimes`: one probe per table, each with a fresh pid; a table whose probe returns no row is left out. */
    method QueryMaxRowTimes(engine: Engine) returns (marks: Snapshot)
      requires NoDuplicates(tables)
      modifies this`pid
      ensures pid == old(pid) + |tables|
      ensures ProbedBy(engine, tables, old(pid), marks)
    {
      marks := map[];
      var next := pid;
      for i := 0 to |tables|
        invariant next == old(pid) + i
        invariant ProbedBy(engine, tables[..i], old(pid), marks)
      {
        next := next + 1;
        var mark := engine.MaxRowtime(next, tables[i].name);
        ProbedByStep(engine, tables, old(pid), i, marks);
        if mark.Some? {
          marks := marks[tables[i] := mark.value];
        }
      }
      pid := next;
      assert tables[..|tables|] == tables;
    }

    /** `doQuery`: execute the current statement with a fresh pid and count the rows it emits. */
    method DoQuery(engine: Engine, ghost purpose: Purpose) returns (count: nat)
      modifies this`pid, this`executed
      ensures pid == old(pid) + 1
      ensures count == engine.RowCount(pid)
      ensures executed == old(executed) + [Executed(pid, stmt, count, purpose)]
    {
      pid := pid + 1;
      count := engine.RowCount(pid);
      executed := executed + [Executed(pid, stmt, count, purpose)];
    }

    /** One wait on the timer, raced against cancellation. */
    method Wait(engine: Engine)
      requires !exited
      modifies this`waits, this`exited
      ensures waits == old(waits) + 1
      ensures exited == engine.Cancelled(old(waits))
    {
      if engine.Cancelled(waits) {
        exited := true;
      }
      waits := waits + 1;
    }

    /**
     * One delta query of a round: lower-bound `table` by its previous mark in
     * front of the round's starting WHERE, and execute it.
     */
    method DeltaQuery(engine: Engine, table: Alias, startingWhere: Option<Expr>) returns (count: nat)
      requires Valid() && table in tables && |history| >= 2
      requires prevMaxRowtimes == history[|history| - 2]
      requires forall row :: EvalWhere(startingWhere, row) <==> BootstrapWindow(origWhere, maxRowtimes, row)
      requires Delta(|history| - 1, table) !in Purposes(executed)
      modifies this`stmt, this`pid, this`executed
      ensures Valid()
      ensures stmt == Select(from, SetRowtimeGreaterThan(startingWhere, table, Lookup(prevMaxRowtimes, table)))
      ensures pid == old(pid) + 1
      ensures count == engine.RowCount(pid)
      ensures executed == old(executed) + [Executed(pid, stmt, count, Delta(|history| - 1, table))]
    {
      var where := SetRowtimeGreaterThan(startingWhere, table, Lookup(prevMaxRowtimes, table));
      stmt := Select(from, where);
      ghost var q := Executed(pid + 1, stmt, engine.RowCount(pid + 1), Delta(|history| - 1, table));
      DeltaLogged(origWhere, history, startingWhere, table, q);
      LogAppend(origWhere, history, executed, q);
      count := DoQuery(engine, Delta(|history| - 1, table));
    }

    /**
     * The delta queries of a round whose marks moved: one per table, in
     * discovery order, waiting once after each that returns nothing; a wait
     * that observes cancellation ends the process.  The round's waits are
     * numbered on from `waits`; `waited` counts them.
     */
    method DeltaQueries(engine: Engine, startingWhere: Option<Expr>) returns (waited: nat, cancelled: bool)
      requires Valid() && |history| >= 2
      requires prevMaxRowtimes == history[|history| - 2]
      requires forall row :: EvalWhere(startingWhere, row) <==> BootstrapWindow(origWhere, maxRowtimes, row)
      requires SlotsBelow(executed, |history| - 1)
      modifies this`stmt, this`pid, this`executed
      ensures Valid()
      ensures DeltaRoundLog(tables, |history| - 1, old(executed), executed)
      ensures DeltaRoundWaits(engine, tables, old(executed), executed, waits, waits + waited, cancelled)
      ensures Answered(engine, old(pid), executed[|old(executed)|..]) && pid == old(pid) + |executed| - |old(executed)|
    {
      ghost var executed0, pid0 := executed, pid;
      ghost var issued: seq<Executed> := [];
      waited, cancelled := 0, false;
      var i := 0;
      while i < |tables| && !cancelled
        invariant 0 <= i <= |tables|
        invariant Valid()
        invariant executed == executed0 + issued && |issued| == i
        invariant pid == pid0 + i
        invariant RoundSoFar(engine, tables, |history| - 1, issued, pid0, waits, waited, cancelled)
      {
        ghost var q;
        q, waited, cancelled := NextTable(engine, startingWhere, i, executed0, issued, pid0, waited);
        issued := issued + [q];
        i := i + 1;
      }
      RoundEnds(engine, tables, |history| - 1, executed0, issued, pid0, waits, waited, cancelled);
    }

    /**
     * One pass of the loop over the tables, with the round's bookkeeping:
     * the next table's query is new to the log, and the round so far grows
     * by it and by its wait.
     */
    method NextTable(engine: Engine, startingWhere: Option<Expr>, i: nat, ghost executed0: seq<Executed>,
                     ghost issued: seq<Executed>, ghost pid0: nat, waited: nat)
      returns (ghost q: Executed, waited': nat, cancelled: bool)
      requires Valid() && |history| >= 2
      requires prevMaxRowtimes == history[|history| - 2]
      requires forall row :: EvalWhere(startingWhere, row) <==> BootstrapWindow(origWhere, maxRowtimes, row)
      requires SlotsBelow(executed0, |history| - 1)
      requires executed == executed0 + issued && i == |issued| < |tables|
      requires pid == pid0 + |issued|
      requires RoundSoFar(engine, tables, |history| - 1, issued, pid0, waits, waited, false)
      modifies this`stmt, this`pid, this`executed
      ensures Valid()
      ensures executed == executed0 + (issued + [q])
      ensures pid == pid0 + |issued| + 1
      ensures RoundSoFar(engine, tables, |history| - 1, issued + [q], pid0, waits, waited', cancelled)
    {
      ghost var round := |history| - 1;
      FreshDelta(tables, round, executed0, issued);
      q, waited', cancelled := DeltaStep(engine, startingWhere, i, waited);
      RoundStep(engine, tables, round, issued, q, pid0, waits, waited);
      assert executed0 + issued + [q] == executed0 + (issued + [q]);
    }

    /**
     * One pass of the loop over the tables: the next table's delta query,
     * and a wait if it returned nothing; the waits are numbered on from
     * `waits`, `waited` of them already done this round.
     */
    method DeltaStep(engine: Engine, startingWhere: Option<Expr>, i: nat, waited: nat)
      returns (ghost q: Executed, waited': nat, cancelled: bool)
      requires Valid() && |history| >= 2 && i < |tables|
      requires prevMaxRowtimes == history[|history| - 2]
      requires forall row :: EvalWhere(startingWhere, row) <==> BootstrapWindow(origWhere, maxRowtimes, row)
      requires Delta(|history| - 1, tables[i]) !in Purposes(executed)
      modifies this`stmt, this`pid, this`executed
      ensures Valid()
      ensures executed == old(executed) + [q] && q.purpose == Delta(|history| - 1, tables[i])
      ensures pid == old(pid) + 1 && q.pid == pid && q.rows == engine.RowCount(pid)
      ensures waited' == waited + (if q.rows == 0 then 1 else 0)
      ensures cancelled == (q.rows == 0 && engine.Cancelled(waits + waited))
    {
      var count := DeltaQuery(engine, tables[i], startingWhere);
      q := Executed(pid, stmt, count, Delta(|history| - 1, tables[i]));
      waited', cancelled := waited, false;
      if count == 0 {
        cancelled := engine.Cancelled(waits + waited);
        waited' := waited + 1;
      }
    }

    /** The round's starting WHERE: every table bounded by its current mark, then the user's WHERE. */
    method RoundStart() returns (startingWhere: Option<Expr>)
      requires NoDuplicates(tables) && Covers(tables, maxRowtimes)
      ensures forall row :: EvalWhere(startingWhere, row) <==> BootstrapWindow(origWhere, maxRowtimes, row)
    {
      EnumerationOfCovered(tables, maxRowtimes);
      startingWhere := SetRowtimesLessEqualThan(origWhere, maxRowtimes, Enumerate(tables, maxRowtimes));
    }

    /** The head of a round: keep the marks as the previous ones, probe afresh, and compare. */
    method Reprobe(engine: Engine) returns (equal: bool)
      requires Valid()
      modifies this`prevMaxRowtimes, this`maxRowtimes, this`history, this`pid
      ensures Valid()
      ensures prevMaxRowtimes == old(maxRowtimes)
      ensures pid == old(pid) + |tables| && ProbedBy(engine, tables, old(pid), maxRowtimes)
      ensures history == old(history) + [maxRowtimes]
      ensures equal <==> SameMarks(prevMaxRowtimes, maxRowtimes)
      ensures SlotsBelow(executed, |history| - 1)
    {
      prevMaxRowtimes := maxRowtimes;
      var marks := QueryMaxRowTimes(engine);
      PidsAscendRaise(executed, old(pid) + 1, pid + 1);
      AllLoggedExtends(origWhere, history, marks, executed);
      LoggedBelow(origWhere, history, executed);
      maxRowtimes := marks;
      history := history + [marks];
      equal := MaxRowtimesEqual(prevMaxRowtimes, maxRowtimes);
    }

    /** The rest of a round whose marks moved: its starting WHERE, then its delta queries and their waits. */
    method MovedRound(engine: Engine)
      requires Valid() && !exited && |history| >= 2
      requires prevMaxRowtimes == history[|history| - 2] && Covers(tables, maxRowtimes)
      requires SlotsBelow(executed, |history| - 1)
      modifies this`stmt, this`pid, this`executed, this`waits, this`exited
      ensures Valid()
      ensures DeltaRoundLog(tables, |history| - 1, old(executed), executed)
      ensures DeltaRoundWaits(engine, tables, old(executed), executed, old(waits), waits, exited)
      ensures Answered(engine, old(pid), executed[|old(executed)|..]) && pid == old(pid) + |executed| - |old(executed)|
    {
      var startingWhere := RoundStart();
      var waited, cancelled := DeltaQueries(engine, startingWhere);
      waits, exited := waits + waited, cancelled;
    }

    /**
     * A round after its probe: wait once when no mark moved, else run the
     * round's delta queries; and the round keeps the history settled.
     */
    method AfterProbe(engine: Engine, equal: bool)
      requires Valid() && !exited && |history| >= 2
      requires prevMaxRowtimes == history[|history| - 2] && Covers(tables, maxRowtimes)
      requires SlotsBelow(executed, |history| - 1)
      requires equal <==> SameMarks(prevMaxRowtimes, maxRowtimes)
      modifies this`stmt, this`pid, this`executed, this`waits, this`exited
      ensures Valid()
      ensures equal ==>
        && executed == old(executed) && pid == old(pid)
        && waits == old(waits) + 1 && exited == engine.Cancelled(old(waits))
      ensures !equal ==>
        && DeltaRoundLog(tables, |history| - 1, old(executed), executed)
        && DeltaRoundWaits(engine, tables, old(executed), executed, old(waits), waits, exited)
        && Answered(engine, old(pid), executed[|old(executed)|..])
        && pid == old(pid) + |executed| - |old(executed)|
      ensures old(Settled(history[..|history| - 1], tables, executed)) && !exited ==> Settled(history, tables, executed)
    {
      ghost var executed0, waits0, pid0 := executed, waits, pid;
      if equal {
        Wait(engine);
      } else {
        MovedRound(engine);
        assert Answered(engine, pid0, executed[|executed0|..]);
      }
      ghost var settled := history[..|history| - 1];
      if Settled(settled, tables, executed0) && !exited {
        RoundSettles(engine, settled, maxRowtimes, tables, executed0, executed, waits0, waits, exited);
        assert settled + [maxRowtimes] == history;
      }
    }

    /**
     * One pass of the endless loop: re-probe, and either wait (nothing
     * moved) or run the round's delta queries.  The loop itself is calling
     * `Round` again for as long as the process has not exited; between
     * rounds every snapshot of the history is settled.
     */
    method Round(engine: Engine)
      requires Valid() && !exited
      modifies this
      ensures Valid()
      ensures prevMaxRowtimes == old(maxRowtimes)
      ensures ProbedBy(engine, tables, old(pid), maxRowtimes)
      ensures history == old(history) + [maxRowtimes]
      ensures SameMarks(prevMaxRowtimes, maxRowtimes) ==>
        && executed == old(executed) && pid == old(pid) + |tables|
        && waits == old(waits) + 1 && exited == engine.Cancelled(old(waits))
      ensures !SameMarks(prevMaxRowtimes, maxRowtimes) ==>
        && DeltaRoundLog(tables, |history| - 1, old(executed), executed)
        && DeltaRoundWaits(engine, tables, old(executed), executed, old(waits), waits, exited)
        && Answered(engine, old(pid) + |tables|, executed[|old(executed)|..])
        && pid == old(pid) + |tables| + |executed| - |old(executed)|
      ensures old(Settled(history, tables, executed)) && !exited ==> Settled(history, tables, executed)
    {
      ghost var history0, executed0 := history, executed;
      var equal := Reprobe(engine);
      assert history[..|history| - 1] == history0;
      ghost var probed := pid;
      AfterProbe(engine, equal);
      assert !equal ==> Answered(engine, probed, executed[|executed0|..]);
    }
  }

  // ---------------------------------------------------------------------
  // The SELECT branch of the command

  datatype Started = OneShot(rows: nat) | Streaming(streamer: Streamer)

  /**
   * A plain SELECT enters the streaming loop once its tables are known; any
   * other statement kind is executed once (pid 1) and that is all.
   */
  method Start(stmt: SelectStatement, engine: Engine) returns (r: Result<Started, StreamError>)
    ensures !stmt.Select? ==> r == Success(OneShot(engine.RowCount(1)))
    ensures stmt.Select? && SelectTables(stmt).Failure? ==> r == Failure(DiscoveryFailed(SelectTables(stmt).error))
    ensures stmt.Select? && SelectTables(stmt).Success? ==>
      && r.Success? && r.value.Streaming?
      && fresh(r.value.streamer) && r.value.streamer.Valid()
      && r.value.streamer.tables == SelectTables(stmt).value
      && r.value.streamer.origWhere == stmt.where
  {
    if !stmt.Select? {
      return Success(OneShot(engine.RowCount(1)));
    }
    var found := CollectSelectTables(stmt);
    if found.Failure? {
      return Failure(DiscoveryFailed(found.error));
    }
    SelectTablesCorrect(stmt);
    var s := new Streamer.Start(stmt, found.value, engine);
    return Success(Streaming(s));
  }

  // ---------------------------------------------------------------------
  // What the rewritten queries admit

  /** The slot of the history a statement reads table `t` from: 0 for the bootstrap, the round for t's delta. */
  function Slot(p: Purpose): nat {
    if p.Bootstrap? then 0 else p.round
  }

  /** Whether the statement reads table `t` in its own slot: the bootstrap does for every table, a delta query for its own. */
  predicate ReadsSlot(p: Purpose, t: Alias) {
    p.Bootstrap? || p.table == t
  }

  /**
   * A logged statement that reads table `t` in its own slot admits only rows
   * whose rowtime for `t` falls in that slot, provided every snapshot has a
   * mark for `t`.
   */
  lemma LoggedInSlot(orig: Option<Expr>, history: seq<Snapshot>, q: Executed, t: Alias, row: Row)
    requires Logged(orig, history, q) && ReadsSlot(q.purpose, t) && EvalWhere(q.stmt.where, row)
    requires forall i :: 0 <= i < |history| ==> t in history[i]
    ensures Slot(q.purpose) < |history|
    ensures InSlot(Marks(history, t), Slot(q.purpose), RowtimeOf(row, Qualifier(t)))
  {
    assert t in history[Slot(q.purpose)];
  }

  /**
   * While a table's marks never decrease and every probe saw it, no row is
   * admitted twice on account of that table: two statements that read `t`
   * in their own slots and admit the same row are one and the same
   * statement.  In particular the bootstrap and a delta query for t never
   * share a row, and neither do t's delta queries of two different rounds.
   */
  lemma NoRowTwice(s: Streamer, t: Alias, row: Row, k: nat, l: nat)
    requires s.Valid()
    requires forall i :: 0 <= i < |s.history| ==> t in s.history[i]
    requires NonDecreasing(Marks(s.history, t))
    requires k < |s.executed| && l < |s.executed|
    requires ReadsSlot(s.executed[k].purpose, t) && ReadsSlot(s.executed[l].purpose, t)
    requires EvalWhere(s.executed[k].stmt.where, row) && EvalWhere(s.executed[l].stmt.where, row)
    ensures k == l
  {
    var marks := Marks(s.history, t);
    var x := RowtimeOf(row, Qualifier(t));
    SlotsTile(marks, x);
    AllLoggedAt(s.origWhere, s.history, s.executed, k);
    AllLoggedAt(s.origWhere, s.history, s.executed, l);
    LoggedInSlot(s.origWhere, s.history, s.executed[k], t, row);
    LoggedInSlot(s.origWhere, s.history, s.executed[l], t, row);
    SamePurposeSameStatement(s.executed, k, l);
  }

  /**
   * Nor is a row missed on account of that table, between two rounds:
   * whatever its rowtime for `t` up to t's current mark, one statement read
   * `t` in the slot that rowtime falls in, and that statement admits the row
   * exactly when the user's WHERE does and the row is within every mark of
   * that slot's snapshot.
   */
  lemma NoGap(s: Streamer, t: Alias, row: Row)
    requires s.Valid() && Settled(s.history, s.tables, s.executed)
    requires forall i :: 0 <= i < |s.history| ==> t in s.history[i]
    requires NonDecreasing(Marks(s.history, t))
    requires t in s.tables
    requires RowtimeOf(row, Qualifier(t)) <= s.history[|s.history| - 1][t]
    ensures exists k :: (
      && 0 <= k < |s.executed|
      && ReadsSlot(s.executed[k].purpose, t)
      && Slot(s.executed[k].purpose) < |s.history|
      && InSlot(Marks(s.history, t), Slot(s.executed[k].purpose), RowtimeOf(row, Qualifier(t)))
      && (EvalWhere(s.executed[k].stmt.where, row) <==>
            WithinAll(row, s.history[Slot(s.executed[k].purpose)]) && EvalWhere(s.origWhere, row)))
  {
    var marks := Marks(s.history, t);
    var x := RowtimeOf(row, Qualifier(t));
    SlotsTile(marks, x);
    var i :| 0 <= i < |marks| && InSlot(marks, i, x);
    var k: nat := 0;
    if i > 0 {
      assert s.history[i - 1][t] < x <= s.history[i][t];
      assert !SameMarks(s.history[i - 1], s.history[i]);
      SettledAt(s.history, s.tables, s.executed, i, t);
      k := PurposeFound(s.executed, Delta(i, t));
    }
    AllLoggedAt(s.origWhere, s.history, s.executed, k);
  }
}
