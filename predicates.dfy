/**
 * Predicate injection: the two WHERE-clause rewrites of the streaming loop.
 * `SetRowtimesLessEqualThan` bounds every table by its high-water mark and
 * keeps the user's own predicate as the last conjunct;
 * `SetRowtimeGreaterThan` puts a strict lower bound for one table in front.
 * Neither touches the WHERE clause it is given: each builds a new tree.
 */
module Predicates {
  import opened Wrappers
  import opened SqlAst

  /** `q.rowtime`, qualified by the alias when there is one, else by the table name. */
  function RowtimeColumn(t: Alias): ColName {
    ColName(Qualifier(t), "rowtime")
  }

  function UpperBound(t: Alias, rowtime: int): Expr {
    Comparison(LessEqual, RowtimeColumn(t), rowtime)
  }

  function LowerBound(t: Alias, rowtime: int): Expr {
    Comparison(GreaterThan, RowtimeColumn(t), rowtime)
  }

  /**
   * `order` lists the snapshot's tables once each: the order in which the
   * loop over the snapshot visits them.  (Go visits a map in an unspecified
   * order; the model takes the order as a parameter.)
   */
  predicate IsEnumeration(order: seq<Alias>, snapshot: map<Alias, int>) {
    && NoDuplicates(order)
    && (forall t :: t in order ==> t in snapshot)
    && (forall t :: t in snapshot ==> t in order)
  }

  /** Every table's rowtime is at most its high-water mark. */
  predicate WithinAll(row: Row, snapshot: map<Alias, int>) {
    forall t :: t in snapshot ==> RowtimeOf(row, Qualifier(t)) <= snapshot[t]
  }

  // ---------------------------------------------------------------------
  // setRowtimeGreaterThan

  /** `setRowtimeGreaterThan`: `q.rowtime > rowtime`, in front of the given WHERE. */
  function SetRowtimeGreaterThan(where: Option<Expr>, table: Alias, rowtime: int): (r: Option<Expr>)
    ensures r.Some?
    ensures where.None? ==> r.value == LowerBound(table, rowtime)
    ensures where.Some? ==> r.value.And? && r.value.left == LowerBound(table, rowtime) && r.value.right == where.value
  {
    var expr := LowerBound(table, rowtime);
    if where.None? then Some(expr) else Some(And(expr, where.value))
  }

  /** The lower-bounded WHERE admits a row iff its rowtime is above the bound and the input WHERE admits it. */
  lemma GreaterThanHolds(where: Option<Expr>, table: Alias, rowtime: int, row: Row)
    ensures EvalWhere(SetRowtimeGreaterThan(where, table, rowtime), row) <==>
      RowtimeOf(row, Qualifier(table)) > rowtime && EvalWhere(where, row)
  {
    var lower := LowerBound(table, rowtime);
    assert Eval(lower, row) <==> RowtimeOf(row, Qualifier(table)) > rowtime;
    if where.Some? {
      assert Eval(And(lower, where.value), row) <==> Eval(lower, row) && Eval(where.value, row);
    }
  }

  // ---------------------------------------------------------------------
  // setRowtimesLessEqualThan, as functions

  /** The comparisons `q.rowtime <= snapshot[q]`, one per table, in `order`. */
  function UpperBounds(order: seq<Alias>, snapshot: map<Alias, int>): (cs: seq<Expr>)
    requires forall t :: t in order ==> t in snapshot
    ensures |cs| == |order|
    decreases |order|
  {
    if order == [] then []
    else
      var t := order[|order| - 1];
      UpperBounds(order[..|order| - 1], snapshot) + [UpperBound(t, snapshot[t])]
  }

  /** `cs[0] AND cs[1] AND ...`, folded from the left. */
  function AndChain(cs: seq<Expr>): Expr
    requires |cs| > 0
    decreases |cs|
  {
    if |cs| == 1 then cs[0] else And(AndChain(cs[..|cs| - 1]), cs[|cs| - 1])
  }

  function BoundAll(where: Option<Expr>, snapshot: map<Alias, int>, order: seq<Alias>): Option<Expr>
    requires IsEnumeration(order, snapshot)
  {
    if |snapshot| == 0 then where
    else
      assert order != [] by {
        var t :| t in snapshot;
      }
      var chain := AndChain(UpperBounds(order, snapshot));
      if where.None? then Some(chain) else Some(And(chain, where.value))
  }

  /** The left spine of a conjunction: what `AndChain` folded together. */
  function LeftConjuncts(e: Expr): (cs: seq<Expr>)
    ensures |cs| > 0
  {
    if e.And? then LeftConjuncts(e.left) + [e.right] else [e]
  }

  // ---------------------------------------------------------------------
  // Properties of the bound

  /** Unfolding the left fold gives back the list it folded. */
  lemma {:induction false} AndChainConjuncts(cs: seq<Expr>)
    requires |cs| > 0
    requires forall i :: 0 <= i < |cs| ==> !cs[i].And?
    ensures LeftConjuncts(AndChain(cs)) == cs
    decreases |cs|
  {
    if |cs| > 1 {
      AndChainConjuncts(cs[..|cs| - 1]);
      assert cs == cs[..|cs| - 1] + [cs[|cs| - 1]];
    }
  }

  predicate AllHold(cs: seq<Expr>, row: Row) {
    forall i :: 0 <= i < |cs| ==> Eval(cs[i], row)
  }

  /** A left fold with AND holds exactly when each folded comparison holds. */
  lemma {:induction false} AndChainHolds(cs: seq<Expr>, row: Row)
    requires |cs| > 0
    ensures Eval(AndChain(cs), row) <==> AllHold(cs, row)
    decreases |cs|
  {
    if |cs| > 1 {
      var init := cs[..|cs| - 1];
      AndChainHolds(init, row);
      assert forall i :: 0 <= i < |init| ==> init[i] == cs[i];
    }
  }

  lemma {:induction false} UpperBoundsAt(order: seq<Alias>, snapshot: map<Alias, int>, i: nat)
    requires forall t :: t in order ==> t in snapshot
    requires i < |order|
    ensures UpperBounds(order, snapshot)[i] == UpperBound(order[i], snapshot[order[i]])
    decreases |order|
  {
    if i < |order| - 1 {
      UpperBoundsAt(order[..|order| - 1], snapshot, i);
    }
  }

  /**
   * The rewritten WHERE admits a row exactly when every table's rowtime is
   * within its high-water mark and the original WHERE admits it.
   */
  lemma BoundAllHolds(where: Option<Expr>, snapshot: map<Alias, int>, order: seq<Alias>, row: Row)
    requires IsEnumeration(order, snapshot)
    ensures EvalWhere(BoundAll(where, snapshot, order), row) <==> WithinAll(row, snapshot) && EvalWhere(where, row)
  {
    if |snapshot| != 0 {
      assert order != [] by {
        var t :| t in snapshot;
      }
      var cs := UpperBounds(order, snapshot);
      AndChainHolds(cs, row);
      if AllHold(cs, row) {
        AllBoundsWithin(order, snapshot, row);
      }
      if WithinAll(row, snapshot) {
        WithinAllBounds(order, snapshot, row);
      }
    }
  }

  lemma UpperBoundHoldsAt(order: seq<Alias>, snapshot: map<Alias, int>, row: Row, i: nat)
    requires forall t :: t in order ==> t in snapshot
    requires i < |order|
    ensures Eval(UpperBounds(order, snapshot)[i], row) <==> RowtimeOf(row, Qualifier(order[i])) <= snapshot[order[i]]
  {
    UpperBoundsAt(order, snapshot, i);
  }

  /** If every comparison holds, every listed table is within its mark. */
  lemma AllBoundsWithin(order: seq<Alias>, snapshot: map<Alias, int>, row: Row)
    requires IsEnumeration(order, snapshot)
    requires AllHold(UpperBounds(order, snapshot), row)
    ensures WithinAll(row, snapshot)
  {
    forall t | t in snapshot ensures RowtimeOf(row, Qualifier(t)) <= snapshot[t] {
      var i :| 0 <= i < |order| && order[i] == t;
      UpperBoundHoldsAt(order, snapshot, row, i);
    }
  }

  /** If every table is within its mark, every comparison holds. */
  lemma WithinAllBounds(order: seq<Alias>, snapshot: map<Alias, int>, row: Row)
    requires IsEnumeration(order, snapshot)
    requires WithinAll(row, snapshot)
    ensures AllHold(UpperBounds(order, snapshot), row)
  {
    var cs := UpperBounds(order, snapshot);
    forall i | 0 <= i < |cs| ensures Eval(cs[i], row) {
      UpperBoundHoldsAt(order, snapshot, row, i);
    }
  }

  /**
   * The shape of the rewritten WHERE: with an empty snapshot it is the input
   * unchanged; otherwise its left spine is the bounds in `order`, followed by
   * the original expression as the rightmost operand.
   */
  lemma BoundAllShape(where: Option<Expr>, snapshot: map<Alias, int>, order: seq<Alias>)
    requires IsEnumeration(order, snapshot)
    ensures |snapshot| == 0 ==> BoundAll(where, snapshot, order) == where
    ensures |snapshot| != 0 && where.None? ==>
      LeftConjuncts(BoundAll(where, snapshot, order).value) == UpperBounds(order, snapshot)
    ensures |snapshot| != 0 && where.Some? ==>
      && BoundAll(where, snapshot, order).value.And?
      && BoundAll(where, snapshot, order).value.right == where.value
      && LeftConjuncts(BoundAll(where, snapshot, order).value.left) == UpperBounds(order, snapshot)
  {
    if |snapshot| != 0 {
      assert order != [] by {
        var t :| t in snapshot;
      }
      var cs := UpperBounds(order, snapshot);
      forall i | 0 <= i < |cs| ensures !cs[i].And? {
        UpperBoundsAt(order, snapshot, i);
      }
      AndChainConjuncts(cs);
    }
  }

  /**
   * A delta query's WHERE: the advancing table strictly above its previous
   * mark, every table at most its current mark, and the original predicate.
   */
  lemma DeltaWindowHolds(where: Option<Expr>, snapshot: map<Alias, int>, order: seq<Alias>,
                         table: Alias, previous: int, row: Row)
    requires IsEnumeration(order, snapshot)
    ensures EvalWhere(SetRowtimeGreaterThan(BoundAll(where, snapshot, order), table, previous), row) <==>
      && previous < RowtimeOf(row, Qualifier(table))
      && WithinAll(row, snapshot)
      && EvalWhere(where, row)
  {
    BoundAllHolds(where, snapshot, order, row);
    GreaterThanHolds(BoundAll(where, snapshot, order), table, previous, row);
  }

  // ---------------------------------------------------------------------
  // setRowtimesLessEqualThan, as the source runs it

  /** `setRowtimesLessEqualThan`: collect the comparisons, then fold them with AND. */
  method SetRowtimesLessEqualThan(where: Option<Expr>, maxRowtimes: map<Alias, int>, order: seq<Alias>)
    returns (r: Option<Expr>)
    requires IsEnumeration(order, maxRowtimes)
    ensures r == BoundAll(where, maxRowtimes, order)
    ensures forall row :: EvalWhere(r, row) <==> WithinAll(row, maxRowtimes) && EvalWhere(where, row)
  {
    if |maxRowtimes| == 0 {
      r := where;
    } else {
      assert order != [] by {
        var t :| t in maxRowtimes;
      }
      var comps := CollectUpperBounds(maxRowtimes, order);
      var expr := FoldAnd(comps);
      r := if where.None? then Some(expr) else Some(And(expr, where.value));
    }
    forall row ensures EvalWhere(r, row) <==> WithinAll(row, maxRowtimes) && EvalWhere(where, row) {
      BoundAllHolds(where, maxRowtimes, order, row);
    }
  }

  /** The first loop of `setRowtimesLessEqualThan`: one comparison per table. */
  method CollectUpperBounds(maxRowtimes: map<Alias, int>, order: seq<Alias>) returns (comps: seq<Expr>)
    requires forall t :: t in order ==> t in maxRowtimes
    ensures comps == UpperBounds(order, maxRowtimes)
  {
    comps := [];
    for i := 0 to |order|
      invariant comps == UpperBounds(order[..i], maxRowtimes)
    {
      assert order[..i + 1][..i] == order[..i];
      comps := comps + [UpperBound(order[i], maxRowtimes[order[i]])];
    }
    assert order[..|order|] == order;
  }

  /** The second loop of `setRowtimesLessEqualThan`: AND the comparisons together from the left. */
  method FoldAnd(comps: seq<Expr>) returns (expr: Expr)
    requires |comps| > 0
    ensures expr == AndChain(comps)
  {
    expr := comps[0];
    for i := 1 to |comps|
      invariant expr == AndChain(comps[..i])
    {
      assert comps[..i + 1][..i] == comps[..i];
      expr := And(expr, comps[i]);
    }
    assert comps[..|comps|] == comps;
  }
}
