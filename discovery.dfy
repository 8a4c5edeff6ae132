/**
 * Base-table discovery: which `(name, alias)` references a SELECT reads from.
 * The walk follows UNION branches, parenthesised SELECTs, the FROM list,
 * aliased subqueries, parenthesised FROM items and both sides of a JOIN;
 * every other FROM item is skipped, and any other statement kind is fatal.
 * The result is deduplicated and never mentions the no-op table `dual`.
 */
module Discovery {
  import opened Wrappers
  import opened SqlAst

  /** The panic raised for a statement kind the walk does not know. */
  datatype DiscoveryError = UnexpectedSelect

  // ---------------------------------------------------------------------
  // Deduplication

  /**
   * The deduplicated references, in order of first occurrence.  (The source
   * collects them into a hash map and returns the map's keys, in Go's
   * unspecified iteration order; the model fixes that order.)
   */
  function Deduped(ss: seq<Alias>): seq<Alias>
    decreases |ss|
  {
    if ss == [] then []
    else
      var prefix := Deduped(ss[..|ss| - 1]);
      var s := ss[|ss| - 1];
      if s.name == "dual" || s in prefix then prefix else prefix + [s]
  }

  /** `Deduped` keeps every non-`dual` reference exactly once and adds nothing. */
  lemma {:induction false} DedupedSpec(ss: seq<Alias>)
    ensures forall a :: a in Deduped(ss) <==> a in ss && a.name != "dual"
    ensures NoDuplicates(Deduped(ss))
    decreases |ss|
  {
    if ss != [] {
      var init := ss[..|ss| - 1];
      DedupedSpec(init);
      assert ss == init + [ss[|ss| - 1]];
    }
  }

  /** Deduplicating a longer list never reorders what the shorter one gave. */
  lemma {:induction false} DedupedExtends(a: seq<Alias>, b: seq<Alias>)
    ensures |Deduped(a)| <= |Deduped(a + b)|
    ensures Deduped(a + b)[..|Deduped(a)|] == Deduped(a)
    decreases |b|
  {
    if b == [] {
      assert a + b == a;
    } else {
      var b' := b[..|b| - 1];
      DedupedExtends(a, b');
      assert (a + b)[..|a + b| - 1] == a + b';
    }
  }

  /** A list that is already duplicate-free and `dual`-free is its own deduplication. */
  lemma {:induction false} DedupedFixpoint(ss: seq<Alias>)
    requires NoDuplicates(ss)
    requires forall a :: a in ss ==> a.name != "dual"
    ensures Deduped(ss) == ss
    decreases |ss|
  {
    if ss != [] {
      var init := ss[..|ss| - 1];
      DedupedFixpoint(init);
      assert forall k :: 0 <= k < |init| ==> init[k] == ss[k] && ss[k] != ss[|ss| - 1];
      assert ss == init + [ss[|ss| - 1]];
    }
  }

  /** `dedupAliases`: one pass that records each reference the first time it is seen. */
  method DedupAliases(ss: seq<Alias>) returns (deduped: seq<Alias>)
    ensures deduped == Deduped(ss)
    ensures forall a :: a in deduped <==> a in ss && a.name != "dual"
    ensures NoDuplicates(deduped)
  {
    var seen: set<Alias> := {};
    deduped := [];
    for i := 0 to |ss|
      invariant deduped == Deduped(ss[..i])
      invariant seen == set a | a in deduped
    {
      var s := ss[i];
      assert ss[..i + 1][..i] == ss[..i];
      if s.name == "dual" {
        continue;
      }
      if s !in seen {
        seen := seen + {s};
        deduped := deduped + [s];
      }
    }
    assert ss[..|ss|] == ss;
    DedupedSpec(ss);
  }

  // ---------------------------------------------------------------------
  // The walk, as functions

  /** `parseSelectTableNames` */
  function SelectTables(s: SelectStatement): Result<seq<Alias>, DiscoveryError>
    decreases s
  {
    match s
    case Union(l, r) =>
      var left :- SelectTables(l);
      var right :- SelectTables(r);
      Success(Deduped(left + right))
    case ParenSelect(inner) =>
      var tables :- SelectTables(inner);
      Success(Deduped(tables))
    case Select(from, _) =>
      var tables :- ExprsTables(from);
      Success(Deduped(tables))
    case OtherSelect =>
      Failure(UnexpectedSelect)
  }

  /** `parseTableExprsNames`: the items' tables, in list order, not deduplicated. */
  function ExprsTables(ts: seq<TableExpr>): Result<seq<Alias>, DiscoveryError>
    decreases ts
  {
    if ts == [] then Success([])
    else
      var first :- ItemTables(ts[0]);
      var rest :- ExprsTables(ts[1..]);
      Success(first + rest)
  }

  /** What one FROM item contributes. */
  function ItemTables(t: TableExpr): Result<seq<Alias>, DiscoveryError>
    decreases t
  {
    match t
    case AliasedTable(name, asName) => Success([Alias(name, asName)])
    case AliasedSubquery(select, _) => SelectTables(select)
    case AliasedOther(_) => Success([])
    case ParenTable(exprs) => ExprsTables(exprs)
    case Join(l, r) =>
      var left :- ItemTables(l);
      var right :- ItemTables(r);
      Success(left + right)
    case OtherTableExpr => Success([])
  }

  // ---------------------------------------------------------------------
  // Reference definitions: which statements the walk accepts, and the set of
  // base-table references a statement mentions.

  predicate SelectSupported(s: SelectStatement)
    decreases s
  {
    match s
    case Union(l, r) => SelectSupported(l) && SelectSupported(r)
    case ParenSelect(inner) => SelectSupported(inner)
    case Select(from, _) => ExprsSupported(from)
    case OtherSelect => false
  }

  predicate ExprsSupported(ts: seq<TableExpr>)
    decreases ts
  {
    forall i :: 0 <= i < |ts| ==> ItemSupported(ts[i])
  }

  predicate ItemSupported(t: TableExpr)
    decreases t
  {
    match t
    case AliasedSubquery(select, _) => SelectSupported(select)
    case ParenTable(exprs) => ExprsSupported(exprs)
    case Join(l, r) => ItemSupported(l) && ItemSupported(r)
    case _ => true
  }

  function SelectRefs(s: SelectStatement): set<Alias>
    decreases s
  {
    match s
    case Union(l, r) => SelectRefs(l) + SelectRefs(r)
    case ParenSelect(inner) => SelectRefs(inner)
    case Select(from, _) => ExprsRefs(from)
    case OtherSelect => {}
  }

  function ExprsRefs(ts: seq<TableExpr>): set<Alias>
    decreases ts
  {
    set i, a | 0 <= i < |ts| && a in ItemRefs(ts[i]) :: a
  }

  function ItemRefs(t: TableExpr): set<Alias>
    decreases t
  {
    match t
    case AliasedTable(name, asName) => {Alias(name, asName)}
    case AliasedSubquery(select, _) => SelectRefs(select)
    case ParenTable(exprs) => ExprsRefs(exprs)
    case Join(l, r) => ItemRefs(l) + ItemRefs(r)
    case _ => {}
  }

  // ---------------------------------------------------------------------
  // The walk against the reference definitions

  /**
   * Discovery succeeds exactly on supported statements, and then returns
   * every base-table reference of the statement except `dual`, once each.
   */
  lemma {:induction false} SelectTablesCorrect(s: SelectStatement)
    ensures SelectTables(s).Success? <==> SelectSupported(s)
    ensures SelectTables(s).Success? ==>
      && NoDuplicates(SelectTables(s).value)
      && forall a :: a in SelectTables(s).value <==> a in SelectRefs(s) && a.name != "dual"
    decreases s
  {
    match s
    case Union(l, r) =>
      SelectTablesCorrect(l);
      SelectTablesCorrect(r);
      if SelectTables(s).Success? {
        DedupedSpec(SelectTables(l).value + SelectTables(r).value);
      }
    case ParenSelect(inner) =>
      SelectTablesCorrect(inner);
      if SelectTables(s).Success? {
        DedupedSpec(SelectTables(inner).value);
      }
    case Select(from, _) =>
      ExprsTablesCorrect(from);
      if SelectTables(s).Success? {
        DedupedSpec(ExprsTables(from).value);
      }
    case OtherSelect =>
  }

  /** The FROM list contributes the references of its items (duplicates kept). */
  lemma {:induction false} ExprsTablesCorrect(ts: seq<TableExpr>)
    ensures ExprsTables(ts).Success? <==> ExprsSupported(ts)
    ensures ExprsTables(ts).Success? ==>
      forall a: Alias :: a.name != "dual" ==> (a in ExprsTables(ts).value <==> a in ExprsRefs(ts))
    decreases ts
  {
    if ts != [] {
      ItemTablesCorrect(ts[0]);
      ExprsTablesCorrect(ts[1..]);
      assert ExprsSupported(ts) <==> ItemSupported(ts[0]) && ExprsSupported(ts[1..]) by {
        if ItemSupported(ts[0]) && ExprsSupported(ts[1..]) {
          forall i | 0 <= i < |ts| ensures ItemSupported(ts[i]) {
            if i > 0 {
              assert ts[i] == ts[1..][i - 1];
            }
          }
        }
        if ExprsSupported(ts) {
          forall i | 0 <= i < |ts[1..]| ensures ItemSupported(ts[1..][i]) {
            assert ts[1..][i] == ts[i + 1];
          }
        }
      }
      assert ExprsRefs(ts) == ItemRefs(ts[0]) + ExprsRefs(ts[1..]) by {
        forall a | a in ExprsRefs(ts) ensures a in ItemRefs(ts[0]) + ExprsRefs(ts[1..]) {
          var i :| 0 <= i < |ts| && a in ItemRefs(ts[i]);
          if i > 0 {
            assert ts[i] == ts[1..][i - 1];
          }
        }
        forall a | a in ExprsRefs(ts[1..]) ensures a in ExprsRefs(ts) {
          var i :| 0 <= i < |ts[1..]| && a in ItemRefs(ts[1..][i]);
          assert ts[1..][i] == ts[i + 1];
        }
      }
    }
  }

  lemma {:induction false} ItemTablesCorrect(t: TableExpr)
    ensures ItemTables(t).Success? <==> ItemSupported(t)
    ensures ItemTables(t).Success? ==>
      forall a: Alias :: a.name != "dual" ==> (a in ItemTables(t).value <==> a in ItemRefs(t))
    decreases t
  {
    match t
    case AliasedSubquery(select, _) =>
      SelectTablesCorrect(select);
    case ParenTable(exprs) =>
      ExprsTablesCorrect(exprs);
    case Join(l, r) =>
      ItemTablesCorrect(l);
      ItemTablesCorrect(r);
    case _ =>
  }

  /** A UNION lists its left branch's tables first, in the left branch's order. */
  lemma UnionLeftFirst(l: SelectStatement, r: SelectStatement)
    requires SelectTables(Union(l, r)).Success?
    ensures |SelectTables(l).value| <= |SelectTables(Union(l, r)).value|
    ensures SelectTables(Union(l, r)).value[..|SelectTables(l).value|] == SelectTables(l).value
  {
    var left := SelectTables(l).value;
    SelectTablesCorrect(l);
    DedupedFixpoint(left);
    DedupedExtends(left, SelectTables(r).value);
  }

  /** Parentheses around a SELECT do not change what it reads from. */
  lemma ParenSelectTransparent(inner: SelectStatement)
    ensures SelectTables(ParenSelect(inner)) == SelectTables(inner)
  {
    SelectTablesCorrect(inner);
    if SelectTables(inner).Success? {
      DedupedFixpoint(SelectTables(inner).value);
    }
  }

  // ---------------------------------------------------------------------
  // The walk as the source runs it: loops that append.

  /** `parseSelectTableNames` */
  method CollectSelectTables(s: SelectStatement) returns (r: Result<seq<Alias>, DiscoveryError>)
    ensures r == SelectTables(s)
    decreases s
  {
    var tables: seq<Alias> := [];
    match s {
      case Union(left, right) =>
        var l := CollectSelectTables(left);
        if l.Failure? {
          return Failure(l.error);
        }
        tables := tables + l.value;
        assert tables == l.value;
        var rr := CollectSelectTables(right);
        if rr.Failure? {
          return Failure(rr.error);
        }
        tables := tables + rr.value;
      case ParenSelect(inner) =>
        var i := CollectSelectTables(inner);
        if i.Failure? {
          return Failure(i.error);
        }
        tables := tables + i.value;
        assert tables == i.value;
      case Select(from, _) =>
        var f := CollectTableExprs(from);
        if f.Failure? {
          return Failure(f.error);
        }
        tables := tables + f.value;
        assert tables == f.value;
      case OtherSelect =>
        return Failure(UnexpectedSelect);
    }
    var deduped := DedupAliases(tables);
    return Success(deduped);
  }

  /** `parseTableExprsNames` */
  method CollectTableExprs(tt: seq<TableExpr>) returns (r: Result<seq<Alias>, DiscoveryError>)
    ensures r == ExprsTables(tt)
    decreases tt, 1
  {
    var tables: seq<Alias> := [];
    for k := 0 to |tt|
      invariant ExprsTables(tt[..k]) == Success(tables)
    {
      var item := CollectItem(tt[k]);
      ExprsTablesSplit(tt[..k + 1], k);
      assert tt[..k + 1][..k] == tt[..k];
      assert tt[..k + 1][k..] == [tt[k]];
      ExprsTablesSingleton(tt[k]);
      if item.Failure? {
        ExprsTablesSplit(tt, k);
        ExprsTablesSplit(tt[k..], 1);
        assert tt[k..][..1] == [tt[k]];
        return Failure(item.error);
      }
      tables := tables + item.value;
    }
    assert tt[..|tt|] == tt;
    return Success(tables);
  }

  /** One iteration of the loop in `parseTableExprsNames`. */
  method CollectItem(t: TableExpr) returns (r: Result<seq<Alias>, DiscoveryError>)
    ensures r == ItemTables(t)
    decreases t
  {
    match t {
      case AliasedTable(name, asName) =>
        return Success([Alias(name, asName)]);
      case AliasedSubquery(select, _) =>
        r := CollectSelectTables(select);
      case AliasedOther(_) =>
        return Success([]);
      case ParenTable(exprs) =>
        r := CollectTableExprs(exprs);
      case Join(left, right) =>
        var l := CollectItem(left);
        if l.Failure? {
          return Failure(l.error);
        }
        var rr := CollectItem(right);
        if rr.Failure? {
          return Failure(rr.error);
        }
        return Success(l.value + rr.value);
      case OtherTableExpr =>
        return Success([]);
    }
  }

  lemma ExprsTablesSingleton(t: TableExpr)
    ensures ExprsTables([t]) == ItemTables(t)
  {
    assert [t][1..] == [];
    if ItemTables(t).Success? {
      assert ItemTables(t).value + [] == ItemTables(t).value;
    }
  }

  /** Joins two walk results the way the source's appends do: the first panic wins. */
  function Concat(a: Result<seq<Alias>, DiscoveryError>, b: Result<seq<Alias>, DiscoveryError>): Result<seq<Alias>, DiscoveryError> {
    if a.Failure? then a else if b.Failure? then b else Success(a.value + b.value)
  }

  /** Walking a FROM list in two pieces gives the same as walking it whole. */
  lemma {:induction false} ExprsTablesSplit(ts: seq<TableExpr>, k: nat)
    requires k <= |ts|
    ensures ExprsTables(ts) == Concat(ExprsTables(ts[..k]), ExprsTables(ts[k..]))
    decreases k
  {
    if k == 0 {
      assert ts[..0] == [] && ts[0..] == ts;
      if ExprsTables(ts).Success? {
        assert [] + ExprsTables(ts).value == ExprsTables(ts).value;
      }
    } else {
      ExprsTablesSplit(ts[1..], k - 1);
      assert ts[1..][..k - 1] == ts[..k][1..];
      assert ts[1..][k - 1..] == ts[k..];
      assert ts[..k][0] == ts[0];
      var a, b, c := ItemTables(ts[0]), ExprsTables(ts[..k][1..]), ExprsTables(ts[k..]);
      assert ExprsTables(ts) == Concat(a, Concat(b, c));
      assert ExprsTables(ts[..k]) == Concat(a, b);
      if a.Success? && b.Success? && c.Success? {
        assert a.value + (b.value + c.value) == (a.value + b.value) + c.value;
      }
    }
  }
}
