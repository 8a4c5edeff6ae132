/**
 * The part of the SQL syntax tree the streaming loop inspects and rewrites:
 * SELECT-family statements, FROM-clause items, and WHERE expressions built
 * from comparisons on qualified columns and AND.  Everything the loop does
 * not look inside (a user's own predicate, an unrecognised FROM item) is an
 * opaque leaf.
 */
module SqlAst {
  import opened Wrappers

  /** One FROM-clause reference: a table name and its alias ("" when none). */
  datatype Alias = Alias(name: string, asName: string)

  predicate NoDuplicates(r: seq<Alias>) {
    forall i, j :: 0 <= i < j < |r| ==> r[i] != r[j]
  }

  /** The table name a WHERE clause uses to qualify this reference's columns. */
  function Qualifier(a: Alias): string {
    if a.asName == "" then a.name else a.asName
  }

  datatype CmpOp = Eq | Ne | Lt | LessEqual | GreaterThan | Ge

  /** `qualifier.name` */
  datatype ColName = ColName(qualifier: string, name: string)

  datatype Expr =
    | Comparison(op: CmpOp, column: ColName, value: int)
    | And(left: Expr, right: Expr)
    | Opaque(text: string)

  /** A FROM-clause item. */
  datatype TableExpr =
    | AliasedTable(name: string, asName: string)
    | AliasedSubquery(select: SelectStatement, asName: string)
    | AliasedOther(asName: string)
    | ParenTable(exprs: seq<TableExpr>)
    | Join(left: TableExpr, right: TableExpr)
    | OtherTableExpr

  /** A SELECT-family statement; `OtherSelect` stands for any other kind. */
  datatype SelectStatement =
    | Select(from: seq<TableExpr>, where: Option<Expr>)
    | Union(left: SelectStatement, right: SelectStatement)
    | ParenSelect(inner: SelectStatement)
    | OtherSelect

  /**
   * A candidate row of the query, as far as a WHERE clause can see it: the
   * value of every qualified column, and the truth of every opaque predicate.
   */
  datatype Row = Row(column: ColName -> int, holds: string -> bool)

  function RowtimeOf(row: Row, qualifier: string): int {
    row.column(ColName(qualifier, "rowtime"))
  }

  predicate Compare(op: CmpOp, x: int, y: int) {
    match op
    case Eq => x == y
    case Ne => x != y
    case Lt => x < y
    case LessEqual => x <= y
    case GreaterThan => x > y
    case Ge => x >= y
  }

  predicate Eval(e: Expr, row: Row) {
    match e
    case Comparison(op, c, v) => Compare(op, row.column(c), v)
    case And(l, r) => Eval(l, row) && Eval(r, row)
    case Opaque(text) => row.holds(text)
  }

  /** A missing WHERE clause admits every row. */
  predicate EvalWhere(w: Option<Expr>, row: Row) {
    w.None? || Eval(w.value, row)
  }
}
