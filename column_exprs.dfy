/**
 * Column expressions (DBColumnExpr and its variants) as one closed datatype,
 * with the getters every variant exposes, the set of referenced columns,
 * the SQL renderer and the equality the source defines.
 *
 * Variants: a table column (DBTableColumn, whose rendering DBColumn.addSQL
 * is not part of this model), DBAliasExpr, DBFuncExpr (the node value; the
 * object with its lazily cached template is FuncExprs.FuncExpr), DBCaseExpr,
 * OracleRowNumExpr and the command column DBCommandExpr.DBCmdColumn.
 */
module ColumnExprs {
  import opened SqlTypes
  import opened Text
  import opened Schema

  /**
   * DBCommandExpr.DBCmdQuery: the row set that stands for a command used as a
   * subquery. Its identity is what DBCmdColumn.getRowSet() is compared with;
   * it records the update column of every selected expression.
   */
  class CmdQuery {
    const columns: seq<Option<ColumnExpr>>

    constructor (select: seq<ColumnExpr>)
      ensures |columns| == |select|
      ensures forall i :: 0 <= i < |select| ==> columns[i] == UpdateColumn(select[i])
    {
      var cols: seq<Option<ColumnExpr>> := [];
      var i := 0;
      while i < |select|
        invariant 0 <= i <= |select|
        invariant |cols| == i
        invariant forall k :: 0 <= k < i ==> cols[k] == UpdateColumn(select[k])
      {
        cols := cols + [UpdateColumn(select[i])];
        i := i + 1;
      }
      columns := cols;
    }
  }

  datatype ColumnExpr =
    | TableCol(column: Column)
      /** DBAliasExpr: build it with MkAlias, which collapses and upper-cases. */
    | Alias(expr: ColumnExpr, alias: string)
      /** DBFuncExpr; `template` is None until it is resolved from the driver. */
    | Func(arg: ColumnExpr, phrase: PhraseId, template: Option<string>, params: seq<string>,
           updateColumn: Option<ColumnExpr>, aggregate: bool, funcType: DataType)
      /** DBCaseExpr: CASE WHEN cond THEN whenTrue ELSE whenElse END. */
    | Case(cond: CompareExpr, whenTrue: ColumnExpr, whenElse: Option<ColumnExpr>)
      /** OracleRowNumExpr */
    | RowNum
      /** DBCmdColumn: a column of the subquery row set `query`, wrapping `expr`. */
    | CmdColumn(query: CmdQuery, expr: ColumnExpr)

  /**
   * The condition of a CASE node. DBCompareExpr is not part of this model;
   * the model keeps a comparison `left op right` of two column expressions.
   */
  datatype CompareExpr = Compare(left: ColumnExpr, op: string, right: ColumnExpr)

  // ---------------------------------------------------------------- DBAliasExpr

  /**
   * The DBAliasExpr constructor: an alias of an alias keeps the original inner
   * expression, and the alias name is stored upper-cased.
   */
  function MkAlias(e: ColumnExpr, alias: string): (r: ColumnExpr)
    ensures r.Alias? && r.alias == ToUpper(alias)
    ensures !e.Alias? ==> r.expr == e
    ensures e.Alias? ==> r.expr == e.expr
    ensures NoNestedAlias(e) ==> NoNestedAlias(r)
  {
    if e.Alias? then Alias(e.expr, ToUpper(alias)) else Alias(e, ToUpper(alias))
  }

  /** No alias directly wraps another alias: what MkAlias guarantees. */
  predicate NoNestedAlias(e: ColumnExpr)
  {
    match e
    case TableCol(_) => true
    case Alias(x, _) => !x.Alias? && NoNestedAlias(x)
    case Func(x, _, _, _, _, _, _) => NoNestedAlias(x)
    case Case(c, t, els) =>
      NoNestedAliasCompare(c) && NoNestedAlias(t) && (els.Some? ==> NoNestedAlias(els.value))
    case RowNum => true
    case CmdColumn(_, x) => NoNestedAlias(x)
  }

  predicate NoNestedAliasCompare(c: CompareExpr)
  {
    NoNestedAlias(c.left) && NoNestedAlias(c.right)
  }

  /** Re-aliasing an alias is the same as aliasing its inner expression once. */
  lemma AliasCollapses(e: ColumnExpr, a: string, b: string)
    ensures MkAlias(MkAlias(e, a), b) == MkAlias(e, b)
  {
  }

  /** An alias node names itself by its (upper-cased) alias; all else is the inner expression's. */
  lemma AliasDelegates(e: ColumnExpr, a: string)
    ensures Name(MkAlias(e, a)) == ToUpper(a)
    ensures ToString(MkAlias(e, a)) == ToUpper(a)
    ensures DataTypeOf(MkAlias(e, a)) == DataTypeOf(e)
    ensures UpdateColumn(MkAlias(e, a)) == UpdateColumn(e)
    ensures ReferencedColumns(MkAlias(e, a)) == ReferencedColumns(e)
    ensures !IsAggregate(MkAlias(e, a))
  {
  }

  /** DBAliasExpr.toString: the alias name. */
  function ToString(e: ColumnExpr): string
    requires e.Alias?
  {
    e.alias
  }

  // ---------------------------------------------------------------- getters

  /** getName() */
  function Name(e: ColumnExpr): string
  {
    match e
    case TableCol(c) => c.name
    case Alias(_, a) => a
    case Func(x, _, _, _, _, _, _) => Name(x)
    case Case(_, t, _) => Name(t)
    case RowNum => "rownum"
    case CmdColumn(_, x) => Name(x)
  }

  /** getDataType() */
  function DataTypeOf(e: ColumnExpr): DataType
  {
    match e
    case TableCol(c) => c.dataType
    case Alias(x, _) => DataTypeOf(x)
    case Func(_, _, _, _, _, _, t) => t
    case Case(_, t, _) => DataTypeOf(t)
    case RowNum => Integer
    case CmdColumn(_, x) => DataTypeOf(x)
  }

  /** getUpdateColumn(): a column is its own update column; computed nodes say which, if any. */
  function UpdateColumn(e: ColumnExpr): Option<ColumnExpr>
  {
    match e
    case TableCol(_) => Some(e)
    case Alias(x, _) => UpdateColumn(x)
    case Func(_, _, _, _, u, _, _) => u
    case Case(_, t, _) => UpdateColumn(t)
    case RowNum => None
    case CmdColumn(_, _) => Some(e)
  }

  /** isAggregate() */
  function IsAggregate(e: ColumnExpr): bool
  {
    match e
    case TableCol(_) => false
    case Alias(_, _) => false
    case Func(_, _, _, _, _, agg, _) => agg
    case Case(_, t, _) => IsAggregate(t)
    case RowNum => false
    case CmdColumn(_, _) => false
  }

  /** A node that is itself a column (DBColumn): a table column or a command column. */
  predicate IsColumn(e: ColumnExpr)
  {
    e.TableCol? || e.CmdColumn?
  }

  /**
   * addReferencedColumns(set): the columns the expression depends on. Only
   * columns are ever collected.
   */
  function ReferencedColumns(e: ColumnExpr): (r: set<ColumnExpr>)
    ensures forall x :: x in r ==> IsColumn(x)
  {
    match e
    case TableCol(_) => {e}
    case Alias(x, _) => ReferencedColumns(x)
    case Func(x, _, _, _, _, _, _) => ReferencedColumns(x)
    case Case(c, t, els) =>
      ReferencedColumns(t) + CompareColumns(c)
        + (if els.Some? then ReferencedColumns(els.value) else {})
    case RowNum => {}
    case CmdColumn(_, _) => {e}
  }

  function CompareColumns(c: CompareExpr): (r: set<ColumnExpr>)
    ensures forall x :: x in r ==> IsColumn(x)
  {
    ReferencedColumns(c.left) + ReferencedColumns(c.right)
  }

  // ---------------------------------------------------------------- rendering

  /**
   * The rendering of a table column, DBColumn.addSQL, is not part of this
   * model: a fully qualified context prefixes the owning table's name.
   */
  function ColumnSql(c: Column, ctx: Context): string
  {
    if CtxFullName in ctx then c.table + "." + c.name else c.name
  }

  /**
   * The template a function node renders with: its own, else the driver's
   * phrase. A driver without the phrase gives null in the code; here it
   * gives the empty template (the HSQLDB driver has a phrase for every id).
   */
  function FuncTemplate(e: ColumnExpr, d: Dialect): string
    requires e.Func?
  {
    match e.template
    case Some(t) => t
    case None => d.phrase(e.phrase).GetOr("")
  }

  /**
   * Template substitution of DBAbstractFuncExpr, which is not part of this
   * model: `?` becomes the operand's rendering and `{n}` (one digit) the n-th
   * parameter; every other character is copied.
   */
  function Substitute(template: string, operand: string, params: seq<string>): (r: string)
    ensures (forall i :: 0 <= i < |template| ==> template[i] != '?' && template[i] != '{') ==> r == template
  {
    if template == [] then ""
    else if template[0] == '?' then operand + Substitute(template[1..], operand, params)
    else if |template| >= 3 && template[0] == '{' && IsDigit(template[1]) && template[2] == '}'
            && DigitValue(template[1]) < |params|
    then params[DigitValue(template[1])] + Substitute(template[3..], operand, params)
    else [template[0]] + Substitute(template[1..], operand, params)
  }

  /** A template with one operand placeholder and no parameter reference puts the operand in its place. */
  lemma {:induction false} SubstituteSingle(pre: string, post: string, operand: string, params: seq<string>)
    requires forall i :: 0 <= i < |pre| ==> pre[i] != '?' && pre[i] != '{'
    requires forall i :: 0 <= i < |post| ==> post[i] != '?' && post[i] != '{'
    ensures Substitute(pre + "?" + post, operand, params) == pre + operand + post
    decreases |pre|
  {
    var t := pre + "?" + post;
    if pre == [] {
      assert t == "?" + post;
      assert t[1..] == post;
      assert Substitute(t, operand, params) == operand + Substitute(post, operand, params);
    } else {
      assert t[0] == pre[0];
      assert t[1..] == pre[1..] + "?" + post;
      assert Substitute(t, operand, params) == [pre[0]] + Substitute(t[1..], operand, params);
      SubstituteSingle(pre[1..], post, operand, params);
      assert pre == [pre[0]] + pre[1..];
    }
  }

  /** addSQL(buf, context) of every variant: the text the node appends. */
  function Render(e: ColumnExpr, ctx: Context, d: Dialect): string
  {
    match e
    case TableCol(c) => ColumnSql(c, ctx)
    case Alias(x, alias) =>
      if CtxAlias in ctx then
        Render(x, ctx, d) + (match d.phrase(SQL_RENAME_COLUMN)
                             case Some(asExpr) => asExpr + alias
                             case None => "")
      else Render(x, ctx, d)
    case Func(x, _, _, params, _, _, _) =>
      Substitute(FuncTemplate(e, d), Render(x, ctx - {CtxAlias}, d), params)
    case Case(c, t, els) =>
      "CASE WHEN " + RenderCompare(c, ctx, d) + " THEN " + Render(t, ctx, d) + " ELSE "
        + (if els.Some? then Render(els.value, ctx, d) else "NULL") + " END"
    case RowNum => "rownum"
    case CmdColumn(_, x) => Name(x)
  }

  /** DBCompareExpr.addSQL is not part of this model: the operands around the operator. */
  function RenderCompare(c: CompareExpr, ctx: Context, d: Dialect): string
  {
    Render(c.left, ctx, d) + c.op + Render(c.right, ctx, d)
  }

  /** Outside an alias context an alias renders exactly as its inner expression. */
  lemma AliasInvisibleOutsideAliasContext(e: ColumnExpr, a: string, ctx: Context, d: Dialect)
    requires CtxAlias !in ctx
    ensures Render(MkAlias(e, a), ctx, d) == Render(e, ctx, d)
  {
  }

  /** In an alias context an alias appends the driver's rename phrase and its name, when the driver has one. */
  lemma AliasRenamesInAliasContext(e: ColumnExpr, a: string, ctx: Context, d: Dialect)
    requires CtxAlias in ctx
    ensures d.phrase(SQL_RENAME_COLUMN).Some? ==>
      Render(MkAlias(e, a), ctx, d)
        == Render(MkAlias(e, a).expr, ctx, d) + d.phrase(SQL_RENAME_COLUMN).value + ToUpper(a)
    ensures d.phrase(SQL_RENAME_COLUMN).None? ==>
      Render(MkAlias(e, a), ctx, d) == Render(MkAlias(e, a).expr, ctx, d)
  {
  }

  /** True when an alias node occurs anywhere in the expression. */
  predicate HasAlias(e: ColumnExpr)
  {
    match e
    case TableCol(_) => false
    case Alias(_, _) => true
    case Func(x, _, _, _, _, _, _) => HasAlias(x)
    case Case(c, t, els) => HasAliasCompare(c) || HasAlias(t) || (els.Some? && HasAlias(els.value))
    case RowNum => false
    case CmdColumn(_, _) => false
  }

  predicate HasAliasCompare(c: CompareExpr)
  {
    HasAlias(c.left) || HasAlias(c.right)
  }

  /**
   * The alias flag of a render context only ever affects alias nodes: a CASE
   * passes its context on unchanged, a function strips the flag, and columns,
   * command columns and ROWNUM ignore it.
   */
  lemma {:induction false} RenderIgnoresAliasFlag(e: ColumnExpr, ctx: Context, d: Dialect)
    requires !HasAlias(e)
    ensures Render(e, ctx, d) == Render(e, ctx - {CtxAlias}, d)
  {
    match e
    case TableCol(_) =>
    case Alias(_, _) =>
    case Func(x, _, _, _, _, _, _) =>
      assert ctx - {CtxAlias} - {CtxAlias} == ctx - {CtxAlias};
    case Case(c, t, els) =>
      RenderCompareIgnoresAliasFlag(c, ctx, d);
      RenderIgnoresAliasFlag(t, ctx, d);
      if els.Some? {
        RenderIgnoresAliasFlag(els.value, ctx, d);
      }
    case RowNum =>
    case CmdColumn(_, _) =>
  }

  lemma {:induction false} RenderCompareIgnoresAliasFlag(c: CompareExpr, ctx: Context, d: Dialect)
    requires !HasAliasCompare(c)
    ensures RenderCompare(c, ctx, d) == RenderCompare(c, ctx - {CtxAlias}, d)
  {
    RenderIgnoresAliasFlag(c.left, ctx, d);
    RenderIgnoresAliasFlag(c.right, ctx, d);
  }

  // ---------------------------------------------------------------- DBCaseExpr

  /** A CASE node names, types and updates like its THEN expression. */
  lemma CaseDelegates(c: CompareExpr, t: ColumnExpr, els: Option<ColumnExpr>)
    ensures Name(Case(c, t, els)) == Name(t)
    ensures DataTypeOf(Case(c, t, els)) == DataTypeOf(t)
    ensures UpdateColumn(Case(c, t, els)) == UpdateColumn(t)
    ensures IsAggregate(Case(c, t, els)) == IsAggregate(t)
    ensures ReferencedColumns(Case(c, t, els))
      == ReferencedColumns(t) + ReferencedColumns(c.left) + ReferencedColumns(c.right)
         + (if els.Some? then ReferencedColumns(els.value) else {})
  {
  }

  /**
   * A CASE renders its three parts in the context it was given, and a missing
   * ELSE part renders as NULL.
   */
  lemma CaseRendersParts(c: CompareExpr, t: ColumnExpr, els: Option<ColumnExpr>, ctx: Context, d: Dialect)
    ensures Render(Case(c, t, els), ctx, d)
      == "CASE WHEN " + RenderCompare(c, ctx, d) + " THEN " + Render(t, ctx, d)
         + " ELSE " + (if els.Some? then Render(els.value, ctx, d) else "NULL") + " END"
    ensures els.None? ==>
      Render(Case(c, t, els), ctx, d)
        == "CASE WHEN " + RenderCompare(c, ctx, d) + " THEN " + Render(t, ctx, d) + " ELSE NULL END"
  {
  }

  // ---------------------------------------------------------------- OracleRowNumExpr

  /** ROWNUM is a read-only INTEGER named "rownum" that references no column and renders alike everywhere. */
  lemma RowNumConstants(ctx: Context, d: Dialect)
    ensures Name(RowNum) == "rownum" && DataTypeOf(RowNum) == Integer
    ensures UpdateColumn(RowNum).None? && !IsAggregate(RowNum)
    ensures ReferencedColumns(RowNum) == {}
    ensures Render(RowNum, ctx, d) == "rownum"
  {
  }

  // ---------------------------------------------------------------- equality

  /**
   * equals(): identity for most nodes (modelled as equality of values), two
   * aliases are equal when their names match ignoring case and their inner
   * expressions are equal, and any two ROWNUM nodes are equal. Equal
   * expressions agree on every getter, the name up to case.
   */
  predicate SqlEquals(a: ColumnExpr, b: ColumnExpr)
    ensures SqlEquals(a, b) ==>
      EqualsIgnoreCase(Name(a), Name(b)) && DataTypeOf(a) == DataTypeOf(b) && UpdateColumn(a) == UpdateColumn(b)
      && IsAggregate(a) == IsAggregate(b) && ReferencedColumns(a) == ReferencedColumns(b)
  {
    a == b || (a.Alias? && b.Alias? && EqualsIgnoreCase(a.alias, b.alias) && SqlEquals(a.expr, b.expr))
  }

  /** The alias equality is symmetric, as Java's equals contract asks. */
  lemma {:induction false} SqlEqualsSymmetric(a: ColumnExpr, b: ColumnExpr)
    requires SqlEquals(a, b)
    ensures SqlEquals(b, a)
  {
    if a != b {
      SqlEqualsSymmetric(a.expr, b.expr);
    }
  }

  /** Two aliases are equal exactly when the names match ignoring case and the inner expressions are equal. */
  lemma AliasEqualsIff(x: ColumnExpr, n: string, y: ColumnExpr, m: string)
    ensures SqlEquals(Alias(x, n), Alias(y, m)) <==> EqualsIgnoreCase(n, m) && SqlEquals(x, y)
  {
  }

  /** Aliases of one expression whose names differ only in case are equal. */
  lemma AliasIgnoresCase(e: ColumnExpr, a: string, b: string)
    requires EqualsIgnoreCase(a, b)
    ensures SqlEquals(MkAlias(e, a), MkAlias(e, b))
  {
  }

  // ---------------------------------------------------------------- DBCmdColumn

  /** A command column renders the unqualified name of its expression in every context. */
  lemma CmdColumnRendersName(q: CmdQuery, x: ColumnExpr, ctx: Context, d: Dialect)
    ensures Render(CmdColumn(q, x), ctx, d) == Name(x)
    ensures Name(CmdColumn(q, x)) == Name(x)
    ensures DataTypeOf(CmdColumn(q, x)) == DataTypeOf(x)
  {
  }
}
