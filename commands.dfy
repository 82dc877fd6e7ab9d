/**
 * DBCommandExpr: a SELECT (or a combination of two) that owns an ORDER BY
 * list, lazily creates the row set its columns are exposed through when the
 * command is used as a subquery, and builds INSERT INTO ... SELECT statements.
 *
 * The concrete commands (DBCommand and DBCombinedCmd) are not part of this
 * model. A plain command is represented by its select list and the text its
 * getSelect produces without ORDER BY (None when the command is invalid); a
 * combined command renders "(left) KEYWORD (right)", takes the select list of
 * its left operand, and either kind appends its ORDER BY list.
 */
module Commands {
  import opened SqlTypes
  import opened Text
  import opened Schema
  import opened ColumnExprs

  /** DBOrderByInfo: one ORDER BY entry. */
  datatype OrderByInfo = OrderByInfo(expr: ColumnExpr, desc: bool)

  /** DBOrderByInfo.addSQL: the expression, then " DESC" for a descending entry (ascending is the default). */
  function OrderBySql(o: OrderByInfo, ctx: Context, d: Dialect): string
  {
    Render(o.expr, ctx, d) + (if o.desc then " DESC" else "")
  }

  /** Two entries on one expression render alike exactly when their directions agree. */
  lemma OrderBySqlDistinguishesDirection(e: ColumnExpr, a: bool, b: bool, ctx: Context, d: Dialect)
    ensures OrderBySql(OrderByInfo(e, a), ctx, d) == OrderBySql(OrderByInfo(e, b), ctx, d) <==> a == b
    ensures OrderBySql(OrderByInfo(e, true), ctx, d) == OrderBySql(OrderByInfo(e, false), ctx, d) + " DESC"
  {
    if a != b {
      assert |OrderBySql(OrderByInfo(e, a), ctx, d)| != |OrderBySql(OrderByInfo(e, b), ctx, d)|;
    }
  }

  /** A command as a value: where its rows come from and its ORDER BY list. */
  datatype Query = Query(source: Source, orderBy: seq<OrderByInfo>)

  datatype Source =
      /** A plain command: its select list and its select text without ORDER BY. */
    | Plain(selectList: Option<seq<ColumnExpr>>, text: Option<string>)
      /** DBCombinedCmd: two commands joined by UNION or INTERSECT. */
    | Combined(left: Query, keyword: string, right: Query)

  /** getSelectExprList() */
  function SelectList(s: Source): Option<seq<ColumnExpr>>
  {
    match s
    case Plain(list, _) => list
    case Combined(l, _, _) => SelectList(l.source)
  }

  /** The rendered ORDER BY entries, in the order they were added. */
  function OrderByItems(orderBy: seq<OrderByInfo>, d: Dialect): (r: seq<string>)
    ensures |r| == |orderBy|
    ensures forall i :: 0 <= i < |orderBy| ==> r[i] == OrderBySql(orderBy[i], CTX_DEFAULT, d)
  {
    seq(|orderBy|, i requires 0 <= i < |orderBy| => OrderBySql(orderBy[i], CTX_DEFAULT, d))
  }

  /** getSelect(): the statement text, or None for an invalid command. */
  function SelectSql(q: Query, d: Dialect): Option<string>
  {
    var body := match q.source
      case Plain(_, text) => text
      case Combined(l, kw, r) =>
        var ls := SelectSql(l, d);
        var rs := SelectSql(r, d);
        if ls.Some? && rs.Some? then Some("(" + ls.value + ") " + kw + " (" + rs.value + ")") else None;
    if body.None? then None
    else if |q.orderBy| == 0 then body
    else Some(body.value + "\r\nORDER BY " + Join(OrderByItems(q.orderBy, d), ", "))
  }

  /** A command without ORDER BY entries renders its body alone. */
  lemma NoOrderByRendersBody(s: Source, d: Dialect)
    ensures s.Plain? ==> SelectSql(Query(s, []), d) == s.text
  {
  }

  /**
   * union/intersect: the combined command renders both operands in
   * parentheses around the keyword, and is invalid when an operand is.
   */
  lemma CombinedRenders(l: Query, kw: string, r: Query, d: Dialect)
    ensures SelectSql(l, d).Some? && SelectSql(r, d).Some? ==>
      SelectSql(Query(Combined(l, kw, r), []), d)
        == Some("(" + SelectSql(l, d).value + ") " + kw + " (" + SelectSql(r, d).value + ")")
    ensures SelectSql(l, d).None? || SelectSql(r, d).None? ==>
      SelectSql(Query(Combined(l, kw, r), []), d).None?
    ensures SelectList(Combined(l, kw, r)) == SelectList(l.source)
  {
  }

  /** Each item rendered, in order. */
  function MapRender<T>(list: seq<T>, render: T -> string): (r: seq<string>)
    ensures |r| == |list|
    ensures forall i :: 0 <= i < |list| ==> r[i] == render(list[i])
  {
    seq(|list|, i requires 0 <= i < |list| => render(list[i]))
  }

  /**
   * addListExpr: appends the rendered items with `sep` between neighbours,
   * never before the first nor after the last.
   */
  method AddListExpr<T>(buf: string, list: seq<T>, render: T -> string, sep: string) returns (r: string)
    ensures r == buf + Join(MapRender(list, render), sep)
  {
    ghost var items := MapRender(list, render);
    r := buf;
    var i := 0;
    while i < |list|
      invariant 0 <= i <= |list|
      invariant r == buf + Join(items[..i], sep)
    {
      if i > 0 {
        r := r + sep;
      }
      r := r + render(list[i]);
      assert items[..i + 1][..i] == items[..i];
      i := i + 1;
    }
    assert items[..|list|] == items;
  }

  /** DBTable.addSQL is not part of this model: a table renders as its name. */
  function TableSql(t: Table): string
  {
    t.name
  }

  /** The destination column list of an INSERT: names only. */
  function ColumnNames(columns: seq<ColumnExpr>, d: Dialect): (r: seq<string>)
    ensures |r| == |columns|
    ensures forall i :: 0 <= i < |columns| ==> r[i] == Render(columns[i], CTX_NAME, d)
  {
    seq(|columns|, i requires 0 <= i < |columns| => Render(columns[i], CTX_NAME, d))
  }

  /**
   * getInsertInto(table, select, columns): no select list is an invalid
   * object; a non-empty column list must be as long as the select list;
   * otherwise "INSERT INTO table (columns)" and the select on a new line.
   */
  function InsertInto(t: Table, select: Option<seq<ColumnExpr>>, columns: Option<seq<ColumnExpr>>,
                      selectText: string, d: Dialect): Result<string>
  {
    if select.None? then Failure(ObjectNotValid)
    else if columns.Some? && |columns.value| > 0 && |columns.value| != |select.value| then
      Failure(InvalidArg("columns"))
    else
      var names := if columns.Some? && |columns.value| > 0
                   then " (" + Join(ColumnNames(columns.value, d), ", ") + ")" else "";
      Success("INSERT INTO " + TableSql(t) + names + "\r\n" + selectText)
  }

  /** The two error cases of getInsertInto, and nothing else, fail. */
  lemma InsertIntoFailsExactly(t: Table, select: Option<seq<ColumnExpr>>, columns: Option<seq<ColumnExpr>>,
                               selectText: string, d: Dialect)
    ensures InsertInto(t, select, columns, selectText, d).Failure? <==>
      select.None? || (columns.Some? && |columns.value| > 0 && |columns.value| != |select.value|)
    ensures select.None? ==> InsertInto(t, select, columns, selectText, d) == Failure(ObjectNotValid)
    ensures InsertInto(t, select, columns, selectText, d).Success? ==>
      var s := InsertInto(t, select, columns, selectText, d).value;
      |s| >= 12 + |selectText| && s[..12] == "INSERT INTO " && s[|s| - |selectText|..] == selectText
  {
  }

  /**
   * The destination column that getInsertInto(table) pairs with the i-th
   * select item: the table column of the same name, else the column at
   * position i, else none.
   */
  function MatchColumn(t: Table, e: ColumnExpr, i: int): (r: Option<Column>)
    ensures FindColumn(t.columns, Name(e)).Some? ==> r.Some? && r.value.name == Name(e) && r.value in t.columns
    ensures FindColumn(t.columns, Name(e)).None? ==> r == ColumnAt(t.columns, i)
  {
    match FindColumn(t.columns, Name(e))
    case Some(c) => Some(c)
    case None => ColumnAt(t.columns, i)
  }

  /** Every select item of `select` has a destination column in `t`. */
  predicate AllMatched(t: Table, select: seq<ColumnExpr>)
  {
    forall i :: 0 <= i < |select| ==> MatchColumn(t, select[i], i).Some?
  }

  /** The destination columns getInsertInto(table) builds, one per select item. */
  function MatchColumns(t: Table, select: seq<ColumnExpr>): (r: seq<ColumnExpr>)
    requires AllMatched(t, select)
    ensures |r| == |select|
    ensures forall i :: 0 <= i < |select| ==> r[i] == TableCol(MatchColumn(t, select[i], i).value)
  {
    seq(|select|, i requires 0 <= i < |select| && AllMatched(t, select) => TableCol(MatchColumn(t, select[i], i).value))
  }

  /** getInsertInto(table) on a non-empty select list never trips the length check. */
  lemma MatchedInsertSucceeds(t: Table, select: seq<ColumnExpr>, selectText: string, d: Dialect)
    requires |select| > 0 && AllMatched(t, select)
    ensures InsertInto(t, Some(select), Some(MatchColumns(t, select)), selectText, d).Success?
  {
  }

  class CommandExpr {
    const source: Source
    var orderBy: seq<OrderByInfo>
    var cmdQuery: CmdQuery?

    /** A new command: no ORDER BY entries and no subquery row set yet. */
    constructor (source: Source)
      ensures this.source == source && orderBy == [] && cmdQuery == null
    {
      this.source := source;
      orderBy := [];
      cmdQuery := null;
    }

    /** The command's current value. */
    function Snapshot(): (q: Query)
      reads this
      ensures q.source == source && q.orderBy == orderBy
    {
      Query(source, orderBy)
    }

    /** getSelect() */
    function Select(d: Dialect): Option<string>
      reads this
    {
      SelectSql(Snapshot(), d)
    }

    /** orderBy(expr, desc): one entry more, at the end; earlier entries unchanged, duplicates allowed. */
    method OrderBy(expr: ColumnExpr, desc: bool)
      modifies this`orderBy
      ensures orderBy == old(orderBy) + [OrderByInfo(expr, desc)]
    {
      orderBy := orderBy + [OrderByInfo(expr, desc)];
    }

    /** orderBy(expr): an ascending entry. */
    method OrderByAsc(expr: ColumnExpr)
      modifies this`orderBy
      ensures orderBy == old(orderBy) + [OrderByInfo(expr, false)]
    {
      OrderBy(expr, false);
    }

    /** clearOrderBy() */
    method ClearOrderBy()
      modifies this`orderBy
      ensures orderBy == []
    {
      orderBy := [];
    }

    /** addSQL(buf, context): the select in parentheses; an invalid command renders "null" there. */
    method AddSQL(buf: string, d: Dialect) returns (r: string)
      ensures r == buf + "(" + Select(d).GetOr("null") + ")"
    {
      var sel := SelectSql(Query(source, orderBy), d);
      r := buf + "(" + (if sel.Some? then sel.value else "null") + ")";
    }

    /** union(other): a new combined command over the two commands as they are now. */
    method Union(other: CommandExpr) returns (c: CommandExpr)
      ensures fresh(c)
      ensures c.source == Combined(Snapshot(), "UNION", other.Snapshot())
      ensures c.orderBy == [] && c.cmdQuery == null
    {
      c := new CommandExpr(Combined(Query(source, orderBy), "UNION", Query(other.source, other.orderBy)));
    }

    /** intersect(other): a new combined command over the two commands as they are now. */
    method Intersect(other: CommandExpr) returns (c: CommandExpr)
      ensures fresh(c)
      ensures c.source == Combined(Snapshot(), "INTERSECT", other.Snapshot())
      ensures c.orderBy == [] && c.cmdQuery == null
    {
      c := new CommandExpr(Combined(Query(source, orderBy), "INTERSECT", Query(other.source, other.orderBy)));
    }

    /**
     * getCmdColumn(col): a command column of this command's row set is
     * returned as it is; anything else (the expression inside a command
     * column of another row set) is wrapped in a new command column of the
     * row set, which is created on first use and kept. Creating the row set
     * over a missing select list throws.
     */
    method GetCmdColumn(col: ColumnExpr) returns (r: Result<ColumnExpr>)
      modifies this`cmdQuery
      ensures old(cmdQuery) != null ==> cmdQuery == old(cmdQuery)
      ensures col.CmdColumn? && col.query == old(cmdQuery) ==> r == Success(col)
      ensures !(col.CmdColumn? && col.query == old(cmdQuery)) && old(cmdQuery) == null && SelectList(source).None? ==>
        r == Failure(NullReference) && cmdQuery == null
      ensures !(col.CmdColumn? && col.query == old(cmdQuery)) && (old(cmdQuery) != null || SelectList(source).Some?) ==>
        cmdQuery != null && r == Success(CmdColumn(cmdQuery, if col.CmdColumn? then col.expr else col))
      ensures old(cmdQuery) == null && cmdQuery != null ==>
        fresh(cmdQuery) && SelectList(source).Some? && |cmdQuery.columns| == |SelectList(source).value|
        && forall i :: 0 <= i < |cmdQuery.columns| ==> cmdQuery.columns[i] == UpdateColumn(SelectList(source).value[i])
    {
      var e := col;
      if col.CmdColumn? {
        if col.query == cmdQuery {
          return Success(col);
        }
        e := col.expr;
      }
      if cmdQuery == null {
        var list := SelectList(source);
        if list.None? {
          return Failure(NullReference);
        }
        cmdQuery := new CmdQuery(list.value);
      }
      r := Success(CmdColumn(cmdQuery, e));
    }

    /**
     * getCmdColumn(i): null past the end of the select list, else the command
     * column of the i-th item; a missing select list or a negative index throws.
     */
    method GetCmdColumnAt(i: int) returns (r: Result<Option<ColumnExpr>>)
      modifies this`cmdQuery
      ensures old(cmdQuery) != null ==> cmdQuery == old(cmdQuery)
      ensures SelectList(source).None? ==> r == Failure(NullReference) && cmdQuery == old(cmdQuery)
      ensures SelectList(source).Some? && i >= |SelectList(source).value| ==>
        r == Success(None) && cmdQuery == old(cmdQuery)
      ensures SelectList(source).Some? && i < 0 ==> r == Failure(IndexOutOfRange) && cmdQuery == old(cmdQuery)
      ensures old(cmdQuery) == null && cmdQuery != null ==>
        fresh(cmdQuery) && SelectList(source).Some? && |cmdQuery.columns| == |SelectList(source).value|
        && forall k :: 0 <= k < |cmdQuery.columns| ==> cmdQuery.columns[k] == UpdateColumn(SelectList(source).value[k])
      ensures SelectList(source).Some? && 0 <= i < |SelectList(source).value| ==>
        var e := SelectList(source).value[i];
        r.Success? && r.value.Some? && cmdQuery != null && r.value.value.CmdColumn? && r.value.value.query == cmdQuery
        && (e.CmdColumn? && e.query == old(cmdQuery) ==> r.value.value == e)
        && (!(e.CmdColumn? && e.query == old(cmdQuery)) ==>
              r.value.value.expr == (if e.CmdColumn? then e.expr else e))
    {
      var list := SelectList(source);
      if list.None? {
        return Failure(NullReference);
      }
      if i >= |list.value| {
        return Success(None);
      }
      if i < 0 {
        return Failure(IndexOutOfRange);
      }
      var c := GetCmdColumn(list.value[i]);
      r := Success(Some(c.value));
    }

    /** getInsertInto(table, select, columns) */
    method InsertIntoWith(t: Table, select: Option<seq<ColumnExpr>>, columns: Option<seq<ColumnExpr>>, d: Dialect)
      returns (r: Result<string>)
      ensures r == InsertInto(t, select, columns, Select(d).GetOr(""), d)
    {
      if select.None? {
        return Failure(ObjectNotValid);
      }
      var head := "INSERT INTO " + TableSql(t);
      var buf := head;
      if columns.Some? && |columns.value| > 0 {
        if |columns.value| != |select.value| {
          return Failure(InvalidArg("columns"));
        }
        buf := buf + " (";
        var cols := columns.value;
        var render := (e: ColumnExpr) => Render(e, CTX_NAME, d);
        buf := AddListExpr(buf, cols, render, ", ");
        assert MapRender(cols, render) == ColumnNames(cols, d);
        buf := buf + ")";
        assert buf == head + (" (" + Join(ColumnNames(cols, d), ", ") + ")");
      }
      buf := buf + "\r\n";
      var sel := SelectSql(Query(source, orderBy), d);
      assert sel == Select(d);
      var names := if columns.Some? && |columns.value| > 0
                   then " (" + Join(ColumnNames(columns.value, d), ", ") + ")" else "";
      assert buf == head + names + "\r\n";
      r := Success(buf + sel.GetOr(""));
    }

    /** getInsertInto(table, columns): the explicit column list against this command's select list. */
    method InsertIntoColumns(t: Table, columns: Option<seq<ColumnExpr>>, d: Dialect) returns (r: Result<string>)
      ensures r == InsertInto(t, SelectList(source), columns, Select(d).GetOr(""), d)
    {
      r := InsertIntoWith(t, SelectList(source), columns, d);
    }

    /**
     * getInsertInto(table): pairs each select item with the table column of
     * the same name, or failing that the column at the same position. A
     * select item with neither leaves null in the column list, and rendering
     * that list throws.
     */
    method InsertIntoTable(t: Table, d: Dialect) returns (r: Result<string>)
      ensures SelectList(source).None? || |SelectList(source).value| == 0 ==> r == Failure(ObjectNotValid)
      ensures SelectList(source).Some? && |SelectList(source).value| > 0 && !AllMatched(t, SelectList(source).value) ==>
        r == Failure(NullReference)
      ensures SelectList(source).Some? && |SelectList(source).value| > 0 && AllMatched(t, SelectList(source).value) ==>
        r == InsertInto(t, SelectList(source), Some(MatchColumns(t, SelectList(source).value)), Select(d).GetOr(""), d)
        && r.Success?
    {
      var select := SelectList(source);
      if select.None? || |select.value| < 1 {
        return Failure(ObjectNotValid);
      }
      var list := select.value;
      var inscols: seq<ColumnExpr> := [];
      var found := true;
      var i := 0;
      while i < |list|
        invariant 0 <= i <= |list|
        invariant found <==> AllMatched(t, list[..i])
        invariant found ==> inscols == MatchColumns(t, list[..i])
      {
        var col := FindColumn(t.columns, Name(list[i]));
        if col.None? {
          col := ColumnAt(t.columns, i);
        }
        assert col == MatchColumn(t, list[..i + 1][i], i);
        if col.Some? {
          inscols := inscols + [TableCol(col.value)];
        } else {
          found := false;
        }
        i := i + 1;
      }
      assert list[..|list|] == list;
      if !found {
        return Failure(NullReference);
      }
      MatchedInsertSucceeds(t, list, Select(d).GetOr(""), d);
      r := InsertIntoWith(t, select, Some(inscols), d);
    }
  }
}
