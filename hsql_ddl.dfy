/**
 * The DDL generator of DBDatabaseDriverHSql: CREATE/ALTER/DROP statements
 * for databases, sequences, tables, indexes, foreign keys, columns and
 * views, appended to a DBSQLScript.
 */
module HSqlDdl {
  import opened SqlTypes
  import opened Text
  import opened Schema
  import opened ColumnExprs
  import opened Commands
  import opened SqlScripts
  import opened HSqlDialect

  /** DBCmdType */
  datatype CmdType = Create | Alter | Drop

  /**
   * A DBView: its name, its declared output columns, the command its
   * createCommand returns (null when it has none) and the error it recorded.
   */
  datatype View = View(name: string, columns: seq<Column>, command: CommandExpr?, error: Option<ErrorKind>)

  /** A DBDatabase: its schema name and its tables, relations and views in declared order. */
  datatype Database = Database(schema: string, tables: seq<Table>, relations: seq<Relation>, views: seq<View>)

  /** The objects getDDLScript dispatches on. */
  datatype DbObject =
    | DatabaseObj(db: Database)
    | TableObj(table: Table)
    | ViewObj(view: View)
    | RelationObj(relation: Relation)
    | ColumnObj(column: Column)
    | OtherObj

  /** What createTable puts before the first column clause, and between two of them. */
  const FIRST_COLUMN: string := "\r\n   "
  const NEXT_COLUMN: string := ",\r\n   "

  /** Math.abs */
  function Abs(n: int): nat
  {
    if n < 0 then -n else n
  }

  /**
   * The HSQLDB type of a column in appendColumnDesc; None for UNKNOWN, the
   * one type the driver cannot declare.
   */
  function DdlType(c: Column): (r: Option<string>)
    ensures r.None? <==> c.dataType == Unknown
  {
    match c.dataType
    case Integer => Some("BIGINT")
    case AutoInc => Some("BIGINT")
    case Text => Some("VARCHAR(" + IntToString(if Abs(c.size) == 0 then 100 else Abs(c.size)) + ")")
    case Char => Some("CHAR(" + IntToString(if Abs(c.size) == 0 then 1 else Abs(c.size)) + ")")
    case Date => Some("DATE")
    case DateTime => Some("DATETIME")
    case Bool => Some("BOOLEAN")
    case Double => Some("FLOAT")
    case Decimal => Some("DECIMAL(" + IntToString(c.size) + "," + IntToString(c.scale) + ")")
    case Clob => Some("LONGVARCHAR")
    case Blob => Some("LONGVARBINARY")
    case UniqueId => Some("CHAR(36)")
    case Unknown => None
  }

  /** Text and char widths: the absolute size, with 100 and 1 standing in for a size of 0. */
  lemma DdlTypeWidths(c: Column)
    ensures c.dataType == Text && c.size == 0 ==> DdlType(c) == Some("VARCHAR(100)")
    ensures c.dataType == Char && c.size == 0 ==> DdlType(c) == Some("CHAR(1)")
    ensures c.dataType == Text && c.size != 0 ==> DdlType(c) == Some("VARCHAR(" + NatToString(Abs(c.size)) + ")")
    ensures c.dataType == Char && c.size != 0 ==> DdlType(c) == Some("CHAR(" + NatToString(Abs(c.size)) + ")")
    ensures c.dataType in {Integer, AutoInc} ==> DdlType(c) == Some("BIGINT")
  {
    assert DigitChar(0) == '0' && DigitChar(1) == '1';
    assert NatToString(1) == ['1'];
    assert NatToString(10) == ['1', '0'];
    assert NatToString(100) == ['1', '0', '0'];
    assert IntToString(100) == "100";
    assert IntToString(1) == "1";
    assert "VARCHAR(" + "100" + ")" == "VARCHAR(100)";
    assert "CHAR(" + "1" + ")" == "CHAR(1)";
  }

  /** The column names of a key, an index or a view, in order. */
  function Names(cols: seq<Column>): (r: seq<string>)
    ensures |r| == |cols| && forall i :: 0 <= i < |cols| ==> r[i] == cols[i].name
  {
    seq(|cols|, i requires 0 <= i < |cols| => cols[i].name)
  }

  /** The AUTOINC columns of a table, in order: the ones createDatabase makes a sequence for. */
  function AutoIncColumns(cols: seq<Column>): seq<Column>
  {
    if |cols| == 0 then []
    else AutoIncColumns(cols[..|cols| - 1])
         + (if cols[|cols| - 1].dataType == AutoInc then [cols[|cols| - 1]] else [])
  }

  /** Exactly the AUTOINC columns get a sequence. */
  lemma {:induction false} AutoIncColumnsExact(cols: seq<Column>)
    ensures forall c :: c in AutoIncColumns(cols) <==> c in cols && c.dataType == AutoInc
  {
    if |cols| > 0 {
      var init := cols[..|cols| - 1];
      AutoIncColumnsExact(init);
      assert cols == init + [cols[|cols| - 1]];
    }
  }

  /** An index createTable emits as a statement of its own. */
  predicate IsSecondary(x: Index, pk: Option<Index>)
  {
    x.kind != PrimaryKey && (pk.None? || x != pk.value)
  }

  /**
   * The indexes createTable emits after the table: all but the primary key,
   * whether it is the table's primary key or any index of kind PRIMARYKEY.
   */
  function SecondaryIndexes(t: Table): seq<Index>
  {
    Secondary(t.indexes, t.primaryKey)
  }

  function Secondary(indexes: seq<Index>, pk: Option<Index>): seq<Index>
  {
    if |indexes| == 0 then []
    else
      var last := indexes[|indexes| - 1];
      Secondary(indexes[..|indexes| - 1], pk)
        + (if (pk.Some? && last == pk.value) || last.kind == PrimaryKey then [] else [last])
  }

  /** Every index but the primary key is emitted, and nothing else is. */
  lemma {:induction false} SecondaryExact(indexes: seq<Index>, pk: Option<Index>)
    ensures forall x :: x in Secondary(indexes, pk) <==> x in indexes && IsSecondary(x, pk)
  {
    if |indexes| > 0 {
      var init := indexes[..|indexes| - 1];
      SecondaryExact(init, pk);
      assert indexes == init + [indexes[|indexes| - 1]];
    }
  }

  lemma AppendAssoc<T>(a: seq<T>, b: seq<T>, c: seq<T>)
    ensures a + b + c == a + (b + c)
  {
  }

  lemma JoinPair(x: string, y: string, sep: string)
    ensures Join([x, y], sep) == x + sep + y
  {
    assert [x, y][..1] == [x];
  }

  /** A relation whose first reference names the tables: what alterRelation needs. */
  predicate HasReferences(r: Relation)
  {
    |r.references| > 0
  }

  function SourceNames(refs: seq<Reference>): (r: seq<string>)
    ensures |r| == |refs| && forall i :: 0 <= i < |refs| ==> r[i] == refs[i].source.name
  {
    seq(|refs|, i requires 0 <= i < |refs| => refs[i].source.name)
  }

  function TargetNames(refs: seq<Reference>): (r: seq<string>)
    ensures |r| == |refs| && forall i :: 0 <= i < |refs| ==> r[i] == refs[i].target.name
  {
    seq(|refs|, i requires 0 <= i < |refs| => refs[i].target.name)
  }

  /** The position of the first view that has no command, or the number of views. */
  function FirstMissingCommand(views: seq<View>): (k: nat)
    ensures k <= |views|
    ensures forall i :: 0 <= i < k ==> views[i].command != null
    ensures k < |views| ==> views[k].command == null
  {
    if |views| == 0 then 0
    else if views[0].command == null then 0
    else 1 + FirstMissingCommand(views[1..])
  }

  /** The commands of the views before the first one without a command: those createDatabase reaches. */
  function ReachedCommands(views: seq<View>): (r: set<CommandExpr>)
    ensures forall i :: 0 <= i < FirstMissingCommand(views) ==> views[i].command in r
  {
    if |views| == 0 || views[0].command == null then {}
    else {views[0].command} + ReachedCommands(views[1..])
  }

  /** The error createView reports for a view without a command. */
  function MissingCommandError(v: View): ErrorKind
  {
    if v.error.Some? then v.error.value else NotImplemented
  }

  /** A column list over its clauses: each on its own indented line, separated by commas. */
  function ClauseList(descs: seq<string>): string
  {
    if |descs| == 0 then "" else FIRST_COLUMN + Join(descs, NEXT_COLUMN)
  }

  /** One more clause: it follows the first-line separator exactly when the list was empty. */
  lemma ClauseListStep(descs: seq<string>, d: string)
    ensures ClauseList(descs + [d]) == ClauseList(descs) + (if |descs| > 0 then NEXT_COLUMN else FIRST_COLUMN) + d
  {
    if |descs| > 0 {
      assert (descs + [d])[..|descs|] == descs;
      var j := Join(descs, NEXT_COLUMN);
      assert Join(descs + [d], NEXT_COLUMN) == j + NEXT_COLUMN + d;
      AppendAssoc(FIRST_COLUMN, j, NEXT_COLUMN + d);
      AppendAssoc(j, NEXT_COLUMN, d);
      AppendAssoc(FIRST_COLUMN + j, NEXT_COLUMN, d);
    } else {
      assert descs + [d] == [d];
    }
  }

  /** The name that DROP of a database (its schema), a table or a view names. */
  function DroppedName(o: DbObject): string
    requires o.DatabaseObj? || o.TableObj? || o.ViewObj?
  {
    if o.DatabaseObj? then o.db.schema else if o.TableObj? then o.table.name else o.view.name
  }

  /** The object type keyword of that DROP statement. */
  function DroppedKind(o: DbObject): string
    requires o.DatabaseObj? || o.TableObj? || o.ViewObj?
  {
    if o.DatabaseObj? then "DATABASE" else if o.TableObj? then "TABLE" else "VIEW"
  }

  class HSqlDriver {
    /** reservedSQLKeywords: names that appendElementName quotes. */
    const reservedKeywords: set<string>
    /** isDDLColumnDefaults() */
    const ddlColumnDefaults: bool

    /** The constructor adds "count" to the keywords the base driver reserves. */
    constructor (baseKeywords: set<string>, ddlColumnDefaults: bool)
      ensures reservedKeywords == baseKeywords + {"count"}
      ensures this.ddlColumnDefaults == ddlColumnDefaults
    {
      reservedKeywords := baseKeywords + {"count"};
      this.ddlColumnDefaults := ddlColumnDefaults;
    }

    /**
     * appendElementName and detectQuoteName of the base driver are not part
     * of this model: a reserved name is put in the driver's quotes.
     */
    function ElementName(name: string): string
    {
      if name in reservedKeywords then SqlPhrase(SQL_QUOTES_OPEN) + name + SqlPhrase(SQL_QUOTES_CLOSE) else name
    }

    /** "count" is always quoted by this driver. */
    lemma CountIsQuoted()
      requires "count" in reservedKeywords
      ensures ElementName("count") == "\"count\""
    {
    }

    /** DBDatabase.appendQualifiedName is not part of this model: the schema, a dot, the element name. */
    function QualifiedName(schema: string, name: string): string
    {
      (if |schema| > 0 then schema + "." else "") + ElementName(name)
    }

    /** The DEFAULT part of a column clause. getValueString is not part of this model: the default's text. */
    function DefaultClause(c: Column): (r: string)
      ensures r != "" <==> ddlColumnDefaults && !c.autoGenerated && c.defaultValue.Some?
    {
      if ddlColumnDefaults && !c.autoGenerated && c.defaultValue.Some? then " DEFAULT " + c.defaultValue.value else ""
    }

    /** The NOT NULL part of a column clause. */
    function NullClause(c: Column): (r: string)
      ensures r == " NOT NULL" <==> c.required || c.autoGenerated
      ensures r == "" <==> !(c.required || c.autoGenerated)
    {
      if c.required || c.autoGenerated then " NOT NULL" else ""
    }

    /** The clause appendColumnDesc produces for a column of a known type. */
    function ColumnDesc(c: Column): (r: Option<string>)
      ensures r.Some? <==> c.dataType != Unknown
    {
      match DdlType(c)
      case Some(t) => Some(c.name + " " + t + DefaultClause(c) + NullClause(c))
      case None => None
    }

    /**
     * An auto-generated column never gets a DEFAULT and is always NOT NULL;
     * a column that is neither required, auto-generated nor defaulted gets its
     * name and type only.
     */
    lemma ColumnDescCases(c: Column)
      requires c.dataType != Unknown
      ensures c.autoGenerated ==> ColumnDesc(c).value == c.name + " " + DdlType(c).value + " NOT NULL"
      ensures !c.required && !c.autoGenerated && (c.defaultValue.None? || !ddlColumnDefaults) ==>
        ColumnDesc(c).value == c.name + " " + DdlType(c).value
      ensures c.required && !c.autoGenerated && ddlColumnDefaults && c.defaultValue.Some? ==>
        ColumnDesc(c).value == c.name + " " + DdlType(c).value + " DEFAULT " + c.defaultValue.value + " NOT NULL"
    {
    }

    /**
     * appendColumnDesc(c, sql): the name and a blank, then the type, DEFAULT
     * and NOT NULL; for an UNKNOWN column it reports failure after the name
     * and the blank have been appended.
     */
    method AppendColumnDesc(sql: string, c: Column) returns (ok: bool, r: string)
      ensures ok <==> c.dataType != Unknown
      ensures ok ==> r == sql + ColumnDesc(c).value
      ensures !ok ==> r == sql + c.name + " "
    {
      var desc := ColumnSql(c, CTX_NAME) + " ";
      var ddlType := DdlType(c);
      if ddlType.None? {
        return false, sql + desc;
      }
      desc := desc + ddlType.value;
      ghost var typed := desc;
      if ddlColumnDefaults && !c.autoGenerated && c.defaultValue.Some? {
        desc := desc + (" DEFAULT " + c.defaultValue.value);
      }
      assert desc == typed + DefaultClause(c);
      ghost var defaulted := desc;
      if c.required || c.autoGenerated {
        desc := desc + " NOT NULL";
      }
      assert desc == defaulted + NullClause(c);
      assert desc == ColumnDesc(c).value;
      ok, r := true, sql + desc;
    }

    /** The clauses of the columns createTable can declare, in order. */
    function SupportedDescs(cols: seq<Column>): (r: seq<string>)
      ensures |r| <= |cols|
    {
      if |cols| == 0 then []
      else
        var last := cols[|cols| - 1];
        SupportedDescs(cols[..|cols| - 1]) + (if last.dataType != Unknown then [ColumnDesc(last).value] else [])
    }

    /**
     * The column list of CREATE TABLE as its design intends: one clause per
     * declarable column, each on its own indented line, separated by commas;
     * an UNKNOWN column leaves no trace.
     */
    function ColumnsClause(cols: seq<Column>): string
    {
      ClauseList(SupportedDescs(cols))
    }

    /**
     * The column list of CREATE TABLE as the loop in createTable writes it,
     * with the separator flag it carries: the separator is written before
     * appendColumnDesc runs, so a column that fails still leaves its
     * separator, its name and a blank. The flag is set once some column
     * is declarable, and every column, UNKNOWN or not, leaves at least a
     * separator's worth of text.
     */
    function ColumnsAsWritten(cols: seq<Column>): (r: (string, bool))
      ensures r.1 <==> exists i :: 0 <= i < |cols| && cols[i].dataType != Unknown
      ensures |r.0| >= |cols| * |FIRST_COLUMN|
    {
      if |cols| == 0 then ("", false)
      else
        var (text, addSeparator) := ColumnsAsWritten(cols[..|cols| - 1]);
        var c := cols[|cols| - 1];
        var withSep := text + (if addSeparator then NEXT_COLUMN else FIRST_COLUMN);
        if c.dataType != Unknown then (withSep + ColumnDesc(c).value, true)
        else (withSep + c.name + " ", addSeparator)
    }

    /** When every column has a known type the loop as written and the intended list agree. */
    lemma {:induction false} AsWrittenAgreesWithoutUnknown(cols: seq<Column>)
      requires forall i :: 0 <= i < |cols| ==> cols[i].dataType != Unknown
      ensures ColumnsAsWritten(cols).0 == ColumnsClause(cols)
      ensures ColumnsAsWritten(cols).1 == (|cols| > 0)
      ensures |SupportedDescs(cols)| == |cols|
    {
      if |cols| > 0 {
        var init := cols[..|cols| - 1];
        var c := cols[|cols| - 1];
        assert cols == init + [c];
        AsWrittenAgreesWithoutUnknown(init);
        AsWrittenStep(init, c);
        ClauseStep(init, c);
        SupportedStep(init, c);
      }
    }

    /** One more column: what the loop of createTable does with it. */
    lemma AsWrittenStep(cols: seq<Column>, c: Column)
      ensures var (text, addSeparator) := ColumnsAsWritten(cols);
        var withSep := text + (if addSeparator then NEXT_COLUMN else FIRST_COLUMN);
        ColumnsAsWritten(cols + [c])
          == if c.dataType != Unknown then (withSep + ColumnDesc(c).value, true) else (withSep + c.name + " ", addSeparator)
    {
      assert (cols + [c])[..|cols|] == cols;
    }

    lemma SupportedStep(cols: seq<Column>, c: Column)
      ensures SupportedDescs(cols + [c]) == SupportedDescs(cols) + (if c.dataType != Unknown then [ColumnDesc(c).value] else [])
    {
      assert (cols + [c])[..|cols|] == cols;
    }

    lemma AsWrittenThree(a: Column, u: Column, b: Column)
      requires a.dataType != Unknown && b.dataType != Unknown && u.dataType == Unknown
      ensures ColumnsAsWritten([a, u, b]).0
        == FIRST_COLUMN + ColumnDesc(a).value + NEXT_COLUMN + u.name + " " + NEXT_COLUMN + ColumnDesc(b).value
    {
      AsWrittenStep([], a);
      assert [] + [a] == [a];
      assert "" + FIRST_COLUMN == FIRST_COLUMN;
      AsWrittenStep([a], u);
      assert [a] + [u] == [a, u];
      AsWrittenStep([a, u], b);
      assert [a, u] + [b] == [a, u, b];
    }

    lemma SupportedThree(a: Column, u: Column, b: Column)
      requires a.dataType != Unknown && b.dataType != Unknown && u.dataType == Unknown
      ensures SupportedDescs([a, u, b]) == [ColumnDesc(a).value, ColumnDesc(b).value]
    {
      var da := ColumnDesc(a).value;
      SupportedStep([], a);
      assert [] + [a] == [a];
      assert SupportedDescs([a]) == [da];
      SupportedStep([a], u);
      assert [a] + [u] == [a, u];
      assert SupportedDescs([a, u]) == [da];
      SupportedStep([a, u], b);
      assert [a, u] + [b] == [a, u, b];
    }

    lemma IntendedThree(a: Column, u: Column, b: Column)
      requires a.dataType != Unknown && b.dataType != Unknown && u.dataType == Unknown
      ensures ColumnsClause([a, u, b]) == FIRST_COLUMN + ColumnDesc(a).value + NEXT_COLUMN + ColumnDesc(b).value
    {
      var da := ColumnDesc(a).value;
      var db := ColumnDesc(b).value;
      SupportedThree(a, u, b);
      JoinPair(da, db, NEXT_COLUMN);
      assert ColumnsClause([a, u, b]) == FIRST_COLUMN + (da + NEXT_COLUMN + db);
      AppendAssoc(FIRST_COLUMN, da + NEXT_COLUMN, db);
      AppendAssoc(FIRST_COLUMN, da, NEXT_COLUMN);
    }

    /** One more column: the intended list grows by its clause, or not at all. */
    lemma ClauseStep(cols: seq<Column>, c: Column)
      ensures c.dataType == Unknown ==> ColumnsClause(cols + [c]) == ColumnsClause(cols)
      ensures c.dataType != Unknown ==>
        ColumnsClause(cols + [c])
          == ColumnsClause(cols) + (if |SupportedDescs(cols)| > 0 then NEXT_COLUMN else FIRST_COLUMN) + ColumnDesc(c).value
    {
      SupportedStep(cols, c);
      var prev := SupportedDescs(cols);
      if c.dataType == Unknown {
        assert prev + [] == prev;
      } else {
        ClauseListStep(prev, ColumnDesc(c).value);
      }
    }

    /**
     * An UNKNOWN column between two declarable ones: the statement as
     * written keeps the unknown column's name, a blank and a second
     * separator, where the intended list holds the two clauses only.
     */
    lemma UnknownColumnLeaksIntoTable(a: Column, u: Column, b: Column)
      requires a.dataType != Unknown && b.dataType != Unknown && u.dataType == Unknown
      ensures ColumnsAsWritten([a, u, b]).0
        == FIRST_COLUMN + ColumnDesc(a).value + NEXT_COLUMN + u.name + " " + NEXT_COLUMN + ColumnDesc(b).value
      ensures ColumnsClause([a, u, b]) == FIRST_COLUMN + ColumnDesc(a).value + NEXT_COLUMN + ColumnDesc(b).value
      ensures ColumnsAsWritten([a, u, b]).0 != ColumnsClause([a, u, b])
    {
      AsWrittenThree(a, u, b);
      IntendedThree(a, u, b);
      var asWritten := ColumnsAsWritten([a, u, b]).0;
      assert |asWritten| == |ColumnsClause([a, u, b])| + |u.name| + 1 + |NEXT_COLUMN|;
    }

    /** The primary-key clause of CREATE TABLE. */
    function PrimaryKeyClause(t: Table): string
    {
      match t.primaryKey
      case None => ""
      case Some(pk) => ",\r\n CONSTRAINT " + ElementName(pk.name) + " PRIMARY KEY (" + Join(Names(pk.columns), ", ") + ")"
    }

    /** The CREATE TABLE statement. */
    function TableStmt(t: Table): string
    {
      "-- creating table " + t.name + " --\r\nCREATE TABLE " + TableSql(t) + " ("
        + ColumnsClause(t.columns) + PrimaryKeyClause(t) + ")"
    }

    /** The CREATE [UNIQUE] INDEX statement of a secondary index. */
    function IndexStmt(t: Table, idx: Index): string
    {
      (if idx.kind == Unique then "CREATE UNIQUE INDEX " else "CREATE INDEX ")
        + ElementName(idx.name) + " ON " + TableSql(t) + " (" + Join(Names(idx.columns), ", ") + ")"
    }

    /** One CREATE INDEX statement per index, in order. */
    function IndexStmts(t: Table, idxs: seq<Index>): seq<string>
    {
      if |idxs| == 0 then [] else IndexStmts(t, idxs[..|idxs| - 1]) + [IndexStmt(t, idxs[|idxs| - 1])]
    }

    /** What createTable adds: the table, then one statement per secondary index. */
    function TableStmts(t: Table): seq<string>
    {
      [TableStmt(t)] + IndexStmts(t, SecondaryIndexes(t))
    }

    /** The statements of createTable: the table first, then the i-th secondary index as statement i + 1. */
    lemma {:induction false} IndexStmtsShape(t: Table, idxs: seq<Index>)
      ensures |IndexStmts(t, idxs)| == |idxs|
      ensures forall i :: 0 <= i < |idxs| ==> IndexStmts(t, idxs)[i] == IndexStmt(t, idxs[i])
    {
      if |idxs| > 0 {
        IndexStmtsShape(t, idxs[..|idxs| - 1]);
      }
    }

    /** A UNIQUE index is created unique, every other secondary index plainly. */
    lemma IndexKeyword(t: Table, idx: Index)
      ensures idx.kind == Unique ==> IndexStmt(t, idx)[..20] == "CREATE UNIQUE INDEX "
      ensures idx.kind != Unique ==> IndexStmt(t, idx)[..13] == "CREATE INDEX "
    {
    }

    /** The CREATE SEQUENCE statement for an AUTOINC column; the default value names the sequence. */
    function SequenceStmt(schema: string, c: Column): string
    {
      var seqName := if c.defaultValue.Some? then c.defaultValue.value else c.table + "." + c.name;
      "-- creating sequence for column " + c.table + "." + c.name + " --\r\n"
        + "CREATE SEQUENCE " + QualifiedName(schema, seqName) + " START WITH 1"
    }

    /** One CREATE SEQUENCE statement per column, in order. */
    function SequenceStmts(schema: string, cols: seq<Column>): (r: seq<string>)
      ensures |r| == |cols|
    {
      if |cols| == 0 then []
      else SequenceStmts(schema, cols[..|cols| - 1]) + [SequenceStmt(schema, cols[|cols| - 1])]
    }

    /** One more column in the sequence loop of createDatabase. */
    lemma SequenceStmtsStep(schema: string, cols: seq<Column>, j: nat)
      requires j < |cols|
      ensures SequenceStmts(schema, AutoIncColumns(cols[..j + 1]))
        == SequenceStmts(schema, AutoIncColumns(cols[..j]))
           + (if cols[j].dataType == AutoInc then [SequenceStmt(schema, cols[j])] else [])
    {
      assert cols[..j + 1][..j] == cols[..j];
      var prev := AutoIncColumns(cols[..j]);
      if cols[j].dataType == AutoInc {
        assert (prev + [cols[j]])[..|prev|] == prev;
      } else {
        assert prev + [] == prev;
      }
    }

    /** The sequences of all AUTOINC columns, table by table. */
    function AllSequenceStmts(schema: string, tables: seq<Table>): seq<string>
    {
      if |tables| == 0 then []
      else AllSequenceStmts(schema, tables[..|tables| - 1])
           + SequenceStmts(schema, AutoIncColumns(tables[|tables| - 1].columns))
    }

    lemma AllSequenceStmtsStep(schema: string, tables: seq<Table>, i: nat)
      requires i < |tables|
      ensures AllSequenceStmts(schema, tables[..i + 1])
        == AllSequenceStmts(schema, tables[..i]) + SequenceStmts(schema, AutoIncColumns(tables[i].columns))
    {
      assert tables[..i + 1][..i] == tables[..i];
    }

    function AllTableStmts(tables: seq<Table>): seq<string>
    {
      if |tables| == 0 then [] else AllTableStmts(tables[..|tables| - 1]) + TableStmts(tables[|tables| - 1])
    }

    lemma AllTableStmtsStep(tables: seq<Table>, i: nat)
      requires i < |tables|
      ensures AllTableStmts(tables[..i + 1]) == AllTableStmts(tables[..i]) + TableStmts(tables[i])
    {
      assert tables[..i + 1][..i] == tables[..i];
    }

    /** The foreign-key statement: source columns, then target columns, both in reference order. */
    function RelationStmt(r: Relation): string
      requires HasReferences(r)
    {
      "-- creating foreign key constraint " + r.name + " --\r\n"
        + "ALTER TABLE " + r.references[0].source.table + " ADD CONSTRAINT " + ElementName(r.name)
        + " FOREIGN KEY (" + Join(SourceNames(r.references), ", ") + ") REFERENCES "
        + r.references[0].target.table + " (" + Join(TargetNames(r.references), ", ") + ")"
    }

    /** The statement that drops a foreign key. */
    function DropRelationStmt(r: Relation): string
      requires HasReferences(r)
    {
      "-- dropping constraint " + r.name + " --\r\n"
        + "ALTER TABLE " + r.references[0].source.table + " DROP CONSTRAINT " + ElementName(r.name)
    }

    function AllRelationStmts(rels: seq<Relation>): (r: seq<string>)
      requires forall i :: 0 <= i < |rels| ==> HasReferences(rels[i])
      ensures |r| == |rels| && forall i :: 0 <= i < |rels| ==> r[i] == RelationStmt(rels[i])
    {
      seq(|rels|, i requires 0 <= i < |rels| && HasReferences(rels[i]) => RelationStmt(rels[i]))
    }

    lemma AllRelationStmtsStep(rels: seq<Relation>, i: nat)
      requires i < |rels| && forall k :: 0 <= k < |rels| ==> HasReferences(rels[k])
      ensures AllRelationStmts(rels[..i + 1]) == AllRelationStmts(rels[..i]) + [RelationStmt(rels[i])]
    {
      assert rels[..i + 1][..i] == rels[..i];
    }

    /** The CREATE VIEW statement: the declared columns and the command without ORDER BY, in parentheses. */
    function ViewStmt(v: View): string
      requires v.command != null
    {
      "CREATE VIEW " + v.name + " (" + Join(Names(v.columns), ", ") + ")\r\nAS\r\n"
        + "(" + SelectSql(Query(v.command.source, []), HSql).GetOr("null") + ")"
    }

    /** One CREATE VIEW statement per view, in order. */
    function ViewStmts(views: seq<View>): (r: seq<string>)
      requires forall i :: 0 <= i < |views| ==> views[i].command != null
      ensures |r| == |views|
    {
      if |views| == 0 then []
      else ViewStmts(views[..|views| - 1]) + [ViewStmt(views[|views| - 1])]
    }

    /** The ALTER TABLE statement of alterTable; appendColumnDesc's outcome is not checked. */
    function AlterTableStmt(c: Column, t: CmdType): string
    {
      var desc := ColumnDesc(c).GetOr(c.name + " ");
      "ALTER TABLE " + c.table
        + (match t
           case Create => " ADD " + desc
           case Alter => " ALTER COLUMN " + desc
           case Drop => " DROP COLUMN " + c.name)
    }

    /** The column-name lists of keys, indexes, relations and views: names separated by ", ". */
    method AppendNames(sql: string, names: seq<string>) returns (r: string)
      ensures r == sql + Join(names, ", ")
    {
      r := sql;
      var addSeparator := false;
      var i := 0;
      while i < |names|
        invariant 0 <= i <= |names|
        invariant addSeparator == (i > 0)
        invariant r == sql + Join(names[..i], ", ")
      {
        r := r + (if addSeparator then ", " else "") + names[i];
        addSeparator := true;
        assert names[..i + 1][..i] == names[..i];
        i := i + 1;
      }
      assert names[..|names|] == names;
    }

    /** createSequence(db, c, script) */
    method CreateSequence(schema: string, c: Column, script: SqlScript) returns (ok: bool)
      modifies script
      ensures script.stmts == old(script.stmts) + [SequenceStmt(schema, c)]
      ensures ok
    {
      var seqName := if c.defaultValue.Some? then c.defaultValue.value else c.table + "." + c.name;
      var sql := "-- creating sequence for column " + c.table + "." + c.name + " --\r\n";
      sql := sql + "CREATE SEQUENCE " + QualifiedName(schema, seqName) + " START WITH 1";
      ok := script.AddStmt(sql);
    }

    /**
     * The column loop of createTable, as intended: the clause of each
     * declarable column, preceded by a separator once one was written.
     */
    method ColumnList(columns: seq<Column>) returns (cols: string)
      ensures cols == ColumnsClause(columns)
    {
      cols := "";
      var addSeparator := false;
      var i := 0;
      assert columns[..0] == [];
      while i < |columns|
        invariant 0 <= i <= |columns|
        invariant cols == ColumnsClause(columns[..i])
        invariant addSeparator == (|SupportedDescs(columns[..i])| > 0)
      {
        var c := columns[i];
        ghost var done := columns[..i];
        assert columns[..i + 1] == done + [c];
        SupportedStep(done, c);
        ClauseStep(done, c);
        var descOk, desc := AppendColumnDesc("", c);
        if descOk {
          assert desc == ColumnDesc(c).value by {
            assert "" + ColumnDesc(c).value == ColumnDesc(c).value;
          }
          cols := cols + (if addSeparator then NEXT_COLUMN else FIRST_COLUMN) + desc;
          addSeparator := true;
        }
        i := i + 1;
      }
      assert columns[..|columns|] == columns;
    }

    /**
     * createTable(t, script): the table with its columns and primary key,
     * then each secondary index. The column loop is the intended one: a
     * column whose clause cannot be built is dropped with its separator.
     */
    method CreateTable(t: Table, script: SqlScript) returns (ok: bool)
      modifies script
      ensures script.stmts == old(script.stmts) + TableStmts(t)
      ensures ok
    {
      var sql := TableStatement(t);
      ok := script.AddStmt(sql);
      ghost var afterTable := script.stmts;
      CreateIndexes(t, script);
      AppendAssoc(old(script.stmts), [sql], IndexStmts(t, SecondaryIndexes(t)));
      ok := true;
    }

    /** The CREATE TABLE statement as createTable builds it: header, column list, primary key. */
    method TableStatement(t: Table) returns (sql: string)
      ensures sql == TableStmt(t)
    {
      sql := "-- creating table " + t.name + " --\r\nCREATE TABLE " + TableSql(t) + " (";
      var cols := ColumnList(t.columns);
      sql := sql + cols;
      sql := AppendPrimaryKey(sql, t);
      sql := sql + ")";
    }

    /** The primary-key part of createTable. */
    method AppendPrimaryKey(head: string, t: Table) returns (sql: string)
      ensures sql == head + PrimaryKeyClause(t)
    {
      sql := head;
      if t.primaryKey.Some? {
        var pk := t.primaryKey.value;
        var clause := ",\r\n CONSTRAINT " + ElementName(pk.name) + " PRIMARY KEY (";
        clause := AppendNames(clause, Names(pk.columns));
        clause := clause + ")";
        assert clause == PrimaryKeyClause(t);
        sql := sql + clause;
      } else {
        assert head + "" == head;
      }
    }

    /** The index loop of createTable: one statement per secondary index, in declared order. */
    method CreateIndexes(t: Table, script: SqlScript)
      modifies script
      ensures script.stmts == old(script.stmts) + IndexStmts(t, SecondaryIndexes(t))
    {
      var sec := SecondaryIndexes(t);
      var k := 0;
      while k < |sec|
        invariant 0 <= k <= |sec|
        invariant script.stmts == old(script.stmts) + IndexStmts(t, sec[..k])
      {
        var idx := sec[k];
        var stmt := if idx.kind == Unique then "CREATE UNIQUE INDEX " else "CREATE INDEX ";
        stmt := stmt + ElementName(idx.name) + " ON " + TableSql(t) + " (";
        stmt := AppendNames(stmt, Names(idx.columns));
        stmt := stmt + ")";
        assert stmt == IndexStmt(t, idx);
        var ok := script.AddStmt(stmt);
        assert sec[..k + 1][..k] == sec[..k];
        k := k + 1;
      }
      assert sec[..|sec|] == sec;
    }

    /** alterRelation(r, type, script): CREATE adds the foreign key, DROP drops it, anything else is not implemented. */
    method AlterRelation(r: Relation, t: CmdType, script: SqlScript) returns (status: Status)
      requires t == Alter || HasReferences(r)
      modifies script
      ensures t == Create ==> status == Ok && script.stmts == old(script.stmts) + [RelationStmt(r)]
      ensures t == Drop ==> status == Ok && script.stmts == old(script.stmts) + [DropRelationStmt(r)]
      ensures t == Alter ==> status == Failed(NotImplemented) && script.stmts == old(script.stmts)
    {
      match t {
        case Create =>
          var refs := r.references;
          var sql := "-- creating foreign key constraint " + r.name + " --\r\n";
          sql := sql + "ALTER TABLE " + refs[0].source.table + " ADD CONSTRAINT " + ElementName(r.name);
          sql := sql + " FOREIGN KEY (";
          sql := AppendNames(sql, SourceNames(refs));
          sql := sql + ") REFERENCES " + refs[0].target.table + " (";
          sql := AppendNames(sql, TargetNames(refs));
          sql := sql + ")";
          var ok := script.AddStmt(sql);
          status := Ok;
        case Drop =>
          var sql := "-- dropping constraint " + r.name + " --\r\n";
          sql := sql + "ALTER TABLE " + r.references[0].source.table + " DROP CONSTRAINT " + ElementName(r.name);
          var ok := script.AddStmt(sql);
          status := Ok;
        case Alter =>
          status := Failed(NotImplemented);
      }
    }

    /** alterTable(col, type, script) */
    method AlterTable(c: Column, t: CmdType, script: SqlScript) returns (ok: bool)
      modifies script
      ensures script.stmts == old(script.stmts) + [AlterTableStmt(c, t)]
      ensures ok
    {
      var sql := "ALTER TABLE " + c.table;
      ghost var head := sql;
      ghost var desc := ColumnDesc(c).GetOr(c.name + " ");
      match t {
        case Create =>
          var descOk;
          descOk, sql := AppendColumnDesc(sql + " ADD ", c);
          assert sql == head + " ADD " + desc;
          AppendAssoc(head, " ADD ", desc);
          assert sql == head + (" ADD " + desc);
        case Alter =>
          var descOk;
          descOk, sql := AppendColumnDesc(sql + " ALTER COLUMN ", c);
          assert sql == head + " ALTER COLUMN " + desc;
          AppendAssoc(head, " ALTER COLUMN ", desc);
          assert sql == head + (" ALTER COLUMN " + desc);
        case Drop =>
          sql := sql + " DROP COLUMN " + c.name;
          AppendAssoc(head, " DROP COLUMN ", c.name);
          assert sql == head + (" DROP COLUMN " + c.name);
      }
      ok := script.AddStmt(sql);
    }

    /**
     * createView(v, script): a view without a command fails with the view's
     * own error, or NotImplemented; otherwise the command's ORDER BY is
     * cleared and the view is created over it.
     */
    method CreateView(v: View, script: SqlScript) returns (status: Status)
      modifies script, (if v.command != null then {v.command} else {})`orderBy
      ensures v.command == null ==> status == Failed(MissingCommandError(v)) && script.stmts == old(script.stmts)
      ensures v.command != null ==>
        status == Ok && v.command.orderBy == [] && script.stmts == old(script.stmts) + [ViewStmt(v)]
    {
      var cmd := v.command;
      if cmd == null {
        if v.error.Some? {
          return Failed(v.error.value);
        }
        return Failed(NotImplemented);
      }
      cmd.ClearOrderBy();
      var sql := "CREATE VIEW " + v.name + " (";
      sql := AppendNames(sql, Names(v.columns));
      sql := sql + ")\r\nAS\r\n";
      sql := cmd.AddSQL(sql, HSql);
      var ok := script.AddStmt(sql);
      status := Ok;
    }

    /** dropObject(name, objType, script): a missing or empty name is an invalid argument. */
    method DropObject(name: string, objType: string, script: SqlScript) returns (status: Status)
      modifies script
      ensures |name| == 0 ==> status == Failed(InvalidArg("name")) && script.stmts == old(script.stmts)
      ensures |name| > 0 ==> status == Ok && script.stmts == old(script.stmts) + ["DROP " + objType + " " + ElementName(name)]
    {
      if |name| == 0 {
        return Failed(InvalidArg("name"));
      }
      var sql := "DROP " + objType + " " + ElementName(name);
      var ok := script.AddStmt(sql);
      status := Ok;
    }

    /** The sequence loop of createDatabase for one table. */
    method CreateTableSequences(schema: string, t: Table, script: SqlScript)
      modifies script
      ensures script.stmts == old(script.stmts) + SequenceStmts(schema, AutoIncColumns(t.columns))
    {
      var j := 0;
      while j < |t.columns|
        invariant 0 <= j <= |t.columns|
        invariant script.stmts == old(script.stmts) + SequenceStmts(schema, AutoIncColumns(t.columns[..j]))
      {
        ghost var done := SequenceStmts(schema, AutoIncColumns(t.columns[..j]));
        SequenceStmtsStep(schema, t.columns, j);
        if t.columns[j].dataType == AutoInc {
          var ok := CreateSequence(schema, t.columns[j], script);
          AppendAssoc(old(script.stmts), done, [SequenceStmt(schema, t.columns[j])]);
        } else {
          assert done + [] == done;
        }
        j := j + 1;
      }
      assert t.columns[..|t.columns|] == t.columns;
    }

    method CreateSequences(schema: string, tables: seq<Table>, script: SqlScript)
      modifies script
      ensures script.stmts == old(script.stmts) + AllSequenceStmts(schema, tables)
    {
      var i := 0;
      while i < |tables|
        invariant 0 <= i <= |tables|
        invariant script.stmts == old(script.stmts) + AllSequenceStmts(schema, tables[..i])
      {
        ghost var done := AllSequenceStmts(schema, tables[..i]);
        CreateTableSequences(schema, tables[i], script);
        ghost var added := SequenceStmts(schema, AutoIncColumns(tables[i].columns));
        AllSequenceStmtsStep(schema, tables, i);
        AppendAssoc(old(script.stmts), done, added);
        i := i + 1;
      }
      assert tables[..|tables|] == tables;
    }

    method CreateTables(tables: seq<Table>, script: SqlScript)
      modifies script
      ensures script.stmts == old(script.stmts) + AllTableStmts(tables)
    {
      var i := 0;
      while i < |tables|
        invariant 0 <= i <= |tables|
        invariant script.stmts == old(script.stmts) + AllTableStmts(tables[..i])
      {
        ghost var before := script.stmts;
        ghost var done := AllTableStmts(tables[..i]);
        var ok := CreateTable(tables[i], script);
        ghost var added := TableStmts(tables[i]);
        AllTableStmtsStep(tables, i);
        AppendAssoc(old(script.stmts), done, added);
        i := i + 1;
      }
      assert tables[..|tables|] == tables;
    }

    method CreateRelations(rels: seq<Relation>, script: SqlScript)
      requires forall i :: 0 <= i < |rels| ==> HasReferences(rels[i])
      modifies script
      ensures script.stmts == old(script.stmts) + AllRelationStmts(rels)
    {
      var i := 0;
      while i < |rels|
        invariant 0 <= i <= |rels|
        invariant script.stmts == old(script.stmts) + AllRelationStmts(rels[..i])
      {
        ghost var done := AllRelationStmts(rels[..i]);
        var st := AlterRelation(rels[i], Create, script);
        AllRelationStmtsStep(rels, i);
        AppendAssoc(old(script.stmts), done, [RelationStmt(rels[i])]);
        i := i + 1;
      }
      assert rels[..|rels|] == rels;
    }

    /** The view loop of createDatabase: it stops at the first view that fails. */
    method CreateViews(views: seq<View>, script: SqlScript) returns (status: Status)
      modifies script, ReachedCommands(views)`orderBy
      ensures script.stmts == old(script.stmts) + ViewStmts(views[..FirstMissingCommand(views)])
      ensures FirstMissingCommand(views) == |views| ==> status == Ok
      ensures FirstMissingCommand(views) < |views| ==>
        status == Failed(MissingCommandError(views[FirstMissingCommand(views)]))
      ensures forall i :: 0 <= i < FirstMissingCommand(views) ==> views[i].command.orderBy == []
    {
      var k := FirstMissingCommand(views);
      var i := 0;
      while i < |views|
        invariant 0 <= i <= k
        invariant forall m :: 0 <= m < i ==> views[m].command != null
        invariant script.stmts == old(script.stmts) + ViewStmts(views[..i])
        invariant forall m :: 0 <= m < i ==> views[m].command.orderBy == []
      {
        var v := views[i];
        label before:
        status := CreateView(v, script);
        if status != Ok {
          assert v.command == null;
          assert i == k;
          return;
        }
        assert v.command != null;
        forall m | 0 <= m < i + 1
          ensures views[m].command.orderBy == []
        {
          if m < i && views[m].command != v.command {
            assert views[m].command.orderBy == old@before(views[m].command.orderBy);
          }
        }
        assert views[..i + 1][..i] == views[..i];
        i := i + 1;
      }
      status := Ok;
    }

    /**
     * createDatabase(db, script): a sequence for every AUTOINC column, then
     * every table, every foreign key and every view, in that order. Tables
     * and foreign keys always succeed; the first view without a command
     * stops the run, and no later view is emitted.
     */
    method CreateDatabase(db: Database, script: SqlScript) returns (status: Status)
      requires forall i :: 0 <= i < |db.relations| ==> HasReferences(db.relations[i])
      modifies script, ReachedCommands(db.views)`orderBy
      ensures var k := FirstMissingCommand(db.views);
        script.stmts == old(script.stmts) + AllSequenceStmts(db.schema, db.tables) + AllTableStmts(db.tables)
                        + AllRelationStmts(db.relations) + ViewStmts(db.views[..k])
        && (k == |db.views| ==> status == Ok)
        && (k < |db.views| ==> status == Failed(MissingCommandError(db.views[k])))
        && forall i :: 0 <= i < k ==> db.views[i].command.orderBy == []
    {
      CreateSequences(db.schema, db.tables, script);
      CreateTables(db.tables, script);
      CreateRelations(db.relations, script);
      status := CreateViews(db.views, script);
    }

    /**
     * getDDLScript(type, dbo, script): null or an object of a database that
     * is not attached to this driver is an invalid argument; otherwise the
     * object's kind and the command type choose the statement.
     */
    method GetDDLScript(t: CmdType, dbo: Option<DbObject>, attached: bool, script: SqlScript) returns (status: Status)
      requires dbo.Some? && attached && dbo.value.DatabaseObj? && t == Create ==>
        forall i :: 0 <= i < |dbo.value.db.relations| ==> HasReferences(dbo.value.db.relations[i])
      requires dbo.Some? && attached && dbo.value.RelationObj? && t != Alter ==> HasReferences(dbo.value.relation)
      modifies script
      modifies (if dbo.Some? && dbo.value.DatabaseObj? then ReachedCommands(dbo.value.db.views) else {})`orderBy
      modifies (if dbo.Some? && dbo.value.ViewObj? && dbo.value.view.command != null
                then {dbo.value.view.command} else {})`orderBy
      ensures dbo.None? || !attached || dbo.value.OtherObj? ==>
        status == Failed(InvalidArg("dbo")) && script.stmts == old(script.stmts)
      ensures dbo.Some? && attached && t == Alter && !dbo.value.ColumnObj? && !dbo.value.OtherObj? ==>
        status == Failed(NotImplemented) && script.stmts == old(script.stmts)
      ensures dbo.Some? && attached && dbo.value.TableObj? && t == Create ==>
        status == Ok && script.stmts == old(script.stmts) + TableStmts(dbo.value.table)
      ensures dbo.Some? && attached && dbo.value.ColumnObj? ==>
        status == Ok && script.stmts == old(script.stmts) + [AlterTableStmt(dbo.value.column, t)]
      ensures dbo.Some? && attached && dbo.value.RelationObj? && t == Create ==>
        status == Ok && script.stmts == old(script.stmts) + [RelationStmt(dbo.value.relation)]
      ensures dbo.Some? && attached && dbo.value.RelationObj? && t == Drop ==>
        status == Ok && script.stmts == old(script.stmts) + [DropRelationStmt(dbo.value.relation)]
      ensures dbo.Some? && attached && t == Drop && (dbo.value.DatabaseObj? || dbo.value.TableObj? || dbo.value.ViewObj?) ==>
        var name := DroppedName(dbo.value);
        (|name| == 0 ==> status == Failed(InvalidArg("name")) && script.stmts == old(script.stmts))
        && (|name| > 0 ==>
              status == Ok && script.stmts == old(script.stmts) + ["DROP " + DroppedKind(dbo.value) + " " + ElementName(name)])
      ensures dbo.Some? && attached && dbo.value.ViewObj? && t == Create ==>
        var v := dbo.value.view;
        (v.command == null ==> status == Failed(MissingCommandError(v)) && script.stmts == old(script.stmts))
        && (v.command != null ==>
              status == Ok && v.command.orderBy == [] && script.stmts == old(script.stmts) + [ViewStmt(v)])
      ensures dbo.Some? && attached && dbo.value.DatabaseObj? && t == Create ==>
        var db := dbo.value.db;
        var k := FirstMissingCommand(db.views);
        script.stmts == old(script.stmts) + AllSequenceStmts(db.schema, db.tables) + AllTableStmts(db.tables)
                        + AllRelationStmts(db.relations) + ViewStmts(db.views[..k])
        && (k == |db.views| ==> status == Ok)
        && (k < |db.views| ==> status == Failed(MissingCommandError(db.views[k])))
        && forall i :: 0 <= i < k ==> db.views[i].command.orderBy == []
    {
      if dbo.None? || !attached {
        return Failed(InvalidArg("dbo"));
      }
      match dbo.value {
        case DatabaseObj(db) =>
          match t {
            case Create => status := CreateDatabase(db, script);
            case Drop => status := DropObject(db.schema, "DATABASE", script);
            case Alter => status := Failed(NotImplemented);
          }
        case TableObj(table) =>
          match t {
            case Create =>
              var ok := CreateTable(table, script);
              status := Ok;
            case Drop => status := DropObject(table.name, "TABLE", script);
            case Alter => status := Failed(NotImplemented);
          }
        case ViewObj(view) =>
          match t {
            case Create => status := CreateView(view, script);
            case Drop => status := DropObject(view.name, "VIEW", script);
            case Alter => status := Failed(NotImplemented);
          }
        case RelationObj(rel) =>
          match t {
            case Create => status := AlterRelation(rel, t, script);
            case Drop => status := AlterRelation(rel, t, script);
            case Alter => status := Failed(NotImplemented);
          }
        case ColumnObj(col) =>
          var ok := AlterTable(col, t, script);
          status := Ok;
        case OtherObj =>
          status := Failed(InvalidArg("dbo"));
      }
    }
  }
}
