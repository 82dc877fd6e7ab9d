# Empire-db SQL expressions, HSQLDB dialect and DDL scripts in Dafny

This project models the part of Empire-db that turns an in-memory description of SQL into text. It covers four things:

- **Column expressions.** The expression nodes `DBAliasExpr`, `DBFuncExpr`, `DBCaseExpr` and `OracleRowNumExpr`, and how they render in a given context. They are modelled as one closed datatype `ColumnExprs.ColumnExpr` with the function `Render(expr, ctx, dialect)`. The mutable function node (`DBFuncExpr`, whose template is resolved lazily) is also a class, `FuncExprs.FuncExpr`.
- **Command expressions** (`DBCommandExpr`). `Commands.CommandExpr` is a class with a mutable ORDER BY list and a lazily created sub-query row set, `ColumnExprs.CmdQuery`. It builds `INSERT INTO … SELECT` statements, and UNION and INTERSECT commands.
- **The HSQLDB driver** (`DBDatabaseDriverHSql`):
  - the pure tables are in `HSqlDialect`: supported features, SQL phrases and conversion templates;
  - the DDL generator is in `HSqlDdl.HSqlDriver`. It creates databases, sequences, tables, indexes, foreign keys, views and column changes, and drops objects.
- **The SQL script** (`DBSQLScript`), modelled as `SqlScripts.SqlScript`. It is an append-only list of statements that can be run in order against an abstract database and printed.

Supporting modules:

- `SqlTypes`: Option, Result, Status, error kinds, data types, render contexts, phrase ids and the dialect.
- `Text`: Join, ASCII upper-casing, trim and printing integers.
- `Schema`: columns, indexes, tables and relations.

Code that the core calls but that is not part of this model is replaced by small stand-ins. Each is named where it is defined:

- `DBColumn.addSQL` → `ColumnExprs.ColumnSql`: the column name, prefixed by its table in a full-name context.
- `DBTable.addSQL` → `Commands.TableSql`: the table name.
- The `?`/`{n}` substitution of `DBAbstractFuncExpr` → `ColumnExprs.Substitute`.
- `DBCompareExpr` → `ColumnExprs.CompareExpr`: left, operator, right.
- The select text of `DBCommand` and `DBCombinedCmd` → `Commands.SelectSql`. The ORDER BY list is appended with a line break.
- `appendElementName`, `detectQuoteName` and `DBDatabase.appendQualifiedName` → `HSqlDdl.HSqlDriver.ElementName` and `QualifiedName`. A reserved keyword is put in the driver's quotes.
- `getValueString` → the default value's own text.
- `DBColumn.toString` → `table.name`.
- `DBRowSet.getColumn(String)` → `Schema.FindColumn`: the first column whose name is exactly the given one.
- `DBRowSet.getColumn(int)` → `Schema.ColumnAt`: the column at that position, or none outside the list.
- `DBView.addSQL` in a full-name context → the view's name, in `HSqlDdl.HSqlDriver.ViewStmt`.

The numeric values of the phrase ids and of the context bits are not part of this model:

- phrase ids are a datatype, numbered 1 to 46 in the order the HSQLDB driver lists them (`SqlTypes.Code`);
- a render context is a set of flags.

Two behaviours of the code are easy to miss; the model follows the code in both:

- A function node's template is cached. `DBFuncExpr.addSQL` stores the first driver's template in the node (DBFuncExpr.java lines 124-127), and every later render reuses it. The class `FuncExprs.FuncExpr` follows the code: `FuncExprs.FuncExpr.AddSQL` and `FuncExprs.TemplateKeptAfterFirstRender` model the caching. A function node held inside a `ColumnExprs.ColumnExpr` value does not cache (see "## Left out").
- An UNKNOWN column gets no declaration in CREATE TABLE, but the code still writes its separator; see "## Findings".

## Model

| member | source | states |
|---|---|---|
| SqlScripts.SqlScript.constructor | core/Empire-db/src/org/apache/empire/db/DBSQLScript.java:42 | a new script holds no statements |
| SqlScripts.SqlScript.AddStmt | core/Empire-db/src/org/apache/empire/db/DBSQLScript.java:50-54 | the statement is appended at the end, earlier ones are unchanged, and the call reports success |
| SqlScripts.SqlScript.AddStmtFrom | core/Empire-db/src/org/apache/empire/db/DBSQLScript.java:62-69 | the builder's text is appended and the builder is left empty |
| SqlScripts.SqlScript.Count | core/Empire-db/src/org/apache/empire/db/DBSQLScript.java:75-78 | the count is the number of statements held |
| SqlScripts.SqlScript.GetStmt | core/Empire-db/src/org/apache/empire/db/DBSQLScript.java:85-88 | statement i is the i-th one added |
| SqlScripts.SqlScript.Clear | core/Empire-db/src/org/apache/empire/db/DBSQLScript.java:93-96 | no statement is left |
| SqlScripts.SqlScript.Run | core/Empire-db/src/org/apache/empire/db/DBSQLScript.java:105-125 | statements run strictly in order. Without ignoreErrors: success iff every statement succeeds; on failure the failing statement is the last one executed, every earlier one succeeded and nothing later ran. With ignoreErrors: every statement is tried and the run succeeds |
| SqlScripts.SqlScript.ToString | core/Empire-db/src/org/apache/empire/db/DBSQLScript.java:139-148 | the printed script is `Serialize(stmts)`: each statement followed by the separator |
| SqlScripts.SerializeConcat | core/Empire-db/src/org/apache/empire/db/DBSQLScript.java:139-148 | printing two lists one after the other equals printing their concatenation |
| SqlScripts.SerializeLength | core/Empire-db/src/org/apache/empire/db/DBSQLScript.java:139-148 | the printed length is the statements' total length plus one four-character separator per statement |
| SqlScripts.SerializeTerminated | core/Empire-db/src/org/apache/empire/db/DBSQLScript.java:139-148 | a non-empty script ends with the separator, the last statement included |
| HSqlDialect.OnlySequencesSupported | empire-db/src/main/java/org/apache/empire/db/hsql/DBDatabaseDriverHSql.java:96-106 | a feature is supported iff it is SEQUENCES |
| HSqlDialect.PhraseTableDegrades | empire-db/src/main/java/org/apache/empire/db/hsql/DBDatabaseDriverHSql.java:114-175 | the phrase is "?" exactly for ids the driver does not list and for SQL_FUNC_REVERSE; the dialect has a phrase for every id |
| HSqlDialect.FunctionTemplatesHavePlaceholder | empire-db/src/main/java/org/apache/empire/db/hsql/DBDatabaseDriverHSql.java:137-167 | every function template from COALESCE to DECODE holds the operand placeholder `?` |
| HSqlDialect.HSqlUpperName | empire-db/src/main/java/org/apache/empire/db/expr/column/DBFuncExpr.java:93-112 | the function name of HSQLDB's upper-case template is "ucase" |
| HSqlDialect.HSqlReverseName | empire-db/src/main/java/org/apache/empire/db/expr/column/DBFuncExpr.java:93-112 | the function name of HSQLDB's "?" template for REVERSE falls back to "func_21" |
| HSqlDialect.HSqlUpperRenders | empire-db/src/main/java/org/apache/empire/db/expr/column/DBFuncExpr.java:121-128 | an upper-cased column renders as `ucase(column)` with this driver |
| HSqlDialect.HSqlAliasRenders | empire-db/src/main/java/org/apache/empire/db/expr/column/DBAliasExpr.java:161-178 | an aliased column renders as `column AS ALIAS` in an alias context with this driver |
| HSqlDialect.ConvertPhraseDegrades | empire-db/src/main/java/org/apache/empire/db/hsql/DBDatabaseDriverHSql.java:182-223 | the conversion is "?" iff the destination is not text, char, integer, decimal or double, or it is a formatted text conversion of an integer; every template holds `?` |
| HSqlDialect.ConvertWithFormat | empire-db/src/main/java/org/apache/empire/db/hsql/DBDatabaseDriverHSql.java:182-223 | a formatted text conversion of a non-integer is `to_char(?, 'fmt')`; without a format it is `convert(?, CHAR)` |
| HSqlDdl.DdlType | empire-db/src/main/java/org/apache/empire/db/hsql/DBDatabaseDriverHSql.java:485-552 | a column has a DDL type iff its type is not UNKNOWN |
| HSqlDdl.DdlTypeWidths | empire-db/src/main/java/org/apache/empire/db/hsql/DBDatabaseDriverHSql.java:494-513 | size 0 gives VARCHAR(100) and CHAR(1); any other size gives its absolute value as the width; INTEGER and AUTOINC give BIGINT |
| HSqlDdl.AutoIncColumnsExact | empire-db/src/main/java/org/apache/empire/db/hsql/DBDatabaseDriverHSql.java:335-347 | a sequence is made for a column iff its type is AUTOINC |
| HSqlDdl.SecondaryExact | empire-db/src/main/java/org/apache/empire/db/hsql/DBDatabaseDriverHSql.java:440-447 | an index gets its own CREATE INDEX iff it is neither the primary key nor of kind PRIMARYKEY |
| HSqlDdl.SourceNames | empire-db/src/main/java/org/apache/empire/db/hsql/DBDatabaseDriverHSql.java:589-597 | the FOREIGN KEY list holds the i-th reference's source column at position i |
| HSqlDdl.TargetNames | empire-db/src/main/java/org/apache/empire/db/hsql/DBDatabaseDriverHSql.java:602-609 | the REFERENCES list holds the i-th reference's target column at position i, so the two lists pair up |
| HSqlDdl.HSqlDriver.constructor | empire-db/src/main/java/org/apache/empire/db/hsql/DBDatabaseDriverHSql.java:70-74 | the reserved keywords are the base driver's plus "count" |
| HSqlDdl.HSqlDriver.DefaultClause | empire-db/src/main/java/org/apache/empire/db/hsql/DBDatabaseDriverHSql.java:555-558 | DEFAULT is written iff DDL defaults are on, the column is not auto-generated and it has a default |
| HSqlDdl.HSqlDriver.NullClause | empire-db/src/main/java/org/apache/empire/db/hsql/DBDatabaseDriverHSql.java:559-561 | NOT NULL is written iff the column is required or auto-generated |
| HSqlDdl.HSqlDriver.ColumnDesc | empire-db/src/main/java/org/apache/empire/db/hsql/DBDatabaseDriverHSql.java:481-564 | a column clause exists iff the type is not UNKNOWN |
| HSqlDdl.HSqlDriver.ColumnDescCases | empire-db/src/main/java/org/apache/empire/db/hsql/DBDatabaseDriverHSql.java:555-561 | an auto-generated column is `name TYPE NOT NULL`, never with a DEFAULT; a plain column is `name TYPE`; a required column with a default is `name TYPE DEFAULT v NOT NULL` |
| HSqlDdl.HSqlDriver.AppendColumnDesc | empire-db/src/main/java/org/apache/empire/db/hsql/DBDatabaseDriverHSql.java:481-564 | succeeds iff the type is not UNKNOWN; on success it appends the column clause; on failure it has already appended the name and a blank |
| HSqlDdl.HSqlDriver.ColumnList | empire-db/src/main/java/org/apache/empire/db/hsql/DBDatabaseDriverHSql.java:407-418 | the column loop (corrected) yields the intended list: the clauses of the declarable columns, indented and comma-separated |
| HSqlDdl.HSqlDriver.ColumnsAsWritten | empire-db/src/main/java/org/apache/empire/db/hsql/DBDatabaseDriverHSql.java:407-418 | the column loop as written: the separator flag is set exactly when some column is declarable, and every column, UNKNOWN included, leaves at least a separator |
| HSqlDdl.HSqlDriver.AsWrittenAgreesWithoutUnknown | empire-db/src/main/java/org/apache/empire/db/hsql/DBDatabaseDriverHSql.java:407-418 | when no column is UNKNOWN, the loop as written and the intended list give the same text |
| HSqlDdl.HSqlDriver.UnknownColumnLeaksIntoTable | empire-db/src/main/java/org/apache/empire/db/hsql/DBDatabaseDriverHSql.java:407-418 | with an UNKNOWN column between two others, the loop as written keeps its name and an extra separator, and differs from the intended list |
| HSqlDdl.HSqlDriver.AppendNames | empire-db/src/main/java/org/apache/empire/db/hsql/DBDatabaseDriverHSql.java:424-433 | the name loop writes the names in order with ", " between consecutive ones only |
| HSqlDdl.HSqlDriver.IndexStmtsShape | empire-db/src/main/java/org/apache/empire/db/hsql/DBDatabaseDriverHSql.java:438-469 | one index statement per secondary index, in declared order |
| HSqlDdl.HSqlDriver.IndexKeyword | empire-db/src/main/java/org/apache/empire/db/hsql/DBDatabaseDriverHSql.java:451 | a UNIQUE index starts `CREATE UNIQUE INDEX `, any other `CREATE INDEX ` |
| HSqlDdl.HSqlDriver.CreateSequence | empire-db/src/main/java/org/apache/empire/db/hsql/DBDatabaseDriverHSql.java:379-393 | one CREATE SEQUENCE statement, named by the default value or else the column, starting with 1 |
| HSqlDdl.ClauseListStep | empire-db/src/main/java/org/apache/empire/db/hsql/DBDatabaseDriverHSql.java:409-418 | one more clause extends the column list by the first-line separator when the list was empty and by the comma separator otherwise, then the clause |
| HSqlDdl.HSqlDriver.TableStatement | empire-db/src/main/java/org/apache/empire/db/hsql/DBDatabaseDriverHSql.java:402-436 | builds exactly the CREATE TABLE statement: comment header, qualified table name, intended column list, primary-key constraint, closing parenthesis |
| HSqlDdl.HSqlDriver.AppendPrimaryKey | empire-db/src/main/java/org/apache/empire/db/hsql/DBDatabaseDriverHSql.java:419-435 | appends the named PRIMARY KEY constraint over the key columns, comma-separated, or nothing when the table has no primary key |
| HSqlDdl.HSqlDriver.CreateTable | empire-db/src/main/java/org/apache/empire/db/hsql/DBDatabaseDriverHSql.java:400-473 | the CREATE TABLE statement (intended column list, primary-key constraint), then every secondary index; always succeeds |
| HSqlDdl.HSqlDriver.CreateIndexes | empire-db/src/main/java/org/apache/empire/db/hsql/DBDatabaseDriverHSql.java:438-469 | appends exactly the secondary-index statements |
| HSqlDdl.HSqlDriver.AlterRelation | empire-db/src/main/java/org/apache/empire/db/hsql/DBDatabaseDriverHSql.java:571-636 | CREATE appends the foreign-key statement and DROP appends `ALTER TABLE … DROP CONSTRAINT`; ALTER fails with NotImplemented and appends nothing |
| HSqlDdl.HSqlDriver.AlterTable | empire-db/src/main/java/org/apache/empire/db/hsql/DBDatabaseDriverHSql.java:645-667 | one ALTER TABLE statement: ADD or ALTER COLUMN with the column clause, or DROP COLUMN with the name |
| HSqlDdl.HSqlDriver.CreateView | empire-db/src/main/java/org/apache/empire/db/hsql/DBDatabaseDriverHSql.java:674-708 | without a command: fails with the view's error, or NotImplemented, and appends nothing. Otherwise: clears the command's ORDER BY and appends CREATE VIEW over the command in parentheses; nothing but that command's ORDER BY list and the script changes |
| HSqlDdl.HSqlDriver.DropObject | empire-db/src/main/java/org/apache/empire/db/hsql/DBDatabaseDriverHSql.java:715-727 | an empty name is InvalidArg("name") and appends nothing; otherwise `DROP type name` |
| HSqlDdl.HSqlDriver.CreateTableSequences | empire-db/src/main/java/org/apache/empire/db/hsql/DBDatabaseDriverHSql.java:338-346 | one sequence per AUTOINC column of a table, in column order |
| HSqlDdl.HSqlDriver.CreateSequences | empire-db/src/main/java/org/apache/empire/db/hsql/DBDatabaseDriverHSql.java:334-347 | the sequences of all tables, table by table |
| HSqlDdl.HSqlDriver.CreateTables | empire-db/src/main/java/org/apache/empire/db/hsql/DBDatabaseDriverHSql.java:349-355 | the statements of every table, in order |
| HSqlDdl.HSqlDriver.CreateRelations | empire-db/src/main/java/org/apache/empire/db/hsql/DBDatabaseDriverHSql.java:356-362 | one foreign-key statement per relation, in order |
| HSqlDdl.HSqlDriver.CreateViews | empire-db/src/main/java/org/apache/empire/db/hsql/DBDatabaseDriverHSql.java:363-369 | views are created in order up to the first one without a command; that one's error is returned and no later view is emitted; only the ORDER BY lists of the commands before it are cleared, and no other field of any command changes |
| HSqlDdl.HSqlDriver.CreateDatabase | empire-db/src/main/java/org/apache/empire/db/hsql/DBDatabaseDriverHSql.java:332-372 | sequences, then tables, then relations, then views; succeeds iff every view has a command, and stops at the first that has none; only the ORDER BY lists of the views reached change |
| HSqlDdl.HSqlDriver.GetDDLScript | empire-db/src/main/java/org/apache/empire/db/hsql/DBDatabaseDriverHSql.java:252-314 | a missing object, a foreign database or an unknown kind is InvalidArg("dbo"); ALTER of a database, table, view or relation is NotImplemented; CREATE of a database, table, view or relation and DROP of a relation give what createDatabase, createTable, createView and alterRelation give; DROP of a database, table or view is InvalidArg("name") for an empty name and otherwise one DROP statement; a column is altered as alterTable does; only the ORDER BY of the commands of views that are reached changes |
| Commands.OrderBySqlDistinguishesDirection | empire-db/src/main/java/org/apache/empire/db/DBCommandExpr.java:323-332 | two entries that differ only in direction render alike iff the directions agree; descending adds " DESC" |
| Commands.NoOrderByRendersBody | empire-db/src/main/java/org/apache/empire/db/DBCommandExpr.java:382-391 | a command without ORDER BY renders its select text unchanged |
| Commands.CombinedRenders | empire-db/src/main/java/org/apache/empire/db/DBCommandExpr.java:433-448 | a combined command renders left, keyword, right, and is invalid iff either part is; its select list is the left one's |
| Commands.AddListExpr | empire-db/src/main/java/org/apache/empire/db/DBCommandExpr.java:400-408 | appends the rendered items joined by the separator: never before the first, never after the last |
| Text.JoinLength | empire-db/src/main/java/org/apache/empire/db/DBCommandExpr.java:400-408 | a list of n items is joined with exactly n - 1 separators |
| Commands.InsertIntoFailsExactly | empire-db/src/main/java/org/apache/empire/db/DBCommandExpr.java:490-517 | fails iff the select list is missing (ObjectNotValid) or a non-empty column list differs from it in length (InvalidArg); on success the text is INSERT INTO, the table, the column names and the select |
| Commands.MatchColumn | empire-db/src/main/java/org/apache/empire/db/DBCommandExpr.java:541-563 | a select item maps to the table column with its name, else to the column at its position |
| Commands.MatchColumns | empire-db/src/main/java/org/apache/empire/db/DBCommandExpr.java:541-563 | one destination column per select item, in order |
| Commands.MatchedInsertSucceeds | empire-db/src/main/java/org/apache/empire/db/DBCommandExpr.java:541-563 | with matched columns the length check always passes |
| Commands.CommandExpr.constructor | empire-db/src/main/java/org/apache/empire/db/DBCommandExpr.java:336-343 | a new command has no ORDER BY and no sub-query row set |
| Commands.CommandExpr.OrderBy | empire-db/src/main/java/org/apache/empire/db/DBCommandExpr.java:464-470 | appends exactly one entry at the end and keeps the earlier ones |
| Commands.CommandExpr.OrderByAsc | empire-db/src/main/java/org/apache/empire/db/DBCommandExpr.java:479-482 | the same as OrderBy with an ascending direction |
| Commands.CommandExpr.ClearOrderBy | empire-db/src/main/java/org/apache/empire/db/DBCommandExpr.java:453-456 | no ORDER BY entry is left |
| Commands.CommandExpr.AddSQL | empire-db/src/main/java/org/apache/empire/db/DBCommandExpr.java:417-422 | appends the select in parentheses, or "null" in parentheses when the command is invalid |
| Commands.CommandExpr.Union | empire-db/src/main/java/org/apache/empire/db/DBCommandExpr.java:433-436 | a new command combining this one and the other with UNION |
| Commands.CommandExpr.Intersect | empire-db/src/main/java/org/apache/empire/db/DBCommandExpr.java:445-448 | a new command combining this one and the other with INTERSECT |
| Commands.CommandExpr.GetCmdColumn | empire-db/src/main/java/org/apache/empire/db/DBCommandExpr.java:352-368 | the row set is created at most once, over the select list; a column already of this row set is returned unchanged; any other is wrapped in it; creating the row set over a missing select list fails with NullReference and creates nothing |
| Commands.CommandExpr.GetCmdColumnAt | empire-db/src/main/java/org/apache/empire/db/DBCommandExpr.java:370-376 | a missing select list fails with NullReference; an index past the list gives nothing and creates nothing; a negative index fails with IndexOutOfRange; otherwise the wrapped i-th item; a row set created by the call is fresh and holds one update column per select-list item, in order; an existing row set is kept |
| Commands.CommandExpr.InsertIntoWith | empire-db/src/main/java/org/apache/empire/db/DBCommandExpr.java:490-517 | the result is the INSERT INTO specification over this command's select |
| Commands.CommandExpr.InsertIntoColumns | empire-db/src/main/java/org/apache/empire/db/DBCommandExpr.java:528-531 | the same, with this command's own select list |
| Commands.CommandExpr.InsertIntoTable | empire-db/src/main/java/org/apache/empire/db/DBCommandExpr.java:541-563 | an empty or missing select list is ObjectNotValid; a select item with no column of its name and none at its position fails with NullReference, as rendering the null destination column throws; otherwise the insert uses the matched destination columns and succeeds |
| ColumnExprs.CmdQuery.constructor | empire-db/src/main/java/org/apache/empire/db/DBCommandExpr.java:52-59 | the row set holds the update column of each select item, in order |
| ColumnExprs.CmdColumnRendersName | empire-db/src/main/java/org/apache/empire/db/DBCommandExpr.java:185-188 | a command column renders the unqualified name of its expression in every context |
| ColumnExprs.MkAlias | empire-db/src/main/java/org/apache/empire/db/expr/column/DBAliasExpr.java:51-60 | the alias is upper-cased, and the stored expression is never itself an alias |
| ColumnExprs.AliasCollapses | empire-db/src/main/java/org/apache/empire/db/expr/column/DBAliasExpr.java:51-60 | an alias of an alias equals a single alias of the original expression |
| Text.ToUpperIdempotent | empire-db/src/main/java/org/apache/empire/db/expr/column/DBAliasExpr.java:59 | upper-casing an upper-cased alias changes nothing |
| ColumnExprs.AliasDelegates | empire-db/src/main/java/org/apache/empire/db/expr/column/DBAliasExpr.java:79-152 | name and toString are the alias; data type, update column and referenced columns are the inner expression's; never an aggregate |
| ColumnExprs.AliasInvisibleOutsideAliasContext | empire-db/src/main/java/org/apache/empire/db/expr/column/DBAliasExpr.java:161-178 | outside an alias context an alias renders exactly as its expression |
| ColumnExprs.AliasRenamesInAliasContext | empire-db/src/main/java/org/apache/empire/db/expr/column/DBAliasExpr.java:161-178 | in an alias context: expression, rename phrase and alias; only the expression when the driver has no rename phrase |
| ColumnExprs.AliasEqualsIff | empire-db/src/main/java/org/apache/empire/db/expr/column/DBAliasExpr.java:186-198 | two aliases are equal iff their names agree ignoring case and their expressions are equal |
| ColumnExprs.SqlEquals | empire-db/src/main/java/org/apache/empire/db/expr/column/DBAliasExpr.java:186-198 | expressions equal under equals agree on name up to case, data type, update column, aggregate flag and referenced columns |
| ColumnExprs.SqlEqualsSymmetric | empire-db/src/main/java/org/apache/empire/db/expr/column/DBAliasExpr.java:186-198 | equality of expressions is symmetric |
| ColumnExprs.AliasIgnoresCase | empire-db/src/main/java/org/apache/empire/db/expr/column/DBAliasExpr.java:186-198 | aliases of one expression under names that differ only in case are equal |
| ColumnExprs.ReferencedColumns | empire-db/src/main/java/org/apache/empire/db/expr/column/DBCaseExpr.java:91-97 | only columns (table or command columns) are collected |
| ColumnExprs.CaseDelegates | empire-db/src/main/java/org/apache/empire/db/expr/column/DBCaseExpr.java:66-97 | name, data type, update column and aggregate flag come from the THEN expression; referenced columns are the union of the condition's, THEN's and ELSE's |
| ColumnExprs.CaseRendersParts | empire-db/src/main/java/org/apache/empire/db/expr/column/DBCaseExpr.java:100-117 | CASE WHEN cond THEN t ELSE e END, with ELSE NULL when there is no else part |
| ColumnExprs.RenderIgnoresAliasFlag | empire-db/src/main/java/org/apache/empire/db/expr/column/DBCaseExpr.java:100-117 | an expression without aliases renders alike with or without the alias flag, since the context passes to every part unchanged |
| ColumnExprs.RowNumConstants | empire-db/src/main/java/org/apache/empire/db/oracle/OracleRowNumExpr.java:66-136 | name "rownum", INTEGER, no update column, not an aggregate, no referenced columns, rendered "rownum" in every context |
| ColumnExprs.SubstituteSingle | empire-db/src/main/java/org/apache/empire/db/expr/column/DBFuncExpr.java:121-128 | a template with one `?` and no parameters renders the operand in its place |
| FuncExprs.FuncExpr.FromPhrase | empire-db/src/main/java/org/apache/empire/db/expr/column/DBFuncExpr.java:61-68 | keeps the phrase id and leaves the template unset |
| FuncExprs.FuncExpr.FromTemplate | empire-db/src/main/java/org/apache/empire/db/expr/column/DBFuncExpr.java:83-90 | keeps the template and uses the literal-template phrase id |
| FuncExprs.LeadingRun | empire-db/src/main/java/org/apache/empire/db/expr/column/DBFuncExpr.java:99-109 | the longest prefix whose characters are all at least 'A' |
| FuncExprs.LeadingRunIsMaximalPrefix | empire-db/src/main/java/org/apache/empire/db/expr/column/DBFuncExpr.java:99-109 | a prefix of characters at or above 'A' that stops at a lower character or at the end is the leading run, so the scanning loop finds exactly it |
| FuncExprs.FunctionNameOf | empire-db/src/main/java/org/apache/empire/db/expr/column/DBFuncExpr.java:98-111 | the name is never empty; when the trimmed template starts with a character at or above 'A' it is the template's maximal first word, otherwise "func_" and the phrase number |
| FuncExprs.FunctionNameIsLeadingWord | empire-db/src/main/java/org/apache/empire/db/expr/column/DBFuncExpr.java:99-109 | a template that starts with a word is named by that word |
| FuncExprs.FunctionNameFallsBack | empire-db/src/main/java/org/apache/empire/db/expr/column/DBFuncExpr.java:110-111 | a template that starts below 'A' is named "func_" and the phrase number |
| FuncExprs.FuncExpr.FunctionName | empire-db/src/main/java/org/apache/empire/db/expr/column/DBFuncExpr.java:93-112 | resolves a missing template from the driver and caches it, then returns the name of the resolved template |
| FuncExprs.FuncExpr.AddSQL | empire-db/src/main/java/org/apache/empire/db/expr/column/DBFuncExpr.java:121-128 | a cached template is kept, a missing one is taken from the driver; the text appended is the node rendered before and after caching alike |
| FuncExprs.TemplateKeptAfterFirstRender | empire-db/src/main/java/org/apache/empire/db/expr/column/DBFuncExpr.java:121-128 | after a first render with one driver, a render with any other driver uses the first driver's template |

## Left out

- Database access through JDBC is not modelled. `run` asks an abstract per-statement oracle `exec(i, stmt)` whether statement i succeeds. The sequence-value query and the server clock (`getNextSequenceValue`, `getUpdateTimestamp`) are left out.
- Logging, the XML export (`addXml`) and error messages are left out. The error state of `ErrorObject` becomes an explicit Status or Result value.
- HSqlDdl.DdlType: DECIMAL takes precision and scale as two integers of the column. The code derives the scale from the fractional part of a double size, which is floating point and is left out.
- HSqlDdl.DdlType: the width is the absolute value of an unbounded integer. Java's `Math.abs` of the smallest int and the int cast of a larger size are not modelled.
- SqlScripts.SqlScript.AddStmt: it always reports success, as the code does. So the "addStmt failed" branches of createTable, alterRelation and createDatabase cannot be taken, and CreateTable and CreateRelations are stated as always succeeding.
- HSqlDdl.HSqlDriver.AlterRelation: requires at least one reference for CREATE and DROP. The code reads the first reference without checking, which throws for an empty relation.
- HSqlDdl.HSqlDriver.GetDDLScript: "attached to this driver" is an input flag, because a database's driver is not part of this model.
- `DBView.createCommand` is modelled as a fixed command (or none) held by the view.
- Java identity becomes value equality: `idx == pk` in createTable, the `cmdQuery` membership test in getCmdColumn, and `expr.equals` inside `DBAliasExpr.equals`, which `ColumnExprs.SqlEquals` makes structural.
- The record operations of the sub-query row set `DBCmdQuery` are not modelled: key columns, record keys, and init, create, read, update and delete of records. They only report that they are not supported. `DBCmdQuery.addSQL`, `getName` and `getAlias` are left out too.
- The `DBCmdColumn` accessors for size, read-only, required, attributes, options and checkValue are not modelled. They delegate to the expression's update column or return constants. Name and data type are modelled.
- The quoting rule of `detectQuoteName` is not part of this model. ElementName quotes only reserved keywords.
- Commands.CommandExpr.InsertIntoWith: a select that cannot be rendered contributes the empty text, as the stand-in `Select(d).GetOr("")`.
- `getDatabase` of every expression is not modelled, since there is one database per model.
- Concurrency: none of the code is thread-safe, and the model is sequential.
- Commands.CommandExpr.Union: the combined command holds the two operands' values as they are at the call, while `DBCombinedCmd` holds references to the operand objects. An ORDER BY added to or cleared from an operand afterwards shows in the combined select in the code but not in the model.
- Commands.CommandExpr.Intersect: the same value-versus-reference difference as Union.
- ColumnExprs.Render: a function node inside an expression value does not keep the template of its first render. It looks the phrase up in the dialect it is rendered with each time, where `DBFuncExpr` reuses the first driver's template. The class `FuncExprs.FuncExpr` keeps it.
- ColumnExprs.FuncTemplate: a dialect without the node's phrase gives the empty template, where the code gets null from the driver. The HSQLDB driver has a phrase for every id.
- Text.ToUpper and Text.EqualsIgnoreCase upper-case ASCII letters only. Java's `toUpperCase` and `equalsIgnoreCase` cover all of Unicode, and `toUpperCase` can lengthen a string ("ß" becomes "SS"). Alias names are therefore modelled for ASCII only.

## Findings

| source | as written | input that shows it | evidently intended | confidence | as-written member | corrected member |
|---|---|---|---|---|---|---|
| empire-db/src/main/java/org/apache/empire/db/hsql/DBDatabaseDriverHSql.java:407-418 | the separator is written before `appendColumnDesc`, and `appendColumnDesc` writes the column name and a blank before it fails on UNKNOWN; the loop then continues, so the separator, the name and the blank stay in CREATE TABLE | columns `A INTEGER`, `U UNKNOWN`, `B INTEGER` give `A BIGINT,` then `U ,` then `B BIGINT` on separate lines: invalid SQL | a column whose clause cannot be built is left out entirely: `A BIGINT,` then `B BIGINT` | not executed | HSqlDdl.HSqlDriver.UnknownColumnLeaksIntoTable | HSqlDdl.HSqlDriver.ColumnList |
