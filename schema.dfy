/**
 * Physical schema metadata that the DDL generator and getInsertInto read:
 * table columns, indexes, tables and foreign-key relations. The schema layer
 * that builds these objects (DBTable, DBTableColumn, DBIndex, DBRelation) is
 * not part of this model; these are the values it supplies.
 */
module Schema {
  import opened SqlTypes

  /**
   * A DBTableColumn. `size` is the integer part of the column's size,
   * `(int) getSize()`; `scale` is the DECIMAL scale that the source derives
   * from the fractional part of the size (10.2 has size 10 and scale 2).
   */
  datatype Column = Column(
    table: string,
    name: string,
    dataType: DataType,
    size: int,
    scale: int,
    required: bool,
    autoGenerated: bool,
    defaultValue: Option<string>)

  /** DBIndex.STANDARD, DBIndex.UNIQUE and DBIndex.PRIMARYKEY. */
  datatype IndexKind = Standard | Unique | PrimaryKey

  datatype Index = Index(name: string, kind: IndexKind, columns: seq<Column>)

  datatype Table = Table(
    name: string,
    columns: seq<Column>,
    primaryKey: Option<Index>,
    indexes: seq<Index>)

  /** One (source column, target column) pair of a foreign key. */
  datatype Reference = Reference(source: Column, target: Column)

  /** A foreign-key relation: its pairs in declared order. */
  datatype Relation = Relation(name: string, references: seq<Reference>)

  /** DBRowSet.getColumn(String): the first column with that name, or null. */
  function FindColumn(cols: seq<Column>, name: string): (r: Option<Column>)
    ensures r.Some? ==> r.value in cols && r.value.name == name
    ensures r.None? ==> forall c :: c in cols ==> c.name != name
  {
    if cols == [] then None
    else if cols[0].name == name then Some(cols[0])
    else FindColumn(cols[1..], name)
  }

  /** DBRowSet.getColumn(int): the column at that position, or null when there is none. */
  function ColumnAt(cols: seq<Column>, i: int): Option<Column>
  {
    if 0 <= i < |cols| then Some(cols[i]) else None
  }
}
