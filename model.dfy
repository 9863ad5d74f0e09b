/**
 * The parts of the schema model (tables, columns, keys, indexes) that the
 * dialect builders and the model readers work on, together with the JDBC
 * type codes they test for.
 */
module Model {

  /** A value that DdlUtils may leave `null`. */
  datatype Option<+T> = None | Some(value: T)

  /** The outcome of an operation that DdlUtils lets fail with a NullPointerException. */
  datatype Result<+T> = Success(value: T) | NullPointerException

  // Type codes of java.sql.Types that the builders and readers name.
  const BIT: int := -7
  const TINYINT: int := -6
  const BIGINT: int := -5
  const LONGVARBINARY: int := -4
  const VARBINARY: int := -3
  const BINARY: int := -2
  const LONGVARCHAR: int := -1
  const CHAR: int := 1
  const NUMERIC: int := 2
  const DECIMAL: int := 3
  const INTEGER: int := 4
  const SMALLINT: int := 5
  const FLOAT: int := 6
  const REAL: int := 7
  const DOUBLE: int := 8
  const VARCHAR: int := 12
  const BOOLEAN: int := 16
  const DATE: int := 91
  const TIME: int := 92
  const TIMESTAMP: int := 93
  const OTHER: int := 1111

  /** A column: its size is kept as text, as the model stores it. */
  datatype Column = Column(
    name: string,
    typeCode: int,
    size: Option<string>,
    required: bool,
    primaryKey: bool,
    autoIncrement: bool,
    defaultValue: Option<string>)

  /** One local/foreign column pair of a foreign key. */
  datatype Reference = Reference(local: string, foreign: string)

  /** A foreign key: the table it references and its column pairs, in order. */
  datatype ForeignKey = ForeignKey(foreignTable: string, references: seq<Reference>)

  /** An index; a column of it may have a null name when the database reports one. */
  datatype Index = Index(name: string, unique: bool, columns: seq<Option<string>>)

  datatype Table = Table(
    name: string,
    columns: seq<Column>,
    foreignKeys: seq<ForeignKey>,
    indexes: seq<Index>)

  datatype Database = Database(name: string, tables: seq<Table>)

  /** The auto-increment columns of a table, in column order. */
  function AutoIncrementColumns(t: Table): (cols: seq<Column>)
    ensures forall c :: c in cols ==> c in t.columns && c.autoIncrement
    ensures forall c :: c in t.columns && c.autoIncrement ==> c in cols
  {
    AutoIncrementOf(t.columns)
  }

  function AutoIncrementOf(cs: seq<Column>): (cols: seq<Column>)
    ensures forall c :: c in cols ==> c in cs && c.autoIncrement
    ensures forall c :: c in cs && c.autoIncrement ==> c in cols
  {
    if cs == [] then []
    else (if cs[0].autoIncrement then [cs[0]] else []) + AutoIncrementOf(cs[1..])
  }
}
