/**
 * The DB2 dialect: identity columns, BIT/BOOLEAN defaults as SMALLINT, the
 * fixed drop statements, and the cast written when a column's data is
 * copied into a column of another type.
 */
module Db2 {
  import opened Model
  import opened Alteration
  import opened SqlBuilder
  import Oracle8

  /** The default value as DB2 needs it: BIT and BOOLEAN go through the SMALLINT conversion. */
  function GetNativeDefaultValue(column: Column, b: Inherited): (r: Option<string>)
    ensures column.typeCode == BIT || column.typeCode == BOOLEAN ==>
      r == b.convert(column.defaultValue, column.typeCode, SMALLINT)
    ensures column.typeCode != BIT && column.typeCode != BOOLEAN ==> r == b.nativeDefaultValue(column)
  {
    if column.typeCode == BIT || column.typeCode == BOOLEAN then
      b.convert(column.defaultValue, column.typeCode, SMALLINT)
    else
      b.nativeDefaultValue(column)
  }

  /**
   * For a BIT column both dialects convert to SMALLINT and agree whenever the
   * conversion yields a value; where it yields none, DB2 passes the null on
   * while Oracle fails on it.
   */
  lemma BitDefaultsAgree(column: Column, b: Inherited, supportsJava14: bool)
    requires column.typeCode == BIT
    ensures b.convert(column.defaultValue, BIT, SMALLINT).Some? ==>
      Oracle8.GetNativeDefaultValue(column, b, supportsJava14) == Success(GetNativeDefaultValue(column, b))
    ensures b.convert(column.defaultValue, BIT, SMALLINT).None? ==>
      Oracle8.GetNativeDefaultValue(column, b, supportsJava14).NullPointerException?
      && GetNativeDefaultValue(column, b).None?
  {
  }

  /** Outside the boolean and date/time types, both dialects leave the default to the base behaviour. */
  lemma OtherDefaultsAgree(column: Column, b: Inherited, supportsJava14: bool)
    requires column.typeCode !in {BIT, BOOLEAN, DATE, TIME, TIMESTAMP}
    ensures Oracle8.GetNativeDefaultValue(column, b, supportsJava14) == Success(GetNativeDefaultValue(column, b))
  {
  }

  /** The auto-increment clause of a column definition. */
  const AutoIncrementClause: string := "GENERATED BY DEFAULT AS IDENTITY"

  /** The query that reads back the last generated identity value. */
  const LastIdentityQuery: string := "VALUES IDENTITY_VAL_LOCAL()"

  function DropColumnStatement(w: Writer, b: Inherited, t: Table, c: Column): string
  {
    AlterTablePrefix(w, b, t) + "DROP COLUMN " + w.identifier(b.columnName(c))
  }

  function DropPrimaryKeyStatement(w: Writer, b: Inherited, t: Table): string
  {
    AlterTablePrefix(w, b, t) + "DROP PRIMARY KEY"
  }

  /** Index names are unique per schema in DB2, so no ON clause. */
  function DropIndexStatement(w: Writer, b: Inherited, index: Index): string
  {
    "DROP INDEX " + w.identifier(b.indexName(index))
  }

  /** DB2 drops columns, primary keys and indexes with the very statements Oracle's alteration uses. */
  lemma DropStatementsAsOracle(w: Writer, b: Inherited, t: Table, c: Column, pk: seq<Column>, index: Index)
    ensures DropColumnStatement(w, b, t, c) == Oracle8.ChangeStatement(w, b, RemoveColumnChange(t, c))
    ensures DropPrimaryKeyStatement(w, b, t) == Oracle8.ChangeStatement(w, b, RemovePrimaryKeyChange(t, pk))
    ensures DropIndexStatement(w, b, index) == Oracle8.DropIndexStatement(w, b, index)
  {
  }

  /** Whether copying a column into another needs a conversion at all. */
  predicate NeedsCast(b: Inherited, source: Column, target: Column)
  {
    b.bareNativeType(source) != b.bareNativeType(target) || b.isSizeChanged(source, target)
  }

  /**
   * Whether the cast goes through CHAR: a numeric source bound for a VARCHAR
   * target is cast to a CHAR type instead, since DB2 refuses the direct
   * numeric-to-VARCHAR conversion.
   */
  predicate CastsViaChar(b: Inherited, source: Column, target: Column)
  {
    b.isNumericType(source.typeCode) && EqualsIgnoreCase("VARCHAR", b.bareNativeType(target))
  }

  /** The size written into the CHAR type: the target's own, else the platform default for its type. */
  function CharSize(b: Inherited, target: Column): Option<string>
  {
    if target.size.Some? then target.size else b.defaultSize(target.typeCode)
  }

  /**
   * The expression that reads a source column as the target's type: the
   * bare column when nothing changes, otherwise a CAST to the target's SQL
   * type, or to CHAR of the target's size on the CHAR route. It fails, as
   * DdlUtils' DB2 builder does, when the CHAR route finds no size at all.
   */
  function CastExpression(w: Writer, b: Inherited, source: Column, target: Column): (r: Result<string>)
    ensures !NeedsCast(b, source, target) ==> r == Success(w.identifier(b.columnName(source)))
    ensures NeedsCast(b, source, target) && !CastsViaChar(b, source, target) ==>
      r == Success("CAST(" + w.identifier(b.columnName(source)) + " AS " + b.sqlType(target) + ")")
    ensures NeedsCast(b, source, target) && CastsViaChar(b, source, target) && CharSize(b, target).Some? ==>
      r == Success("CAST(" + w.identifier(b.columnName(source)) + " AS " + ("CHAR(" + CharSize(b, target).value + ")") + ")")
    ensures r.NullPointerException? <==>
      NeedsCast(b, source, target) && CastsViaChar(b, source, target) && CharSize(b, target).None?
  {
    var column := w.identifier(b.columnName(source));
    if !NeedsCast(b, source, target) then Success(column)
    else if !CastsViaChar(b, source, target) then Success("CAST(" + column + " AS " + b.sqlType(target) + ")")
    else if CharSize(b, target).None? then NullPointerException
    else Success("CAST(" + column + " AS " + ("CHAR(" + CharSize(b, target).value + ")") + ")")
  }

  /** The CHAR route keeps the target's size when it has one, and uses the default size only when it does not. */
  lemma CharRouteSize(w: Writer, b: Inherited, source: Column, target: Column)
    requires NeedsCast(b, source, target) && CastsViaChar(b, source, target)
    ensures target.size.Some? ==>
      CastExpression(w, b, source, target)
      == Success("CAST(" + w.identifier(b.columnName(source)) + " AS " + ("CHAR(" + target.size.value + ")") + ")")
    ensures target.size.None? && b.defaultSize(target.typeCode).Some? ==>
      CastExpression(w, b, source, target)
      == Success("CAST(" + w.identifier(b.columnName(source)) + " AS " + ("CHAR(" + b.defaultSize(target.typeCode).value + ")") + ")")
  {
  }

  /** The VARCHAR test ignores letter case but not extra characters. */
  lemma VarcharTestExamples()
    ensures EqualsIgnoreCase("VARCHAR", "varchar") && EqualsIgnoreCase("VARCHAR", "VarChar")
    ensures !EqualsIgnoreCase("VARCHAR", "VARCHAR2") && !EqualsIgnoreCase("VARCHAR", "CHAR")
  {
  }

  class Db2Builder {
    /** The statements written so far, one per finished statement. */
    var output: seq<string>
    const writer: Writer
    const inherited: Inherited
    /** The escapes registered for string values: a single quote is doubled. */
    const escapedSequences: map<string, string> := QuoteEscape

    constructor (writer: Writer, inherited: Inherited)
      ensures output == [] && this.writer == writer && this.inherited == inherited
      ensures escapedSequences == QuoteEscape
    {
      output := [];
      this.writer := writer;
      this.inherited := inherited;
    }

    /**
     * escapeStringValue under the escapes this builder registers: the value
     * with its quotes doubled, which reads back as the value itself.
     */
    function EscapeStringValue(value: string): (escaped: string)
      ensures escaped == EscapeQuotes(value)
      ensures UnescapeQuotes(escaped) == Some(value)
    {
      EscapeRoundTrip(value);
      EscapeWith(escapedSequences, value)
    }

    /** The auto-increment clause written into a column definition. */
    function WriteColumnAutoIncrementStmt(table: Table, column: Column): (text: string)
      ensures text == AutoIncrementClause
    {
      "GENERATED BY DEFAULT AS IDENTITY"
    }

    /** The last-identity query, the same whatever the table. */
    function GetSelectLastIdentityValues(table: Table): (query: string)
      ensures query == LastIdentityQuery
    {
      "VALUES IDENTITY_VAL_LOCAL()"
    }

    method DropColumn(table: Table, column: Column)
      modifies this
      ensures output == old(output) + [DropColumnStatement(writer, inherited, table, column)]
    {
      output := output + [AlterTablePrefix(writer, inherited, table) + "DROP COLUMN "
                          + writer.identifier(inherited.columnName(column))];
    }

    method DropPrimaryKey(table: Table)
      modifies this
      ensures output == old(output) + [DropPrimaryKeyStatement(writer, inherited, table)]
    {
      output := output + [AlterTablePrefix(writer, inherited, table) + "DROP PRIMARY KEY"];
    }

    method DropIndex(table: Table, index: Index)
      modifies this
      ensures output == old(output) + [DropIndexStatement(writer, inherited, index)]
    {
      output := output + ["DROP INDEX " + writer.identifier(inherited.indexName(index))];
    }

    /** Computes the cast fragment as DdlUtils' DB2 builder does, with its reassigned cast type and size. */
    method WriteCastExpression(sourceColumn: Column, targetColumn: Column) returns (fragment: Result<string>)
      ensures fragment == CastExpression(writer, inherited, sourceColumn, targetColumn)
    {
      var sourceNativeType := inherited.bareNativeType(sourceColumn);
      var targetNativeType := inherited.bareNativeType(targetColumn);
      if sourceNativeType == targetNativeType && !inherited.isSizeChanged(sourceColumn, targetColumn) {
        fragment := Success(writer.identifier(inherited.columnName(sourceColumn)));
      } else {
        var castType := inherited.sqlType(targetColumn);
        if inherited.isNumericType(sourceColumn.typeCode) && EqualsIgnoreCase("VARCHAR", targetNativeType) {
          var sizeSpec := targetColumn.size;
          if sizeSpec.None? {
            sizeSpec := inherited.defaultSize(targetColumn.typeCode);
          }
          if sizeSpec.None? {
            return NullPointerException;
          }
          castType := "CHAR(" + sizeSpec.value + ")";
        }
        fragment := Success("CAST(" + writer.identifier(inherited.columnName(sourceColumn)) + " AS " + castType + ")");
      }
    }
  }
}
