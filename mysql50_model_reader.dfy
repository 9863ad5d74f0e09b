/**
 * The MySQL 5 model reader: it reads a column as the generic reader does and
 * then turns an empty default, which MySQL 5 reports for columns without
 * one, into no default at all.
 */
module MySql50 {
  import opened Model

  /** The default after normalisation: exactly the empty string becomes null. */
  function NormalizedDefault(defaultValue: Option<string>): (r: Option<string>)
    ensures r.None? <==> (defaultValue.None? || defaultValue == Some(""))
    ensures r.Some? ==> r == defaultValue
  {
    if defaultValue == Some("") then None else defaultValue
  }

  /** Normalising twice is normalising once. */
  lemma NormalizationIdempotent(defaultValue: Option<string>)
    ensures NormalizedDefault(NormalizedDefault(defaultValue)) == NormalizedDefault(defaultValue)
  {
  }

  /** A non-empty default is kept, one made only of blanks included. */
  lemma NonEmptyDefaultKept(v: string)
    requires v != []
    ensures NormalizedDefault(Some(v)) == Some(v)
  {
  }

  /**
   * readColumn over the column the base reader returned: the default is
   * cleared when it is the empty string, and nothing else changes.
   */
  method ReadColumn(baseColumn: Column) returns (column: Column)
    ensures column == baseColumn.(defaultValue := NormalizedDefault(baseColumn.defaultValue))
    ensures column.(defaultValue := baseColumn.defaultValue) == baseColumn
    ensures column.defaultValue != Some("")
  {
    column := baseColumn;
    if column.defaultValue == Some("") {
      column := column.(defaultValue := None);
    }
  }
}
