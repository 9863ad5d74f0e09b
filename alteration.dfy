/**
 * The change values the builders consume: one case per kind of structural
 * change between two schema models. Each case holds exactly what it was
 * built from; a datatype value cannot be mutated, so the getters of the
 * change classes are the destructors of these cases.
 */
module Alteration {
  import opened Model

  datatype Change =
    | AddColumnChange(table: Table, newColumn: Column, atEnd: bool)
    | RemoveColumnChange(table: Table, column: Column)
    | ColumnDefinitionChange(table: Table, sourceColumn: Column, targetColumn: Column)
    | ColumnDefaultValueChange(table: Table, column: Column, newDefaultValue: Option<string>)
    | AddPrimaryKeyChange(table: Table, primaryKeyColumns: seq<Column>)
    | RemovePrimaryKeyChange(table: Table, primaryKeyColumns: seq<Column>)
    | PrimaryKeyChange(table: Table, oldPrimaryKeyColumns: seq<Column>, newPrimaryKeyColumns: seq<Column>)
    | AddForeignKeyChange(table: Table, foreignKey: ForeignKey)
    | RemoveForeignKeyChange(table: Table, foreignKey: ForeignKey)
    | AddIndexChange(table: Table, index: Index)
    | RemoveIndexChange(table: Table, index: Index)

  /** The effect of applying one change to a working model, taken as given. */
  type Apply = (Database, Change) -> Database

  /** Applies changes one after another, in order. */
  function ApplyAll(db: Database, changes: seq<Change>, apply: Apply): Database
  {
    if changes == [] then db
    else apply(ApplyAll(db, changes[..|changes| - 1], apply), changes[|changes| - 1])
  }

  /** Applying a concatenation is applying its parts in turn. */
  lemma {:induction false} ApplyAllAppend(db: Database, xs: seq<Change>, ys: seq<Change>, apply: Apply)
    ensures ApplyAll(db, xs + ys, apply) == ApplyAll(ApplyAll(db, xs, apply), ys, apply)
  {
    if ys == [] {
      assert xs + ys == xs;
    } else {
      assert (xs + ys)[..|xs + ys| - 1] == xs + ys[..|ys| - 1];
      ApplyAllAppend(db, xs, ys[..|ys| - 1], apply);
    }
  }

  /** The getters of ColumnDefaultValueChange return what it was built from, null default included. */
  lemma ColumnDefaultValueChangeGetters(table: Table, column: Column, newDefaultValue: Option<string>)
    ensures var c := ColumnDefaultValueChange(table, column, newDefaultValue);
      c.table == table && c.column == column && c.newDefaultValue == newDefaultValue
  {
  }

  /** The getters of RemovePrimaryKeyChange return its table and the very column sequence it was given, empty or not. */
  lemma RemovePrimaryKeyChangeGetters(table: Table, primaryKeyColumns: seq<Column>)
    ensures var c := RemovePrimaryKeyChange(table, primaryKeyColumns);
      c.table == table && c.primaryKeyColumns == primaryKeyColumns
      && |c.primaryKeyColumns| == |primaryKeyColumns|
      && forall i :: 0 <= i < |primaryKeyColumns| ==> c.primaryKeyColumns[i] == primaryKeyColumns[i]
  {
  }

  /** A RemoveForeignKeyChange belongs to the table the key originates from and keeps the key as given. */
  lemma RemoveForeignKeyChangeGetters(table: Table, foreignKey: ForeignKey)
    ensures var c := RemoveForeignKeyChange(table, foreignKey);
      c.table == table && c.foreignKey == foreignKey
  {
  }
}
