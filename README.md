# DdlUtils dialect builders and JDBC model reading, in Dafny

This project models the core of DdlUtils, the Apache library that reads database schemas
over JDBC into a model and writes the SQL that creates or alters a schema for a given database
engine. The model covers:

- **The Oracle 8 builder.** It covers native default values, including the rewriting of
  ISO-shaped date, time and timestamp literals into `TO_DATE` calls, and default printing.
  It also covers table creation and dropping with the sequences and triggers that emulate
  auto-increment, index dropping, and the three-phase processing of table structure changes.
  That processing drops primary keys, then adds and removes columns, then adds primary keys.
  Each handled change is written as a statement, applied to the working model and removed
  from the change list.
- **The DB2 builder.** It covers native default values, the identity clause and query,
  column, primary-key and index dropping, and the cast expression used when data is copied
  between a column and its changed definition.
- **The change values.** These are the ones the builders consume:
  `ColumnDefaultValueChange`, `RemovePrimaryKeyChange`, `RemoveForeignKeyChange` and the
  others they are dispatched against.
- **The JDBC model reader.** It covers grouping imported-key rows into foreign keys, grouping
  index rows into indexes, reading a column from a column row (name, type, size with the
  per-type default sizes, nullability from `IS_NULLABLE`, primary-key flag, default value with
  its surrounding parentheses removed), and the MySQL 5 reader's clearing of empty defaults.

Modules:

- `Model` holds the schema entities.
- `SqlBuilder` holds what the dialects inherit: the writer plumbing, the inherited operations
  and the text helpers.
- `Alteration` holds the changes.
- `Oracle8`, `Db2`, `JdbcModelReader` and `MySql50` follow DdlUtils' classes of the same names.

The builders are classes whose `output` field is the sequence of statements written so far.
The readers' loops are methods proved equal to the functions that define the grouping. The
properties about those functions are proved as lemmas.

## Model

| member | source | states |
|---|---|---|
| Model.AutoIncrementColumns | src/java/org/apache/ddlutils/platform/oracle/Oracle8Builder.java:96 | a column is among a table's auto-increment columns exactly when it is a column of the table flagged auto-increment |
| SqlBuilder.EscapeRoundTrip | src/java/org/apache/ddlutils/platform/oracle/Oracle8Builder.java:70 | the escape registered in the builders' constructors (`QuoteEscape`: a quote becomes two quotes; `EscapeQuotes` applies exactly that map) loses nothing: the escaped text reads back as the original value |
| SqlBuilder.LiteralRoundTrip | src/java/org/apache/ddlutils/platform/oracle/Oracle8Builder.java:188-191 | a value the builder writes between single quotes, escaped, reads back as that same value |
| SqlBuilder.TrimPadding | src/java/org/apache/ddlutils/io/JdbcModelReader.java:317 | trimming, as String.trim does, ignores blank padding (characters up to U+0020) on both sides |
| Alteration.ApplyAllAppend | src/java/org/apache/ddlutils/platform/oracle/Oracle8Builder.java:281-282 | applying the changes to the working model one after another composes: applying a concatenation is applying its parts in turn |
| Alteration.ColumnDefaultValueChangeGetters | src/java/org/apache/ddlutils/alteration/ColumnDefaultValueChange.java:43-78 | the getters return the table, the column and the new default the change was built from, a null default included |
| Alteration.RemovePrimaryKeyChangeGetters | src/java/org/apache/ddlutils/alteration/RemovePrimaryKeyChange.java:40-64 | the getters return the table and the very key columns the change was built from, element by element |
| Alteration.RemoveForeignKeyChangeGetters | src/java/org/apache/ddlutils/alteration/RemoveForeignKeyChange.java:40-54 | the change belongs to the table the key originates from and returns the key it was built from |
| Oracle8.GetNativeDefaultValue | src/java/org/apache/ddlutils/platform/oracle/Oracle8Builder.java:203-235 | a boolean column's default goes through the type converter and fails with a NullPointerException when the converter yields null; a DATE, TIME or TIMESTAMP default fails exactly when it is null, becomes a TO_DATE call with the matching format when it has the ISO shape and is otherwise passed to the inherited formatting; every other type takes the inherited formatting |
| Oracle8.DefaultValueText | src/java/org/apache/ddlutils/platform/oracle/Oracle8Builder.java:179-198 | a null default prints nothing; a default that starts with TO_DATE( or whose type is numeric (isNumericType true) prints verbatim; any other default, of whatever non-numeric type, is quoted with the value quote token and escaped |
| Oracle8.Oracle8Builder.PrintDefaultValue | src/java/org/apache/ddlutils/platform/oracle/Oracle8Builder.java:179-198 | printDefaultValue, escaping through the builder's registered escapes, yields exactly the text Oracle8.DefaultValueText describes |
| Oracle8.QuotedDefaultReadsBack | src/java/org/apache/ddlutils/platform/oracle/Oracle8Builder.java:184-192 | when the value quote token is a single quote, a default of a non-numeric type (isNumericType false) that is not a TO_DATE call prints as a literal that reads back as the default |
| Oracle8.IsoDefaultPrintedAsToDate | src/java/org/apache/ddlutils/platform/oracle/Oracle8Builder.java:213-233 | an ISO-shaped default of a DATE, TIME or TIMESTAMP column prints as a TO_DATE call, unquoted |
| Oracle8.TimestampFractionQuirk | src/java/org/apache/ddlutils/platform/oracle/Oracle8Builder.java:78 | the optional tail of the timestamp pattern is one character from the class of '.', digits, '{', ',' and '}', so a one-digit fraction such as .5 is not recognised while a lone trailing '.' or '}' is, and a timestamp without a tail is |
| Oracle8.WriteColumnAutoIncrementStmt | src/java/org/apache/ddlutils/platform/oracle/Oracle8Builder.java:240-243 | Oracle writes nothing inside the column definition for auto-increment |
| Oracle8.AutoIncrementDropsAt | src/java/org/apache/ddlutils/platform/oracle/Oracle8Builder.java:96-106 | for the k-th auto-increment column the drop statements hold its trigger drop followed by its sequence drop |
| Oracle8.DropTableStatementsShape | src/java/org/apache/ddlutils/platform/oracle/Oracle8Builder.java:89-107 | dropping a table writes the DROP TABLE ... CASCADE CONSTRAINTS statement first, then one trigger and one sequence drop per auto-increment column, and nothing else |
| Oracle8.CreateSequencesAt | src/java/org/apache/ddlutils/platform/oracle/Oracle8Builder.java:137-142 | one CREATE SEQUENCE per auto-increment column, in column order |
| Oracle8.CreateTriggersAt | src/java/org/apache/ddlutils/platform/oracle/Oracle8Builder.java:146-173 | one BEFORE INSERT trigger per auto-increment column, in column order, that fills the column from its sequence |
| Oracle8.CreateTableStatementsShape | src/java/org/apache/ddlutils/platform/oracle/Oracle8Builder.java:132-174 | creating a table writes the sequences first, then the inherited table creation, then the triggers, with the counts and contents given by the two lemmas above |
| Oracle8.Processed | src/java/org/apache/ddlutils/platform/oracle/Oracle8Builder.java:273-342 | what a phase emits has that phase's rank only |
| Oracle8.Emitted | src/java/org/apache/ddlutils/platform/oracle/Oracle8Builder.java:266-343 | the changes processed are only primary-key removals, column additions and removals and primary-key additions |
| Oracle8.StepIsRealisedOfRank | src/java/org/apache/ddlutils/platform/oracle/Oracle8Builder.java:276-341 | what one phase does with one change is exactly the part of that change's realisation that belongs to the phase (a PrimaryKeyChange is realised as the removal of its old key followed by the addition of its new one) |
| Oracle8.ProcessedIsRealisedOfRank | src/java/org/apache/ddlutils/platform/oracle/Oracle8Builder.java:273-342 | over a whole list, a phase processes exactly the realisations of that phase's rank, in list order |
| Oracle8.KeepingPreservesLaterWork | src/java/org/apache/ddlutils/platform/oracle/Oracle8Builder.java:278-319 | a change an earlier phase removes from the list contributes nothing to the later phases, so removing it does not change their work |
| Oracle8.EmittedIsStablyOrderedRealisation | src/java/org/apache/ddlutils/platform/oracle/Oracle8Builder.java:266-343 | the whole output is the realisation of the original list, regrouped by phase with list order kept inside each phase |
| Oracle8.EmittedPhaseOrder | src/java/org/apache/ddlutils/platform/oracle/Oracle8Builder.java:273-342 | every key removal precedes every column change, and every column change precedes every key addition |
| Oracle8.EmittedExactlyOnce | src/java/org/apache/ddlutils/platform/oracle/Oracle8Builder.java:266-343 | as a multiset, the output is exactly the realisation of the original list: nothing is processed twice or lost |
| Oracle8.PrimaryKeyChangeSplit | src/java/org/apache/ddlutils/platform/oracle/Oracle8Builder.java:284-341 | a PrimaryKeyChange yields a removal of its old key in phase 1 and an addition of its new key in phase 3, in that order |
| Oracle8.RemainingAppend | src/java/org/apache/ddlutils/platform/oracle/Oracle8Builder.java:282-340 | the changes left in the list are those no phase removes, in their original order |
| Oracle8.RemainingAreUnhandled | src/java/org/apache/ddlutils/platform/oracle/Oracle8Builder.java:266-343 | every change left in the list is one the three phases do not handle, and each such change of the original list is left |
| Oracle8.InsertedColumnStays | src/java/org/apache/ddlutils/platform/oracle/Oracle8Builder.java:302-311 | an AddColumnChange that inserts rather than appends is neither written nor removed |
| Oracle8.KeptStep | src/java/org/apache/ddlutils/platform/oracle/Oracle8Builder.java:274-342 | removing the current change through the iterator keeps the list as the kept prefix followed by the unvisited suffix |
| Oracle8.ThreePhases | src/java/org/apache/ddlutils/platform/oracle/Oracle8Builder.java:266-343 | running the three phases in sequence writes the statements of the emitted changes and leaves the model with them applied |
| Oracle8.Oracle8Builder.constructor | src/java/org/apache/ddlutils/platform/oracle/Oracle8Builder.java:67-84 | a new builder has written nothing and registers the quote escape |
| Oracle8.Oracle8Builder.DropTable | src/java/org/apache/ddlutils/platform/oracle/Oracle8Builder.java:89-107 | appends the drop-table statements of the table to the output |
| Oracle8.Oracle8Builder.WriteAutoIncrementDrops | src/java/org/apache/ddlutils/platform/oracle/Oracle8Builder.java:96-106 | appends the trigger and sequence drops of the given columns |
| Oracle8.Oracle8Builder.WriteExternalIndexDropStmt | src/java/org/apache/ddlutils/platform/oracle/Oracle8Builder.java:120-127 | appends DROP INDEX on the index name, with no table qualification |
| Oracle8.Oracle8Builder.CreateTable | src/java/org/apache/ddlutils/platform/oracle/Oracle8Builder.java:132-174 | appends the sequences, the inherited table creation and the triggers |
| Oracle8.Oracle8Builder.WriteCreateSequences | src/java/org/apache/ddlutils/platform/oracle/Oracle8Builder.java:137-142 | appends one CREATE SEQUENCE per given column |
| Oracle8.Oracle8Builder.WriteCreateTriggers | src/java/org/apache/ddlutils/platform/oracle/Oracle8Builder.java:146-173 | appends one trigger per given column |
| Oracle8.Oracle8Builder.ProcessAddColumnChange | src/java/org/apache/ddlutils/platform/oracle/Oracle8Builder.java:352-362 | appends ALTER TABLE ... ADD with the new column's definition |
| Oracle8.Oracle8Builder.ProcessRemoveColumnChange | src/java/org/apache/ddlutils/platform/oracle/Oracle8Builder.java:371-381 | appends ALTER TABLE ... DROP COLUMN with the column's name |
| Oracle8.Oracle8Builder.ProcessRemovePrimaryKeyChange | src/java/org/apache/ddlutils/platform/oracle/Oracle8Builder.java:390-399 | appends ALTER TABLE ... DROP PRIMARY KEY |
| Oracle8.Oracle8Builder.ProcessAddPrimaryKeyChange | src/java/org/apache/ddlutils/platform/oracle/Oracle8Builder.java:326-329 | appends the inherited primary-key addition for the change's columns |
| Oracle8.Oracle8Builder.ProcessTableStructureChanges | src/java/org/apache/ddlutils/platform/oracle/Oracle8Builder.java:266-343 | the output grows by the statements of the emitted changes, in phase order; the model is the original with those changes applied in that order; the list left is exactly the changes no phase handles |
| Oracle8.Oracle8Builder.RunPhase | src/java/org/apache/ddlutils/platform/oracle/Oracle8Builder.java:273-342 | one pass over the list: appends the phase's statements, applies the phase's changes and returns the list without the changes the phase removes |
| Oracle8.Oracle8Builder.OfferNext | src/java/org/apache/ddlutils/platform/oracle/Oracle8Builder.java:274-342 | one iteration of a phase loop: the next change is processed, applied and removed or kept as the phase says |
| Oracle8.Oracle8Builder.ProcessInPhase | src/java/org/apache/ddlutils/platform/oracle/Oracle8Builder.java:276-341 | within a phase a change writes the statements of its phase's part of its realisation and applies them |
| Db2.GetNativeDefaultValue | src/java/org/apache/ddlutils/platform/db2/Db2Builder.java:54-64 | a BIT or BOOLEAN column's default goes through the type converter to SMALLINT, null when the converter yields null; every other type takes the inherited formatting |
| Db2.BitDefaultsAgree | src/java/org/apache/ddlutils/platform/db2/Db2Builder.java:56-58 | for BIT columns Db2 and Oracle give the same default, except that Oracle fails where the converter yields null |
| Db2.OtherDefaultsAgree | src/java/org/apache/ddlutils/platform/db2/Db2Builder.java:60-63 | for columns that neither dialect treats specially, Db2 and Oracle give the same default |
| Db2.DropStatementsAsOracle | src/java/org/apache/ddlutils/platform/db2/Db2Builder.java:88-122 | Db2's column and primary-key drops are the statements Oracle's change processing writes, and its index drop is Oracle's index drop |
| Db2.CastExpression | src/java/org/apache/ddlutils/platform/db2/Db2Builder.java:127-161 | the bare column when the native types are equal and the size is unchanged; otherwise CAST(column AS the target's SQL type), except from a numeric source to a target whose native type is VARCHAR in any letter case, where the type is CHAR of the target's size or else the default size; it fails with a NullPointerException exactly when that CHAR size is missing |
| Db2.CharRouteSize | src/java/org/apache/ddlutils/platform/db2/Db2Builder.java:145-151 | the CHAR route uses the target's size when it has one, else the platform default size for the target's type |
| Db2.VarcharTestExamples | src/java/org/apache/ddlutils/platform/db2/Db2Builder.java:142-143 | the VARCHAR test ignores letter case but rejects VARCHAR2 and CHAR |
| Db2.Db2Builder.constructor | src/java/org/apache/ddlutils/platform/db2/Db2Builder.java:45-49 | a new builder has written nothing, keeps its writer and inherited operations and registers the quote escape |
| Db2.Db2Builder.EscapeStringValue | src/java/org/apache/ddlutils/platform/db2/Db2Builder.java:48 | a string value escaped under the builder's registered escapes has its quotes doubled and reads back as the value itself |
| Db2.Db2Builder.WriteColumnAutoIncrementStmt | src/java/org/apache/ddlutils/platform/db2/Db2Builder.java:69-72 | the column clause is GENERATED BY DEFAULT AS IDENTITY |
| Db2.Db2Builder.GetSelectLastIdentityValues | src/java/org/apache/ddlutils/platform/db2/Db2Builder.java:77-80 | the query is VALUES IDENTITY_VAL_LOCAL(), whatever the table |
| Db2.Db2Builder.DropColumn | src/java/org/apache/ddlutils/platform/db2/Db2Builder.java:88-96 | appends ALTER TABLE ... DROP COLUMN |
| Db2.Db2Builder.DropPrimaryKey | src/java/org/apache/ddlutils/platform/db2/Db2Builder.java:103-110 | appends ALTER TABLE ... DROP PRIMARY KEY |
| Db2.Db2Builder.DropIndex | src/java/org/apache/ddlutils/platform/db2/Db2Builder.java:115-122 | appends DROP INDEX on the index name |
| Db2.Db2Builder.WriteCastExpression | src/java/org/apache/ddlutils/platform/db2/Db2Builder.java:127-161 | computes, with the source's reassigned type and size, exactly the fragment Db2.CastExpression defines |
| JdbcModelReader.Grouped | src/java/org/apache/ddlutils/io/JdbcModelReader.java:504-515 | after a non-empty run of rows the remembered table is the last row's table and the open key points to it and ends with the last row's reference; before any row nothing is open |
| JdbcModelReader.ForeignKeysOf | src/java/org/apache/ddlutils/io/JdbcModelReader.java:517-520 | there are no keys exactly when there are no rows |
| JdbcModelReader.StartsAgree | src/java/org/apache/ddlutils/io/JdbcModelReader.java:504-511 | a row starts a new key exactly when it is the first row, names another table than the row before, or has KEY_SEQ 1 |
| JdbcModelReader.ReferencesInOrder | src/java/org/apache/ddlutils/io/JdbcModelReader.java:512-515 | reading the keys' references one after another gives back every row's reference, in row order: none is lost or duplicated |
| JdbcModelReader.KeyCount | src/java/org/apache/ddlutils/io/JdbcModelReader.java:504-520 | the number of keys is the number of rows that start a key |
| JdbcModelReader.KeysNonEmpty | src/java/org/apache/ddlutils/io/JdbcModelReader.java:504-515 | every key read has at least one reference |
| JdbcModelReader.RowLandsInKey | src/java/org/apache/ddlutils/io/JdbcModelReader.java:504-515 | each row's reference lies in the key opened by the last key start up to that row, and that key points to the row's table |
| JdbcModelReader.ReadForeignKeys | src/java/org/apache/ddlutils/io/JdbcModelReader.java:433-529 | the loop with its remembered table and open key computes the grouping defined above, with its reference order and key count |
| JdbcModelReader.IndexesOf | src/java/org/apache/ddlutils/io/JdbcModelReader.java:547-566 | every index is filed under its own name |
| JdbcModelReader.IndexNames | src/java/org/apache/ddlutils/io/JdbcModelReader.java:553-559 | an index exists exactly for the names that some row carries; rows without a name create nothing |
| JdbcModelReader.IndexUniqueness | src/java/org/apache/ddlutils/io/JdbcModelReader.java:549-559 | an index is unique exactly when the first row carrying its name is not NON_UNIQUE; later rows do not change it |
| JdbcModelReader.IndexColumns | src/java/org/apache/ddlutils/io/JdbcModelReader.java:561-565 | an index's columns are the column names (possibly null) of all rows carrying its name, in row order |
| JdbcModelReader.ReadIndexes | src/java/org/apache/ddlutils/io/JdbcModelReader.java:532-576 | the loop computes the index map defined above, each index with its name and its rows' columns |
| JdbcModelReader.DefaultSizeFallback | src/java/org/apache/ddlutils/io/JdbcModelReader.java:71-83 | when the metadata has no COLUMN_SIZE column the size is the default of the column's type: 254 for the character and binary types, 32 for INTEGER, 64 for BIGINT, 7,0 for REAL, 15,0 for FLOAT and DOUBLE, 15,15 for DECIMAL and NUMERIC, and none for the other types |
| JdbcModelReader.ReportedSizeWins | src/java/org/apache/ddlutils/io/JdbcModelReader.java:263-266 | a reported COLUMN_SIZE is kept as reported, null included |
| JdbcModelReader.RequiredIgnoresPadding | src/java/org/apache/ddlutils/io/JdbcModelReader.java:315-323 | whether IS_NULLABLE means required does not depend on surrounding blanks |
| JdbcModelReader.RequiredWhenNo | src/java/org/apache/ddlutils/io/JdbcModelReader.java:315-323 | IS_NULLABLE of NO in any letter case, trailing blanks included, marks the column required |
| JdbcModelReader.NullableOtherwise | src/java/org/apache/ddlutils/io/JdbcModelReader.java:315-323 | YES, an empty string and a null IS_NULLABLE leave the column nullable |
| JdbcModelReader.UnwrapDefault | src/java/org/apache/ddlutils/io/JdbcModelReader.java:374-381 | a default that does not match the parenthesis pattern is kept; one that does loses at least its parentheses |
| JdbcModelReader.UnwrapQuoted | src/java/org/apache/ddlutils/io/JdbcModelReader.java:61 | a default of the form ('v') unwraps to v when v has no line terminator |
| JdbcModelReader.UnwrapParenthesised | src/java/org/apache/ddlutils/io/JdbcModelReader.java:61 | a default of the form (v) unwraps to v when v neither starts nor ends with a quote and has no line terminator |
| JdbcModelReader.UnwrapExamples | src/java/org/apache/ddlutils/io/JdbcModelReader.java:376-379 | only the outer parentheses go ((0) stays inside), a lone quote inside parentheses unwraps to the empty string, and a plain quoted literal is kept |
| JdbcModelReader.ReadColumn | src/java/org/apache/ddlutils/io/JdbcModelReader.java:358-381 | the column takes the row's name (else UNKNOWN), type code (else OTHER) and size with the per-type fallback; it is a primary key exactly when its name is among the key names, required exactly when IS_NULLABLE says NO, never auto-increment, and its default is COLUMN_DEF with the parentheses pattern removed, absent exactly when COLUMN_DEF is |
| JdbcModelReader.ReadColumnDefaultAndSize | src/java/org/apache/ddlutils/io/JdbcModelReader.java:263-381 | a COLUMN_DEF of the form ('v') yields the default v, and a column without a reported size gets the default size listed for its type |
| JdbcModelReader.ReadColumns | src/java/org/apache/ddlutils/io/JdbcModelReader.java:217-390 | the loop reads one column per row, in row order, each as JdbcModelReader.ReadColumn says |
| MySql50.NormalizedDefault | src/java/org/apache/ddlutils/platform/mysql/MySql50ModelReader.java:52-55 | the default is cleared exactly when it is the empty string, and otherwise unchanged |
| MySql50.NormalizationIdempotent | src/java/org/apache/ddlutils/platform/mysql/MySql50ModelReader.java:52-55 | clearing the empty default twice is clearing it once |
| MySql50.NonEmptyDefaultKept | src/java/org/apache/ddlutils/platform/mysql/MySql50ModelReader.java:52 | a non-empty default, one made only of blanks included, is kept |
| MySql50.ReadColumn | src/java/org/apache/ddlutils/platform/mysql/MySql50ModelReader.java:47-57 | the column is the generic reader's column with an empty default cleared and nothing else changed |

## Left out

- JDBC I/O is not modelled. The result-set rows are records, and a metadata value the driver
  does not deliver is an absent `Option`. The checks for whether a metadata column exists are
  not modelled, except for `COLUMN_NAME`, `DATA_TYPE` and `COLUMN_SIZE`, which the reader
  replaces by defaults.
- Column scale, precision radix, remarks and the other column metadata are not modelled. The
  catalog and schema fields of the imported-key rows are not read either; only the values the
  core uses are.
- JdbcModelReader.ReadForeignKeys: the table and column names of imported-key rows are never
  null here. The source's behaviour on a null `PKTABLE_NAME` (a NullPointerException in
  `equals`) is not modelled.
- JdbcModelReader.ReadIndexes: returns the map from index name to index instead of the
  collection of its values. The iteration order of the Java HashMap is unspecified and is not
  modelled. Appending a column to an index already in the map is modelled as replacing that
  map value.
- MySql50.ReadColumn: the generic reader's column is a value, and clearing its default
  produces an updated value instead of mutating the object in place.
- Oracle8.Oracle8Builder.ProcessTableStructureChanges: the change list and the current model
  are values passed in and returned instead of objects mutated in place, so aliasing between
  them and the caller is not captured. Applying a change to the model (`apply`) is a parameter
  taken as given. In this version of the source, `RemovePrimaryKeyChange` has neither `apply`
  nor `getChangedTable`, although Oracle8Builder calls both, so their effect is taken as given.
- Oracle8.Oracle8Builder.RunPhase: the three loops of processTableStructureChanges are one
  method parameterised by the phase. Each phase's handling is still the source's branch for
  that phase.
- The parameters desiredModel, sourceTable and targetTable, and the parameter map of
  processTableStructureChanges, are unused by the modelled code and are left out.
- The output stream is a sequence of statements: each statement, with its delimiter and line
  break, is one element. Identifier quoting, line breaks, indentation and the command delimiter
  are parameters (`SqlBuilder.Writer`).
- Inherited operations of the base builder, the platform info and the type converter are
  functions taken as given (`SqlBuilder.Inherited`): `getTableName`, `getColumnName`,
  `getIndexName`, `getConstraintName`, `writeColumn`, the inherited `processChange` overload for `AddPrimaryKeyChange`, the base
  `createTable` and `getNativeDefaultValue`, `getSqlType`, `getBareNativeType`, `isSizeChanged`,
  `getDefaultSize`, `isNumericType` and `convert`.
- Oracle8.Oracle8Builder.PrintDefaultValue and Db2.CastExpression return the text a printing method would
  write; Db2.Db2Builder.WriteCastExpression writes nothing to the output either and returns
  the fragment.
- Oracle8.Oracle8Builder.ProcessAddPrimaryKeyChange: the inherited `processChange` overload
  for `AddPrimaryKeyChange`, which is not part of this model, is assumed to write exactly one
  statement that depends only on the table and the key columns, not on the current or desired
  model. `Oracle8.Statements` therefore gives every emitted change one statement, including a
  key addition for an empty column list.
- Oracle8.GetNativeDefaultValue: the boolean type code that `Jdbc3Utils.determineBooleanTypeCode()`
  returns is fixed to `Types.BOOLEAN` (16); whether the driver supports the Java 1.4 JDBC types
  is the `supportsJava14` parameter.
- The inherited column definition (`writeColumn`) and table creation (`createTable`) call the
  dialect's hooks (`getNativeDefaultValue`, `printDefaultValue`, `writeColumnAutoIncrementStmt`)
  in DdlUtils. Here `SqlBuilder.Inherited.columnDefinition` and `createTableStatements` are
  independent functions, not tied to the dialect's overrides. So, for example,
  Oracle8.WriteColumnAutoIncrementStmt states that the hook writes nothing, not that the written
  column definition has no auto-increment clause.
- The date, time and timestamp patterns and JdbcModelReader's default pattern are written out
  as predicates instead of using a regular-expression engine. The Perl5 compile and match
  calls and their exceptions are not modelled.
