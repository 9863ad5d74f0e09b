/**
 * Reading a schema model back from JDBC metadata. The result sets of
 * DatabaseMetaData become sequences of row records. The model covers how
 * imported-key rows are grouped into foreign keys, how index-info rows are
 * grouped into indexes by name, and how one column row becomes a Column.
 */
module JdbcModelReader {
  import opened Model
  import opened SqlBuilder

  // ---------------------------------------------------------------------
  // Foreign keys
  // ---------------------------------------------------------------------

  /**
   * One row of getImportedKeys. KEY_SEQ is read as a Java short; the
   * grouping only compares it with 1.
   */
  datatype ImportedKeyRow = ImportedKeyRow(
    pkTableName: string,
    pkColumnName: string,
    fkColumnName: string,
    keySeq: int)

  /** The reference a row contributes: local FKCOLUMN_NAME, foreign PKCOLUMN_NAME. */
  function RefOf(row: ImportedKeyRow): Reference
  {
    Reference(row.fkColumnName, row.pkColumnName)
  }

  /**
   * The state of the grouping loop: the keys already finished, the key
   * being filled (`currFk`) and the table of the previous row (`prevPkTable`).
   */
  datatype FkGrouping = FkGrouping(
    fks: seq<ForeignKey>,
    current: Option<ForeignKey>,
    prevPkTable: Option<string>)

  /** Whether a row opens a new key, given the previous row's table. */
  predicate StartsKey(row: ImportedKeyRow, prevPkTable: Option<string>)
  {
    prevPkTable != Some(row.pkTableName) || row.keySeq == 1
  }

  function Closed(current: Option<ForeignKey>): seq<ForeignKey>
  {
    if current.Some? then [current.value] else []
  }

  /** The grouping state after the given rows, one row at a time. */
  function Grouped(rows: seq<ImportedKeyRow>): (g: FkGrouping)
    ensures rows == [] ==> g == FkGrouping([], None, None)
    ensures rows != [] ==>
      var last := rows[|rows| - 1];
      && g.prevPkTable == Some(last.pkTableName)
      && g.current.Some?
      && g.current.value.foreignTable == last.pkTableName
      && |g.current.value.references| > 0
      && g.current.value.references[|g.current.value.references| - 1] == RefOf(last)
  {
    if rows == [] then FkGrouping([], None, None)
    else
      var g := Grouped(rows[..|rows| - 1]);
      var row := rows[|rows| - 1];
      var started :=
        if StartsKey(row, g.prevPkTable)
        then FkGrouping(g.fks + Closed(g.current), Some(ForeignKey(row.pkTableName, [])), Some(row.pkTableName))
        else g;
      var fk := started.current.value;
      started.(current := Some(fk.(references := fk.references + [RefOf(row)])))
  }

  /** The foreign keys read from the rows: the finished keys and the last open one. */
  function ForeignKeysOf(rows: seq<ImportedKeyRow>): (fks: seq<ForeignKey>)
    ensures fks == [] <==> rows == []
  {
    var g := Grouped(rows);
    g.fks + Closed(g.current)
  }

  /**
   * Row `i` opens a key: it is the first row, its table differs from the
   * previous row's, or its KEY_SEQ is 1.
   */
  predicate IsKeyStart(rows: seq<ImportedKeyRow>, i: int)
    requires 0 <= i < |rows|
  {
    i == 0 || rows[i - 1].pkTableName != rows[i].pkTableName || rows[i].keySeq == 1
  }

  /** The number of rows that open a key. */
  function CountStarts(rows: seq<ImportedKeyRow>): nat
  {
    if rows == [] then 0
    else CountStarts(rows[..|rows| - 1]) + (if IsKeyStart(rows, |rows| - 1) then 1 else 0)
  }

  /** All references of the keys, key after key. */
  function Flatten(fks: seq<ForeignKey>): seq<Reference>
  {
    if fks == [] then [] else Flatten(fks[..|fks| - 1]) + fks[|fks| - 1].references
  }

  /** The references of the rows, in row order. */
  function Refs(rows: seq<ImportedKeyRow>): (refs: seq<Reference>)
    ensures |refs| == |rows|
  {
    if rows == [] then [] else Refs(rows[..|rows| - 1]) + [RefOf(rows[|rows| - 1])]
  }

  /** The loop's test against the previous row's table is the test on the rows themselves. */
  lemma StartsAgree(rows: seq<ImportedKeyRow>)
    requires rows != []
    ensures StartsKey(rows[|rows| - 1], Grouped(rows[..|rows| - 1]).prevPkTable) == IsKeyStart(rows, |rows| - 1)
  {
    var p := rows[..|rows| - 1];
    if |p| > 0 {
      assert p[|p| - 1] == rows[|rows| - 2];
    }
  }

  lemma FlattenSnoc(fks: seq<ForeignKey>, fk: ForeignKey)
    ensures Flatten(fks + [fk]) == Flatten(fks) + fk.references
  {
    assert (fks + [fk])[..|fks + [fk]| - 1] == fks;
  }

  /** Every row adds exactly one reference, and the references keep the row order. */
  lemma {:induction false} ReferencesInOrder(rows: seq<ImportedKeyRow>)
    ensures Flatten(ForeignKeysOf(rows)) == Refs(rows)
  {
    if rows != [] {
      var p := rows[..|rows| - 1];
      var row := rows[|rows| - 1];
      var g := Grouped(p);
      ReferencesInOrder(p);
      if StartsKey(row, g.prevPkTable) {
        var fk := ForeignKey(row.pkTableName, [] + [RefOf(row)]);
        assert ForeignKeysOf(rows) == ForeignKeysOf(p) + [fk];
        FlattenSnoc(ForeignKeysOf(p), fk);
      } else {
        var cur := g.current.value;
        var fk := cur.(references := cur.references + [RefOf(row)]);
        assert ForeignKeysOf(rows) == g.fks + [fk];
        assert ForeignKeysOf(p) == g.fks + [cur];
        FlattenSnoc(g.fks, fk);
        FlattenSnoc(g.fks, cur);
      }
    }
  }

  /** There are as many keys as rows that open one, so zero rows give no key. */
  lemma {:induction false} KeyCount(rows: seq<ImportedKeyRow>)
    ensures |ForeignKeysOf(rows)| == CountStarts(rows)
  {
    if rows != [] {
      var p := rows[..|rows| - 1];
      KeyCount(p);
      StartsAgree(rows);
    }
  }

  /** Reading one more row only extends the keys read so far. */
  lemma ForeignKeysGrow(rows: seq<ImportedKeyRow>)
    requires rows != []
    ensures var a := ForeignKeysOf(rows[..|rows| - 1]);
      var b := ForeignKeysOf(rows);
      && |a| <= |b|
      && forall k :: 0 <= k < |a| ==>
           b[k].foreignTable == a[k].foreignTable && a[k].references <= b[k].references
  {
  }

  /** Every key holds at least one reference. */
  lemma {:induction false} KeysNonEmpty(rows: seq<ImportedKeyRow>)
    ensures forall k :: 0 <= k < |ForeignKeysOf(rows)| ==> |ForeignKeysOf(rows)[k].references| > 0
  {
    if rows != [] {
      var p := rows[..|rows| - 1];
      KeysNonEmpty(p);
      ForeignKeysGrow(rows);
      var a := ForeignKeysOf(p);
      var b := ForeignKeysOf(rows);
      forall k | 0 <= k < |b|
        ensures |b[k].references| > 0
      {
        if k < |a| {
          assert |a[k].references| <= |b[k].references|;
        }
      }
    }
  }

  /**
   * The key that row `i` lands in is the one opened by the last key start at
   * or before `i`: that key references row `i`'s table and holds its reference.
   */
  lemma {:induction false} RowLandsInKey(rows: seq<ImportedKeyRow>, i: int)
    requires 0 <= i < |rows|
    ensures var fks := ForeignKeysOf(rows);
      var k := CountStarts(rows[..i + 1]) - 1;
      && 0 <= k < |fks|
      && fks[k].foreignTable == rows[i].pkTableName
      && RefOf(rows[i]) in fks[k].references
  {
    var n := |rows|;
    if i == n - 1 {
      assert rows[..i + 1] == rows;
      KeyCount(rows);
    } else {
      var p := rows[..n - 1];
      assert p[..i + 1] == rows[..i + 1];
      RowLandsInKey(p, i);
      ForeignKeysGrow(rows);
      var k := CountStarts(rows[..i + 1]) - 1;
      var a := ForeignKeysOf(p);
      var b := ForeignKeysOf(rows);
      var j :| 0 <= j < |a[k].references| && a[k].references[j] == RefOf(rows[i]);
      assert b[k].references[j] == RefOf(rows[i]);
    }
  }

  /** getForeignKeysForTable over the rows of getImportedKeys. */
  method ReadForeignKeys(rows: seq<ImportedKeyRow>) returns (fks: seq<ForeignKey>)
    ensures fks == ForeignKeysOf(rows)
    ensures Flatten(fks) == Refs(rows)
    ensures |fks| == CountStarts(rows)
  {
    fks := [];
    var prevPkTable: Option<string> := None;
    var currFk: Option<ForeignKey> := None;
    var i := 0;
    while i < |rows|
      invariant 0 <= i <= |rows|
      invariant Grouped(rows[..i]) == FkGrouping(fks, currFk, prevPkTable)
    {
      var row := rows[i];
      assert rows[..i + 1][..i] == rows[..i];
      if prevPkTable != Some(row.pkTableName) || row.keySeq == 1 {
        if currFk.Some? {
          fks := fks + [currFk.value];
        }
        currFk := Some(ForeignKey(row.pkTableName, []));
        prevPkTable := Some(row.pkTableName);
      }
      var ref := Reference(row.fkColumnName, row.pkColumnName);
      currFk := Some(currFk.value.(references := currFk.value.references + [ref]));
      i := i + 1;
    }
    assert rows[..i] == rows;
    if currFk.Some? {
      fks := fks + [currFk.value];
    }
    ReferencesInOrder(rows);
    KeyCount(rows);
  }

  // ---------------------------------------------------------------------
  // Indexes
  // ---------------------------------------------------------------------

  /** One row of getIndexInfo; INDEX_NAME and COLUMN_NAME may be null. */
  datatype IndexInfoRow = IndexInfoRow(
    nonUnique: bool,
    indexName: Option<string>,
    columnName: Option<string>)

  /**
   * The indexes by name after the given rows. A row with a null name is
   * skipped. A row whose name is new creates the index, unique unless the
   * row says NON_UNIQUE. Then the row's column is appended to the index.
   */
  function IndexesOf(rows: seq<IndexInfoRow>): (m: map<string, Index>)
    ensures forall n :: n in m ==> m[n].name == n
  {
    if rows == [] then map[]
    else
      var m := IndexesOf(rows[..|rows| - 1]);
      var row := rows[|rows| - 1];
      if row.indexName.None? then m
      else
        var name := row.indexName.value;
        var index := if name in m then m[name] else Index(name, !row.nonUnique, []);
        m[name := index.(columns := index.columns + [row.columnName])]
  }

  /** The column names of the rows named `n`, in row order. */
  function ColumnsNamed(rows: seq<IndexInfoRow>, n: string): seq<Option<string>>
  {
    if rows == [] then []
    else
      var row := rows[|rows| - 1];
      ColumnsNamed(rows[..|rows| - 1], n) + (if row.indexName == Some(n) then [row.columnName] else [])
  }

  /** There is one index per distinct non-null name among the rows. */
  lemma {:induction false} IndexNames(rows: seq<IndexInfoRow>, n: string)
    ensures n in IndexesOf(rows) <==> exists i :: 0 <= i < |rows| && rows[i].indexName == Some(n)
  {
    if rows != [] {
      var p := rows[..|rows| - 1];
      IndexNames(p, n);
      if n in IndexesOf(rows) && n in IndexesOf(p) {
        var i :| 0 <= i < |p| && p[i].indexName == Some(n);
        assert rows[i] == p[i];
      }
      if exists i :: 0 <= i < |rows| && rows[i].indexName == Some(n) {
        var i :| 0 <= i < |rows| && rows[i].indexName == Some(n);
        if i < |p| {
          assert p[i] == rows[i];
        }
      }
    }
  }

  /** The index's uniqueness is the one stated by the first row with its name. */
  lemma {:induction false} IndexUniqueness(rows: seq<IndexInfoRow>, n: string, i: int)
    requires 0 <= i < |rows| && rows[i].indexName == Some(n)
    requires forall j :: 0 <= j < i ==> rows[j].indexName != Some(n)
    ensures n in IndexesOf(rows) && IndexesOf(rows)[n].unique == !rows[i].nonUnique
  {
    var p := rows[..|rows| - 1];
    if i == |rows| - 1 {
      forall j | 0 <= j < |p|
        ensures p[j].indexName != Some(n)
      {
        assert p[j] == rows[j];
      }
      IndexNames(p, n);
    } else {
      IndexUniqueness(p, n, i);
    }
  }

  /** The index named `n` lists the columns of the rows named `n`, in row order. */
  lemma {:induction false} IndexColumns(rows: seq<IndexInfoRow>, n: string)
    requires n in IndexesOf(rows)
    ensures IndexesOf(rows)[n].columns == ColumnsNamed(rows, n)
  {
    var p := rows[..|rows| - 1];
    var row := rows[|rows| - 1];
    if n in IndexesOf(p) {
      IndexColumns(p, n);
    } else {
      IndexAbsent(p, n);
    }
  }

  /** A name no row carries has no columns. */
  lemma {:induction false} IndexAbsent(rows: seq<IndexInfoRow>, n: string)
    requires n !in IndexesOf(rows)
    ensures ColumnsNamed(rows, n) == []
  {
    if rows != [] {
      IndexAbsent(rows[..|rows| - 1], n);
    }
  }

  /** getIndexesForTable over the rows of getIndexInfo, keyed by index name. */
  method ReadIndexes(rows: seq<IndexInfoRow>) returns (indexesByName: map<string, Index>)
    ensures indexesByName == IndexesOf(rows)
    ensures forall n :: n in indexesByName ==>
      indexesByName[n].name == n && indexesByName[n].columns == ColumnsNamed(rows, n)
  {
    indexesByName := map[];
    var i := 0;
    while i < |rows|
      invariant 0 <= i <= |rows|
      invariant indexesByName == IndexesOf(rows[..i])
    {
      assert rows[..i + 1][..i] == rows[..i];
      var unique := !rows[i].nonUnique;
      var indexName := rows[i].indexName;
      var column := rows[i].columnName;
      var index: Option<Index> := None;
      if indexName.Some? && indexName.value in indexesByName {
        index := Some(indexesByName[indexName.value]);
      }
      if index.None? && indexName.Some? {
        index := Some(Index(indexName.value, unique, []));
      }
      if index.Some? {
        indexesByName := indexesByName[indexName.value := index.value.(columns := index.value.columns + [column])];
      }
      i := i + 1;
    }
    assert rows[..i] == rows;
    forall n | n in indexesByName
      ensures indexesByName[n].columns == ColumnsNamed(rows, n)
    {
      IndexColumns(rows, n);
    }
  }

  // ---------------------------------------------------------------------
  // Columns
  // ---------------------------------------------------------------------

  /**
   * One row of getColumns. A field is `None` when the database does not
   * report that metadata column; the size also distinguishes a reported
   * null (`Some(None)`). COLUMN_DEF and IS_NULLABLE are `None` when absent
   * or null, which the reader treats alike.
   */
  datatype ColumnRow = ColumnRow(
    columnName: Option<string>,
    dataType: Option<int>,
    columnSize: Option<Option<string>>,
    columnDef: Option<string>,
    isNullable: Option<string>)

  /** The column sizes assumed for types whose size the database does not report. */
  const DefaultSizes: map<int, string> := map[
    CHAR := "254",
    VARCHAR := "254",
    LONGVARCHAR := "254",
    BINARY := "254",
    VARBINARY := "254",
    LONGVARBINARY := "254",
    INTEGER := "32",
    BIGINT := "64",
    REAL := "7,0",
    FLOAT := "15,0",
    DOUBLE := "15,0",
    DECIMAL := "15,15",
    NUMERIC := "15,15"]

  function NameOf(row: ColumnRow): string
  {
    if row.columnName.Some? then row.columnName.value else "UNKNOWN"
  }

  function TypeCodeOf(row: ColumnRow): int
  {
    if row.dataType.Some? then row.dataType.value else OTHER
  }

  /** The reported size, or else the default size of the column's type. */
  function SizeOf(row: ColumnRow): Option<string>
  {
    if row.columnSize.Some? then row.columnSize.value
    else if TypeCodeOf(row) in DefaultSizes then Some(DefaultSizes[TypeCodeOf(row)])
    else None
  }

  /** Without a reported size, the character and binary types get 254, the numbers their default precision. */
  lemma DefaultSizeFallback(row: ColumnRow)
    requires row.columnSize.None?
    ensures TypeCodeOf(row) in {CHAR, VARCHAR, LONGVARCHAR, BINARY, VARBINARY, LONGVARBINARY} ==> SizeOf(row) == Some("254")
    ensures TypeCodeOf(row) == INTEGER ==> SizeOf(row) == Some("32")
    ensures TypeCodeOf(row) == BIGINT ==> SizeOf(row) == Some("64")
    ensures TypeCodeOf(row) == REAL ==> SizeOf(row) == Some("7,0")
    ensures TypeCodeOf(row) in {FLOAT, DOUBLE} ==> SizeOf(row) == Some("15,0")
    ensures TypeCodeOf(row) in {DECIMAL, NUMERIC} ==> SizeOf(row) == Some("15,15")
    ensures TypeCodeOf(row) in {BIT, TINYINT, SMALLINT, BOOLEAN, DATE, TIME, TIMESTAMP, OTHER} ==> SizeOf(row) == None
  {
  }

  /** A reported size, even a null one, wins over the default. */
  lemma ReportedSizeWins(row: ColumnRow)
    requires row.columnSize.Some?
    ensures SizeOf(row) == row.columnSize.value
  {
  }

  /** A column is required iff IS_NULLABLE, trimmed, is "NO" in any case. */
  predicate IsRequired(isNullable: Option<string>)
  {
    isNullable.Some? && EqualsIgnoreCase("NO", Trim(isNullable.value))
  }

  /** Blank padding around IS_NULLABLE (a "NO " from some drivers) does not matter. */
  lemma RequiredIgnoresPadding(l: string, v: string, r: string)
    requires IsBlank(l) && IsBlank(r)
    ensures IsRequired(Some(l + v + r)) == IsRequired(Some(v))
  {
    TrimPadding(l, v, r);
  }

  /** A string with no blank at either end is its own trim. */
  lemma TrimUnpadded(s: string)
    requires s == [] || (s[0] > ' ' && s[|s| - 1] > ' ')
    ensures Trim(s) == s
  {
  }

  /** "NO" in any case makes a column required, and so does a padded "NO ". */
  lemma RequiredWhenNo()
    ensures IsRequired(Some("NO")) && IsRequired(Some("no")) && IsRequired(Some("No"))
    ensures IsRequired(Some("NO "))
  {
    UnpaddedRequired("NO");
    UnpaddedRequired("no");
    UnpaddedRequired("No");
    RequiredIgnoresPadding("", "NO", " ");
    assert "" + "NO" + " " == "NO ";
  }

  /** "YES", the empty string and a null value leave a column nullable. */
  lemma NullableOtherwise()
    ensures !IsRequired(Some("YES")) && !IsRequired(Some("")) && !IsRequired(None)
  {
    UnpaddedRequired("YES");
    UnpaddedRequired("");
  }

  /** Without padding, IS_NULLABLE means required exactly when it is "NO" in any case. */
  lemma UnpaddedRequired(v: string)
    requires v == [] || (v[0] > ' ' && v[|v| - 1] > ' ')
    ensures IsRequired(Some(v)) == EqualsIgnoreCase("NO", v)
  {
    TrimUnpadded(v);
  }

  /** The characters Java's `.` does not match by default. */
  predicate IsLineTerminator(c: char)
  {
    c == '\n' || c == '\r' || c == '\U{0085}' || c == '\U{2028}' || c == '\U{2029}'
  }

  predicate NoLineTerminator(s: string)
  {
    forall i :: 0 <= i < |s| ==> !IsLineTerminator(s[i])
  }

  /** The whole default matches `\(\'?(.*?)\'?\)`. */
  predicate MatchesDefaultPattern(v: string)
  {
    |v| >= 2 && v[0] == '(' && v[|v| - 1] == ')' && NoLineTerminator(v[1..|v| - 1])
  }

  function DropLeadingQuote(s: string): string
  {
    if |s| > 0 && s[0] == '\'' then s[1..] else s
  }

  function DropTrailingQuote(s: string): string
  {
    if |s| > 0 && s[|s| - 1] == '\'' then s[..|s| - 1] else s
  }

  /**
   * The default with one layer of parentheses, and of quotes inside them,
   * taken off. The optional quotes are greedy and the group lazy, so the
   * group is what is left once one leading and then one trailing quote are
   * dropped. A default that does not match is kept as it is.
   */
  function UnwrapDefault(v: string): (r: string)
    ensures !MatchesDefaultPattern(v) ==> r == v
    ensures MatchesDefaultPattern(v) ==> |r| <= |v| - 2
  {
    if MatchesDefaultPattern(v) then DropTrailingQuote(DropLeadingQuote(v[1..|v| - 1])) else v
  }

  /** A quoted default in parentheses, `('v')`, reads back as `v`, quotes inside it included. */
  lemma UnwrapQuoted(v: string)
    requires NoLineTerminator(v)
    ensures UnwrapDefault("('" + v + "')") == v
  {
    var s := "('" + v + "')";
    assert s[1..|s| - 1] == "'" + v + "'";
    assert ("'" + v + "'")[1..] == v + "'";
    assert (v + "'")[..|v + "'"| - 1] == v;
  }

  /** An unquoted default in parentheses, `(v)`, reads back as `v`. */
  lemma UnwrapParenthesised(v: string)
    requires NoLineTerminator(v)
    requires v == [] || (v[0] != '\'' && v[|v| - 1] != '\'')
    ensures UnwrapDefault("(" + v + ")") == v
  {
    var s := "(" + v + ")";
    assert s[1..|s| - 1] == v;
  }

  /** Only one layer is taken off, and a lone quote in parentheses leaves the empty string. */
  lemma UnwrapExamples()
    ensures UnwrapDefault("((0))") == "(0)"
    ensures UnwrapDefault("(')") == ""
    ensures UnwrapDefault("'a'") == "'a'"
  {
    UnwrapParenthesised("(0)");
    assert "(" + "(0)" + ")" == "((0))";
    var s := "(')";
    assert s[1..|s| - 1] == "'";
  }

  /**
   * The Column built from one getColumns row: name (or "UNKNOWN"), type code
   * (or OTHER), size with its fallback, required from IS_NULLABLE, primary-key
   * flag by name, and the unwrapped default when there is one.
   */
  function ReadColumn(row: ColumnRow, primaryKeys: seq<string>): (col: Column)
    ensures col.primaryKey <==> col.name in primaryKeys
    ensures col.required <==> IsRequired(row.isNullable)
    ensures col.defaultValue.None? <==> row.columnDef.None?
    ensures !col.autoIncrement
    ensures col.name == NameOf(row) && col.typeCode == TypeCodeOf(row) && col.size == SizeOf(row)
    ensures row.columnDef.Some? ==> col.defaultValue == Some(UnwrapDefault(row.columnDef.value))
  {
    Column(
      NameOf(row),
      TypeCodeOf(row),
      SizeOf(row),
      IsRequired(row.isNullable),
      NameOf(row) in primaryKeys,
      false,
      if row.columnDef.Some? then Some(UnwrapDefault(row.columnDef.value)) else None)
  }

  /**
   * A column whose COLUMN_DEF is a quoted value in parentheses, `('v')`, gets
   * `v` as its default, and one without a reported size gets the default size
   * of its type.
   */
  lemma ReadColumnDefaultAndSize(row: ColumnRow, primaryKeys: seq<string>, v: string)
    requires row.columnDef == Some("('" + v + "')") && NoLineTerminator(v)
    ensures ReadColumn(row, primaryKeys).defaultValue == Some(v)
    ensures row.columnSize.None? && TypeCodeOf(row) in DefaultSizes ==>
      ReadColumn(row, primaryKeys).size == Some(DefaultSizes[TypeCodeOf(row)])
  {
    UnwrapQuoted(v);
  }

  /** getColumnsForTable over the rows of getColumns: one column per row, in row order. */
  method ReadColumns(rows: seq<ColumnRow>, primaryKeys: seq<string>) returns (columns: seq<Column>)
    ensures |columns| == |rows|
    ensures forall i :: 0 <= i < |rows| ==> columns[i] == ReadColumn(rows[i], primaryKeys)
    ensures forall i :: 0 <= i < |columns| ==> (columns[i].primaryKey <==> columns[i].name in primaryKeys)
  {
    columns := [];
    var i := 0;
    while i < |rows|
      invariant 0 <= i <= |rows|
      invariant |columns| == i
      invariant forall j :: 0 <= j < i ==> columns[j] == ReadColumn(rows[j], primaryKeys)
    {
      columns := columns + [ReadColumn(rows[i], primaryKeys)];
      i := i + 1;
    }
  }
}
