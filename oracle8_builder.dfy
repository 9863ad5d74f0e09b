/**
 * The Oracle 8 dialect: auto-increment emulated by a sequence and an insert
 * trigger per column, ISO date/time literals rewritten into TO_DATE calls,
 * and table alteration in three phases (drop primary keys, add or remove
 * columns, add primary keys).
 */
module Oracle8 {
  import opened Model
  import opened Alteration
  import opened SqlBuilder

  // ---------------------------------------------------------------------
  // The three literal shapes recognised in default values (matched against
  // the whole value; a digit is an ASCII digit).
  // ---------------------------------------------------------------------

  predicate IsDigit(c: char)
  {
    '0' <= c <= '9'
  }

  /** `dddd-dd-dd` */
  predicate IsIsoDate(s: string)
  {
    |s| == 10
    && IsDigit(s[0]) && IsDigit(s[1]) && IsDigit(s[2]) && IsDigit(s[3]) && s[4] == '-'
    && IsDigit(s[5]) && IsDigit(s[6]) && s[7] == '-' && IsDigit(s[8]) && IsDigit(s[9])
  }

  /** `dd:dd:dd` */
  predicate IsIsoTime(s: string)
  {
    |s| == 8
    && IsDigit(s[0]) && IsDigit(s[1]) && s[2] == ':'
    && IsDigit(s[3]) && IsDigit(s[4]) && s[5] == ':' && IsDigit(s[6]) && IsDigit(s[7])
  }

  /**
   * The character class written after the seconds of the timestamp pattern.
   * As written it is a class, not a group, so it admits one character out of
   * a dot, a digit, an opening brace, a comma and a closing brace.
   */
  predicate InFractionClass(c: char)
  {
    c == '.' || IsDigit(c) || c == '{' || c == ',' || c == '}'
  }

  /** `dddd-dd-dd dd:dd:dd` followed by at most one character of the class above. */
  predicate IsIsoTimestamp(s: string)
  {
    (|s| == 19 || |s| == 20)
    && IsIsoDate(s[..10]) && s[10] == ' ' && IsIsoTime(s[11..19])
    && (|s| == 20 ==> InFractionClass(s[19]))
  }

  predicate StartsWith(s: string, prefix: string)
  {
    |prefix| <= |s| && s[..|prefix|] == prefix
  }

  /** Whether a type code takes the boolean conversion to SMALLINT. */
  predicate IsBooleanType(typeCode: int, supportsJava14: bool)
  {
    typeCode == BIT || (supportsJava14 && typeCode == BOOLEAN)
  }

  /**
   * The default value as Oracle needs it. A null default under the
   * DATE/TIME/TIMESTAMP tests, or a null boolean conversion, fails as
   * DdlUtils' Oracle builder does.
   */
  function GetNativeDefaultValue(column: Column, b: Inherited, supportsJava14: bool): (r: Result<Option<string>>)
    ensures IsBooleanType(column.typeCode, supportsJava14) ==>
      var converted := b.convert(column.defaultValue, column.typeCode, SMALLINT);
      r == if converted.Some? then Success(converted) else NullPointerException
    ensures !IsBooleanType(column.typeCode, supportsJava14) && column.typeCode in {DATE, TIME, TIMESTAMP} ==>
      (r.NullPointerException? <==> column.defaultValue.None?)
    ensures column.typeCode == DATE && column.defaultValue.Some? && IsIsoDate(column.defaultValue.value) ==>
      r == Success(Some(ToDate(column.defaultValue.value, "YYYY-MM-DD")))
    ensures column.typeCode == TIME && column.defaultValue.Some? && IsIsoTime(column.defaultValue.value) ==>
      r == Success(Some(ToDate(column.defaultValue.value, "HH24:MI:SS")))
    ensures column.typeCode == TIMESTAMP && column.defaultValue.Some? && IsIsoTimestamp(column.defaultValue.value) ==>
      r == Success(Some(ToDate(column.defaultValue.value, "YYYY-MM-DD HH24:MI:SS")))
    ensures (!IsBooleanType(column.typeCode, supportsJava14) && column.defaultValue.Some?
             && !(column.typeCode == DATE && IsIsoDate(column.defaultValue.value))
             && !(column.typeCode == TIME && IsIsoTime(column.defaultValue.value))
             && !(column.typeCode == TIMESTAMP && IsIsoTimestamp(column.defaultValue.value))) ==>
      r == Success(b.nativeDefaultValue(column))
    ensures !IsBooleanType(column.typeCode, supportsJava14) && column.typeCode !in {DATE, TIME, TIMESTAMP} ==>
      r == Success(b.nativeDefaultValue(column))
  {
    if IsBooleanType(column.typeCode, supportsJava14) then
      var converted := b.convert(column.defaultValue, column.typeCode, SMALLINT);
      if converted.Some? then Success(converted) else NullPointerException
    else if column.typeCode == DATE then
      if column.defaultValue.None? then NullPointerException
      else if IsIsoDate(column.defaultValue.value) then
        Success(Some(ToDate(column.defaultValue.value, "YYYY-MM-DD")))
      else Success(b.nativeDefaultValue(column))
    else if column.typeCode == TIME then
      if column.defaultValue.None? then NullPointerException
      else if IsIsoTime(column.defaultValue.value) then
        Success(Some(ToDate(column.defaultValue.value, "HH24:MI:SS")))
      else Success(b.nativeDefaultValue(column))
    else if column.typeCode == TIMESTAMP then
      if column.defaultValue.None? then NullPointerException
      else if IsIsoTimestamp(column.defaultValue.value) then
        Success(Some(ToDate(column.defaultValue.value, "YYYY-MM-DD HH24:MI:SS")))
      else Success(b.nativeDefaultValue(column))
    else Success(b.nativeDefaultValue(column))
  }

  /**
   * The text printed for a default value: nothing for null, the value as is
   * for a numeric type or a TO_DATE call, and otherwise the value between
   * quote tokens with its single quotes doubled.
   */
  function DefaultValueText(defaultValue: Option<string>, typeCode: int, w: Writer, b: Inherited): (text: string)
    ensures defaultValue.None? ==> text == ""
    ensures defaultValue.Some? && (b.isNumericType(typeCode) || StartsWith(defaultValue.value, "TO_DATE(")) ==>
      text == defaultValue.value
    ensures defaultValue.Some? && !b.isNumericType(typeCode) && !StartsWith(defaultValue.value, "TO_DATE(") ==>
      text == w.valueQuoteToken + EscapeQuotes(defaultValue.value) + w.valueQuoteToken
  {
    if defaultValue.None? then ""
    else
      var shouldUseQuotes := !b.isNumericType(typeCode) && !StartsWith(defaultValue.value, "TO_DATE(");
      if shouldUseQuotes then w.valueQuoteToken + EscapeQuotes(defaultValue.value) + w.valueQuoteToken
      else defaultValue.value
  }

  /** A quoted default reads back as the original value when the quote token is a single quote. */
  lemma QuotedDefaultReadsBack(v: string, typeCode: int, w: Writer, b: Inherited)
    requires w.valueQuoteToken == "'"
    requires !b.isNumericType(typeCode) && !StartsWith(v, "TO_DATE(")
    ensures ReadStringLiteral(DefaultValueText(Some(v), typeCode, w, b)) == Some(v)
  {
    LiteralRoundTrip(v);
  }

  /**
   * An ISO date, time or timestamp default reaches the statement as a bare
   * TO_DATE call: the rewritten value is printed without quotes.
   */
  lemma IsoDefaultPrintedAsToDate(column: Column, w: Writer, b: Inherited, supportsJava14: bool)
    requires column.defaultValue.Some?
    requires (column.typeCode == DATE && IsIsoDate(column.defaultValue.value))
          || (column.typeCode == TIME && IsIsoTime(column.defaultValue.value))
          || (column.typeCode == TIMESTAMP && IsIsoTimestamp(column.defaultValue.value))
    ensures var r := GetNativeDefaultValue(column, b, supportsJava14);
      r.Success? && r.value.Some?
      && DefaultValueText(r.value, column.typeCode, w, b) == r.value.value
      && StartsWith(r.value.value, "TO_DATE('" + column.defaultValue.value + "', '")
  {
    ToDateStarts(column.defaultValue.value, "YYYY-MM-DD");
    ToDateStarts(column.defaultValue.value, "HH24:MI:SS");
    ToDateStarts(column.defaultValue.value, "YYYY-MM-DD HH24:MI:SS");
  }

  /** The TO_DATE call Oracle is given for an ISO literal and its format mask. */
  function ToDate(v: string, mask: string): string
  {
    "TO_DATE('" + v + "', '" + mask + "')"
  }

  /** A TO_DATE call starts with the function name and then the quoted literal. */
  lemma ToDateStarts(v: string, mask: string)
    ensures StartsWith(ToDate(v, mask), "TO_DATE(")
    ensures StartsWith(ToDate(v, mask), "TO_DATE('" + v + "', '")
  {
    var head := "TO_DATE('" + v + "', '";
    assert ToDate(v, mask) == (head + mask) + "')";
    assert (head + mask) + "')" == head + (mask + "')");
    assert (head + (mask + "')"))[..|head|] == head;
    var call := "TO_DATE('";
    assert head == call + (v + "', '");
    assert head[..|call|] == call;
    assert call[..8] == "TO_DATE(";
    assert head[..8] == head[..|call|][..8];
  }

  /**
   * The class at the end of the timestamp pattern admits a single
   * character, so a timestamp with a one-digit fraction is not rewritten
   * while one followed by a brace is.
   */
  lemma TimestampFractionQuirk()
    ensures !IsIsoTimestamp("2006-01-01 12:00:00.5")
    ensures IsIsoTimestamp("2006-01-01 12:00:00.")
    ensures IsIsoTimestamp("2006-01-01 12:00:00}")
    ensures IsIsoTimestamp("2006-01-01 12:00:00")
  {
  }

  /** Oracle writes no auto-increment clause into a column definition: sequences and triggers stand in. */
  function WriteColumnAutoIncrementStmt(table: Table, column: Column): (text: string)
    ensures text == ""
  {
    ""
  }

  // ---------------------------------------------------------------------
  // Statement shapes.
  // ---------------------------------------------------------------------

  function DropTableStatement(w: Writer, b: Inherited, t: Table): string
  {
    "DROP TABLE " + w.identifier(b.tableName(t)) + " CASCADE CONSTRAINTS"
  }

  function DropTriggerStatement(w: Writer, b: Inherited, t: Table, c: Column): string
  {
    "DROP TRIGGER " + w.identifier(b.constraintName("trg", t, c.name))
  }

  function DropSequenceStatement(w: Writer, b: Inherited, t: Table, c: Column): string
  {
    "DROP SEQUENCE " + w.identifier(b.constraintName("seq", t, c.name))
  }

  function CreateSequenceStatement(w: Writer, b: Inherited, t: Table, c: Column): string
  {
    "CREATE SEQUENCE " + w.identifier(b.constraintName("seq", t, c.name))
  }

  /** The insert trigger that fills a null auto-increment column from its sequence. */
  function CreateTriggerStatement(w: Writer, b: Inherited, t: Table, c: Column): string
  {
    var columnName := w.identifier(b.columnName(c));
    "CREATE OR REPLACE TRIGGER " + w.identifier(b.constraintName("trg", t, c.name))
    + " BEFORE INSERT ON " + w.identifier(b.tableName(t))
    + " FOR EACH ROW WHEN (new." + columnName + " IS NULL)" + w.lineBreak
    + "BEGIN SELECT " + w.identifier(b.constraintName("seq", t, c.name))
    + ".nextval INTO :new." + columnName + " FROM dual"
    + w.commandDelimiter + " END" + w.commandDelimiter
  }

  /** Index names are unique per schema in Oracle, so no ON clause. */
  function DropIndexStatement(w: Writer, b: Inherited, index: Index): string
  {
    "DROP INDEX " + w.identifier(b.indexName(index))
  }

  /** For each column, its trigger drop followed by its sequence drop. */
  function AutoIncrementDrops(w: Writer, b: Inherited, t: Table, cols: seq<Column>): seq<string>
  {
    if cols == [] then []
    else AutoIncrementDrops(w, b, t, cols[..|cols| - 1])
         + [DropTriggerStatement(w, b, t, cols[|cols| - 1]), DropSequenceStatement(w, b, t, cols[|cols| - 1])]
  }

  function DropTableStatements(w: Writer, b: Inherited, t: Table): seq<string>
  {
    [DropTableStatement(w, b, t)] + AutoIncrementDrops(w, b, t, AutoIncrementColumns(t))
  }

  lemma {:induction false} AutoIncrementDropsAt(w: Writer, b: Inherited, t: Table, cols: seq<Column>)
    ensures |AutoIncrementDrops(w, b, t, cols)| == 2 * |cols|
    ensures forall i :: 0 <= i < |cols| ==>
      AutoIncrementDrops(w, b, t, cols)[2 * i] == DropTriggerStatement(w, b, t, cols[i])
      && AutoIncrementDrops(w, b, t, cols)[2 * i + 1] == DropSequenceStatement(w, b, t, cols[i])
  {
    if cols != [] {
      AutoIncrementDropsAt(w, b, t, cols[..|cols| - 1]);
    }
  }

  /**
   * Dropping a table drops it with its constraints first, then, for each
   * auto-increment column in order, its trigger and then its sequence.
   */
  lemma DropTableStatementsShape(w: Writer, b: Inherited, t: Table)
    ensures var s := DropTableStatements(w, b, t); var cols := AutoIncrementColumns(t);
      |s| == 1 + 2 * |cols|
      && s[0] == DropTableStatement(w, b, t)
      && forall i :: 0 <= i < |cols| ==>
           s[1 + 2 * i] == DropTriggerStatement(w, b, t, cols[i])
           && s[2 + 2 * i] == DropSequenceStatement(w, b, t, cols[i])
  {
    var cols := AutoIncrementColumns(t);
    var d := AutoIncrementDrops(w, b, t, cols);
    AutoIncrementDropsAt(w, b, t, cols);
    var s := DropTableStatements(w, b, t);
    assert s == [DropTableStatement(w, b, t)] + d;
    forall i | 0 <= i < |cols|
      ensures s[1 + 2 * i] == DropTriggerStatement(w, b, t, cols[i])
      ensures s[2 + 2 * i] == DropSequenceStatement(w, b, t, cols[i])
    {
      assert s[1 + 2 * i] == d[2 * i];
      assert s[2 + 2 * i] == d[2 * i + 1];
    }
  }

  function CreateSequences(w: Writer, b: Inherited, t: Table, cols: seq<Column>): seq<string>
  {
    if cols == [] then []
    else CreateSequences(w, b, t, cols[..|cols| - 1]) + [CreateSequenceStatement(w, b, t, cols[|cols| - 1])]
  }

  function CreateTriggers(w: Writer, b: Inherited, t: Table, cols: seq<Column>): seq<string>
  {
    if cols == [] then []
    else CreateTriggers(w, b, t, cols[..|cols| - 1]) + [CreateTriggerStatement(w, b, t, cols[|cols| - 1])]
  }

  function CreateTableStatements(w: Writer, b: Inherited, db: Database, t: Table, parameters: map<string, string>): seq<string>
  {
    var cols := AutoIncrementColumns(t);
    CreateSequences(w, b, t, cols) + b.createTableStatements(db, t, parameters) + CreateTriggers(w, b, t, cols)
  }

  lemma {:induction false} CreateSequencesAt(w: Writer, b: Inherited, t: Table, cols: seq<Column>)
    ensures |CreateSequences(w, b, t, cols)| == |cols|
    ensures forall i :: 0 <= i < |cols| ==> CreateSequences(w, b, t, cols)[i] == CreateSequenceStatement(w, b, t, cols[i])
  {
    if cols != [] {
      var p := cols[..|cols| - 1];
      CreateSequencesAt(w, b, t, p);
      var s := CreateSequences(w, b, t, cols);
      assert s == CreateSequences(w, b, t, p) + [CreateSequenceStatement(w, b, t, cols[|cols| - 1])];
      forall i | 0 <= i < |cols|
        ensures s[i] == CreateSequenceStatement(w, b, t, cols[i])
      {
        if i < |p| {
          assert cols[i] == p[i];
        }
      }
    }
  }

  lemma {:induction false} CreateTriggersAt(w: Writer, b: Inherited, t: Table, cols: seq<Column>)
    ensures |CreateTriggers(w, b, t, cols)| == |cols|
    ensures forall i :: 0 <= i < |cols| ==> CreateTriggers(w, b, t, cols)[i] == CreateTriggerStatement(w, b, t, cols[i])
  {
    if cols != [] {
      var p := cols[..|cols| - 1];
      CreateTriggersAt(w, b, t, p);
      var s := CreateTriggers(w, b, t, cols);
      assert s == CreateTriggers(w, b, t, p) + [CreateTriggerStatement(w, b, t, cols[|cols| - 1])];
      forall i | 0 <= i < |cols|
        ensures s[i] == CreateTriggerStatement(w, b, t, cols[i])
      {
        if i < |p| {
          assert cols[i] == p[i];
        }
      }
    }
  }

  /**
   * Creating a table creates one sequence per auto-increment column before
   * the table's own statements and one trigger per such column after them.
   */
  lemma CreateTableStatementsShape(w: Writer, b: Inherited, db: Database, t: Table, parameters: map<string, string>)
    ensures |CreateTableStatements(w, b, db, t, parameters)|
         == 2 * |AutoIncrementColumns(t)| + |b.createTableStatements(db, t, parameters)|
    ensures CreateTableStatements(w, b, db, t, parameters)[|AutoIncrementColumns(t)|..|AutoIncrementColumns(t)| + |b.createTableStatements(db, t, parameters)|]
         == b.createTableStatements(db, t, parameters)
    ensures forall i :: 0 <= i < |AutoIncrementColumns(t)| ==>
      CreateTableStatements(w, b, db, t, parameters)[i] == CreateSequenceStatement(w, b, t, AutoIncrementColumns(t)[i])
    ensures forall i :: 0 <= i < |AutoIncrementColumns(t)| ==>
      CreateTableStatements(w, b, db, t, parameters)[|AutoIncrementColumns(t)| + |b.createTableStatements(db, t, parameters)| + i]
      == CreateTriggerStatement(w, b, t, AutoIncrementColumns(t)[i])
  {
    var cols := AutoIncrementColumns(t);
    var x, y, z := CreateSequences(w, b, t, cols), b.createTableStatements(db, t, parameters), CreateTriggers(w, b, t, cols);
    var s := CreateTableStatements(w, b, db, t, parameters);
    assert s == x + y + z;
    CreateSequencesAt(w, b, t, cols);
    CreateTriggersAt(w, b, t, cols);
    ThreeParts(x, y, z);
  }

  /** Where the parts of a three-part concatenation stand in it. */
  lemma ThreeParts(x: seq<string>, y: seq<string>, z: seq<string>)
    ensures var s := x + y + z;
      |s| == |x| + |y| + |z|
      && s[|x|..|x| + |y|] == y
      && (forall i :: 0 <= i < |x| ==> s[i] == x[i])
      && (forall i :: 0 <= i < |z| ==> s[|x| + |y| + i] == z[i])
  {
    var s := x + y + z;
    assert s[|x|..|x| + |y|] == y;
  }

  // ---------------------------------------------------------------------
  // The three-phase change-application protocol, as functions of the
  // change list.
  // ---------------------------------------------------------------------

  datatype Phase = DropPrimaryKeys | AlterColumns | AddPrimaryKeys

  function PhaseRank(ph: Phase): nat
  {
    match ph
    case DropPrimaryKeys => 1
    case AlterColumns => 2
    case AddPrimaryKeys => 3
  }

  /** The phase whose statement a processed change is: 0 for a change the protocol never emits. */
  function Rank(c: Change): nat
  {
    match c
    case RemovePrimaryKeyChange(_, _) => 1
    case AddColumnChange(_, _, _) => 2
    case RemoveColumnChange(_, _) => 2
    case AddPrimaryKeyChange(_, _) => 3
    case _ => 0
  }

  /**
   * The changes that carry out one requested change, in phase order: a
   * primary-key change becomes the removal of its old key and the addition
   * of its new key; a column added anywhere but at the end, and every other
   * kind this protocol does not handle, yields nothing.
   */
  function Realisation(c: Change): seq<Change>
  {
    match c
    case RemovePrimaryKeyChange(_, _) => [c]
    case PrimaryKeyChange(t, o, n) => [RemovePrimaryKeyChange(t, o), AddPrimaryKeyChange(t, n)]
    case AddColumnChange(_, _, atEnd) => if atEnd then [c] else []
    case RemoveColumnChange(_, _) => [c]
    case AddPrimaryKeyChange(_, _) => [c]
    case _ => []
  }

  /** Whether a phase takes a pending change off the list. */
  predicate RemovedBy(ph: Phase, c: Change)
  {
    match ph
    case DropPrimaryKeys => c.RemovePrimaryKeyChange?
    case AlterColumns => (c.AddColumnChange? && c.atEnd) || c.RemoveColumnChange?
    case AddPrimaryKeys => c.AddPrimaryKeyChange? || c.PrimaryKeyChange?
  }

  /** The changes a phase emits and applies for one pending change. */
  function PhaseStep(ph: Phase, c: Change): seq<Change>
  {
    match ph
    case DropPrimaryKeys =>
      if c.RemovePrimaryKeyChange? then [c]
      else if c.PrimaryKeyChange? then [RemovePrimaryKeyChange(c.table, c.oldPrimaryKeyColumns)]
      else []
    case AlterColumns =>
      if (c.AddColumnChange? && c.atEnd) || c.RemoveColumnChange? then [c] else []
    case AddPrimaryKeys =>
      if c.AddPrimaryKeyChange? then [c]
      else if c.PrimaryKeyChange? then [AddPrimaryKeyChange(c.table, c.newPrimaryKeyColumns)]
      else []
  }

  /** A way of mapping each change of a list to a few changes. */
  type Mapper = Change -> seq<Change>

  /** What a phase emits and applies for each pending change. */
  function Processing(ph: Phase): Mapper
  {
    c => PhaseStep(ph, c)
  }

  /** What a phase leaves on the list of each pending change. */
  function Keeping(ph: Phase): Mapper
  {
    c => if RemovedBy(ph, c) then [] else [c]
  }

  /** The changes of one phase. */
  function OfRank(k: nat): Mapper
  {
    c => if Rank(c) == k then [c] else []
  }

  /** A change the protocol does not handle, kept as it is. */
  function Unhandled(c: Change): seq<Change>
  {
    if Realisation(c) == [] then [c] else []
  }

  /** The images of the changes of a list, concatenated in list order. */
  function Collect(s: Mapper, xs: seq<Change>): seq<Change>
  {
    if xs == [] then [] else Collect(s, xs[..|xs| - 1]) + s(xs[|xs| - 1])
  }

  lemma {:induction false} CollectAppend(s: Mapper, xs: seq<Change>, ys: seq<Change>)
    ensures Collect(s, xs + ys) == Collect(s, xs) + Collect(s, ys)
  {
    if ys == [] {
      assert xs + ys == xs;
    } else {
      assert (xs + ys)[..|xs + ys| - 1] == xs + ys[..|ys| - 1];
      CollectAppend(s, xs, ys[..|ys| - 1]);
    }
  }

  lemma CollectSingleton(s: Mapper, c: Change)
    ensures Collect(s, [c]) == s(c)
  {
    assert [c][..0] == [];
  }

  lemma CollectPair(s: Mapper, a: Change, c: Change)
    ensures Collect(s, [a, c]) == s(a) + s(c)
  {
    assert [a, c] == [a] + [c];
    CollectAppend(s, [a], [c]);
    CollectSingleton(s, a);
    CollectSingleton(s, c);
  }

  lemma {:induction false} CollectOfRankRanks(k: nat, xs: seq<Change>)
    ensures forall c :: c in Collect(OfRank(k), xs) ==> Rank(c) == k
  {
    if xs != [] {
      CollectOfRankRanks(k, xs[..|xs| - 1]);
    }
  }

  /** The changes a phase processes for pending changes. */
  function Processed(ph: Phase, xs: seq<Change>): (r: seq<Change>)
    ensures forall c :: c in r ==> Rank(c) == PhaseRank(ph)
  {
    ProcessedIsRealisedOfRank(ph, xs);
    CollectOfRankRanks(PhaseRank(ph), Collect(Realisation, xs));
    Collect(Processing(ph), xs)
  }

  /** The pending changes a phase leaves on the list. */
  function Kept(ph: Phase, xs: seq<Change>): seq<Change>
  {
    Collect(Keeping(ph), xs)
  }

  /** Everything the protocol emits and applies for a change list, in order. */
  function Emitted(changes: seq<Change>): (e: seq<Change>)
    ensures forall c :: c in e ==> 1 <= Rank(c) <= 3
  {
    var kept1 := Kept(DropPrimaryKeys, changes);
    var kept2 := Kept(AlterColumns, kept1);
    Processed(DropPrimaryKeys, changes) + Processed(AlterColumns, kept1) + Processed(AddPrimaryKeys, kept2)
  }

  /** What is left on the change list after the three phases. */
  function Remaining(changes: seq<Change>): seq<Change>
  {
    Kept(AddPrimaryKeys, Kept(AlterColumns, Kept(DropPrimaryKeys, changes)))
  }

  // ---------------------------------------------------------------------
  // Properties of the protocol.
  // ---------------------------------------------------------------------

  lemma StepIsRealisedOfRank(ph: Phase, c: Change)
    ensures PhaseStep(ph, c) == Collect(OfRank(PhaseRank(ph)), Realisation(c))
  {
    match c
    case PrimaryKeyChange(t, o, n) =>
      CollectPair(OfRank(PhaseRank(ph)), RemovePrimaryKeyChange(t, o), AddPrimaryKeyChange(t, n));
    case _ =>
      if Realisation(c) == [c] {
        CollectSingleton(OfRank(PhaseRank(ph)), c);
      }
  }

  /** What a phase processes is exactly the part of the realisation that belongs to that phase. */
  lemma {:induction false} ProcessedIsRealisedOfRank(ph: Phase, xs: seq<Change>)
    ensures Collect(Processing(ph), xs) == Collect(OfRank(PhaseRank(ph)), Collect(Realisation, xs))
  {
    if xs != [] {
      var p, c := xs[..|xs| - 1], xs[|xs| - 1];
      ProcessedIsRealisedOfRank(ph, p);
      CollectAppend(OfRank(PhaseRank(ph)), Collect(Realisation, p), Realisation(c));
      StepIsRealisedOfRank(ph, c);
    }
  }

  lemma {:induction false} RealisedOfRankAppend(k: nat, xs: seq<Change>, ys: seq<Change>)
    ensures Collect(OfRank(k), Collect(Realisation, xs + ys))
         == Collect(OfRank(k), Collect(Realisation, xs)) + Collect(OfRank(k), Collect(Realisation, ys))
  {
    CollectAppend(Realisation, xs, ys);
    CollectAppend(OfRank(k), Collect(Realisation, xs), Collect(Realisation, ys));
  }

  /**
   * The first two phases take off the list only changes realised entirely
   * in their own phase, so the later phases see the same work.
   */
  lemma {:induction false} KeepingPreservesLaterWork(ph: Phase, k: nat, xs: seq<Change>)
    requires ph != AddPrimaryKeys && k != PhaseRank(ph)
    ensures Collect(OfRank(k), Collect(Realisation, Kept(ph, xs))) == Collect(OfRank(k), Collect(Realisation, xs))
  {
    if xs != [] {
      var p, c := xs[..|xs| - 1], xs[|xs| - 1];
      assert Collect(OfRank(k), Collect(Realisation, Kept(ph, xs)))
          == Collect(OfRank(k), Collect(Realisation, Kept(ph, p)))
           + Collect(OfRank(k), Collect(Realisation, Keeping(ph)(c))) by {
        assert Kept(ph, xs) == Kept(ph, p) + Keeping(ph)(c);
        RealisedOfRankAppend(k, Kept(ph, p), Keeping(ph)(c));
      }
      assert Collect(OfRank(k), Collect(Realisation, xs))
          == Collect(OfRank(k), Collect(Realisation, p))
           + Collect(OfRank(k), Collect(Realisation, [c])) by {
        assert xs == p + [c];
        RealisedOfRankAppend(k, p, [c]);
      }
      KeepingPreservesLaterWork(ph, k, p);
      KeptChangePreservesLaterWork(ph, k, c);
    }
  }

  lemma KeptChangePreservesLaterWork(ph: Phase, k: nat, c: Change)
    requires ph != AddPrimaryKeys && k != PhaseRank(ph)
    ensures Collect(OfRank(k), Collect(Realisation, Keeping(ph)(c))) == Collect(OfRank(k), Collect(Realisation, [c]))
  {
    CollectSingleton(Realisation, c);
    if RemovedBy(ph, c) {
      assert Realisation(c) == [c] && Rank(c) == PhaseRank(ph);
      CollectSingleton(OfRank(k), c);
    } else {
      assert Keeping(ph)(c) == [c];
    }
  }

  /**
   * The emitted changes are the realisations of the requested changes,
   * stably sorted by phase: every key removal, then every column change,
   * then every key addition, each group in list order.
   */
  lemma EmittedIsStablyOrderedRealisation(changes: seq<Change>)
    ensures var x := Collect(Realisation, changes);
      Emitted(changes) == Collect(OfRank(1), x) + Collect(OfRank(2), x) + Collect(OfRank(3), x)
  {
    var kept1 := Kept(DropPrimaryKeys, changes);
    var kept2 := Kept(AlterColumns, kept1);
    ProcessedIsRealisedOfRank(DropPrimaryKeys, changes);
    ProcessedIsRealisedOfRank(AlterColumns, kept1);
    ProcessedIsRealisedOfRank(AddPrimaryKeys, kept2);
    KeepingPreservesLaterWork(DropPrimaryKeys, 2, changes);
    KeepingPreservesLaterWork(AlterColumns, 3, kept1);
    KeepingPreservesLaterWork(DropPrimaryKeys, 3, changes);
  }

  /** Key removals come before every column change, and column changes before every key addition. */
  lemma EmittedPhaseOrder(changes: seq<Change>)
    ensures var e := Emitted(changes);
      forall i, j :: 0 <= i < j < |e| ==> Rank(e[i]) <= Rank(e[j])
  {
    var x := Collect(Realisation, changes);
    var w1, w2, w3 := Collect(OfRank(1), x), Collect(OfRank(2), x), Collect(OfRank(3), x);
    EmittedIsStablyOrderedRealisation(changes);
    CollectOfRankRanks(1, x);
    CollectOfRankRanks(2, x);
    CollectOfRankRanks(3, x);
    GroupsInOrder(w1, w2, w3);
  }

  /** Three groups of changes of ranks 1, 2 and 3, concatenated, are ordered by rank. */
  lemma GroupsInOrder(w1: seq<Change>, w2: seq<Change>, w3: seq<Change>)
    requires forall c :: c in w1 ==> Rank(c) == 1
    requires forall c :: c in w2 ==> Rank(c) == 2
    requires forall c :: c in w3 ==> Rank(c) == 3
    ensures var e := w1 + w2 + w3;
      forall i, j :: 0 <= i < j < |e| ==> Rank(e[i]) <= Rank(e[j])
  {
    var e := w1 + w2 + w3;
    forall i | 0 <= i < |e|
      ensures Rank(e[i]) == if i < |w1| then 1 else if i < |w1| + |w2| then 2 else 3
    {
      if i < |w1| {
        assert e[i] == w1[i];
      } else if i < |w1| + |w2| {
        assert e[i] == w2[i - |w1|];
      } else {
        assert e[i] == w3[i - |w1| - |w2|];
      }
    }
  }

  lemma {:induction false} RealisedRanks(xs: seq<Change>)
    ensures forall c :: c in Collect(Realisation, xs) ==> 1 <= Rank(c) <= 3
  {
    if xs != [] {
      RealisedRanks(xs[..|xs| - 1]);
    }
  }

  lemma {:induction false} PartitionByRank(xs: seq<Change>)
    requires forall c :: c in xs ==> 1 <= Rank(c) <= 3
    ensures multiset(xs)
      == multiset(Collect(OfRank(1), xs)) + multiset(Collect(OfRank(2), xs)) + multiset(Collect(OfRank(3), xs))
  {
    if xs != [] {
      var p, c := xs[..|xs| - 1], xs[|xs| - 1];
      assert xs == p + [c];
      assert c in xs;
      PartitionByRank(p);
      assert Collect(OfRank(1), xs) == Collect(OfRank(1), p) + OfRank(1)(c);
      assert Collect(OfRank(2), xs) == Collect(OfRank(2), p) + OfRank(2)(c);
      assert Collect(OfRank(3), xs) == Collect(OfRank(3), p) + OfRank(3)(c);
      OneRankOf(c);
    }
  }

  /** A change of rank 1 to 3 falls under exactly one of the three ranks. */
  lemma OneRankOf(c: Change)
    requires 1 <= Rank(c) <= 3
    ensures multiset(OfRank(1)(c)) + multiset(OfRank(2)(c)) + multiset(OfRank(3)(c)) == multiset{c}
  {
  }

  /**
   * Exactly-once emission: every change of the realisation is emitted and
   * applied as many times as it occurs there, and nothing else is.
   */
  lemma EmittedExactlyOnce(changes: seq<Change>)
    ensures multiset(Emitted(changes)) == multiset(Collect(Realisation, changes))
  {
    EmittedIsStablyOrderedRealisation(changes);
    RealisedRanks(changes);
    PartitionByRank(Collect(Realisation, changes));
  }

  lemma {:induction false} CollectMember(s: Mapper, xs: seq<Change>, k: nat, y: Change)
    requires k < |xs| && y in s(xs[k])
    ensures y in Collect(s, xs)
  {
    if k < |xs| - 1 {
      CollectMember(s, xs[..|xs| - 1], k, y);
    }
  }

  /**
   * A primary-key change is carried out as a removal of its old key, emitted
   * in the first phase, and an addition of its new key, emitted later in the
   * last phase.
   */
  lemma PrimaryKeyChangeSplit(changes: seq<Change>, k: nat)
    requires k < |changes| && changes[k].PrimaryKeyChange?
    ensures var c, e := changes[k], Emitted(changes);
      exists i, j :: 0 <= i < j < |e|
        && e[i] == RemovePrimaryKeyChange(c.table, c.oldPrimaryKeyColumns)
        && e[j] == AddPrimaryKeyChange(c.table, c.newPrimaryKeyColumns)
  {
    var c := changes[k];
    var removal := RemovePrimaryKeyChange(c.table, c.oldPrimaryKeyColumns);
    var addition := AddPrimaryKeyChange(c.table, c.newPrimaryKeyColumns);
    var x := Collect(Realisation, changes);
    assert Realisation(c) == [removal, addition];
    CollectMember(Realisation, changes, k, removal);
    CollectMember(Realisation, changes, k, addition);
    InGroup(x, 1, removal);
    InGroup(x, 3, addition);
    EmittedIsStablyOrderedRealisation(changes);
    FirstBeforeLast(Collect(OfRank(1), x), Collect(OfRank(2), x), Collect(OfRank(3), x), removal, addition);
  }

  lemma InGroup(x: seq<Change>, k: nat, y: Change)
    requires y in x && Rank(y) == k
    ensures y in Collect(OfRank(k), x)
  {
    var a :| 0 <= a < |x| && x[a] == y;
    CollectMember(OfRank(k), x, a, y);
  }

  lemma FirstBeforeLast(w1: seq<Change>, w2: seq<Change>, w3: seq<Change>, y: Change, z: Change)
    requires y in w1 && z in w3
    ensures var e := w1 + w2 + w3;
      exists i, j :: 0 <= i < j < |e| && e[i] == y && e[j] == z
  {
    var e := w1 + w2 + w3;
    var i :| 0 <= i < |w1| && w1[i] == y;
    var j :| 0 <= j < |w3| && w3[j] == z;
    assert e[i] == y;
    assert e[|w1| + |w2| + j] == z;
  }

  lemma {:induction false} RemainingAppend(xs: seq<Change>, c: Change)
    ensures Remaining(xs + [c]) == Remaining(xs) + Unhandled(c)
  {
    var k1 := Kept(DropPrimaryKeys, xs);
    var k2 := Kept(AlterColumns, k1);
    assert (xs + [c])[..|xs|] == xs;
    var i1 := Keeping(DropPrimaryKeys)(c);
    CollectAppend(Keeping(AlterColumns), k1, i1);
    var i2 := Collect(Keeping(AlterColumns), i1);
    CollectAppend(Keeping(AddPrimaryKeys), k2, i2);
    KeptByAllPhases(c);
  }

  /** A change survives the three phases exactly when the protocol does not handle it. */
  lemma KeptByAllPhases(c: Change)
    ensures Collect(Keeping(AddPrimaryKeys), Collect(Keeping(AlterColumns), Keeping(DropPrimaryKeys)(c))) == Unhandled(c)
  {
    var i1 := Keeping(DropPrimaryKeys)(c);
    if i1 == [c] {
      CollectSingleton(Keeping(AlterColumns), c);
      var i2 := Collect(Keeping(AlterColumns), i1);
      if i2 == [c] {
        CollectSingleton(Keeping(AddPrimaryKeys), c);
      }
    }
  }

  /**
   * The list keeps exactly the changes the protocol does not handle (among
   * them every column added elsewhere than at the end), in their original
   * relative order.
   */
  lemma {:induction false} RemainingAreUnhandled(changes: seq<Change>)
    ensures Remaining(changes) == Collect(Unhandled, changes)
  {
    if changes != [] {
      var p, c := changes[..|changes| - 1], changes[|changes| - 1];
      assert changes == p + [c];
      RemainingAreUnhandled(p);
      RemainingAppend(p, c);
    }
  }

  /** A column insertion that is not at the end is left on the list, and neither written nor applied. */
  lemma InsertedColumnStays(changes: seq<Change>, k: nat)
    requires k < |changes| && changes[k].AddColumnChange? && !changes[k].atEnd
    ensures changes[k] in Remaining(changes)
    ensures changes[k] !in Emitted(changes)
  {
    RemainingAreUnhandled(changes);
    CollectMember(Unhandled, changes, k, changes[k]);
    EmittedExactlyOnce(changes);
    RealisationOmits(changes, changes[k]);
    assert multiset(Collect(Realisation, changes))[changes[k]] == 0;
  }

  /** A change whose realisation is empty and which no realisation produces never appears in one. */
  lemma {:induction false} RealisationOmits(xs: seq<Change>, c: Change)
    requires c.AddColumnChange? && !c.atEnd
    ensures c !in Collect(Realisation, xs)
  {
    if xs != [] {
      RealisationOmits(xs[..|xs| - 1], c);
    }
  }

  // ---------------------------------------------------------------------
  // Statements of processed changes.
  // ---------------------------------------------------------------------

  /** The statement each processChange overload (or the inherited one for a key addition) writes. */
  function ChangeStatement(w: Writer, b: Inherited, c: Change): string
    requires Rank(c) > 0
  {
    match c
    case RemovePrimaryKeyChange(t, _) => AlterTablePrefix(w, b, t) + "DROP PRIMARY KEY"
    case AddColumnChange(t, col, _) => AlterTablePrefix(w, b, t) + "ADD " + b.columnDefinition(t, col)
    case RemoveColumnChange(t, col) => AlterTablePrefix(w, b, t) + "DROP COLUMN " + w.identifier(b.columnName(col))
    case AddPrimaryKeyChange(t, cols) => b.addPrimaryKeyStatement(t, cols)
  }

  function Statements(w: Writer, b: Inherited, xs: seq<Change>): (r: seq<string>)
    requires forall c :: c in xs ==> Rank(c) > 0
    ensures |r| == |xs|
  {
    if xs == [] then [] else Statements(w, b, xs[..|xs| - 1]) + [ChangeStatement(w, b, xs[|xs| - 1])]
  }

  lemma {:induction false} StatementsAppend(w: Writer, b: Inherited, xs: seq<Change>, ys: seq<Change>)
    requires forall c :: c in xs ==> Rank(c) > 0
    requires forall c :: c in ys ==> Rank(c) > 0
    ensures Statements(w, b, xs + ys) == Statements(w, b, xs) + Statements(w, b, ys)
  {
    if ys == [] {
      assert xs + ys == xs;
    } else {
      assert (xs + ys)[..|xs + ys| - 1] == xs + ys[..|ys| - 1];
      StatementsAppend(w, b, xs, ys[..|ys| - 1]);
    }
  }

  /** The statement for each emitted change stands at its position in the output. */
  lemma {:induction false} StatementsAt(w: Writer, b: Inherited, xs: seq<Change>)
    requires forall c :: c in xs ==> Rank(c) > 0
    ensures forall i :: 0 <= i < |xs| ==> Statements(w, b, xs)[i] == ChangeStatement(w, b, xs[i])
  {
    if xs != [] {
      StatementsAt(w, b, xs[..|xs| - 1]);
    }
  }

  /** One more pending change seen by a phase: the list still holds the kept changes before the unseen ones. */
  lemma KeptStep(ph: Phase, changes: seq<Change>, j: nat, pending: seq<Change>, i: nat, removed: bool)
    requires j <= |changes|
    requires pending == Kept(ph, changes[..j]) + changes[j..]
    requires i == |Kept(ph, changes[..j])| && i < |pending|
    requires removed == RemovedBy(ph, pending[i])
    ensures j < |changes| && pending[i] == changes[j]
    ensures (if removed then pending[..i] + pending[i + 1..] else pending) == Kept(ph, changes[..j + 1]) + changes[j + 1..]
    ensures (if removed then i else i + 1) == |Kept(ph, changes[..j + 1])|
  {
    var kept := Kept(ph, changes[..j]);
    assert |changes[j..]| > 0;
    KeptSnoc(ph, changes, j);
    SplitAt(changes, j);
    RemoveAfter(kept, changes[j], changes[j + 1..]);
    if removed {
      assert kept + [] == kept;
    }
  }

  lemma KeptSnoc(ph: Phase, xs: seq<Change>, j: nat)
    requires j < |xs|
    ensures Kept(ph, xs[..j + 1]) == Kept(ph, xs[..j]) + (if RemovedBy(ph, xs[j]) then [] else [xs[j]])
  {
    assert xs[..j + 1][..j] == xs[..j];
  }

  /** One more pending change seen by a phase: the writer and the model gain the work of its step. */
  lemma WorkStep(w: Writer, b: Inherited, ph: Phase, changes: seq<Change>, j: nat,
                 out0: seq<string>, out: seq<string>, db0: Database, db: Database, apply: Apply,
                 out': seq<string>, db': Database)
    requires j < |changes|
    requires out == out0 + Statements(w, b, Processed(ph, changes[..j]))
    requires db == ApplyAll(db0, Processed(ph, changes[..j]), apply)
    requires out' == out + Statements(w, b, PhaseStep(ph, changes[j]))
    requires db' == ApplyAll(db, PhaseStep(ph, changes[j]), apply)
    ensures out' == out0 + Statements(w, b, Processed(ph, changes[..j + 1]))
    ensures db' == ApplyAll(db0, Processed(ph, changes[..j + 1]), apply)
  {
    assert changes[..j + 1][..j] == changes[..j];
    var done, step := Processed(ph, changes[..j]), PhaseStep(ph, changes[j]);
    assert Processed(ph, changes[..j + 1]) == done + step;
    StatementsAppend(w, b, done, step);
    ApplyAllAppend(db0, done, step, apply);
    AppendAssoc(out0, Statements(w, b, done), Statements(w, b, step));
  }

  /** The statements and the model of the whole protocol are those of its three phases in turn. */
  lemma EmittedInPhases(w: Writer, b: Inherited, db: Database, changes: seq<Change>, apply: Apply)
    ensures var p1 := Processed(DropPrimaryKeys, changes);
      var kept1 := Kept(DropPrimaryKeys, changes);
      var p2 := Processed(AlterColumns, kept1);
      var p3 := Processed(AddPrimaryKeys, Kept(AlterColumns, kept1));
      Statements(w, b, Emitted(changes)) == Statements(w, b, p1) + Statements(w, b, p2) + Statements(w, b, p3)
      && ApplyAll(db, Emitted(changes), apply) == ApplyAll(ApplyAll(ApplyAll(db, p1, apply), p2, apply), p3, apply)
  {
    var p1 := Processed(DropPrimaryKeys, changes);
    var kept1 := Kept(DropPrimaryKeys, changes);
    var p2 := Processed(AlterColumns, kept1);
    var p3 := Processed(AddPrimaryKeys, Kept(AlterColumns, kept1));
    assert Emitted(changes) == (p1 + p2) + p3;
    StatementsAppend(w, b, p1, p2);
    StatementsAppend(w, b, p1 + p2, p3);
    ApplyAllAppend(db, p1, p2, apply);
    ApplyAllAppend(db, p1 + p2, p3, apply);
  }

  /** Running the three phases one after another does the work of the whole protocol. */
  lemma ThreePhases(w: Writer, b: Inherited, changes: seq<Change>, apply: Apply,
                    out0: seq<string>, out1: seq<string>, out2: seq<string>, out3: seq<string>,
                    db0: Database, db1: Database, db2: Database, db3: Database,
                    kept1: seq<Change>, kept2: seq<Change>, kept3: seq<Change>)
    requires out1 == out0 + Statements(w, b, Processed(DropPrimaryKeys, changes))
    requires db1 == ApplyAll(db0, Processed(DropPrimaryKeys, changes), apply)
    requires kept1 == Kept(DropPrimaryKeys, changes)
    requires out2 == out1 + Statements(w, b, Processed(AlterColumns, kept1))
    requires db2 == ApplyAll(db1, Processed(AlterColumns, kept1), apply)
    requires kept2 == Kept(AlterColumns, kept1)
    requires out3 == out2 + Statements(w, b, Processed(AddPrimaryKeys, kept2))
    requires db3 == ApplyAll(db2, Processed(AddPrimaryKeys, kept2), apply)
    requires kept3 == Kept(AddPrimaryKeys, kept2)
    ensures out3 == out0 + Statements(w, b, Emitted(changes))
    ensures db3 == ApplyAll(db0, Emitted(changes), apply)
    ensures kept3 == Remaining(changes)
  {
    EmittedInPhases(w, b, db0, changes, apply);
    var s1 := Statements(w, b, Processed(DropPrimaryKeys, changes));
    var s2 := Statements(w, b, Processed(AlterColumns, kept1));
    var s3 := Statements(w, b, Processed(AddPrimaryKeys, kept2));
    AppendAssoc(out0, s1, s2);
    AppendAssoc(out0, s1 + s2, s3);
  }

  lemma AppendAssoc(a: seq<string>, b: seq<string>, c: seq<string>)
    ensures (a + b) + c == a + (b + c)
  {
  }

  /** Taking the element after a prefix out of a list, or stepping past it. */
  lemma RemoveAfter(kept: seq<Change>, c: Change, rest: seq<Change>)
    ensures var p := kept + ([c] + rest);
      p[|kept|] == c && p[..|kept|] + p[|kept| + 1..] == kept + rest && p == (kept + [c]) + rest
  {
    var p := kept + ([c] + rest);
    assert p[..|kept|] == kept;
    assert p[|kept| + 1..] == rest;
  }

  lemma SplitAt(xs: seq<Change>, j: nat)
    requires j < |xs|
    ensures xs[j..] == [xs[j]] + xs[j + 1..]
  {
  }

  /**
   * The state of a phase after it has seen the first j changes of its list:
   * those it keeps stand before the unseen ones, and the writer and the
   * model hold the work done so far.
   */
  ghost predicate PhaseProgress(w: Writer, b: Inherited, ph: Phase, changes: seq<Change>, j: nat,
                                pending: seq<Change>, i: nat, out0: seq<string>, out: seq<string>,
                                db0: Database, db: Database, apply: Apply)
  {
    j <= |changes|
    && pending == Kept(ph, changes[..j]) + changes[j..]
    && i == |Kept(ph, changes[..j])|
    && out == out0 + Statements(w, b, Processed(ph, changes[..j]))
    && db == ApplyAll(db0, Processed(ph, changes[..j]), apply)
  }

  /** Offering the next pending change to the phase keeps its progress described. */
  lemma PhaseProgressStep(w: Writer, b: Inherited, ph: Phase, changes: seq<Change>, j: nat,
                          pending: seq<Change>, i: nat, out0: seq<string>, out: seq<string>,
                          db0: Database, db: Database, apply: Apply,
                          out': seq<string>, db': Database, removed: bool)
    requires PhaseProgress(w, b, ph, changes, j, pending, i, out0, out, db0, db, apply)
    requires i < |pending|
    requires out' == out + Statements(w, b, PhaseStep(ph, pending[i]))
    requires db' == ApplyAll(db, PhaseStep(ph, pending[i]), apply)
    requires removed == RemovedBy(ph, pending[i])
    ensures j < |changes| && pending[i] == changes[j]
    ensures PhaseProgress(w, b, ph, changes, j + 1,
                          if removed then pending[..i] + pending[i + 1..] else pending,
                          if removed then i else i + 1, out0, out', db0, db', apply)
  {
    KeptStep(ph, changes, j, pending, i, removed);
    WorkStep(w, b, ph, changes, j, out0, out, db0, db, apply, out', db');
  }

  /** A phase that has seen nothing yet has done nothing and keeps its whole list. */
  lemma PhaseProgressStart(w: Writer, b: Inherited, ph: Phase, changes: seq<Change>,
                           out0: seq<string>, db0: Database, apply: Apply)
    ensures PhaseProgress(w, b, ph, changes, 0, changes, 0, out0, out0, db0, db0, apply)
  {
    assert changes[..0] == [];
    assert changes[0..] == changes;
    assert out0 + [] == out0;
  }

  /** A phase that has seen its whole list has done all its work. */
  lemma PhaseProgressDone(w: Writer, b: Inherited, ph: Phase, changes: seq<Change>, j: nat,
                          pending: seq<Change>, i: nat, out0: seq<string>, out: seq<string>,
                          db0: Database, db: Database, apply: Apply)
    requires PhaseProgress(w, b, ph, changes, j, pending, i, out0, out, db0, db, apply)
    requires i >= |pending|
    ensures out == out0 + Statements(w, b, Processed(ph, changes))
    ensures db == ApplyAll(db0, Processed(ph, changes), apply)
    ensures pending == Kept(ph, changes)
  {
    assert j == |changes|;
    assert changes[..j] == changes;
  }

  /** A single processed change is one statement and one application. */
  lemma SingleStep(w: Writer, b: Inherited, c: Change, db: Database, apply: Apply)
    requires Rank(c) > 0
    ensures Statements(w, b, [c]) == [ChangeStatement(w, b, c)]
    ensures ApplyAll(db, [c], apply) == apply(db, c)
  {
    assert [c][..0] == [];
  }

  // ---------------------------------------------------------------------
  // The builder.
  // ---------------------------------------------------------------------

  class Oracle8Builder {
    /** The statements written so far, one per finished statement. */
    var output: seq<string>
    const writer: Writer
    const inherited: Inherited
    /** Whether the JDBC version knows the BOOLEAN type code. */
    const supportsJava14: bool
    /** The escapes registered for string values: a single quote is doubled. */
    const escapedSequences: map<string, string> := QuoteEscape

    constructor (writer: Writer, inherited: Inherited, supportsJava14: bool)
      ensures output == []
      ensures this.writer == writer && this.inherited == inherited && this.supportsJava14 == supportsJava14
      ensures escapedSequences == QuoteEscape
    {
      output := [];
      this.writer := writer;
      this.inherited := inherited;
      this.supportsJava14 := supportsJava14;
    }

    /**
     * printDefaultValue: the text of a default, quoted and escaped through the
     * builder's registered escapes unless its type is numeric or it is a
     * TO_DATE call.
     */
    method PrintDefaultValue(defaultValue: Option<string>, typeCode: int) returns (text: string)
      ensures text == DefaultValueText(defaultValue, typeCode, writer, inherited)
    {
      text := "";
      if defaultValue.Some? {
        var defaultValueStr := defaultValue.value;
        var shouldUseQuotes := !inherited.isNumericType(typeCode) && !StartsWith(defaultValueStr, "TO_DATE(");
        if shouldUseQuotes {
          text := writer.valueQuoteToken + EscapeWith(escapedSequences, defaultValueStr) + writer.valueQuoteToken;
        } else {
          text := defaultValueStr;
        }
      }
    }

    method DropTable(table: Table)
      modifies this
      ensures output == old(output) + DropTableStatements(writer, inherited, table)
    {
      output := output + [DropTableStatement(writer, inherited, table)];
      WriteAutoIncrementDrops(table, AutoIncrementColumns(table));
    }

    /** The loop of dropTable over the auto-increment columns. */
    method WriteAutoIncrementDrops(table: Table, columns: seq<Column>)
      modifies this
      ensures output == old(output) + AutoIncrementDrops(writer, inherited, table, columns)
    {
      var idx := 0;
      while idx < |columns|
        invariant 0 <= idx <= |columns|
        invariant output == old(output) + AutoIncrementDrops(writer, inherited, table, columns[..idx])
      {
        assert columns[..idx + 1][..idx] == columns[..idx];
        output := output + [DropTriggerStatement(writer, inherited, table, columns[idx])];
        output := output + [DropSequenceStatement(writer, inherited, table, columns[idx])];
        idx := idx + 1;
      }
      assert columns[..idx] == columns;
    }

    method WriteExternalIndexDropStmt(table: Table, index: Index)
      modifies this
      ensures output == old(output) + [DropIndexStatement(writer, inherited, index)]
    {
      output := output + ["DROP INDEX " + writer.identifier(inherited.indexName(index))];
    }

    method CreateTable(database: Database, table: Table, parameters: map<string, string>)
      modifies this
      ensures output == old(output) + CreateTableStatements(writer, inherited, database, table, parameters)
    {
      var columns := AutoIncrementColumns(table);
      WriteCreateSequences(table, columns);
      output := output + inherited.createTableStatements(database, table, parameters);
      WriteCreateTriggers(table, columns);
    }

    /** The first loop of createTable: one sequence per auto-increment column. */
    method WriteCreateSequences(table: Table, columns: seq<Column>)
      modifies this
      ensures output == old(output) + CreateSequences(writer, inherited, table, columns)
    {
      var idx := 0;
      while idx < |columns|
        invariant 0 <= idx <= |columns|
        invariant output == old(output) + CreateSequences(writer, inherited, table, columns[..idx])
      {
        assert columns[..idx + 1][..idx] == columns[..idx];
        output := output + [CreateSequenceStatement(writer, inherited, table, columns[idx])];
        idx := idx + 1;
      }
      assert columns[..idx] == columns;
    }

    /** The second loop of createTable: one insert trigger per auto-increment column. */
    method WriteCreateTriggers(table: Table, columns: seq<Column>)
      modifies this
      ensures output == old(output) + CreateTriggers(writer, inherited, table, columns)
    {
      var idx := 0;
      while idx < |columns|
        invariant 0 <= idx <= |columns|
        invariant output == old(output) + CreateTriggers(writer, inherited, table, columns[..idx])
      {
        assert columns[..idx + 1][..idx] == columns[..idx];
        output := output + [CreateTriggerStatement(writer, inherited, table, columns[idx])];
        idx := idx + 1;
      }
      assert columns[..idx] == columns;
    }

    method ProcessAddColumnChange(change: Change)
      requires change.AddColumnChange?
      modifies this
      ensures output == old(output) + [ChangeStatement(writer, inherited, change)]
    {
      output := output + [AlterTablePrefix(writer, inherited, change.table) + "ADD "
                          + inherited.columnDefinition(change.table, change.newColumn)];
    }

    method ProcessRemoveColumnChange(change: Change)
      requires change.RemoveColumnChange?
      modifies this
      ensures output == old(output) + [ChangeStatement(writer, inherited, change)]
    {
      output := output + [AlterTablePrefix(writer, inherited, change.table) + "DROP COLUMN "
                          + writer.identifier(inherited.columnName(change.column))];
    }

    method ProcessRemovePrimaryKeyChange(change: Change)
      requires change.RemovePrimaryKeyChange?
      modifies this
      ensures output == old(output) + [ChangeStatement(writer, inherited, change)]
    {
      output := output + [AlterTablePrefix(writer, inherited, change.table) + "DROP PRIMARY KEY"];
    }

    /** The key addition the builder inherits. */
    method ProcessAddPrimaryKeyChange(change: Change)
      requires change.AddPrimaryKeyChange?
      modifies this
      ensures output == old(output) + [ChangeStatement(writer, inherited, change)]
    {
      output := output + [inherited.addPrimaryKeyStatement(change.table, change.primaryKeyColumns)];
    }

    /**
     * Runs the three phases over the change list: each processed change is
     * written, then applied to the working model, then (unless it is a
     * primary-key change in the first phase) taken off the list.
     */
    method ProcessTableStructureChanges(currentModel: Database, changes: seq<Change>, apply: Apply)
      returns (model: Database, remaining: seq<Change>)
      modifies this
      ensures output == old(output) + Statements(writer, inherited, Emitted(changes))
      ensures model == ApplyAll(currentModel, Emitted(changes), apply)
      ensures remaining == Remaining(changes)
    {
      ghost var out0 := output;
      var pending1, pending2, model1, model2;
      // First the primary keys are dropped.
      model1, pending1 := RunPhase(DropPrimaryKeys, currentModel, changes, apply);
      ghost var out1 := output;
      // Next columns are added at the end or removed.
      model2, pending2 := RunPhase(AlterColumns, model1, pending1, apply);
      ghost var out2 := output;
      // Finally the primary keys are added.
      model, remaining := RunPhase(AddPrimaryKeys, model2, pending2, apply);
      ThreePhases(writer, inherited, changes, apply, out0, out1, out2, output, currentModel, model1, model2, model,
                  pending1, pending2, remaining);
    }

    /**
     * One pass over the change list: every pending change is offered to the
     * phase, which may process it, and is taken off the list when the phase
     * says so.
     */
    method RunPhase(ph: Phase, model0: Database, changes: seq<Change>, apply: Apply)
      returns (model: Database, pending: seq<Change>)
      modifies this
      ensures output == old(output) + Statements(writer, inherited, Processed(ph, changes))
      ensures model == ApplyAll(model0, Processed(ph, changes), apply)
      ensures pending == Kept(ph, changes)
    {
      pending := changes;
      model := model0;
      var i: nat := 0;
      ghost var j: nat := 0;
      ghost var out0 := output;
      PhaseProgressStart(writer, inherited, ph, changes, out0, model0, apply);
      while i < |pending|
        invariant PhaseProgress(writer, inherited, ph, changes, j, pending, i, out0, output, model0, model, apply)
        decreases |pending| - i
      {
        model, pending, i := OfferNext(ph, changes, j, pending, i, out0, model0, model, apply);
        j := j + 1;
      }
      PhaseProgressDone(writer, inherited, ph, changes, j, pending, i, out0, output, model0, model, apply);
    }

    /** Offers the pending change at `i` to the phase, and takes it off the list when the phase says so. */
    method OfferNext(ph: Phase, ghost changes: seq<Change>, ghost j: nat, pending: seq<Change>, i: nat,
                     ghost out0: seq<string>, ghost model0: Database, model: Database, apply: Apply)
      returns (model': Database, pending': seq<Change>, i': nat)
      modifies this
      requires PhaseProgress(writer, inherited, ph, changes, j, pending, i, out0, output, model0, model, apply)
      requires i < |pending|
      ensures PhaseProgress(writer, inherited, ph, changes, j + 1, pending', i', out0, output, model0, model', apply)
      ensures |pending'| - i' < |pending| - i
    {
      ghost var outputBefore := output;
      var removed;
      model', removed := ProcessInPhase(ph, model, pending[i], apply);
      if removed {
        pending', i' := pending[..i] + pending[i + 1..], i;
      } else {
        pending', i' := pending, i + 1;
      }
      PhaseProgressStep(writer, inherited, ph, changes, j, pending, i, out0, outputBefore, model0, model, apply,
                        output, model', removed);
    }

    /**
     * What each phase does with one pending change: the first processes a
     * key removal, or the removal half of a primary-key change; the second a
     * column added at the end or a column removal; the last a key addition,
     * or the addition half of a primary-key change. The phase reports
     * whether the change leaves the list.
     */
    method ProcessInPhase(ph: Phase, model0: Database, change: Change, apply: Apply)
      returns (model: Database, removed: bool)
      modifies this
      ensures output == old(output) + Statements(writer, inherited, PhaseStep(ph, change))
      ensures model == ApplyAll(model0, PhaseStep(ph, change), apply)
      ensures removed == RemovedBy(ph, change)
    {
      model, removed := model0, false;
      match ph
      case DropPrimaryKeys =>
        if change.RemovePrimaryKeyChange? {
          ProcessRemovePrimaryKeyChange(change);
          model := apply(model, change);
          removed := true;
        } else if change.PrimaryKeyChange? {
          var removePkChange := RemovePrimaryKeyChange(change.table, change.oldPrimaryKeyColumns);
          ProcessRemovePrimaryKeyChange(removePkChange);
          model := apply(model, removePkChange);
        }
      case AlterColumns =>
        if change.AddColumnChange? {
          if change.atEnd {
            ProcessAddColumnChange(change);
            model := apply(model, change);
            removed := true;
          }
        } else if change.RemoveColumnChange? {
          ProcessRemoveColumnChange(change);
          model := apply(model, change);
          removed := true;
        }
      case AddPrimaryKeys =>
        if change.AddPrimaryKeyChange? {
          ProcessAddPrimaryKeyChange(change);
          model := apply(model, change);
          removed := true;
        } else if change.PrimaryKeyChange? {
          var addPkChange := AddPrimaryKeyChange(change.table, change.newPrimaryKeyColumns);
          ProcessAddPrimaryKeyChange(addPkChange);
          model := apply(model, addPkChange);
          removed := true;
        }
      SingleStepFor(ph, change, model0, apply);
    }

    lemma SingleStepFor(ph: Phase, change: Change, db: Database, apply: Apply)
      ensures forall y :: y in PhaseStep(ph, change) ==> Rank(y) > 0
      ensures PhaseStep(ph, change) == [] || (|PhaseStep(ph, change)| == 1
        && Statements(writer, inherited, PhaseStep(ph, change)) == [ChangeStatement(writer, inherited, PhaseStep(ph, change)[0])]
        && ApplyAll(db, PhaseStep(ph, change), apply) == apply(db, PhaseStep(ph, change)[0]))
    {
      if PhaseStep(ph, change) != [] {
        SingleStep(writer, inherited, PhaseStep(ph, change)[0], db, apply);
      }
    }
  }
}
