/**
 * What the dialect builders inherit from the shared SQL builder and its
 * platform description: the statement-writing plumbing, the inherited
 * operations they call but do not define, and the text helpers (quote
 * escaping, case-insensitive comparison, trimming) whose effect they rely on.
 */
module SqlBuilder {
  import opened Model

  /**
   * The textual plumbing of statement writing: identifier quoting
   * (printIdentifier), the line break (println), the indentation
   * (printIndent), the value quote token and the command delimiter.
   */
  datatype Writer = Writer(
    identifier: string -> string,
    lineBreak: string,
    indent: string,
    valueQuoteToken: string,
    commandDelimiter: string)

  /**
   * The inherited operations of the base builder, its platform info, the
   * type map and the default-value helper that the dialects call. They are
   * not defined here: each is taken as given.
   */
  datatype Inherited = Inherited(
    tableName: Table -> string,
    columnName: Column -> string,
    indexName: Index -> string,
    constraintName: (string, Table, string) -> string,
    columnDefinition: (Table, Column) -> string,
    addPrimaryKeyStatement: (Table, seq<Column>) -> string,
    createTableStatements: (Database, Table, map<string, string>) -> seq<string>,
    nativeDefaultValue: Column -> Option<string>,
    sqlType: Column -> string,
    bareNativeType: Column -> string,
    isSizeChanged: (Column, Column) -> bool,
    defaultSize: int -> Option<string>,
    isNumericType: int -> bool,
    convert: (Option<string>, int, int) -> Option<string>)

  /** `ALTER TABLE <t>` and the line break and indentation that follow it. */
  function AlterTablePrefix(w: Writer, b: Inherited, t: Table): string
  {
    "ALTER TABLE " + w.identifier(b.tableName(t)) + w.lineBreak + w.indent
  }

  /** The escape both dialects register: a single quote becomes two. */
  const QuoteEscape: map<string, string> := map["'" := "''"]

  /**
   * escapeStringValue under a map of registered escapes whose keys are single
   * characters (the only kind the dialects register): each character that is
   * a key is replaced by its entry, every other one is kept.
   */
  function EscapeWith(escapes: map<string, string>, s: string): (r: string)
    ensures (forall k :: k in escapes ==> |escapes[k]| >= 1) ==> |r| >= |s|
  {
    if s == [] then []
    else (if [s[0]] in escapes then escapes[[s[0]]] else [s[0]]) + EscapeWith(escapes, s[1..])
  }

  /** Applies the escape both dialects register. */
  function EscapeQuotes(s: string): (r: string)
    ensures |r| >= |s|
  {
    EscapeWith(QuoteEscape, s)
  }

  /** Reads back an escaped value; a lone quote makes it unreadable. */
  function UnescapeQuotes(s: string): Option<string>
  {
    if s == [] then Some([])
    else if s[0] != '\'' then Prepend(s[0], UnescapeQuotes(s[1..]))
    else if |s| >= 2 && s[1] == '\'' then Prepend('\'', UnescapeQuotes(s[2..]))
    else None
  }

  function Prepend(c: char, o: Option<string>): Option<string>
  {
    if o.Some? then Some([c] + o.value) else None
  }

  /** Escaping loses nothing: the escaped text reads back as the original. */
  lemma {:induction false} EscapeRoundTrip(s: string)
    ensures UnescapeQuotes(EscapeQuotes(s)) == Some(s)
  {
    if s != [] {
      EscapeRoundTrip(s[1..]);
      var rest := EscapeQuotes(s[1..]);
      if s[0] == '\'' {
        assert EscapeQuotes(s) == "''" + rest;
        assert ("''" + rest)[2..] == rest;
      } else {
        assert EscapeQuotes(s) == [s[0]] + rest;
        assert ([s[0]] + rest)[1..] == rest;
      }
      assert [s[0]] + s[1..] == s;
    }
  }

  /** Reads a string literal delimited by single quotes. */
  function ReadStringLiteral(lit: string): Option<string>
  {
    if |lit| >= 2 && lit[0] == '\'' && lit[|lit| - 1] == '\'' then UnescapeQuotes(lit[1..|lit| - 1])
    else None
  }

  /** A value quoted with single quotes and escaped reads back as itself. */
  lemma LiteralRoundTrip(v: string)
    ensures ReadStringLiteral("'" + EscapeQuotes(v) + "'") == Some(v)
  {
    var lit := "'" + EscapeQuotes(v) + "'";
    assert lit[1..|lit| - 1] == EscapeQuotes(v);
    EscapeRoundTrip(v);
  }

  function UpperAscii(c: char): char
  {
    if 'a' <= c <= 'z' then (c as int - 32) as char else c
  }

  /**
   * String.equalsIgnoreCase against a word of upper-case ASCII letters. The
   * non-ASCII case mappings of Java (dotless i, long s, Kelvin sign) map to
   * none of the letters of the words compared here, so ASCII folding suffices.
   */
  predicate EqualsIgnoreCase(word: string, s: string)
  {
    |word| == |s| && forall i :: 0 <= i < |s| ==> UpperAscii(s[i]) == word[i]
  }

  /** String.trim: drops every leading and trailing character up to U+0020. */
  function Trim(s: string): string
  {
    TrimRight(TrimLeft(s))
  }

  function TrimLeft(s: string): (r: string)
    ensures r == [] || r[0] > ' '
    ensures |r| <= |s| && r == s[|s| - |r|..]
  {
    if s != [] && s[0] <= ' ' then TrimLeft(s[1..]) else s
  }

  function TrimRight(s: string): (r: string)
    ensures r == [] || r[|r| - 1] > ' '
    ensures |r| <= |s| && r == s[..|r|]
  {
    if s != [] && s[|s| - 1] <= ' ' then TrimRight(s[..|s| - 1]) else s
  }

  predicate IsBlank(s: string)
  {
    forall i :: 0 <= i < |s| ==> s[i] <= ' '
  }

  lemma {:induction false} TrimLeftPadding(l: string, s: string)
    requires IsBlank(l)
    ensures TrimLeft(l + s) == TrimLeft(s)
  {
    if l != [] {
      assert (l + s)[1..] == l[1..] + s;
      TrimLeftPadding(l[1..], s);
    } else {
      assert l + s == s;
    }
  }

  lemma {:induction false} TrimRightPadding(s: string, r: string)
    requires IsBlank(r)
    ensures TrimRight(s + r) == TrimRight(s)
  {
    if r != [] {
      assert (s + r)[..|s + r| - 1] == s + r[..|r| - 1];
      TrimRightPadding(s, r[..|r| - 1]);
    } else {
      assert s + r == s;
    }
  }

  lemma {:induction false} TrimLeftAppend(s: string, r: string)
    requires TrimLeft(s) != []
    ensures TrimLeft(s + r) == TrimLeft(s) + r
  {
    if s != [] && s[0] <= ' ' {
      assert (s + r)[1..] == s[1..] + r;
      TrimLeftAppend(s[1..], r);
    }
  }

  lemma {:induction false} TrimLeftBlank(s: string, r: string)
    requires TrimLeft(s) == []
    ensures TrimLeft(s + r) == TrimLeft(r)
  {
    if s != [] {
      assert (s + r)[1..] == s[1..] + r;
      TrimLeftBlank(s[1..], r);
    } else {
      assert s + r == r;
    }
  }

  /** Trimming ignores any blank padding on either side. */
  lemma TrimPadding(l: string, s: string, r: string)
    requires IsBlank(l) && IsBlank(r)
    ensures Trim(l + s + r) == Trim(s)
  {
    assert l + s + r == l + (s + r);
    TrimLeftPadding(l, s + r);
    if TrimLeft(s) == [] {
      TrimLeftBlank(s, r);
      TrimLeftPadding(r, []);
      assert r + [] == r;
    } else {
      TrimLeftAppend(s, r);
      TrimRightPadding(TrimLeft(s), r);
    }
  }
}
