/**
 * The base driver descriptor (`Emyi\Db\Driver\Descriptor`): the behaviour every
 * dialect inherits. The base class calls back into its subclass for the
 * identifier quote character, so the quoting functions here take that
 * character as a parameter; the Dialects module supplies it per dialect.
 */
module Descriptor {
  import opened Wrappers
  import opened Errors
  import opened PhpStrings

  /** `getQuoteIdentifierCharacter()` of the base class. */
  const DefaultQuoteCharacter: char := '"'

  /** The value of `__METHOD__` inside a method of the base class. */
  function BaseMethod(name: string): string
  {
    "Emyi\\Db\\Driver\\Descriptor::" + name
  }

  /** The error every unsupported base method throws. */
  function Unsupported(name: string): Error
  {
    UnsupportedMethod(BaseMethod(name))
  }

  // ---------------------------------------------------------------- flags

  datatype Capability = Sequences | IdentityColumns | Indexes | Transactions

  /** `supportsSequences()` … `supportsTransactions()` of the base class. */
  function Supports(cap: Capability): (r: bool)
    ensures r <==> cap == Indexes || cap == Transactions
  {
    match cap
    case Sequences => false
    case IdentityColumns => false
    case Indexes => true
    case Transactions => true
  }

  // ------------------------------------------------------- method catalogue

  datatype Direction = Add | Sub
  datatype Unit = Hour | Day | Month

  const DateDiffMethod: string := "getDateDiffExpression"

  /** The name of the date-arithmetic method for a direction and a unit. */
  function DateArithmeticMethod(dir: Direction, unit: Unit): string
  {
    "getDate" + (if dir == Add then "Add" else "Sub")
    + (match unit case Hour => "Hour" case Day => "Days" case Month => "Months")
    + "Expression"
  }

  /** The introspection queries a descriptor can build. */
  datatype Listing =
    | ListDatabases | ListTables | ListTableColumns | ListViews
    | ListTableConstraints | ListTableIndexes | ListTableForeignKeys

  function ListingMethod(l: Listing): string
  {
    match l
    case ListDatabases => "getListDatabasesSQL"
    case ListTables => "getListTablesSQL"
    case ListTableColumns => "getListTableColumnsSQL"
    case ListViews => "getListViewsSQL"
    case ListTableConstraints => "getListTableConstraintsSQL"
    case ListTableIndexes => "getListTableIndexesSQL"
    case ListTableForeignKeys => "getListTableForeignKeysSQL"
  }

  /** `getDateDiffExpression` of the base class: unsupported. */
  function DateDiffExpression(date1: string, date2: string): Result<string, Error>
  {
    Failure(Unsupported(DateDiffMethod))
  }

  /** The six date-arithmetic methods of the base class: unsupported. */
  function DateArithmeticExpression(dir: Direction, unit: Unit, date: string, amount: string): Result<string, Error>
  {
    Failure(Unsupported(DateArithmeticMethod(dir, unit)))
  }

  /** The `getList*SQL` methods of the base class: unsupported. */
  function ListSQL(l: Listing): Result<string, Error>
  {
    Failure(Unsupported(ListingMethod(l)))
  }

  /** Different date-arithmetic operations have different method names. */
  lemma DateArithmeticMethodInjective(dir1: Direction, unit1: Unit, dir2: Direction, unit2: Unit)
    ensures DateArithmeticMethod(dir1, unit1) == DateArithmeticMethod(dir2, unit2) ==> dir1 == dir2 && unit1 == unit2
  {
    var m1, m2 := DateArithmeticMethod(dir1, unit1), DateArithmeticMethod(dir2, unit2);
    if m1 == m2 {
      assert m1[7] == m2[7];
      assert m1[10] == m2[10];
    }
  }

  /** Different listings have different method names. */
  lemma ListingMethodInjective(l1: Listing, l2: Listing)
    ensures ListingMethod(l1) == ListingMethod(l2) ==> l1 == l2
  {
    var a, b := ListingMethod(l1), ListingMethod(l2);
    if a == b {
      assert |a| == |b|;
      assert a[7] == b[7] && a[12] == b[12];
    }
  }

  /** The date-difference, date-arithmetic and listing method names are pairwise different. */
  lemma MethodFamiliesDistinct(dir: Direction, unit: Unit, l: Listing)
    ensures DateArithmeticMethod(dir, unit) != DateDiffMethod
    ensures DateArithmeticMethod(dir, unit) != ListingMethod(l) && DateDiffMethod != ListingMethod(l)
  {
    var m := DateArithmeticMethod(dir, unit);
    assert DateDiffMethod[7] == 'D' && m[7] != 'D';
    assert ListingMethod(l)[3] == 'L' && m[3] == 'D' && DateDiffMethod[3] == 'D';
  }

  /** The class prefix is shared, so equal qualified names have equal method names. */
  lemma {:induction false} BaseMethodInjective(x: string, y: string)
    ensures BaseMethod(x) == BaseMethod(y) ==> x == y
  {
    var prefix := "Emyi\\Db\\Driver\\Descriptor::";
    if BaseMethod(x) == BaseMethod(y) {
      assert x == BaseMethod(x)[|prefix|..];
      assert y == BaseMethod(y)[|prefix|..];
    }
  }

  /**
   * Every base date method fails, and the error names the method that failed:
   * two different date-arithmetic methods never report the same error.
   */
  lemma UnsupportedDefaults(dir1: Direction, unit1: Unit, dir2: Direction, unit2: Unit, date: string, amount: string,
                            date1: string, date2: string)
    ensures DateDiffExpression(date1, date2).Failure?
    ensures DateArithmeticExpression(dir1, unit1, date, amount).Failure?
    ensures DateArithmeticExpression(dir1, unit1, date, amount) == DateArithmeticExpression(dir2, unit2, date, amount)
            ==> dir1 == dir2 && unit1 == unit2
  {
    DateArithmeticMethodInjective(dir1, unit1, dir2, unit2);
    UnsupportedInjective(DateArithmeticMethod(dir1, unit1), DateArithmeticMethod(dir2, unit2));
  }

  /** The date difference, a date-arithmetic method and a listing never fail with the same error. */
  lemma UnsupportedFamiliesDistinct(dir: Direction, unit: Unit, l: Listing, date: string, amount: string,
                                    date1: string, date2: string)
    ensures DateDiffExpression(date1, date2) != DateArithmeticExpression(dir, unit, date, amount)
    ensures DateDiffExpression(date1, date2) != ListSQL(l)
    ensures DateArithmeticExpression(dir, unit, date, amount) != ListSQL(l)
  {
    var m, listing := DateArithmeticMethod(dir, unit), ListingMethod(l);
    assert DateDiffMethod != m && DateDiffMethod != listing && m != listing by {
      MethodFamiliesDistinct(dir, unit, l);
    }
    UnsupportedInjective(DateDiffMethod, m);
    UnsupportedInjective(DateDiffMethod, listing);
    UnsupportedInjective(m, listing);
  }

  /** Different methods fail with different errors. */
  lemma UnsupportedInjective(x: string, y: string)
    ensures Unsupported(x) == Unsupported(y) ==> x == y
  {
    BaseMethodInjective(x, y);
  }

  lemma UnsupportedListings(l1: Listing, l2: Listing)
    ensures ListSQL(l1).Failure?
    ensures ListSQL(l1) == ListSQL(l2) ==> l1 == l2
  {
    ListingMethodInjective(l1, l2);
    BaseMethodInjective(ListingMethod(l1), ListingMethod(l2));
  }

  // ------------------------------------------------------- identifier quoting

  /**
   * `quoteSingleIdentifier($str)` with the descriptor's own quote character:
   * the character, the string with every quote character doubled, the character.
   */
  function QuoteSingleIdentifier(q: char, s: string): string
  {
    [q] + ReplaceChar(s, q, [q, q]) + [q]
  }

  /** Each segment quoted on its own. */
  function QuoteSegments(q: char, parts: seq<string>): (quoted: seq<string>)
  {
    seq(|parts|, i requires 0 <= i < |parts| => QuoteSingleIdentifier(q, parts[i]))
  }

  /**
   * `quoteIdentifier($str)`: a dotted chain is split on '.', each piece is
   * quoted (a piece holds no dot, so quoting it recursively quotes it as a
   * single identifier) and the pieces are joined again with '.'.
   */
  function QuoteIdentifier(q: char, s: string): string
  {
    if '.' in s then Join(QuoteSegments(q, Split(s, '.')), ".")
    else QuoteSingleIdentifier(q, s)
  }

  /** Reading a quoted segment back: drop the outer quote characters, undouble the rest. */
  function UnquoteSegment(q: char, segment: string): string
  {
    if |segment| >= 2 then Undouble(segment[1..|segment| - 1], q) else segment
  }

  /** Reading a quoted chain back: split on '.', read every segment back, rejoin. */
  function UnquoteIdentifier(q: char, quoted: string): string
  {
    var segments := Split(quoted, '.');
    Join(seq(|segments|, i requires 0 <= i < |segments| => UnquoteSegment(q, segments[i])), ".")
  }

  /** Stripping the outer quotes of a quoted segment and undoubling gives the original part. */
  lemma QuoteSingleIdentifierRoundTrip(q: char, s: string)
    ensures UnquoteSegment(q, QuoteSingleIdentifier(q, s)) == s
  {
    var r := QuoteSingleIdentifier(q, s);
    assert r[1..|r| - 1] == ReplaceChar(s, q, [q, q]);
    UndoubleDoubled(s, q);
  }

  /** Quoting a dot-free piece with a quote character other than '.' adds no dot. */
  lemma QuotedSegmentDotFree(q: char, s: string)
    requires q != '.' && '.' !in s
    ensures '.' !in QuoteSingleIdentifier(q, s)
  {
    ReplaceCharKeeps(s, q, [q, q], '.');
  }

  /**
   * An identifier with n dots is quoted as n+1 segments, the pieces between its
   * dots each quoted on its own, joined by unquoted dots; empty pieces (adjacent
   * dots) are quoted too.
   */
  lemma QuoteIdentifierSegments(q: char, s: string)
    ensures var parts := Split(s, '.');
      && |parts| == Count(s, '.') + 1
      && Join(parts, ".") == s
      && (forall i | 0 <= i < |parts| :: '.' !in parts[i])
      && QuoteIdentifier(q, s) == Join(QuoteSegments(q, parts), ".")
  {
    SplitCount(s, '.');
    JoinSplit(s, '.');
    SplitPiecesFree(s, '.');
    if '.' !in s {
      SplitWithout(s, '.');
      assert QuoteSegments(q, [s]) == [QuoteSingleIdentifier(q, s)];
    }
  }

  /** A name with one dot is quoted as its two pieces, each quoted on its own, around an unquoted dot. */
  lemma QuoteTwoSegments(q: char, a: string, b: string)
    requires '.' !in a && '.' !in b
    ensures QuoteIdentifier(q, a + "." + b) == QuoteSingleIdentifier(q, a) + "." + QuoteSingleIdentifier(q, b)
  {
    assert (a + "." + b)[|a|] == '.';
    assert a + "." + b == a + ['.'] + b;
    SplitAt(a, b, '.');
    SplitWithout(b, '.');
    assert Split(a + "." + b, '.') == [a, b];
    var quoted := QuoteSegments(q, [a, b]);
    assert quoted == [QuoteSingleIdentifier(q, a), QuoteSingleIdentifier(q, b)];
    assert quoted[1..] == [QuoteSingleIdentifier(q, b)];
    assert Join(quoted, ".") == quoted[0] + "." + Join(quoted[1..], ".");
    assert QuoteIdentifier(q, a + "." + b) == Join(quoted, ".");
  }

  /** A dot-free identifier is exactly char + doubled string + char. */
  lemma QuoteIdentifierUndotted(q: char, s: string)
    requires '.' !in s
    ensures QuoteIdentifier(q, s) == [q] + ReplaceChar(s, q, [q, q]) + [q]
    ensures |QuoteIdentifier(q, s)| == |s| + Count(s, q) + 2
  {
    ReplaceCharLength(s, q, [q, q]);
  }

  /** Quoting is reversible whenever the quote character is not '.' itself. */
  lemma QuoteIdentifierRoundTrip(q: char, s: string)
    requires q != '.'
    ensures UnquoteIdentifier(q, QuoteIdentifier(q, s)) == s
  {
    QuoteIdentifierSegments(q, s);
    var parts := Split(s, '.');
    var quoted := QuoteSegments(q, parts);
    forall i | 0 <= i < |quoted| ensures '.' !in quoted[i] {
      QuotedSegmentDotFree(q, parts[i]);
    }
    SplitJoin(quoted, '.');
    var back := seq(|quoted|, i requires 0 <= i < |quoted| => UnquoteSegment(q, quoted[i]));
    forall i | 0 <= i < |quoted| ensures back[i] == parts[i] {
      QuoteSingleIdentifierRoundTrip(q, parts[i]);
    }
    assert back == parts;
  }

  // ------------------------------------------------------------ LIMIT/OFFSET

  /** The clause the base `modifyLimitQuery` appends. */
  function LimitClause(limit: int, offset: Option<int>): string
  {
    " LIMIT " + IntToString(limit)
    + (if offset.Some? then " OFFSET " + IntToString(offset.value) else "")
  }

  /** `modifyLimitQuery($query, $limit, $offset)` of the base class. */
  function ModifyLimitQuery(query: string, limit: int, offset: Option<int>): string
  {
    query + LimitClause(limit, offset)
  }

  /** Reads a LIMIT/OFFSET clause back into its limit and optional offset. */
  function ParseLimitClause(clause: string): Option<(int, Option<int>)>
  {
    if |clause| < 7 || clause[..7] != " LIMIT " then None
    else ParseLimitBody(clause[7..])
  }

  /** What follows " LIMIT ": the limit, then optionally " OFFSET " and the offset. */
  function ParseLimitBody(rest: string): Option<(int, Option<int>)>
  {
    match IndexOf(rest, ' ')
    case None =>
      (match ParseInt(rest)
       case Some(limit) => Some((limit, None))
       case None => None)
    case Some(k) =>
      var tail := rest[k..];
      if |tail| < 8 || tail[..8] != " OFFSET " then None
      else match (ParseInt(rest[..k]), ParseInt(tail[8..]))
        case (Some(limit), Some(offset)) => Some((limit, Some(offset)))
        case _ => None
  }

  /** A limit followed by " OFFSET " and an offset reads back as both. */
  lemma ParseLimitBodyOffset(l: string, o: string)
    requires ' ' !in l && ParseInt(l).Some? && ParseInt(o).Some?
    ensures ParseLimitBody(l + (" OFFSET " + o)) == Some((ParseInt(l).value, Some(ParseInt(o).value)))
  {
    var rest := l + (" OFFSET " + o);
    IndexOfAfter(l, " OFFSET " + o, ' ');
    assert rest[..|l|] == l;
    assert rest[|l|..] == " OFFSET " + o;
    assert rest[|l|..][8..] == o;
  }

  /** The clause is read back into exactly the limit and offset it was built from. */
  lemma LimitClauseRoundTrip(limit: int, offset: Option<int>)
    ensures ParseLimitClause(LimitClause(limit, offset)) == Some((limit, offset))
  {
    var l := IntToString(limit);
    IntToStringChars(limit);
    ParseIntToString(limit);
    var body := if offset.Some? then l + (" OFFSET " + IntToString(offset.value)) else l;
    assert LimitClause(limit, offset) == " LIMIT " + body;
    assert (" LIMIT " + body)[..7] == " LIMIT " && (" LIMIT " + body)[7..] == body;
    if offset.Some? {
      ParseIntToString(offset.value);
      ParseLimitBodyOffset(l, IntToString(offset.value));
    }
  }

  /** The query is kept as a prefix and the rest reads back as " LIMIT l" plus " OFFSET o" when given. */
  lemma ModifyLimitQueryShape(query: string, limit: int, offset: Option<int>)
    ensures var r := ModifyLimitQuery(query, limit, offset);
      && |r| > |query|
      && r[..|query|] == query
      && ParseLimitClause(r[|query|..]) == Some((limit, offset))
  {
    var r := ModifyLimitQuery(query, limit, offset);
    assert r[|query|..] == LimitClause(limit, offset);
    LimitClauseRoundTrip(limit, offset);
  }

  // ---------------------------------------------------------------- types

  /** The canonical categories of `getDatabaseTypes()`. */
  const Categories: set<string> :=
    {"integer", "decimal", "boolean", "string", "date", "datetime", "timestamp"}

  /** `getDatabaseTypes()`: native type name to canonical category. */
  function DatabaseTypes(): (types: map<string, string>)
    ensures forall name | name in types :: types[name] in Categories
    ensures "time" in types && types["time"] == "date"
    ensures "blob" in types && types["blob"] == "string"
    ensures "serial" in types && types["serial"] == "integer"
  {
    var types := map[
      "int" := "integer", "tinyint" := "integer", "smallint" := "integer",
      "mediumint" := "integer", "bigint" := "integer", "integer" := "integer",
      "serial" := "integer",
      "float" := "decimal", "double" := "decimal", "double precision" := "decimal",
      "real" := "decimal", "decimal" := "decimal", "numeric" := "decimal",
      "bool" := "boolean", "boolean" := "boolean",
      "text" := "string", "char" := "string", "varchar" := "string",
      "character varying" := "string",
      "date" := "date", "time" := "date", "datetime" := "datetime", "timestamp" := "timestamp",
      "blob" := "string"
    ];
    types
  }
}
