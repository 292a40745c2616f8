/**
 * The concrete descriptors as one closed family. Each operation dispatches to
 * the dialect's override when it has one and to the base behaviour otherwise,
 * as PHP's method lookup does for `Emyi\Db\Driver\{MySql,Postgres,Sqlite}\Descriptor`.
 */
module Dialects {
  import opened Wrappers
  import opened Errors
  import opened PhpStrings
  import Descriptor
  import MySqlDescriptor
  import PostgresDescriptor
  import SqliteDescriptor
  import ConnectionConfig

  datatype Dialect = MySql | Postgres | Sqlite

  /** The class the descriptor object belongs to. */
  function DescriptorClass(d: Dialect): string
  {
    match d
    case MySql => "Emyi\\Db\\Driver\\MySql\\Descriptor"
    case Postgres => "Emyi\\Db\\Driver\\Postgres\\Descriptor"
    case Sqlite => "Emyi\\Db\\Driver\\Sqlite\\Descriptor"
  }

  /** `getQuoteIdentifierCharacter()`: only MySQL overrides it. */
  function QuoteCharacter(d: Dialect): (q: char)
    ensures q == '`' <==> d == MySql
    ensures q != '.'
  {
    if d == MySql then MySqlDescriptor.QuoteCharacter else Descriptor.DefaultQuoteCharacter
  }

  /** `quoteIdentifier($str)` on the dialect's descriptor. */
  function QuoteIdentifier(d: Dialect, s: string): string
  {
    Descriptor.QuoteIdentifier(QuoteCharacter(d), s)
  }

  /** In every dialect, quoted identifiers read back to the original. */
  lemma QuoteIdentifierRoundTrip(d: Dialect, s: string)
    ensures Descriptor.UnquoteIdentifier(QuoteCharacter(d), QuoteIdentifier(d, s)) == s
  {
    Descriptor.QuoteIdentifierRoundTrip(QuoteCharacter(d), s);
  }

  /** The two segments of the example identifier, each quoted with backticks. */
  lemma MySqlQuotedSegments()
    ensures Descriptor.QuoteSingleIdentifier('`', "a`b") == "`a``b`"
    ensures Descriptor.QuoteSingleIdentifier('`', "c") == "`c`"
  {
    assert ReplaceChar("b", '`', "``") == "b";
    assert ReplaceChar("`b", '`', "``") == "``b";
    assert ReplaceChar("a`b", '`', "``") == "a``b";
    assert ReplaceChar("c", '`', "``") == "c";
  }

  /** MySQL wraps each part in backticks and doubles embedded backticks. */
  lemma MySqlQuoteExample()
    ensures QuoteIdentifier(MySql, "a`b.c") == "`a``b`.`c`"
  {
    assert "a`b.c" == "a`b" + "." + "c";
    Descriptor.QuoteTwoSegments('`', "a`b", "c");
    MySqlQuotedSegments();
  }

  /**
   * `quoteSingleIdentifier` as written calls `$this->getDescriptor()`, which no
   * descriptor class defines: the call fails with an undefined-method error.
   */
  function QuoteSingleIdentifierAsWritten(d: Dialect, s: string): Result<string, Error>
  {
    Failure(UndefinedMethod(DescriptorClass(d) + "::getDescriptor"))
  }

  /**
   * `quoteIdentifier($str)` as written: a dotted name is mapped part by part, and
   * the mapping stops at the first part, whose single-identifier quoting fails.
   */
  function QuoteIdentifierAsWritten(d: Dialect, s: string): Result<string, Error>
  {
    if '.' in s then QuoteSingleIdentifierAsWritten(d, Split(s, '.')[0])
    else QuoteSingleIdentifierAsWritten(d, s)
  }

  /**
   * As written, quoting any identifier in any dialect fails, where the intended
   * quoting with the dialect's own quote character always succeeds.
   */
  lemma QuoteIdentifierAsWrittenFails(d: Dialect, s: string)
    ensures QuoteIdentifierAsWritten(d, s) == Failure(UndefinedMethod(DescriptorClass(d) + "::getDescriptor"))
    ensures QuoteIdentifierAsWritten(d, s) != Success(QuoteIdentifier(d, s))
  {
  }

  /** The capability flags: no dialect overrides the base ones. */
  function Supports(d: Dialect, cap: Descriptor.Capability): bool
  {
    Descriptor.Supports(cap)
  }

  /** Every dialect supports transactions and indexes, and none sequences or identity columns. */
  lemma SupportsFlags(d: Dialect)
    ensures Supports(d, Descriptor.Transactions) && Supports(d, Descriptor.Indexes)
    ensures !Supports(d, Descriptor.Sequences) && !Supports(d, Descriptor.IdentityColumns)
  {
  }

  /** `modifyLimitQuery($query, $limit, $offset)`. */
  function ModifyLimitQuery(d: Dialect, query: string, limit: int, offset: Option<int>): string
  {
    if d == MySql then MySqlDescriptor.ModifyLimitQuery(query, limit, offset)
    else Descriptor.ModifyLimitQuery(query, limit, offset)
  }

  /**
   * Every dialect keeps the query as a prefix and appends a clause that reads
   * back as the limit and the offset; a missing offset reads back as missing,
   * except on MySQL where it reads back as 0.
   */
  lemma ModifyLimitQueryClause(d: Dialect, query: string, limit: int, offset: Option<int>)
    ensures var r := ModifyLimitQuery(d, query, limit, offset);
      && |r| > |query| && r[..|query|] == query
      && Descriptor.ParseLimitClause(r[|query|..])
         == Some((limit, if d == MySql then Some(offset.GetOr(0)) else offset))
  {
    if d == MySql {
      Descriptor.ModifyLimitQueryShape(query, limit, Some(offset.GetOr(0)));
    } else {
      Descriptor.ModifyLimitQueryShape(query, limit, offset);
    }
  }

  /** A MySQL query with limit 10 and no offset. */
  lemma MySqlLimitExample()
    ensures ModifyLimitQuery(MySql, "SELECT * FROM t", 10, None) == "SELECT * FROM t LIMIT 10 OFFSET 0"
  {
    assert IntToString(10) == "10";
    assert IntToString(0) == "0";
  }

  /** `getDateDiffExpression($date1, $date2)`. */
  function DateDiffExpression(d: Dialect, date1: string, date2: string): Result<string, Error>
  {
    match d
    case MySql => Success(MySqlDescriptor.DateDiffExpression(date1, date2))
    case Postgres => Success(PostgresDescriptor.DateDiffExpression(date1, date2))
    case Sqlite => Success(SqliteDescriptor.DateDiffExpression(date1, date2))
  }

  /** The six date-arithmetic methods. */
  function DateArithmeticExpression(d: Dialect, dir: Descriptor.Direction, unit: Descriptor.Unit,
                                    date: string, amount: string): Result<string, Error>
  {
    match d
    case MySql => Success(MySqlDescriptor.DateArithmeticExpression(dir, unit, date, amount))
    case Postgres => Success(PostgresDescriptor.DateArithmeticExpression(dir, unit, date, amount))
    case Sqlite => Success(SqliteDescriptor.DateArithmeticExpression(dir, unit, date, amount))
  }

  /** Every concrete dialect overrides all date methods: none fails, and the dates appear in their given order. */
  lemma DateExpressionsSupported(d: Dialect, dir: Descriptor.Direction, unit: Descriptor.Unit,
                                 date1: string, date2: string, amount: string)
    ensures DateArithmeticExpression(d, dir, unit, date1, amount).Success?
    ensures DateDiffExpression(d, date1, date2).Success?
    ensures var r := DateDiffExpression(d, date1, date2).value;
      exists k1, k2 :: k1 + |date1| <= k2 && OccursAt(date1, r, k1) && OccursAt(date2, r, k2)
  {
    var pre, mid, close := "", "", "";
    match d {
      case MySql => pre, mid, close := "DATEDIFF(", ", ", ")";
      case Postgres => pre, mid, close := "(DATE(", ") - DATE(", "))";
      case Sqlite => pre, mid, close := "ROUND(JULIANDAY(", ")-JULIANDAY(", "))";
    }
    assert DateDiffExpression(d, date1, date2).value == pre + date1 + mid + date2 + close;
    OccursInFive(pre, date1, mid, date2, close);
  }

  /**
   * What the listing queries may use of the connection: `quote()` and its
   * `database` attribute as `getDatabase()` returns it (null when unset).
   */
  datatype Session = Session(quote: string -> string, database: ConnectionConfig.Setting)

  /** Whether the dialect's descriptor overrides a `getList*SQL` method: all do, except SQLite's database list. */
  predicate Overrides(d: Dialect, l: Descriptor.Listing)
  {
    !(d == Sqlite && l == Descriptor.ListDatabases)
  }

  /** The MySQL listing queries. */
  function MySqlListQuery(l: Descriptor.Listing, table: string, session: Session): string
  {
    match l
    case ListDatabases => MySqlDescriptor.ListDatabasesSQL
    case ListTables => MySqlDescriptor.ListTablesSQL
    case ListTableColumns => MySqlDescriptor.ListTableColumnsSQL(table)
    case ListViews => MySqlDescriptor.ListViewsSQL(session.quote, ConnectionConfig.PhpString(session.database))
    case ListTableConstraints => MySqlDescriptor.ListTableConstraintsSQL(table)
    case ListTableIndexes => MySqlDescriptor.ListTableIndexesSQL(table)
    case ListTableForeignKeys => MySqlDescriptor.ListTableForeignKeysSQL(session.quote, table)
  }

  /** The Postgres listing queries. */
  function PostgresListQuery(l: Descriptor.Listing, table: string, session: Session): string
  {
    match l
    case ListDatabases => PostgresDescriptor.ListDatabasesSQL
    case ListTables => PostgresDescriptor.ListTablesSQL
    case ListTableColumns => PostgresDescriptor.ListTableColumnsSQL(session.quote, table)
    case ListViews => PostgresDescriptor.ListViewsSQL
    case ListTableConstraints => PostgresDescriptor.ListTableConstraintsSQL(session.quote, table)
    case ListTableIndexes => PostgresDescriptor.ListTableIndexesSQL(session.quote, table)
    case ListTableForeignKeys => PostgresDescriptor.ListTableForeignKeysSQL(session.quote, table)
  }

  /** The SQLite listing queries; the database list is not among them. */
  function SqliteListQuery(l: Descriptor.Listing, table: string, session: Session): string
    requires l != Descriptor.ListDatabases
  {
    match l
    case ListTables => SqliteDescriptor.ListTablesSQL
    case ListTableColumns => SqliteDescriptor.ListTableColumnsSQL(session.quote, table)
    case ListViews => SqliteDescriptor.ListViewsSQL
    case ListTableConstraints => SqliteDescriptor.ListTableConstraintsSQL(session.quote, table)
    case ListTableIndexes => SqliteDescriptor.ListTableIndexesSQL(session.quote, table)
    case ListTableForeignKeys => SqliteDescriptor.ListTableForeignKeysSQL(session.quote, table)
  }

  /**
   * The `getList*SQL` methods: the dialect's own query where its descriptor
   * overrides the method, the base method otherwise. The table argument is
   * ignored by those that take none.
   */
  function ListSQL(d: Dialect, l: Descriptor.Listing, table: string, session: Session): Result<string, Error>
  {
    if !Overrides(d, l) then Descriptor.ListSQL(l)
    else match d
      case MySql => Success(MySqlListQuery(l, table, session))
      case Postgres => Success(PostgresListQuery(l, table, session))
      case Sqlite => Success(SqliteListQuery(l, table, session))
  }

  /**
   * The only listing that fails is the SQLite database list, which keeps the
   * base unsupported-method error naming `getListDatabasesSQL`.
   */
  lemma ListSQLFailsOnlyForSqliteDatabases(d: Dialect, l: Descriptor.Listing, table: string, session: Session)
    ensures ListSQL(d, l, table, session).Failure? <==> d == Sqlite && l == Descriptor.ListDatabases
    ensures ListSQL(d, l, table, session).Failure? ==>
      ListSQL(d, l, table, session).error
      == Descriptor.Unsupported("getListDatabasesSQL")
  {
  }

  /**
   * The database, table and view lists take no argument: they do not depend
   * on the table or the connection, except MySQL's view list, which names the
   * configured database. MySQL lists databases with `SHOW DATABASES`, Postgres
   * reads `pg_database` and `pg_views`.
   */
  lemma ListSQLFixedQueries(d: Dialect, l: Descriptor.Listing, t1: string, s1: Session, t2: string, s2: Session)
    requires l == Descriptor.ListDatabases || l == Descriptor.ListTables || (l == Descriptor.ListViews && d != MySql)
    ensures ListSQL(d, l, t1, s1) == ListSQL(d, l, t2, s2)
    ensures ListSQL(MySql, Descriptor.ListDatabases, t1, s1) == Success("SHOW DATABASES")
    ensures ListSQL(Postgres, Descriptor.ListDatabases, t1, s1) == Success("SELECT datname FROM pg_database")
    ensures ListSQL(Postgres, Descriptor.ListViews, t1, s1) == Success("SELECT viewname, definition FROM pg_views")
  {
  }

  /** `getDatabaseTypes()`: no dialect extends the base table. */
  function DatabaseTypes(d: Dialect): map<string, string>
  {
    Descriptor.DatabaseTypes()
  }

  /** Every dialect maps native types into the seven categories. */
  lemma DatabaseTypesCategories(d: Dialect, name: string)
    requires name in DatabaseTypes(d)
    ensures DatabaseTypes(d)[name] in Descriptor.Categories
  {
  }
}
