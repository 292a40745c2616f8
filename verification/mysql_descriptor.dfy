/**
 * The MySQL descriptor (`Emyi\Db\Driver\MySql\Descriptor`): backtick
 * identifiers, `DATE_ADD`/`DATE_SUB` interval arithmetic, an OFFSET that is
 * always present, and `SHOW`/`information_schema` introspection queries.
 */
module MySqlDescriptor {
  import opened Wrappers
  import opened PhpStrings
  import Descriptor

  /** `getQuoteIdentifierCharacter()`. */
  const QuoteCharacter: char := '`'

  /** `getDateDiffExpression($date1, $date2)`. */
  function DateDiffExpression(date1: string, date2: string): string
  {
    "DATEDIFF(" + date1 + ", " + date2 + ")"
  }

  function UnitKeyword(unit: Descriptor.Unit): string
  {
    match unit
    case Hour => "HOUR"
    case Day => "DAY"
    case Month => "MONTH"
  }

  function FunctionName(dir: Descriptor.Direction): string
  {
    if dir == Descriptor.Add then "DATE_ADD" else "DATE_SUB"
  }

  /** The argument list shared by both directions: `(date, INTERVAL amount UNIT)`. */
  function IntervalArguments(unit: Descriptor.Unit, date: string, amount: string): string
  {
    "(" + date + ", INTERVAL " + amount + " " + (UnitKeyword(unit) + ")")
  }

  /** `getDate{Add,Sub}{Hour,Days,Months}Expression($date, $amount)`. */
  function DateArithmeticExpression(dir: Descriptor.Direction, unit: Descriptor.Unit, date: string, amount: string): string
  {
    FunctionName(dir) + IntervalArguments(unit, date, amount)
  }

  /** The head and the tail of a three-part text. */
  lemma EndsOfThree(a: string, b: string, c: string)
    ensures (a + b + c)[..|a|] == a && (a + b + c)[|a| + |b|..] == c
  {
  }

  /** Every date expression opens with `DATE_ADD(` or `DATE_SUB(`. */
  lemma DateArithmeticOpens(dir: Descriptor.Direction, unit: Descriptor.Unit, date: string, amount: string)
    ensures DateArithmeticExpression(dir, unit, date, amount)[..9] == (if dir == Descriptor.Add then "DATE_ADD(" else "DATE_SUB(")
  {
    var args := IntervalArguments(unit, date, amount);
    assert args == "(" + args[1..];
    EndsOfThree(FunctionName(dir) + "(", args[1..], []);
    if dir == Descriptor.Add {
      assert FunctionName(dir) + "(" == "DATE_ADD(";
    } else {
      assert FunctionName(dir) + "(" == "DATE_SUB(";
    }
  }

  /** Every date expression closes with the unit keyword and ')'. */
  lemma DateArithmeticCloses(dir: Descriptor.Direction, unit: Descriptor.Unit, date: string, amount: string)
    ensures var r := DateArithmeticExpression(dir, unit, date, amount);
      r[|r| - |UnitKeyword(unit)| - 1..] == UnitKeyword(unit) + ")"
  {
    var head := "(" + date + ", INTERVAL " + amount + " ";
    var close := UnitKeyword(unit) + ")";
    EndsOfThree(FunctionName(dir) + head, close, []);
  }

  /** Add and sub expressions differ only in the function name. */
  lemma DateArithmeticSameArguments(unit: Descriptor.Unit, date: string, amount: string)
    ensures DateArithmeticExpression(Descriptor.Add, unit, date, amount)[8..]
         == DateArithmeticExpression(Descriptor.Sub, unit, date, amount)[8..]
  {
    EndsOfThree(FunctionName(Descriptor.Add), IntervalArguments(unit, date, amount), []);
    EndsOfThree(FunctionName(Descriptor.Sub), IntervalArguments(unit, date, amount), []);
  }

  /** `modifyLimitQuery`: a missing offset becomes offset 0, then the base behaviour applies. */
  function ModifyLimitQuery(query: string, limit: int, offset: Option<int>): string
  {
    Descriptor.ModifyLimitQuery(query, limit, Some(offset.GetOr(0)))
  }

  /**
   * The MySQL LIMIT clause always carries an OFFSET: with a given offset it is the
   * base result, without one it is the base result for offset 0.
   */
  lemma ModifyLimitQueryAlwaysOffset(query: string, limit: int, offset: Option<int>)
    ensures offset.Some? ==> ModifyLimitQuery(query, limit, offset) == Descriptor.ModifyLimitQuery(query, limit, offset)
    ensures offset.None? ==> ModifyLimitQuery(query, limit, offset) == Descriptor.ModifyLimitQuery(query, limit, Some(0))
    ensures var r := ModifyLimitQuery(query, limit, offset);
      && r[..|query|] == query
      && Descriptor.ParseLimitClause(r[|query|..]) == Some((limit, Some(offset.GetOr(0))))
  {
    Descriptor.ModifyLimitQueryShape(query, limit, Some(offset.GetOr(0)));
  }

  /** `getListDatabasesSQL()`. */
  const ListDatabasesSQL: string := @"SHOW DATABASES"

  /** `getListTablesSQL()`. */
  const ListTablesSQL: string := @"SHOW FULL TABLES WHERE table_type = 'BASE TABLE'"

  /** `getListTableColumnsSQL($table)`: the table name is inserted as given. */
  function ListTableColumnsSQL(table: string): string
  {
    @"DESCRIBE " + table
  }

  const ViewsPrefix: string := @"
            SELECT
                *
            FROM
                information_schema.views
            WHERE
                table_schema = "

  /** `getListViewsSQL()`: views of the connection's database, compared as a quoted literal. */
  function ListViewsSQL(quote: string -> string, database: string): string
  {
    ViewsPrefix + quote(database)
  }

  /** `getListTableConstraintsSQL($table)`. */
  function ListTableConstraintsSQL(table: string): string
  {
    @"SHOW INDEX FROM " + table
  }

  /** `getListTableIndexesSQL($table)`. */
  function ListTableIndexesSQL(table: string): string
  {
    @"SHOW INDEX FROM " + table
  }

  const ForeignKeysHead: string := @"
            SELECT DISTINCT
                k.constraint_name,
                k.column_name,
                k.referenced_table_name,
                k.referenced_column_name /*!50116 , c.update_rule, c.delete_rule */
            FROM
                information_schema.key_column_usage k /*!50116
            INNER JOIN
                information_schema.referential_constraints c
                    ON c.constraint_name = k.constraint_name
                    AND
                    c.table_name = "
  /** The end of the version comment; the WHERE clause on the key usage table follows it. */
  const CommentEnd: string := " */"
  const ForeignKeysWhere: string := @"
            WHERE
                k.table_name = "
  const ForeignKeysTail: string := @"
                AND
                k.referenced_column_name IS NOT NULL"

  /**
   * `getListTableForeignKeysSQL($table)`: the quoted table name goes both into
   * the version comment joining referential constraints and into the WHERE clause.
   */
  function ListTableForeignKeysSQL(quote: string -> string, table: string): string
  {
    var quoted := quote(table);
    ForeignKeysHead + quoted + (CommentEnd + ForeignKeysWhere) + quoted + ForeignKeysTail
  }

  /** Constraints and indexes are listed by the same query, which ends with the table name as given. */
  lemma ListTableIndexQueries(table: string)
    ensures ListTableConstraintsSQL(table) == ListTableIndexesSQL(table)
    ensures ListTableColumnsSQL(table) == "DESCRIBE " + table
    ensures var r := ListTableIndexesSQL(table);
      |r| >= |table| && r[|r| - |table|..] == table
  {
  }

  /** Where `x` stands in a text that holds it twice around a middle opening with `c`. */
  lemma TwiceAround(head: string, x: string, c: string, w: string, tail: string)
    ensures var r := head + x + (c + w) + x + tail;
      && OccursAt(x, r, |head|) && OccursAt(c, r, |head| + |x|) && OccursAt(x, r, |head| + |x| + |c| + |w|)
  {
    OccursInFive(head, x, c + w, x, tail);
    OccursPrefix(c, w, head + x + (c + w) + x + tail, |head| + |x|);
  }

  /**
   * The quoted table name occurs twice: right after the head, followed by the end
   * of the version comment, and again after the WHERE clause on the key usage table.
   */
  lemma ForeignKeysQuoteTwice(quote: string -> string, table: string)
    ensures OccursAt(quote(table), ListTableForeignKeysSQL(quote, table), |ForeignKeysHead|)
    ensures OccursAt(CommentEnd, ListTableForeignKeysSQL(quote, table), |ForeignKeysHead| + |quote(table)|)
    ensures OccursAt(quote(table), ListTableForeignKeysSQL(quote, table),
                     |ForeignKeysHead| + |quote(table)| + |CommentEnd| + |ForeignKeysWhere|)
  {
    TwiceAround(ForeignKeysHead, quote(table), CommentEnd, ForeignKeysWhere, ForeignKeysTail);
  }
}
