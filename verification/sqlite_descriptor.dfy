/**
 * The SQLite descriptor (`Emyi\Db\Driver\Sqlite\Descriptor`): Julian-day
 * differences, `DATE`/`DATETIME` modifiers, `sqlite_master` and `PRAGMA`
 * introspection, and table names flattened by `quoteTable`. The identifier
 * quote character is the inherited '"'; `getListDatabasesSQL` is not overridden.
 */
module SqliteDescriptor {
  import opened PhpStrings
  import Descriptor

  /** `getDateDiffExpression($date1, $date2)`. */
  function DateDiffExpression(date1: string, date2: string): string
  {
    "ROUND(JULIANDAY(" + date1 + ")-JULIANDAY(" + date2 + "))"
  }

  /** Hour arithmetic keeps the time of day; day and month arithmetic yield a date. */
  function DateFunction(unit: Descriptor.Unit): string
  {
    if unit == Descriptor.Hour then "DATETIME(" else "DATE("
  }

  function UnitWord(unit: Descriptor.Unit): string
  {
    match unit
    case Hour => "hour"
    case Day => "day"
    case Month => "month"
  }

  function Sign(dir: Descriptor.Direction): char
  {
    if dir == Descriptor.Add then '+' else '-'
  }

  /** The modifier after the sign: the amount concatenated with the unit word. */
  function ModifierTail(unit: Descriptor.Unit, amount: string): string
  {
    "' || " + amount + " || ' " + UnitWord(unit) + "')"
  }

  /** `getDate{Add,Sub}{Hour,Days,Months}Expression($date, $amount)`. */
  function DateArithmeticExpression(dir: Descriptor.Direction, unit: Descriptor.Unit, date: string, amount: string): string
  {
    DateFunction(unit) + date + ",'" + [Sign(dir)] + ModifierTail(unit, amount)
  }

  /**
   * The expression calls `DATETIME` exactly for hours and `DATE` otherwise, and
   * add and sub differ only in the sign literal.
   */
  lemma DateArithmeticShape(dir: Descriptor.Direction, unit: Descriptor.Unit, date: string, amount: string)
    ensures DateFunction(unit) == "DATETIME(" <==> unit == Descriptor.Hour
    ensures DateFunction(unit) == "DATE(" <==> unit != Descriptor.Hour
    ensures var r := DateArithmeticExpression(dir, unit, date, amount);
      r[..|DateFunction(unit)|] == DateFunction(unit)
    ensures var add := DateArithmeticExpression(Descriptor.Add, unit, date, amount);
      var sub := DateArithmeticExpression(Descriptor.Sub, unit, date, amount);
      var k := |DateFunction(unit)| + |date| + 2;
      && |add| == |sub| && add[k] == '+' && sub[k] == '-'
      && forall i | 0 <= i < |add| && i != k :: add[i] == sub[i]
  {
    var p := DateFunction(unit) + date + ",'";
    var t := ModifierTail(unit, amount);
    var add := DateArithmeticExpression(Descriptor.Add, unit, date, amount);
    var sub := DateArithmeticExpression(Descriptor.Sub, unit, date, amount);
    assert add == p + ['+'] + t && sub == p + ['-'] + t;
    forall i | 0 <= i < |add| && i != |p| ensures add[i] == sub[i] {
      if i < |p| {
        assert add[i] == p[i] == sub[i];
      } else {
        assert add[i] == t[i - |p| - 1] == sub[i];
      }
    }
  }

  /** The name `quoteTable` hands to `quote`: every '.' replaced by "__". */
  function QuoteTableArgument(table: string): string
  {
    ReplaceChar(table, '.', "__")
  }

  /** `quoteTable($str)`. */
  function QuoteTable(quote: string -> string, table: string): string
  {
    quote(QuoteTableArgument(table))
  }

  /**
   * The argument passed to `quote` never contains a '.', is one character longer
   * per dot, and is the name itself when the name has no dot.
   */
  lemma QuoteTableArgumentDotFree(table: string)
    ensures '.' !in QuoteTableArgument(table)
    ensures |QuoteTableArgument(table)| == |table| + Count(table, '.')
    ensures '.' !in table ==> QuoteTableArgument(table) == table
  {
    ReplaceCharRemoves(table, '.', "__");
    ReplaceCharLength(table, '.', "__");
    if '.' !in table {
      ReplaceCharAbsent(table, '.', "__");
    }
  }

  /** Flattening is not injective: `a.b` and `a__b` name the same table. */
  lemma QuoteTableMerges(quote: string -> string, a: string, b: string)
    requires '.' !in a && '.' !in b
    ensures QuoteTable(quote, a + "." + b) == QuoteTable(quote, a + "__" + b)
  {
    ReplaceCharAround(a, b, '.', "__");
    ReplaceCharAbsent(a, '.', "__");
    ReplaceCharAbsent(b, '.', "__");
    assert '.' !in a + "__" + b;
    ReplaceCharAbsent(a + "__" + b, '.', "__");
  }

  /** `getListTablesSQL()`. */
  const ListTablesSQL: string := @"
            SELECT
                name
            FROM
                sqlite_master
            WHERE
                type  = 'table'
                AND
                name != 'sqlite_sequence'
                AND
                name != 'geometry_columns'
                AND
                name != 'spatial_ref_sys'

            UNION ALL

            SELECT
                name
            FROM
                sqlite_temp_master
            WHERE
                type = 'table'
            ORDER BY
                name"

  /** `getListViewsSQL()`. */
  const ListViewsSQL: string := @"
            SELECT
                name,
                sql
            FROM
                sqlite_master
            WHERE
                type = 'view'
                AND
                sql NOT NULL"

  /** `getListTableColumnsSQL($table)`. */
  function ListTableColumnsSQL(quote: string -> string, table: string): string
  {
    "PRAGMA table_info(" + QuoteTable(quote, table) + ")"
  }

  const ConstraintsHead: string := @"
            SELECT
                sql
            FROM
                sqlite_master
            WHERE
                type = 'index'
                AND
                tbl_name = "
  const ConstraintsTail: string := @"
                AND
                sql NOT NULL
            ORDER BY
                name"

  /** `getListTableConstraintsSQL($table)`: index definitions whose table is the flattened, quoted name. */
  function ListTableConstraintsSQL(quote: string -> string, table: string): string
  {
    ConstraintsHead + QuoteTable(quote, table) + ConstraintsTail
  }

  /** `getListTableIndexesSQL($table)`. */
  function ListTableIndexesSQL(quote: string -> string, table: string): string
  {
    "PRAGMA index_list(" + QuoteTable(quote, table) + ")"
  }

  /** `getListTableForeignKeysSQL($table)`. */
  function ListTableForeignKeysSQL(quote: string -> string, table: string): string
  {
    "PRAGMA foreign_key_list(" + QuoteTable(quote, table) + ")"
  }

  /**
   * Each table query names the table as `quote` applied to the flattened name:
   * the three PRAGMA queries as their only argument, the constraints query as
   * the value compared with `tbl_name`.
   */
  lemma TableQueriesUseQuoteTable(quote: string -> string, table: string)
    ensures var q := QuoteTable(quote, table);
      && ListTableColumnsSQL(quote, table)[18..|ListTableColumnsSQL(quote, table)| - 1] == q
      && ListTableIndexesSQL(quote, table)[18..|ListTableIndexesSQL(quote, table)| - 1] == q
      && ListTableForeignKeysSQL(quote, table)[24..|ListTableForeignKeysSQL(quote, table)| - 1] == q
      && OccursAt(q, ListTableConstraintsSQL(quote, table), |ConstraintsHead|)
      && ConstraintsHead[|ConstraintsHead| - 11..] == "tbl_name = "
  {
    var q := QuoteTable(quote, table);
    var c := ListTableConstraintsSQL(quote, table);
    assert c[|ConstraintsHead|..|ConstraintsHead| + |q|] == q;
  }
}
