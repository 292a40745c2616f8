/**
 * The PostgreSQL descriptor (`Emyi\Db\Driver\Postgres\Descriptor`): `DATE()`
 * differences, `::interval` arithmetic, catalogue queries over `pg_class` and
 * `pg_namespace`, and the schema resolution shared by the table queries. The
 * identifier quote character is the inherited '"'.
 */
module PostgresDescriptor {
  import opened PhpStrings
  import Descriptor

  /** `getDateDiffExpression($date1, $date2)`. */
  function DateDiffExpression(date1: string, date2: string): string
  {
    "(DATE(" + date1 + ") - DATE(" + date2 + "))"
  }

  function UnitWord(unit: Descriptor.Unit): string
  {
    match unit
    case Hour => "hour"
    case Day => "day"
    case Month => "month"
  }

  function Operator(dir: Descriptor.Direction): char
  {
    if dir == Descriptor.Add then '+' else '-'
  }

  /** The right operand: the amount concatenated with the unit word, cast to an interval. */
  function IntervalOperand(unit: Descriptor.Unit, amount: string): string
  {
    " (" + amount + " || ' " + UnitWord(unit) + "')::interval)"
  }

  /** `getDate{Add,Sub}{Hour,Days,Months}Expression($date, $amount)`. */
  function DateArithmeticExpression(dir: Descriptor.Direction, unit: Descriptor.Unit, date: string, amount: string): string
  {
    "(" + date + " " + [Operator(dir)] + IntervalOperand(unit, amount)
  }

  /** Add and sub expressions differ in exactly one character, the operator after the date. */
  lemma DateArithmeticOperator(unit: Descriptor.Unit, date: string, amount: string)
    ensures var add := DateArithmeticExpression(Descriptor.Add, unit, date, amount);
      var sub := DateArithmeticExpression(Descriptor.Sub, unit, date, amount);
      && |add| == |sub|
      && add[|date| + 2] == '+' && sub[|date| + 2] == '-'
      && forall i | 0 <= i < |add| && i != |date| + 2 :: add[i] == sub[i]
  {
    var p := "(" + date + " ";
    var r := IntervalOperand(unit, amount);
    var add := DateArithmeticExpression(Descriptor.Add, unit, date, amount);
    var sub := DateArithmeticExpression(Descriptor.Sub, unit, date, amount);
    assert add == p + ['+'] + r && sub == p + ['-'] + r;
    forall i | 0 <= i < |add| && i != |date| + 2 ensures add[i] == sub[i] {
      if i < |p| {
        assert add[i] == p[i] == sub[i];
      } else {
        assert add[i] == r[i - |p| - 1] == sub[i];
      }
    }
  }

  /** `getListDatabasesSQL()`. */
  const ListDatabasesSQL: string := @"SELECT datname FROM pg_database"

  /** `getListTablesSQL()`. */
  const ListTablesSQL: string := @"
            SELECT
                tablename AS table_name,
                schemaname AS schema_name
            FROM
                pg_tables
            WHERE
                schemaname NOT LIKE 'pg_%'
                AND
                schemaname != 'information_schema'
                AND
                tablename != 'geometry_columns'
                AND
                tablename != 'spatial_ref_sys'"

  /** `getListViewsSQL()`. */
  const ListViewsSQL: string := @"SELECT viewname, definition FROM pg_views"

  /** The opening of every table where-clause: system schemas are never matched. */
  const ExcludedSchemas: string := @".nspname NOT IN ('pg_catalog', 'information_schema', 'pg_toast') AND "

  /** The schema comparand for an unqualified table: any schema on the session's search path. */
  const SearchPathSchema: string := @"ANY(string_to_array((SELECT replace(setting,'""$user""', user) FROM pg_catalog.pg_settings WHERE name = 'search_path'), ', '))"

  /** The clause matching a table, given the quoted table name and the schema comparand. */
  function WhereClause(cls: string, nsAlias: string, quotedTable: string, schema: string): string
  {
    nsAlias + ExcludedSchemas + cls + ".relname = " + quotedTable + " AND " + nsAlias + ".nspname = " + schema
  }

  /** `list($schema, $table) = explode('.', $table)`: the first two dot-separated parts. */
  function SchemaAndTable(table: string): (string, string)
    requires '.' in table
  {
    CountPositive(table, '.');
    SplitCount(table, '.');
    var parts := Split(table, '.');
    (parts[0], parts[1])
  }

  /**
   * `getTableWhereClause($table, $class, $nsAlias)`: a dotted name is split into
   * schema and table (further parts are ignored) and the schema is compared as a
   * quoted literal; an undotted name is looked up along the search path.
   */
  function TableWhereClause(quote: string -> string, table: string, cls: string, nsAlias: string): string
  {
    if '.' in table then
      var (schema, name) := SchemaAndTable(table);
      WhereClause(cls, nsAlias, quote(name), quote(schema))
    else
      WhereClause(cls, nsAlias, quote(table), SearchPathSchema)
  }

  /** Every where-clause opens with the exclusion of the system schemas on the namespace alias. */
  lemma TableWhereClauseExcludesSystemSchemas(quote: string -> string, table: string, cls: string, nsAlias: string)
    ensures var r := TableWhereClause(quote, table, cls, nsAlias);
      |r| >= |nsAlias + ExcludedSchemas| && r[..|nsAlias + ExcludedSchemas|] == nsAlias + ExcludedSchemas
  {
  }

  /**
   * For `schema.table` (optionally followed by more dotted parts) the schema
   * compared is `quote(schema)` and the table is `quote(table)`; without a dot,
   * the table is `quote(table)` and the schema is the search-path expression.
   */
  lemma TableWhereClauseSchema(quote: string -> string, schema: string, table: string, more: string, cls: string, nsAlias: string)
    requires '.' !in schema && '.' !in table
    requires more == [] || more[0] == '.'
    ensures TableWhereClause(quote, schema + "." + table + more, cls, nsAlias)
         == WhereClause(cls, nsAlias, quote(table), quote(schema))
    ensures TableWhereClause(quote, table, cls, nsAlias)
         == WhereClause(cls, nsAlias, quote(table), SearchPathSchema)
  {
    var name := schema + "." + table + more;
    assert name == schema + ['.'] + (table + more);
    assert name[|schema|] == '.';
    SplitAt(schema, table + more, '.');
    if more == [] {
      assert table + more == table;
      SplitWithout(table, '.');
    } else {
      assert table + more == table + ['.'] + more[1..];
      SplitAt(table, more[1..], '.');
    }
  }

  const ColumnsHead: string := @"
            SELECT
                a.attnum,
                a.attname AS field,
                t.typname AS type,
                format_type(a.atttypid, a.atttypmod) AS complete_type,
                (
                    SELECT
                        t1.typname
                    FROM
                        pg_catalog.pg_type t1
                    WHERE
                        t1.oid = t.typbasetype
                ) AS domain_type,

                (
                    SELECT
                        format_type(t2.typbasetype, t2.typtypmod)
                    FROM
                        pg_catalog.pg_type t2
                    WHERE
                        t2.typtype = 'd'
                        AND
                        t2.oid = a.atttypid
                ) AS domain_complete_type,

                a.attnotnull AS isnotnull,
                (
                    SELECT
                        't'
                    FROM
                        pg_index
                    WHERE
                        c.oid = pg_index.indrelid
                        AND
                        pg_index.indkey[0] = a.attnum
                        AND
                        pg_index.indisprimary = 't'
                ) AS pri,

                (
                    SELECT
                        pg_attrdef.adsrc
                    FROM
                        pg_attrdef
                    WHERE
                        c.oid = pg_attrdef.adrelid
                        AND
                        pg_attrdef.adnum=a.attnum
                ) AS default,

                (
                    SELECT
                        pg_description.description
                    FROM
                        pg_description
                    WHERE
                        pg_description.objoid = c.oid
                        AND
                        a.attnum = pg_description.objsubid
                ) AS comment

            FROM
                pg_attribute a,
                pg_class c,
                pg_type t,
                pg_namespace n
            WHERE "
  const ColumnsTail: string := @" AND
                a.attnum > 0
                AND
                a.attrelid = c.oid
                AND
                a.atttypid = t.oid
                AND
                n.oid = c.relnamespace
            ORDER BY
                a.attnum"

  /** `getListTableColumnsSQL($table)`: attributes of the table matched with aliases c and n. */
  function ListTableColumnsSQL(quote: string -> string, table: string): string
  {
    ColumnsHead + TableWhereClause(quote, table, "c", "n") + ColumnsTail
  }

  const ConstraintsHead: string := @"
            SELECT
                relname
            FROM
                pg_class
            WHERE
                oid IN (
                    SELECT
                        indexrelid
                    FROM
                        pg_index,
                        pg_class
                    WHERE
                        pg_class.relname = "
  const ConstraintsTail: string := @"
                        AND
                        pg_class.oid = pg_index.indrelid
                        AND (indisunique = 't' OR indisprimary = 't')
                )"

  /** `getListTableConstraintsSQL($table)`: unique and primary indexes of the table, named by `quote($table)`. */
  function ListTableConstraintsSQL(quote: string -> string, table: string): string
  {
    ConstraintsHead + quote(table) + ConstraintsTail
  }

  const IndexesHead: string := @"
            SELECT
                relname,
                pg_index.indisunique,
                pg_index.indisprimary,
                pg_index.indkey,
                pg_index.indrelid
            FROM
                pg_class,
                pg_index
            WHERE
                oid IN (
                    SELECT
                        indexrelid
                    FROM
                        pg_index si,
                        pg_class sc,
                        pg_namespace sn
                    WHERE "
  const IndexesTail: string := @" AND
                        sc.oid = si.indrelid
                        AND sc.relnamespace = sn.oid
                )
                AND
                pg_index.indexrelid = oid"

  /** `getListTableIndexesSQL($table)`: the subquery matches the table with aliases sc and sn. */
  function ListTableIndexesSQL(quote: string -> string, table: string): string
  {
    IndexesHead + TableWhereClause(quote, table, "sc", "sn") + IndexesTail
  }

  const ForeignKeysHead: string := @"
            SELECT
                r.conname,
                pg_catalog.pg_get_constraintdef(r.oid, true) as condef
            FROM
                pg_catalog.pg_constraint r
            WHERE
                r.conrelid = (
                    SELECT
                        c.oid
                    FROM
                        pg_catalog.pg_class c,
                        pg_catalog.pg_namespace n
                    WHERE "
  const ForeignKeysTail: string := @" AND
                        n.oid = c.relnamespace
                )
                AND r.contype = 'f'"

  /** `getListTableForeignKeysSQL($table)`: foreign-key constraints of the table matched with aliases c and n. */
  function ListTableForeignKeysSQL(quote: string -> string, table: string): string
  {
    ForeignKeysHead + TableWhereClause(quote, table, "c", "n") + ForeignKeysTail
  }

  /**
   * The column and foreign-key queries resolve the table with the where-clause
   * on aliases c/n, the index query with the one on sc/sn, whatever the name;
   * the constraints query names the table as `quote(table)`.
   */
  lemma TableQueriesResolveTable(quote: string -> string, table: string)
    ensures OccursAt(TableWhereClause(quote, table, "c", "n"), ListTableColumnsSQL(quote, table), |ColumnsHead|)
    ensures OccursAt(TableWhereClause(quote, table, "c", "n"), ListTableForeignKeysSQL(quote, table), |ForeignKeysHead|)
    ensures OccursAt(TableWhereClause(quote, table, "sc", "sn"), ListTableIndexesSQL(quote, table), |IndexesHead|)
    ensures OccursAt(quote(table), ListTableConstraintsSQL(quote, table), |ConstraintsHead|)
  {
    OccursInThree(ColumnsHead, TableWhereClause(quote, table, "c", "n"), ColumnsTail);
    OccursInThree(ForeignKeysHead, TableWhereClause(quote, table, "c", "n"), ForeignKeysTail);
    OccursInThree(IndexesHead, TableWhereClause(quote, table, "sc", "sn"), IndexesTail);
    OccursInThree(ConstraintsHead, quote(table), ConstraintsTail);
  }
}
