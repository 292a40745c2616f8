# Emyi database layer in Dafny

This project models the database layer of the Emyi PHP library and proves
properties of the model:

- **Dialect descriptors.** Each descriptor builds the SQL fragments of one server:
  - identifier quoting;
  - LIMIT/OFFSET suffixes;
  - date arithmetic;
  - introspection queries;
  - capability flags;
  - the native-type table.
- **`Statement::execute`.** The loop binds each named parameter with a PDO type inferred from its value.
- **`Connection`.** This covers:
  - the attribute snapshot;
  - DSN and options;
  - the descriptor cache;
  - capability-gated transaction methods;
  - `transactional`;
  - `query`/`fetchAll` parameter handling.
- **`ConnectionManager`.** A registry of connections keyed by the md5 of their configuration entry, plus the ordered driver map.
- **SQLite adapter.** The in-memory or file DSN, and the persistent-connection option.

Modules, one per source file or component:

- `Wrappers`, `Errors` (wrappers.dfy): Option/Result; the exception classes as error variants.
- `PhpStrings` (php_strings.dfy): the PHP string functions the core uses: `explode`, `implode`, `str_replace` on one character, `trim`, integer to string, `dirname`.
- `Descriptor` (descriptor.dfy): `Emyi\Db\Driver\Descriptor` (base class).
- `MySqlDescriptor`, `PostgresDescriptor`, `SqliteDescriptor` (mysql_descriptor.dfy, postgres_descriptor.dfy, sqlite_descriptor.dfy): the three concrete descriptors.
- `Dialects` (dialects.dfy): the descriptors as a closed family, with PHP's override-or-inherit dispatch.
- `ConnectionConfig` (connection_config.dfy): configuration values, attribute snapshot, `isValid`, base `buildDSN`, base PDO options.
- `SqliteAdapter` (sqlite_adapter.dfy): `Emyi\Db\Driver\Sqlite\Adapter`.
- `Statements` (statements.dfy): `Emyi\Db\Statement` (class with the bound parameters as state).
- `Connections` (connections.dfy): `Emyi\Db\Connection` (class), the static descriptor cache (class).
- `Manager` (manager.dfy): `Emyi\Db\ConnectionManager` (class with the instance map and driver map).

Several foreign calls are parameters:
- the connection's `quote()`;
- `md5`;
- `Config::get`;
- `realpath` and `is_writable`;
- class instantiation by name;
- the outcome of every native PDO call.

The four "now" snippets that `Statement::execute` compares against are a parameter too.

## Model

| member | source | states |
|---|---|---|
| `Descriptor.Supports` | library/Emyi/Db/Driver/Descriptor.php:211-247 | exactly indexes and transactions are supported; sequences and identity columns are not |
| `Descriptor.UnsupportedDefaults` | library/Emyi/Db/Driver/Descriptor.php:123-204 | the base date-difference and every base date-arithmetic method fail, and two different date-arithmetic methods never fail with the same error (each names its own method) |
| `Descriptor.UnsupportedFamiliesDistinct` | library/Emyi/Db/Driver/Descriptor.php:123-335 | the base date difference, any base date-arithmetic method and any base listing fail with pairwise different errors |
| `Descriptor.UnsupportedListings` | library/Emyi/Db/Driver/Descriptor.php:272-335 | every base `getList*SQL` method fails with an error naming that method |
| `Descriptor.QuoteIdentifierSegments` | library/Emyi/Db/Driver/Descriptor.php:56-66 | an identifier with n dots splits into n+1 dot-free pieces that rejoin to it, and is quoted as those pieces quoted one by one and joined with unquoted dots |
| `Descriptor.QuoteIdentifierUndotted` | library/Emyi/Db/Driver/Descriptor.php:403-407 | a dot-free identifier becomes quote char + the string with every quote char doubled + quote char, which is its length plus its quote count plus two |
| `Descriptor.QuoteSingleIdentifierRoundTrip` | library/Emyi/Db/Driver/Descriptor.php:406 | stripping the outer quote chars of a quoted segment and undoubling gives the original back |
| `Descriptor.QuoteIdentifierRoundTrip` | library/Emyi/Db/Driver/Descriptor.php:56-66 | for any quote char other than '.', un-quoting a quoted (possibly dotted) identifier gives the original back |
| `Descriptor.LimitClauseRoundTrip` | library/Emyi/Db/Driver/Descriptor.php:259-263 | the appended clause reads back as exactly the limit and the optional offset |
| `Descriptor.ModifyLimitQueryShape` | library/Emyi/Db/Driver/Descriptor.php:257-266 | the query is kept as a prefix, and what follows is " LIMIT l", plus " OFFSET o" only when an offset is given |
| `Descriptor.DatabaseTypes` | library/Emyi/Db/Driver/Descriptor.php:351-384 | every native type maps into the seven categories; time→date, blob→string, serial→integer |
| `MySqlDescriptor.DateArithmeticOpens` | library/Emyi/Db/Driver/MySql/Descriptor.php:41-84 | the expression starts with DATE_ADD( when adding and DATE_SUB( when subtracting |
| `MySqlDescriptor.DateArithmeticCloses` | library/Emyi/Db/Driver/MySql/Descriptor.php:41-84 | the expression ends with the unit keyword HOUR, DAY or MONTH and ')' |
| `MySqlDescriptor.DateArithmeticSameArguments` | library/Emyi/Db/Driver/MySql/Descriptor.php:41-84 | add and sub expressions agree after the eight-character function name |
| `MySqlDescriptor.ModifyLimitQueryAlwaysOffset` | library/Emyi/Db/Driver/MySql/Descriptor.php:89-92 | with an offset the result is the base one; without, it is the base one with offset 0, so it always reads back with an offset |
| `MySqlDescriptor.ListTableIndexQueries` | library/Emyi/Db/Driver/MySql/Descriptor.php:113-148 | columns are listed with "DESCRIBE " + table; constraints and indexes use the same query, which ends with the table as given |
| `MySqlDescriptor.ForeignKeysQuoteTwice` | library/Emyi/Db/Driver/MySql/Descriptor.php:153-175 | the quoted table appears twice, non-overlapping: first inside the version comment (followed by its " */"), then in the WHERE clause |
| `PostgresDescriptor.DateArithmeticOperator` | library/Emyi/Db/Driver/Postgres/Descriptor.php:32-75 | add and sub expressions have equal length and differ only in the operator character, '+' versus '-' |
| `PostgresDescriptor.TableWhereClauseExcludesSystemSchemas` | library/Emyi/Db/Driver/Postgres/Descriptor.php:284-286 | the where clause always starts with the exclusion of pg_catalog, information_schema and pg_toast on the namespace alias |
| `PostgresDescriptor.TableWhereClauseSchema` | library/Emyi/Db/Driver/Postgres/Descriptor.php:288-295 | for schema.table[.more] the clause compares the relation with quote(table) and the schema with quote(schema); for an undotted name it compares with the search_path expression |
| `PostgresDescriptor.TableQueriesResolveTable` | library/Emyi/Db/Driver/Postgres/Descriptor.php:109-276 | for any table name, the columns and foreign-key queries embed the table's where clause on aliases c/n, the index query the one on sc/sn, and the constraints query embeds quote(table) |
| `SqliteDescriptor.DateArithmeticShape` | library/Emyi/Db/Driver/Sqlite/Descriptor.php:32-75 | hours use DATETIME(, days and months DATE(; add and sub differ only in the sign character |
| `SqliteDescriptor.QuoteTableArgumentDotFree` | library/Emyi/Db/Driver/Sqlite/Descriptor.php:175-178 | the string handed to quote() has no '.', is one character longer per dot, and equals the input when it had no dot |
| `SqliteDescriptor.QuoteTableMerges` | library/Emyi/Db/Driver/Sqlite/Descriptor.php:175-178 | "a.b" and "a__b" are quoted to the same table name |
| `SqliteDescriptor.TableQueriesUseQuoteTable` | library/Emyi/Db/Driver/Sqlite/Descriptor.php:111-167 | the PRAGMA table_info, index_list and foreign_key_list queries wrap exactly quoteTable(table); the constraints query compares tbl_name with it |
| `Dialects.QuoteCharacter` | library/Emyi/Db/Driver/MySql/Descriptor.php:25-28 | the quote char is a backtick exactly for MySQL (the base '"' otherwise) and never '.' |
| `Dialects.QuoteIdentifierRoundTrip` | library/Emyi/Db/Driver/Descriptor.php:56-66 | in every dialect a quoted identifier reads back as the original |
| `Descriptor.QuoteTwoSegments` | library/Emyi/Db/Driver/Descriptor.php:56-66 | `schema.table` with dot-free parts is quoted as the two parts quoted on their own around an unquoted dot |
| `Dialects.MySqlQuoteExample` | library/Emyi/Db/Driver/MySql/Descriptor.php:25-28 | MySQL quotes a`b.c as `a``b`.`c` |
| `Dialects.QuoteIdentifierAsWrittenFails` | library/Emyi/Db/Driver/Descriptor.php:403-407 | as written, quoting any identifier in any dialect fails with an undefined-method error for getDescriptor, never giving the intended quoting |
| `Dialects.SupportsFlags` | library/Emyi/Db/Driver/Descriptor.php:211-247 | no dialect overrides the flags: all support transactions and indexes, none sequences or identity columns |
| `Dialects.ModifyLimitQueryClause` | library/Emyi/Db/Driver/MySql/Descriptor.php:89-92 | in every dialect the query is a prefix and the clause reads back as the limit and offset; a missing offset reads back as missing, except on MySQL where it reads back as 0 |
| `Dialects.MySqlLimitExample` | library/Emyi/Db/Driver/MySql/Descriptor.php:89-92 | MySQL with limit 10 and no offset appends " LIMIT 10 OFFSET 0" |
| `Dialects.DateExpressionsSupported` | library/Emyi/Db/Driver/MySql/Descriptor.php:33-84 | every concrete dialect overrides all date methods, and the date-diff expression contains both dates in their given order |
| `Dialects.ListSQLFailsOnlyForSqliteDatabases` | library/Emyi/Db/Driver/Descriptor.php:272-275 | a listing query fails if and only if it is SQLite's database list, with the base unsupported-method error for getListDatabasesSQL |
| `Dialects.ListSQLFixedQueries` | library/Emyi/Db/Driver/MySql/Descriptor.php:97-108 | the database, table and (except MySQL) view lists do not depend on table or connection; MySQL lists databases with SHOW DATABASES, Postgres reads pg_database and pg_views |
| `Dialects.DatabaseTypesCategories` | library/Emyi/Db/Driver/Descriptor.php:351-384 | every dialect's type table maps into the seven categories |
| `ConnectionConfig.Lookup` | library/Emyi/Db/Connection.php:155-159 | a set value is the stored one; a missing key or a null value reads as null |
| `ConnectionConfig.DefaultAttributes` | library/Emyi/Db/Connection.php:24-30 | the initial attributes are driver, username, host, database and port, all null |
| `ConnectionConfig.SnapshotAttributes` | library/Emyi/Db/Connection.php:53-63 | after construction the password reads as null, the username is the configured one when set and the argument otherwise, every other key reads as configured, and the five default keys exist |
| `ConnectionConfig.SnapshotKeys` | library/Emyi/Db/Connection.php:53-58 | the attribute keys are the defaults plus the parameters, minus 'password' when a password was set |
| `ConnectionConfig.IsValidCases` | library/Emyi/Db/Connection.php:236-239 | a string is valid iff it has a character trim() keeps; an integer always; null and false never |
| `ConnectionConfig.BuildDsnParses` | library/Emyi/Db/Connection.php:211-228 | the DSN reads back as the driver and exactly the valid host, port and database fields (when the driver has no ':' and no value a ';') |
| `ConnectionConfig.BuildDsnRender` | library/Emyi/Db/Connection.php:211-228 | the DSN is the driver, ':' and then every valid field written as name=value; |
| `ConnectionConfig.ParseRenderFields` | library/Emyi/Db/Connection.php:211-228 | written fields read back unchanged when no name holds '=' or ';' and no value ';' |
| `ConnectionConfig.DsnFieldsOrder` | library/Emyi/Db/Connection.php:211-228 | fields come in the order host, port, dbname, each present exactly when its value is valid |
| `ConnectionConfig.BuildDsnBare` | library/Emyi/Db/Connection.php:211-228 | with no valid field the DSN is the driver followed by ':' |
| `ConnectionConfig.BuildDsnAllFields` | library/Emyi/Db/Connection.php:211-228 | with all fields valid the DSN is driver:host=..;port=..;dbname=..; |
| `ConnectionConfig.BaseConnectionOptions` | library/Emyi/Db/Connection.php:193-203 | six options, no persistence, and the statement class is Emyi\Db\Statement constructed with the hash |
| `SqliteAdapter.BuildDsnCases` | library/Emyi/Db/Driver/Sqlite/Adapter.php:36-53 | no database fails with "Database file must be specified"; :memory: gives sqlite::memory: whatever the filesystem; otherwise success iff the resolved file's directory is writable, with "sqlite:" + file, else an error naming the directory |
| `SqliteAdapter.BuildDsnPrefix` | library/Emyi/Db/Driver/Sqlite/Adapter.php:36-53 | every DSN produced starts with "sqlite:" |
| `SqliteAdapter.ConnectionOptionsPersistent` | library/Emyi/Db/Driver/Sqlite/Adapter.php:22-31 | the base options are kept, and ATTR_PERSISTENT = true is added iff the persistent attribute is truthy |
| `Statements.TypeOf` | library/Emyi/Db/Statement.php:61-81 | exactly arrays get no bind type; strings bind as STR |
| `Statements.Statement.constructor` | library/Emyi/Db/Statement.php:33-36 | a new statement keeps its connection hash and has nothing bound |
| `Statements.Statement.Execute` | library/Emyi/Db/Statement.php:41-87 | appends exactly the bindings of the parameter plan, in order, and executes bound when the plan's flag is set, with the data otherwise |
| `Statements.PlanStopsAtPositional` | library/Emyi/Db/Statement.php:47-50 | entries from the first positional key on never influence bindings or path |
| `Statements.PlanBindFlag` | library/Emyi/Db/Statement.php:52-84 | the bound path is taken iff some leading named parameter is not one of the four "now" snippets |
| `Statements.MarkerTypeAgrees` | library/Emyi/Db/Statement.php:52-58 | a snippet is bound as STR, the same type the type switch would give it |
| `Statements.PlanBindingsSound` | library/Emyi/Db/Statement.php:52-81 | every binding is a leading named, non-array parameter bound with its expected type |
| `Statements.PlanBindingsComplete` | library/Emyi/Db/Statement.php:52-81 | every leading named, non-array parameter is bound with its expected type |
| `Statements.PositionalDataPassedThrough` | library/Emyi/Db/Statement.php:48-86 | when the first key is positional nothing is bound and the raw data is passed to the native execute |
| `Statements.ExecuteExample` | library/Emyi/Db/Statement.php:47-86 | an integer and a snippet are bound (INT, STR), an array is skipped but forces the bound path, a positional entry ends the loop |
| `Connections.AdapterDsnFailures` | library/Emyi/Db/Connection.php:65-70 | only the SQLite adapter can fail to build a DSN, with an Emyi\Db\Exception of code 0; the others use the base DSN |
| `Connections.AdapterOptionsPersistent` | library/Emyi/Db/Driver/Sqlite/Adapter.php:22-31 | every connection's statement class carries its hash; a connection is persistent iff it is SQLite with a truthy persistent attribute |
| `Connections.CacheInsert` | library/Emyi/Db/Connection.php:380-397 | the cache gains the hash key, keeps every existing entry unchanged, and stores the new descriptor only when the hash was absent |
| `Connections.CacheInsertTwice` | library/Emyi/Db/Connection.php:384-385 | a second connection under the same hash reuses the first one's descriptor |
| `Connections.DescriptorCache.SetDescriptor` | library/Emyi/Db/Connection.php:380-397 | the cache after the call is the insert-once update of the cache before |
| `Connections.Wrap` | library/Emyi/Db/Connection.php:365-372 | a native failure is rethrown as a ConnectionException with the same message and code; success passes through |
| `Connections.GatedClosed` | library/Emyi/Db/Connection.php:287-312 | without the capability, begin/commit/rollBack make no native call and cannot fail |
| `Connections.GatedOpen` | library/Emyi/Db/Connection.php:287-312 | in every dialect the capability is on, so each method makes exactly its native call |
| `Connections.InTransactionOf` | library/Emyi/Db/Connection.php:317-324 | false without the capability; otherwise the driver's answer, or a ConnectionException |
| `Connections.TransactionalResult` | library/Emyi/Db/Connection.php:176-186 | succeeds iff no step fails; a failure is rethrown with the first failing step's message and code, unless the rollback itself fails |
| `Connections.TransactionalOrder` | library/Emyi/Db/Connection.php:176-186 | the native calls are begin, callable, commit in that order; a failing step ends the sequence and is followed by a rollback; without the capability only the callable runs |
| `Connections.TransactionalRollsBack` | library/Emyi/Db/Connection.php:176-186 | a rollback happens iff the capability is on and a step failed, exactly once, as the last call |
| `Connections.FetchAllData` | library/Emyi/Db/Connection.php:251-258 | null gives empty data; an array is passed as is; a scalar becomes a one-element positional list, which is not bound and is passed to the native execute |
| `Connections.Connection.Create` | library/Emyi/Db/Connection.php:47-63 | the new connection's attributes are the snapshot of the parameters and the username |
| `Connections.Connection.Connect` | library/Emyi/Db/Connection.php:47-76 | a DSN error escapes unchanged; a native failure becomes a ConnectionException; otherwise the connection has the snapshot, DSN and options, and the cached descriptor for its hash (created if absent) |
| `Connections.Connection.BeginTransaction` | library/Emyi/Db/Connection.php:287-292 | the journal gains the native begin exactly when the capability is on, and the result is that of the gated call |
| `Connections.Connection.Commit` | library/Emyi/Db/Connection.php:297-302 | likewise for the native commit |
| `Connections.Connection.RollBack` | library/Emyi/Db/Connection.php:307-312 | likewise for the native rollback |
| `Connections.Connection.InTransaction` | library/Emyi/Db/Connection.php:317-324 | the driver's answer whenever the capability is on and the driver answers |
| `Connections.Connection.Transactional` | library/Emyi/Db/Connection.php:176-186 | the journal gains exactly the native calls of the transaction run, and the result is its result |
| `Connections.Connection.Query` | library/Emyi/Db/Connection.php:265-282 | a fresh statement with the connection's hash is executed with (array) args; a native execution failure becomes an Emyi\Db\Exception |
| `Connections.Connection.FetchAll` | library/Emyi/Db/Connection.php:251-258 | the execution is that of the statement on the normalised parameters |
| `Manager.Names` | library/Emyi/Db/ConnectionManager.php:135-138 | the available drivers are the map's keys in order |
| `Manager.ClassOf` | library/Emyi/Db/ConnectionManager.php:84 | a driver has a class iff it is registered |
| `Manager.PutSemantics` | library/Emyi/Db/ConnectionManager.php:126-129 | registering changes only that driver's class, keeps names distinct, keeps an existing name's position, and appends a new name |
| `Manager.DefaultDriverNames` | library/Emyi/Db/ConnectionManager.php:28-36 | initially mysql, sqlite, pgsql, mapped to the MySQL, SQLite and Postgres adapters |
| `Manager.CheckConfig` | library/Emyi/Db/ConnectionManager.php:144-157 | the configuration passes iff the driver is set and registered |
| `Manager.CheckConfigErrors` | library/Emyi/Db/ConnectionManager.php:147-156 | a missing driver gives 'The option "driver" is mandatory'; an unregistered one gives the unknown-driver message built from the driver and the registered names, both with code 0 |
| `Manager.UnknownDriverMessageNames` | library/Emyi/Db/ConnectionManager.php:153-155 | the unknown-driver message names the driver and every registered driver |
| `Manager.ClassNameSource` | library/Emyi/Db/ConnectionManager.php:81-85 | an explicit class wins; otherwise the driver's registered class is used |
| `Manager.ConnectionHashAttribute` | library/Emyi/Db/ConnectionManager.php:87-90 | a connection made by the manager has as its hash attribute the key it is stored under |
| `Manager.DropMissesStoredConnection` | library/Emyi/Db/ConnectionManager.php:108-115 | for a non-blank entry, dropConnection removes a key other than the stored one, so the connection stays registered |
| `Manager.DropKeyOfBlankEntry` | library/Emyi/Db/ConnectionManager.php:69-73 | for a blank entry dropConnection's key is the stored key |
| `Manager.EvictUndoesStore` | library/Emyi/Db/ConnectionManager.php:98 | removing the stored key after storing a new connection gives back the previous map |
| `Manager.ConnectionManager.constructor` | library/Emyi/Db/ConnectionManager.php:22-36 | no instances, the three default drivers, an empty descriptor cache |
| `Manager.ConnectionManager.RegisterDriver` | library/Emyi/Db/ConnectionManager.php:126-129 | the driver map is updated for that name only; instances unchanged |
| `Manager.ConnectionManager.AvailableDrivers` | library/Emyi/Db/ConnectionManager.php:135-138 | the registered names in map order |
| `Manager.ConnectionManager.GetConnection` | library/Emyi/Db/ConnectionManager.php:61-99 | an instance stored under the entry or its hash is returned with the instances and the descriptor cache untouched; otherwise the configuration is checked, the explicit or mapped class is instantiated with the hash added, an explicit non-Connection class is refused, and the new instance is stored under the hash; a new adapter connection adds its descriptor to the cache once under the hash and uses the cached one; on every failure the instances and the cache are unchanged |
| `Manager.ConnectionManager.Instantiate` | library/Emyi/Db/ConnectionManager.php:87-97 | a missing class fails as undefined; an adapter class yields a connection of that dialect over the parameters plus the hash exactly when its DSN builds and the native connect succeeds, and then the descriptor cache gains the dialect under the hash (unless already present) and the connection uses the cached descriptor; a configured class that is not a connection is rejected; otherwise the cache is unchanged |
| `Manager.ConnectionManager.DropConnection` | library/Emyi/Db/ConnectionManager.php:108-115 | removes the md5 of the entry as given, and nothing else |
| `Manager.ConnectionManager.EvictConnection` | library/Emyi/Db/ConnectionManager.php:108-115 | removes the key getConnection stores the entry under, and nothing else |

## Left out

- PDO itself is not modelled. Each native call (connect, execute, begin, commit, rollback, inTransaction) is an abstract outcome. Also left out:
  - `exec`, `lastInsertId`, `prepare`, the one-argument `query`, and a failing prepare;
  - the rows `fetchAll` returns.
- `quote()` is a function parameter. It is not PDO's escaping.
- `getAttribute` with an integer key (the PDO attribute path) is not modelled. The getters `getName`, `getDatabase`, `getHost`, `getPort` and `getUsername` are `Connection.GetAttribute` with fixed keys.
- The date-format getters of the base descriptor return constant `date()` formats. They are left out.
- library/Emyi/Db/Column.php and library/Emyi/Db/Table.php contain no logic.
- The "now" snippets (`getNowExpressionSQL`, `getCurrentDateSQL`, `getCurrentTimeSQL`, `getCurrentTimestampSQL`) are not defined in the modelled files, so `Statement::execute` takes them as a parameter. The static `ConnectionManager::getConnection($hash)` lookup inside `execute`, `quote` and MySQL's `getListViewsSQL` is replaced by parameters: the snippets for `execute`, and for the listings a session holding `quote()` and the connection's `database` attribute (a null database is quoted as the empty string).
- PhpStrings.Dirname: agrees with PHP's `dirname()` only on paths of the shape `realpath()` returns (absolute, no trailing '/'); a trailing slash or repeated slashes are not handled as PHP does (`dirname("a/")` is "."), and the abstract `realpath` of `SqliteAdapter.FileSystem` is not constrained to that shape.
- The MySQL and Postgres adapter classes are not part of this model. They are taken to inherit `buildDSN` and `getConnectionOptions` from `Connection`.
- The exception classes are not part of this model. `Emyi\Db\Exception` is taken not to be a `PDOException`, so the SQLite DSN errors escape the constructor's catch unchanged.
- Exception codes are integers. The `(float)` and `(int)` casts applied to them are not modelled, and neither are the `(int)` casts of limit and offset.
- PHP's loose `in_array` comparison of the driver is modelled as membership of the driver's string form, so loose matches such as `true == "mysql"` are not captured.
- Floats, objects and arrays are not converted to strings. `(array)` of an object is empty, because objects carry no properties here.
- `transactional` is modelled with exceptions only:
  - the callable's own effects on the connection are not modelled;
  - PHP `Error`s, which its `catch (\Exception)` does not catch, are not modelled.
- The password is only handed to the native constructor, so it is not modelled.
- A missing configuration entry reads as an empty array, so it fails with the "driver is mandatory" error. PHP would raise a TypeError there.
- Class instantiation yields one of three things:
  - one of the three adapters;
  - a class that is not a `Connection`;
  - no class.

  User-defined `Connection` subclasses are not modelled.
- Static state is held in objects: `ConnectionManager`'s static arrays are fields of one manager object, and `Connection::$descriptors` is a `DescriptorCache` that the manager owns. A connection keeps the descriptor it found at construction. Cache entries are never replaced, so this equals reading the cache later.

## Findings

| source | as written | input that shows it | evidently intended | confidence | as-written member | corrected member |
|---|---|---|---|---|---|---|
| library/Emyi/Db/Driver/Descriptor.php:403-407 | `quoteSingleIdentifier` calls `$this->getDescriptor()`, which no descriptor class defines | `quoteIdentifier("a")` on any descriptor | use the descriptor's own `getQuoteIdentifierCharacter()` | high; not executed | `Dialects.QuoteIdentifierAsWrittenFails` | `Dialects.QuoteIdentifierRoundTrip` |
| library/Emyi/Db/ConnectionManager.php:108-115 | `dropConnection` removes `md5($config_entry)`; `getConnection` stores under `md5('.' . $config_entry)` for a non-blank entry | `getConnection("reports")` then `dropConnection("reports")`: the connection stays | hash the prefixed entry as `getConnection` does | high; not executed | `Manager.DropMissesStoredConnection` | `Manager.ConnectionManager.EvictConnection` |
