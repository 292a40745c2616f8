/**
 * The SQLite adapter (`Emyi\Db\Driver\Sqlite\Adapter`): its DSN is either the
 * in-memory database or the resolved path of a database file whose directory
 * the server can write to, and persistent connections are switched on by an
 * attribute.
 */
module SqliteAdapter {
  import opened Wrappers
  import opened Errors
  import opened PhpStrings
  import opened ConnectionConfig

  /** The filesystem as the adapter sees it: `realpath()` (None for PHP's false) and `is_writable()`. */
  datatype FileSystem = FileSystem(realpath: string -> Option<string>, isWritable: string -> bool)

  const MissingDatabaseMessage: string := "Database file must be specified"

  /** The message naming a directory the server cannot write to. */
  function UnwritableMessage(dir: string): string
  {
    "The directory " + dir + " must be writeable by the server."
  }

  /** The resolved database file: `realpath($database)`, which reads as "" when it is false. */
  function DatabaseFile(database: Setting, fs: FileSystem): string
  {
    fs.realpath(PhpString(database)).GetOr("")
  }

  /** `buildDSN($params)`. */
  function BuildDsn(params: Params, fs: FileSystem): Result<string, Error>
  {
    var database := Lookup(params, "database");
    if !IsSet(database) then Failure(DbException(MissingDatabaseMessage, 0))
    else if database == Text(":memory:") then Success("sqlite::memory:")
    else
      var file := DatabaseFile(database, fs);
      if !fs.isWritable(Dirname(file)) then Failure(DbException(UnwritableMessage(Dirname(file)), 0))
      else Success("sqlite:" + file)
  }

  /**
   * The DSN in every case: an error when no database is configured, the
   * in-memory DSN for `:memory:` whatever the filesystem says, otherwise the
   * resolved file when its directory is writable and an error naming that
   * directory when it is not.
   */
  lemma BuildDsnCases(params: Params, fs: FileSystem, other: FileSystem)
    ensures var database := Lookup(params, "database");
      var r := BuildDsn(params, fs);
      && (!IsSet(database) ==> r == Failure(DbException(MissingDatabaseMessage, 0)))
      && (database == Text(":memory:") ==> r == BuildDsn(params, other) == Success("sqlite::memory:"))
      && (IsSet(database) && database != Text(":memory:") ==>
            var file := DatabaseFile(database, fs);
            (r.Success? <==> fs.isWritable(Dirname(file)))
            && (r.Success? ==> r.value == "sqlite:" + file)
            && (r.Failure? ==> r.error.DbException? && OccursAt(Dirname(file), r.error.message, 14)))
  {
    var database := Lookup(params, "database");
    if IsSet(database) && database != Text(":memory:") {
      var dir := Dirname(DatabaseFile(database, fs));
      var msg := UnwritableMessage(dir);
      assert msg[14..14 + |dir|] == dir;
    }
  }

  /** Every DSN the adapter produces names the sqlite driver. */
  lemma BuildDsnPrefix(params: Params, fs: FileSystem)
    ensures var r := BuildDsn(params, fs);
      r.Success? ==> |r.value| >= 7 && r.value[..7] == "sqlite:"
  {
  }

  /** `getConnectionOptions($hash)`: the base options, and a persistent connection when asked for. */
  function ConnectionOptions(attributes: Params, hash: Setting): map<PdoAttribute, OptionValue>
  {
    var options := BaseConnectionOptions(hash);
    if Truthy(Lookup(attributes, "persistent")) then options[AttrPersistent := Bool(true)] else options
  }

  /**
   * The adapter adds exactly one option, `ATTR_PERSISTENT = true`, and only when
   * the `persistent` attribute is truthy; every base option is kept.
   */
  lemma ConnectionOptionsPersistent(attributes: Params, hash: Setting)
    ensures var options := ConnectionOptions(attributes, hash);
      var base := BaseConnectionOptions(hash);
      && (AttrPersistent in options <==> Truthy(Lookup(attributes, "persistent")))
      && (AttrPersistent in options ==> options[AttrPersistent] == Bool(true))
      && options.Keys - {AttrPersistent} == base.Keys
      && (forall a | a in base :: a in options && options[a] == base[a])
  {
  }
}
