/**
 * `Emyi\Db\ConnectionManager`: the registry of open connections, keyed by the
 * md5 of their configuration entry, and the ordered driver-name → class map.
 * `Config::get`, `md5`, class lookup, the filesystem and the native connect
 * are parts of an environment.
 */
module Manager {
  import opened Wrappers
  import opened Errors
  import opened PhpStrings
  import opened ConnectionConfig
  import Dialects
  import SqliteAdapter
  import Connections

  /** What instantiating a class by name gives: one of the adapters, some other class, or no class at all. */
  datatype ClassKind = AdapterClass(dialect: Dialects.Dialect) | OtherClass | MissingClass

  /** What is stored under a hash: a connection, or an object of a class that is not one. */
  datatype Instance = Conn(connection: Connections.Connection) | Foreign(className: string)

  /** The foreign calls `getConnection` makes. */
  datatype Env = Env(
    md5: string -> string,
    config: string -> Params,
    classes: string -> ClassKind,
    fs: SqliteAdapter.FileSystem,
    connect: Connections.Outcome)

  // ------------------------------------------------------------ the driver map

  /** `$driver_map`: a PHP array, so an ordered list of (name, class) pairs. */
  type DriverMap = seq<(string, string)>

  /** The class of each driver adapter. */
  function AdapterClassName(d: Dialects.Dialect): string
  {
    match d
    case MySql => "Emyi\\Db\\Driver\\MySql\\Adapter"
    case Postgres => "Emyi\\Db\\Driver\\Postgres\\Adapter"
    case Sqlite => "Emyi\\Db\\Driver\\Sqlite\\Adapter"
  }

  /** The initial map: mysql, sqlite and pgsql, in this order. */
  function DefaultDrivers(): DriverMap
  {
    [("mysql", AdapterClassName(Dialects.MySql)),
     ("sqlite", AdapterClassName(Dialects.Sqlite)),
     ("pgsql", AdapterClassName(Dialects.Postgres))]
  }

  /** `array_keys($driver_map)`. */
  function Names(drivers: DriverMap): (names: seq<string>)
    ensures |names| == |drivers|
    ensures forall i | 0 <= i < |drivers| :: names[i] == drivers[i].0
  {
    if drivers == [] then [] else [drivers[0].0] + Names(drivers[1..])
  }

  predicate DistinctNames(drivers: DriverMap)
  {
    forall i, j | 0 <= i < j < |drivers| :: drivers[i].0 != drivers[j].0
  }

  /** `$driver_map[$name]`, None when the name is not registered. */
  function ClassOf(drivers: DriverMap, name: string): (cls: Option<string>)
    ensures cls.Some? <==> name in Names(drivers)
  {
    if drivers == [] then None
    else if drivers[0].0 == name then Some(drivers[0].1)
    else ClassOf(drivers[1..], name)
  }

  /** `$driver_map[$name] = $class`: an existing name keeps its place, a new one goes last. */
  function Put(drivers: DriverMap, name: string, cls: string): DriverMap
  {
    if drivers == [] then [(name, cls)]
    else if drivers[0].0 == name then [(name, cls)] + drivers[1..]
    else [drivers[0]] + Put(drivers[1..], name, cls)
  }

  /** The names after registering: unchanged when the name exists, the name appended otherwise. */
  lemma {:induction false} PutNames(drivers: DriverMap, name: string, cls: string)
    ensures Names(Put(drivers, name, cls)) == if name in Names(drivers) then Names(drivers) else Names(drivers) + [name]
  {
    if drivers != [] {
      var tail := drivers[1..];
      var put := Put(drivers, name, cls);
      assert Names(drivers) == [drivers[0].0] + Names(tail);
      assert Names(put) == [put[0].0] + Names(put[1..]);
      if drivers[0].0 == name {
        assert put[0].0 == name && put[1..] == tail;
      } else {
        PutNames(tail, name, cls);
        assert put[0] == drivers[0] && put[1..] == Put(tail, name, cls);
        assert name in Names(drivers) <==> name in Names(tail);
      }
    }
  }

  /** After registering, the name maps to the new class and every other name to its old one. */
  lemma {:induction false} PutClassOf(drivers: DriverMap, name: string, cls: string, other: string)
    ensures ClassOf(Put(drivers, name, cls), other) == if other == name then Some(cls) else ClassOf(drivers, other)
  {
    if drivers != [] && drivers[0].0 != name {
      PutClassOf(drivers[1..], name, cls, other);
      assert Put(drivers, name, cls)[1..] == Put(drivers[1..], name, cls);
    } else if drivers != [] {
      assert Put(drivers, name, cls)[1..] == drivers[1..];
    }
  }

  /** Distinct driver names are distinct entries of `Names`. */
  lemma DistinctNamesOf(drivers: DriverMap)
    ensures DistinctNames(drivers) ==> forall i, j | 0 <= i < j < |Names(drivers)| :: Names(drivers)[i] != Names(drivers)[j]
    ensures (forall i, j | 0 <= i < j < |Names(drivers)| :: Names(drivers)[i] != Names(drivers)[j]) ==> DistinctNames(drivers)
  {
    var names := Names(drivers);
    if DistinctNames(drivers) {
      forall i, j | 0 <= i < j < |names| ensures names[i] != names[j] {
        assert names[i] == drivers[i].0 && names[j] == drivers[j].0;
      }
    } else {
      var i, j :| 0 <= i < j < |drivers| && drivers[i].0 == drivers[j].0;
      assert names[i] == names[j];
    }
  }

  /**
   * Registering a driver changes only that name's class, keeps the names
   * distinct, and adds the name at the end when it is new.
   */
  lemma PutSemantics(drivers: DriverMap, name: string, cls: string, other: string)
    requires DistinctNames(drivers)
    ensures DistinctNames(Put(drivers, name, cls))
    ensures ClassOf(Put(drivers, name, cls), other) == if other == name then Some(cls) else ClassOf(drivers, other)
    ensures Names(Put(drivers, name, cls)) == if name in Names(drivers) then Names(drivers) else Names(drivers) + [name]
  {
    var put := Put(drivers, name, cls);
    PutNames(drivers, name, cls);
    PutClassOf(drivers, name, cls, other);
    DistinctNamesOf(drivers);
    DistinctNamesOf(put);
    if name !in Names(drivers) {
      var names := Names(drivers) + [name];
      forall i, j | 0 <= i < j < |names| ensures names[i] != names[j] {
        if j == |names| - 1 {
          assert names[i] == Names(drivers)[i];
        } else {
          assert names[i] == Names(drivers)[i] && names[j] == Names(drivers)[j];
        }
      }
    }
  }

  /** The initial drivers and the adapter each one maps to. */
  lemma DefaultDriverNames()
    ensures DistinctNames(DefaultDrivers())
    ensures Names(DefaultDrivers()) == ["mysql", "sqlite", "pgsql"]
    ensures ClassOf(DefaultDrivers(), "mysql") == Some(AdapterClassName(Dialects.MySql))
    ensures ClassOf(DefaultDrivers(), "sqlite") == Some(AdapterClassName(Dialects.Sqlite))
    ensures ClassOf(DefaultDrivers(), "pgsql") == Some(AdapterClassName(Dialects.Postgres))
  {
    var d := DefaultDrivers();
    assert d[1..][1..][1..] == [];
    assert d[1..][1..] == [d[2]];
    assert d[1..] == [d[1], d[2]];
  }

  // ------------------------------------------------------------ configuration

  /** A non-blank entry is looked up as `.entry`, a blank one as itself. */
  function Prefixed(entry: string): string
  {
    if Trim(entry) != "" then "." + entry else entry
  }

  /** The key `getConnection` stores the connection for `entry` under. */
  function StoredKey(md5: string -> string, entry: string): string
  {
    md5(Prefixed(entry))
  }

  const DriverMandatoryMessage: string := "The option \"driver\" is mandatory"

  /** The part of the unknown-driver message before the list of drivers. */
  function UnknownDriverHead(driver: string): string
  {
    "The given driver \"" + driver + "\" is unknown, supported drivers are: "
  }

  function UnknownDriverMessage(driver: string, names: seq<string>): string
  {
    UnknownDriverHead(driver) + Join(names, ", ")
  }

  /** `checkConfigData($data)`: the driver string when it is set and registered. */
  function CheckConfig(data: Params, names: seq<string>): (r: Result<string, Error>)
    ensures r.Success? <==> IsSet(Lookup(data, "driver")) && PhpString(Lookup(data, "driver")) in names
    ensures r.Success? ==> r.value == PhpString(Lookup(data, "driver")) && r.value in names
  {
    var driver := Lookup(data, "driver");
    if !IsSet(driver) then Failure(DbException(DriverMandatoryMessage, 0))
    else if PhpString(driver) !in names then Failure(DbException(UnknownDriverMessage(PhpString(driver), names), 0))
    else Success(PhpString(driver))
  }

  /** The unknown-driver message names the driver and each registered driver. */
  lemma UnknownDriverMessageNames(driver: string, names: seq<string>, i: nat)
    requires i < |names|
    ensures OccursAt(driver, UnknownDriverMessage(driver, names), 18)
    ensures exists k :: OccursAt(names[i], UnknownDriverMessage(driver, names), k)
  {
    var head := UnknownDriverHead(driver);
    assert head[18..18 + |driver|] == driver;
    assert (head + Join(names, ", "))[18..18 + |driver|] == head[18..18 + |driver|];
    JoinContains(names, ", ", i);
    var k :| OccursAt(names[i], Join(names, ", "), k);
    OccursAfter(names[i], head, Join(names, ", "), k);
    assert OccursAt(names[i], UnknownDriverMessage(driver, names), |head| + k);
  }

  /**
   * A missing driver is reported as mandatory; an unknown one is reported by
   * name together with every registered driver, whether or not a class is given.
   */
  lemma CheckConfigErrors(data: Params, names: seq<string>)
    ensures var r := CheckConfig(data, names);
      var driver := Lookup(data, "driver");
      && (!IsSet(driver) ==> r == Failure(DbException(DriverMandatoryMessage, 0)))
      && (IsSet(driver) && PhpString(driver) !in names ==>
            r == Failure(DbException(UnknownDriverMessage(PhpString(driver), names), 0)))
  {
  }

  /** The class to instantiate: an explicit `class` wins over the driver map. */
  function ClassName(data: Params, drivers: DriverMap, driver: string): string
    requires driver in Names(drivers)
  {
    if IsSet(Lookup(data, "class")) then PhpString(Lookup(data, "class")) else ClassOf(drivers, driver).value
  }

  /** Without an explicit class, the registered class of the driver is used. */
  lemma ClassNameSource(data: Params, drivers: DriverMap, driver: string)
    requires driver in Names(drivers)
    ensures IsSet(Lookup(data, "class")) ==> ClassName(data, drivers, driver) == PhpString(data["class"])
    ensures !IsSet(Lookup(data, "class")) ==> Some(ClassName(data, drivers, driver)) == ClassOf(drivers, driver)
  {
  }

  /** `array_merge($data, ['hash' => $hash])`. */
  function ConnectionParams(data: Params, hash: string): Params
  {
    data["hash" := Text(hash)]
  }

  /**
   * A connection opened by the manager carries, as its `hash` attribute, the
   * key it is stored under, so its statements find it again.
   */
  lemma ConnectionHashAttribute(data: Params, hash: string, username: Setting)
    ensures Lookup(Snapshot(ConnectionParams(data, hash), username), "hash") == Text(hash)
    ensures PhpString(Lookup(Snapshot(ConnectionParams(data, hash), username), "hash")) == hash
  {
    SnapshotAttributes(ConnectionParams(data, hash), username, "hash");
  }

  function NotConnectionMessage(cls: string): string
  {
    "The given class \"" + cls + "\" has to inherit the Emyi\\Db\\Connection class."
  }

  // ------------------------------------------------------------ dropping

  /** The key `dropConnection` removes: the md5 of the entry as given. */
  function DropKey(md5: string -> string, entry: string): string
  {
    md5(entry)
  }

  /**
   * For a non-blank entry, `dropConnection` removes a key other than the one its
   * connection is stored under (unless md5 collides on the two strings), so the
   * connection stays registered.
   */
  lemma DropMissesStoredConnection(md5: string -> string, entry: string, instances: map<string, Instance>)
    requires !AllBlank(entry)
    requires md5(entry) != md5("." + entry)
    requires StoredKey(md5, entry) in instances
    ensures DropKey(md5, entry) != StoredKey(md5, entry)
    ensures StoredKey(md5, entry) in instances - {DropKey(md5, entry)}
  {
    TrimEmpty(entry);
  }

  /** For a blank entry both keys agree. */
  lemma DropKeyOfBlankEntry(md5: string -> string, entry: string)
    requires AllBlank(entry)
    ensures DropKey(md5, entry) == StoredKey(md5, entry)
  {
    TrimEmpty(entry);
  }

  /** Evicting by the stored key undoes a store: the entry is gone and nothing else changed. */
  lemma EvictUndoesStore(instances: map<string, Instance>, md5: string -> string, entry: string, inst: Instance)
    requires StoredKey(md5, entry) !in instances
    ensures instances[StoredKey(md5, entry) := inst] - {StoredKey(md5, entry)} == instances
  {
  }

  // ------------------------------------------------------------ the manager

  /** The manager's static state: connections by hash, drivers, and the connections' descriptor cache. */
  class ConnectionManager {
    var instances: map<string, Instance>
    var drivers: DriverMap
    const cache: Connections.DescriptorCache

    predicate Valid()
      reads this
    {
      DistinctNames(drivers)
    }

    constructor()
      ensures Valid() && instances == map[] && drivers == DefaultDrivers()
      ensures fresh(cache) && cache.descriptors == map[]
    {
      instances := map[];
      drivers := DefaultDrivers();
      cache := new Connections.DescriptorCache();
      DefaultDriverNames();
    }

    /** `registerDriver($driver, $class)`. */
    method RegisterDriver(name: string, cls: string)
      requires Valid()
      modifies this
      ensures Valid() && drivers == Put(old(drivers), name, cls) && instances == old(instances)
    {
      PutSemantics(drivers, name, cls, name);
      drivers := Put(drivers, name, cls);
    }

    /** `getAvailableDrivers()`. */
    method AvailableDrivers() returns (names: seq<string>)
      ensures |names| == |drivers|
      ensures forall i | 0 <= i < |drivers| :: names[i] == drivers[i].0
    {
      names := Names(drivers);
    }

    /**
     * `getConnection($entry)`: an instance stored under the entry itself or
     * under its hash is returned as it is; otherwise the configuration is
     * checked, the class instantiated with the hash added to the parameters,
     * and the new instance stored under the hash.
     */
    method GetConnection(entry: string, env: Env) returns (r: Result<Instance, Error>)
      requires Valid()
      modifies this, cache
      ensures Valid() && drivers == old(drivers)
      ensures r.Success? ==> instances == old(instances)[StoredKey(env.md5, entry) := r.value] || instances == old(instances)
      ensures r.Failure? ==> instances == old(instances) && cache.descriptors == old(cache.descriptors)
      ensures entry in old(instances) ==> r == Success(old(instances)[entry])
      ensures var key := StoredKey(env.md5, entry);
        entry !in old(instances) && key in old(instances) ==> r == Success(old(instances)[key])
      ensures entry in old(instances) || StoredKey(env.md5, entry) in old(instances) ==>
        instances == old(instances) && cache.descriptors == old(cache.descriptors)
      ensures var key := StoredKey(env.md5, entry);
        var data := env.config("database" + Prefixed(entry));
        var checked := CheckConfig(data, Names(drivers));
        entry !in old(instances) && key !in old(instances) ==>
          && (checked.Failure? ==> r == Failure(checked.error))
          && (r.Success? ==> instances == old(instances)[key := r.value])
          && (checked.Success? ==>
                var cls := ClassName(data, drivers, checked.value);
                var params := ConnectionParams(data, key);
                && (env.classes(cls).MissingClass? ==> r == Failure(UndefinedClass(cls)))
                && (env.classes(cls).OtherClass? ==>
                      r == if IsSet(Lookup(data, "class")) then Failure(DbException(NotConnectionMessage(cls), 0))
                           else Success(Foreign(cls)))
                && (env.classes(cls).AdapterClass? ==>
                      && (r.Success? <==> Connections.AdapterDsn(env.classes(cls).dialect, params, env.fs).Success?
                                          && env.connect.Done?)
                      && (r.Success? ==>
                            && r.value.Conn?
                            && r.value.connection.adapter == env.classes(cls).dialect
                            && r.value.connection.attributes == Snapshot(params, Lookup(data, "username"))
                            && cache.descriptors == Connections.CacheInsert(old(cache.descriptors), key, env.classes(cls).dialect)
                            && r.value.connection.descriptor == cache.descriptors[key]))
                && (!env.classes(cls).AdapterClass? ==> cache.descriptors == old(cache.descriptors)))
    {
      if entry in instances {
        return Success(instances[entry]);
      }
      var prefixed := Prefixed(entry);
      var key := env.md5(prefixed);
      if key in instances {
        return Success(instances[key]);
      }
      var data := env.config("database" + prefixed);
      var checked := CheckConfig(data, Names(drivers));
      if checked.Failure? {
        return Failure(checked.error);
      }
      var cls := ClassName(data, drivers, checked.value);
      r := Instantiate(cls, data, key, env);
      if r.Success? {
        instances := instances[key := r.value];
      }
    }

    /**
     * The instantiation step of `getConnection`: the class must exist; an
     * adapter class connects with the hash-extended parameters; an explicitly
     * configured class must turn out to be a connection.
     */
    method Instantiate(cls: string, data: Params, key: string, env: Env) returns (r: Result<Instance, Error>)
      modifies cache
      ensures var params := ConnectionParams(data, key);
        && (env.classes(cls).MissingClass? ==> r == Failure(UndefinedClass(cls)))
        && (env.classes(cls).OtherClass? ==>
              r == if IsSet(Lookup(data, "class")) then Failure(DbException(NotConnectionMessage(cls), 0))
                   else Success(Foreign(cls)))
        && (env.classes(cls).AdapterClass? ==>
              && (r.Success? <==> Connections.AdapterDsn(env.classes(cls).dialect, params, env.fs).Success?
                                  && env.connect.Done?)
              && (r.Success? ==>
                    && r.value.Conn?
                    && r.value.connection.adapter == env.classes(cls).dialect
                    && r.value.connection.attributes == Snapshot(params, Lookup(data, "username"))
                    && cache.descriptors == Connections.CacheInsert(old(cache.descriptors), key, env.classes(cls).dialect)
                    && r.value.connection.descriptor == cache.descriptors[key]))
      ensures r.Failure? || !env.classes(cls).AdapterClass? ==> cache.descriptors == old(cache.descriptors)
    {
      ConnectionHashAttribute(data, key, Lookup(data, "username"));
      var inst: Instance;
      match env.classes(cls) {
        case MissingClass =>
          return Failure(UndefinedClass(cls));
        case OtherClass =>
          inst := Foreign(cls);
        case AdapterClass(d) =>
          var made := Connections.Connection.Connect(d, ConnectionParams(data, key), Lookup(data, "username"),
                                                       env.fs, env.connect, cache);
          if made.Failure? {
            return Failure(made.error);
          }
          inst := Conn(made.value);
      }
      if IsSet(Lookup(data, "class")) && !inst.Conn? {
        return Failure(DbException(NotConnectionMessage(cls), 0));
      }
      r := Success(inst);
    }

    /** `dropConnection($entry)` as written: removes the md5 of the unprefixed entry. */
    method DropConnection(entry: string, md5: string -> string)
      modifies this
      ensures instances == old(instances) - {DropKey(md5, entry)} && drivers == old(drivers)
    {
      instances := instances - {DropKey(md5, entry)};
    }

    /** Dropping a connection by the key `getConnection` stored it under. */
    method EvictConnection(entry: string, md5: string -> string)
      modifies this
      ensures instances == old(instances) - {StoredKey(md5, entry)} && drivers == old(drivers)
      ensures StoredKey(md5, entry) !in instances
    {
      instances := instances - {StoredKey(md5, entry)};
    }
  }
}
