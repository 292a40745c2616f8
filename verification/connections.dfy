/**
 * `Emyi\Db\Connection` and its adapters: opening a connection (attribute
 * snapshot, DSN, options, descriptor cache), the transaction methods gated by
 * the descriptor's capability, `transactional`, and the parameter handling of
 * `query` and `fetchAll`. The native PDO calls are abstract outcomes.
 */
module Connections {
  import opened Wrappers
  import opened Errors
  import opened ConnectionConfig
  import Descriptor
  import Dialects
  import SqliteAdapter
  import Statements

  /** The outcome of a native PDO call: it returns, or throws a `PDOException`. */
  datatype Outcome = Done | Thrown(message: string, code: int)

  /** The native calls a connection makes, as they happen. */
  datatype Event = NativeBegin | NativeCommit | NativeRollBack | Callable

  // ------------------------------------------------------------ opening

  /**
   * `buildDSN($params)` for the adapter class: only the SQLite adapter overrides
   * it; the MySQL and Postgres adapters keep the base one.
   */
  function AdapterDsn(adapter: Dialects.Dialect, params: Params, fs: SqliteAdapter.FileSystem): Result<string, Error>
  {
    if adapter == Dialects.Sqlite then SqliteAdapter.BuildDsn(params, fs) else Success(BuildDsn(params))
  }

  /** Only the SQLite adapter can refuse to build a DSN, and only with an `Emyi\Db\Exception`. */
  lemma AdapterDsnFailures(adapter: Dialects.Dialect, params: Params, fs: SqliteAdapter.FileSystem)
    ensures var r := AdapterDsn(adapter, params, fs);
      && (r.Failure? ==> adapter == Dialects.Sqlite && r.error.DbException? && r.error.code == 0)
      && (adapter != Dialects.Sqlite ==> r == Success(BuildDsn(params)))
  {
  }

  /** `getConnectionOptions($this->getAttribute('hash'))` for the adapter class. */
  function AdapterOptions(adapter: Dialects.Dialect, attributes: Params): map<PdoAttribute, OptionValue>
  {
    var hash := Lookup(attributes, "hash");
    if adapter == Dialects.Sqlite then SqliteAdapter.ConnectionOptions(attributes, hash)
    else BaseConnectionOptions(hash)
  }

  /**
   * Every connection's statements are `Emyi\Db\Statement` objects carrying the
   * connection's hash, and only a SQLite connection with a truthy `persistent`
   * attribute is persistent.
   */
  lemma AdapterOptionsPersistent(adapter: Dialects.Dialect, attributes: Params)
    ensures var options := AdapterOptions(adapter, attributes);
      && (AttrPersistent in options <==> adapter == Dialects.Sqlite && Truthy(Lookup(attributes, "persistent")))
      && AttrStatementClass in options
      && options[AttrStatementClass] == StatementClass(StatementClassName, [Lookup(attributes, "hash")])
  {
    SqliteAdapter.ConnectionOptionsPersistent(attributes, Lookup(attributes, "hash"));
  }

  /**
   * `setDescriptor` on the static `$descriptors` array: the entry for a hash
   * is created once and never replaced.
   */
  function CacheInsert(cache: map<string, Dialects.Dialect>, key: string, d: Dialects.Dialect): (r: map<string, Dialects.Dialect>)
    ensures r.Keys == cache.Keys + {key}
    ensures forall k | k in cache :: r[k] == cache[k]
    ensures key !in cache ==> r[key] == d
  {
    if key in cache then cache else cache[key := d]
  }

  /** Two connections opened under the same hash share the first one's descriptor, whatever the second's adapter. */
  lemma CacheInsertTwice(cache: map<string, Dialects.Dialect>, key: string, d1: Dialects.Dialect, d2: Dialects.Dialect)
    ensures CacheInsert(CacheInsert(cache, key, d1), key, d2) == CacheInsert(cache, key, d1)
    ensures key !in cache ==> CacheInsert(CacheInsert(cache, key, d1), key, d2)[key] == d1
  {
  }

  /** The descriptors shared by all connections, keyed by connection hash. */
  class DescriptorCache {
    var descriptors: map<string, Dialects.Dialect>

    constructor()
      ensures descriptors == map[]
    {
      descriptors := map[];
    }

    /** Creates the descriptor for `key` unless one exists. */
    method SetDescriptor(key: string, d: Dialects.Dialect)
      modifies this
      ensures descriptors == CacheInsert(old(descriptors), key, d)
    {
      if key !in descriptors {
        descriptors := descriptors[key := d];
      }
    }
  }

  // ------------------------------------------------------------ transactions

  /** `wrap($method)`: a native failure is rethrown as a `ConnectionException` with its message and code. */
  function Wrap(native: Outcome): (r: Result<(), Error>)
    ensures r.Success? <==> native.Done?
    ensures native.Thrown? ==> r.error == ConnectionException(native.message, native.code)
  {
    match native
    case Done => Success(())
    case Thrown(message, code) => Failure(ConnectionException(message, code))
  }

  /**
   * `beginTransaction`, `commit`, `rollBack`: the native call is made, and can
   * fail, only when the descriptor supports transactions.
   */
  function Gated(supported: bool, event: Event, native: Outcome): (seq<Event>, Result<(), Error>)
  {
    if supported then ([event], Wrap(native)) else ([], Success(()))
  }

  /** With the capability switched off, a transaction method makes no native call and cannot fail. */
  lemma GatedClosed(event: Event, native: Outcome)
    ensures Gated(false, event, native) == ([], Success(()))
  {
  }

  /** Every dialect supports transactions, so every transaction method reaches the native driver. */
  lemma GatedOpen(d: Dialects.Dialect, event: Event, native: Outcome)
    ensures var g := Gated(Dialects.Supports(d, Descriptor.Transactions), event, native);
      g.0 == [event] && (g.1.Success? <==> native.Done?)
  {
    Dialects.SupportsFlags(d);
  }

  /** `inTransaction()`: false without the capability, otherwise what the driver answers. */
  function InTransactionOf(supported: bool, native: Outcome, active: bool): (r: Result<bool, Error>)
    ensures !supported ==> r == Success(false)
    ensures supported ==> (r.Success? <==> native.Done?)
    ensures supported && native.Done? ==> r.value == active
  {
    if !supported then Success(false)
    else match native
      case Done => Success(active)
      case Thrown(message, code) => Failure(ConnectionException(message, code))
  }

  /**
   * The catch block of `transactional`: roll back, then rethrow the caught
   * exception's message and code as an `Emyi\Db\Exception`; a failing rollback
   * escapes the catch block instead.
   */
  function Recover(supported: bool, trace: seq<Event>, failed: Outcome, rollback: Outcome): (seq<Event>, Result<(), Error>)
    requires failed.Thrown?
  {
    var (t, r) := Gated(supported, NativeRollBack, rollback);
    (trace + t, if r.Failure? then r else Failure(DbException(failed.message, failed.code)))
  }

  /**
   * `transactional($callable)` with the outcomes of the four steps: the native
   * calls made, in order, and the result.
   */
  function TransactionRun(supported: bool, begin: Outcome, call: Outcome, commit: Outcome, rollback: Outcome)
    : (seq<Event>, Result<(), Error>)
  {
    var (t1, r1) := Gated(supported, NativeBegin, begin);
    if r1.Failure? then Recover(supported, t1, begin, rollback)
    else if call.Thrown? then Recover(supported, t1 + [Callable], call, rollback)
    else
      var (t3, r3) := Gated(supported, NativeCommit, commit);
      if r3.Failure? then Recover(supported, t1 + [Callable] + t3, commit, rollback)
      else (t1 + [Callable] + t3, Success(()))
  }

  /** The step whose exception `transactional` catches, if any. */
  function FirstFailure(supported: bool, begin: Outcome, call: Outcome, commit: Outcome): Option<Outcome>
  {
    if supported && begin.Thrown? then Some(begin)
    else if call.Thrown? then Some(call)
    else if supported && commit.Thrown? then Some(commit)
    else None
  }

  /**
   * `transactional` succeeds exactly when no step fails; on a failure the
   * caught message and code are rethrown, unless the rollback itself fails.
   */
  lemma TransactionalResult(supported: bool, begin: Outcome, call: Outcome, commit: Outcome, rollback: Outcome)
    ensures var r := TransactionRun(supported, begin, call, commit, rollback).1;
      var f := FirstFailure(supported, begin, call, commit);
      && (r.Success? <==> f.None?)
      && (f.Some? && supported && rollback.Thrown? ==> r == Failure(ConnectionException(rollback.message, rollback.code)))
      && (f.Some? && !(supported && rollback.Thrown?) ==> r == Failure(DbException(f.value.message, f.value.code)))
  {
  }

  /**
   * The native calls come in the order begin, callable, commit; a failure skips
   * the remaining steps and is followed by exactly one rollback. Without the
   * capability only the callable runs.
   */
  lemma TransactionalOrder(supported: bool, begin: Outcome, call: Outcome, commit: Outcome, rollback: Outcome)
    ensures var trace := TransactionRun(supported, begin, call, commit, rollback).0;
      && (!supported ==> trace == [Callable])
      && (supported && begin.Thrown? ==> trace == [NativeBegin, NativeRollBack])
      && (supported && begin.Done? && call.Thrown? ==> trace == [NativeBegin, Callable, NativeRollBack])
      && (supported && begin.Done? && call.Done? && commit.Thrown? ==>
            trace == [NativeBegin, Callable, NativeCommit, NativeRollBack])
      && (supported && begin.Done? && call.Done? && commit.Done? ==> trace == [NativeBegin, Callable, NativeCommit])
  {
  }

  /** A rollback happens exactly when the capability is on and some step failed, and then it is the last call. */
  lemma TransactionalRollsBack(supported: bool, begin: Outcome, call: Outcome, commit: Outcome, rollback: Outcome)
    ensures var trace := TransactionRun(supported, begin, call, commit, rollback).0;
      && (NativeRollBack in trace <==> supported && FirstFailure(supported, begin, call, commit).Some?)
      && (NativeRollBack in trace ==> trace[|trace| - 1] == NativeRollBack && NativeRollBack !in trace[..|trace| - 1])
  {
    TransactionalOrder(supported, begin, call, commit, rollback);
  }

  // ------------------------------------------------------------ parameters

  /** `fetchAll($sql, $params)`: a non-null scalar parameter becomes a one-element list. */
  function FetchAllArgument(params: Statements.Value): Statements.Value
  {
    if !params.Null? && !params.Array? then Statements.Array([(Statements.Positional(0), params)]) else params
  }

  /**
   * `(array) $value` as `query` applies it: null is empty, an array is itself, a
   * scalar is a one-element list; objects carry no properties in this model.
   */
  function CastToArray(v: Statements.Value): seq<(Statements.Key, Statements.Value)>
  {
    match v
    case Null => []
    case Array(entries) => entries
    case Object(_) => []
    case _ => [(Statements.Positional(0), v)]
  }

  /**
   * The data `fetchAll` hands to `Statement::execute`: nothing for null, the
   * array itself, or a single positional entry, which is never bound and is
   * passed on to the native execute.
   */
  lemma FetchAllData(params: Statements.Value, m: Statements.Markers)
    ensures var data := CastToArray(FetchAllArgument(params));
      && (params.Null? ==> data == [] && Statements.CallOf(data, m) == Statements.ExecuteWith([]))
      && (params.Array? ==> data == params.entries)
      && (!params.Null? && !params.Array? ==>
            && data == [(Statements.Positional(0), params)]
            && Statements.PlanOf(data, m).bindings == []
            && Statements.CallOf(data, m) == Statements.ExecuteWith(data))
  {
    var data := CastToArray(FetchAllArgument(params));
    if !params.Null? && !params.Array? {
      Statements.PositionalDataPassedThrough(data, m);
    }
  }

  // ------------------------------------------------------------ the connection

  /** An open connection: its adapter, attributes and descriptor, and the native calls it has made. */
  class Connection {
    const adapter: Dialects.Dialect
    const attributes: Params
    /** `self::$descriptors[$this->getAttribute('hash')]`; entries of that array are never replaced. */
    const descriptor: Dialects.Dialect
    /** What the native driver was opened with. */
    const dsn: string
    const options: map<PdoAttribute, OptionValue>
    var journal: seq<Event>

    /** The attribute snapshot of `__construct`. */
    constructor Create(adapter: Dialects.Dialect, params: Params, username: Setting, descriptor: Dialects.Dialect,
                       dsn: string, options: map<PdoAttribute, OptionValue>)
      ensures this.adapter == adapter && attributes == Snapshot(params, username) && this.descriptor == descriptor
      ensures this.dsn == dsn && this.options == options && journal == []
    {
      this.adapter := adapter;
      attributes := Snapshot(params, username);
      this.descriptor := descriptor;
      this.dsn := dsn;
      this.options := options;
      journal := [];
    }

    /**
     * `new $class($params, $username, $password)` for an adapter class: the
     * DSN and the options are built from the parameters, the native driver
     * connects, and the descriptor for the connection's hash is created unless
     * the cache holds one. A DSN error escapes as it is; a native failure becomes
     * a `ConnectionException`.
     */
    static method Connect(adapter: Dialects.Dialect, params: Params, username: Setting,
                          fs: SqliteAdapter.FileSystem, native: Outcome, cache: DescriptorCache)
      returns (r: Result<Connection, Error>)
      modifies cache
      ensures var dsn := AdapterDsn(adapter, params, fs);
        var key := PhpString(Lookup(Snapshot(params, username), "hash"));
        && (dsn.Failure? ==> r == Failure(dsn.error) && cache.descriptors == old(cache.descriptors))
        && (dsn.Success? && native.Thrown? ==>
              r == Failure(ConnectionException(native.message, native.code)) && cache.descriptors == old(cache.descriptors))
        && (dsn.Success? && native.Done? ==>
              && r.Success? && fresh(r.value)
              && r.value.adapter == adapter && r.value.attributes == Snapshot(params, username)
              && r.value.dsn == dsn.value && r.value.options == AdapterOptions(adapter, Snapshot(params, username))
              && cache.descriptors == CacheInsert(old(cache.descriptors), key, adapter)
              && r.value.descriptor == cache.descriptors[key]
              && r.value.journal == [])
    {
      var attributes := Snapshot(params, username);
      var dsn := AdapterDsn(adapter, params, fs);
      if dsn.Failure? {
        return Failure(dsn.error);
      }
      var options := AdapterOptions(adapter, attributes);
      if native.Thrown? {
        return Failure(ConnectionException(native.message, native.code));
      }
      var key := PhpString(Lookup(attributes, "hash"));
      cache.SetDescriptor(key, adapter);
      var conn := new Connection.Create(adapter, params, username, cache.descriptors[key], dsn.value, options);
      r := Success(conn);
    }

    /** `getAttribute($key)` for a string key. */
    function GetAttribute(key: string): Setting
    {
      Lookup(attributes, key)
    }

    /** What the descriptor's listing queries read from this connection: `quote()` and `getDatabase()`. */
    function ListingSession(quote: string -> string): Dialects.Session
    {
      Dialects.Session(quote, GetAttribute("database"))
    }

    function SupportsTransactions(): bool
    {
      Dialects.Supports(descriptor, Descriptor.Transactions)
    }

    /** One gated transaction method. */
    method GatedCall(event: Event, native: Outcome) returns (r: Result<(), Error>)
      modifies this
      ensures journal == old(journal) + Gated(SupportsTransactions(), event, native).0
      ensures r == Gated(SupportsTransactions(), event, native).1
    {
      var (events, result) := Gated(SupportsTransactions(), event, native);
      journal := journal + events;
      r := result;
    }

    method BeginTransaction(native: Outcome) returns (r: Result<(), Error>)
      modifies this
      ensures journal == old(journal) + Gated(SupportsTransactions(), NativeBegin, native).0
      ensures r == Gated(SupportsTransactions(), NativeBegin, native).1
    {
      r := GatedCall(NativeBegin, native);
    }

    method Commit(native: Outcome) returns (r: Result<(), Error>)
      modifies this
      ensures journal == old(journal) + Gated(SupportsTransactions(), NativeCommit, native).0
      ensures r == Gated(SupportsTransactions(), NativeCommit, native).1
    {
      r := GatedCall(NativeCommit, native);
    }

    method RollBack(native: Outcome) returns (r: Result<(), Error>)
      modifies this
      ensures journal == old(journal) + Gated(SupportsTransactions(), NativeRollBack, native).0
      ensures r == Gated(SupportsTransactions(), NativeRollBack, native).1
    {
      r := GatedCall(NativeRollBack, native);
    }

    /** `inTransaction()`, with the driver's answer `active`. */
    method InTransaction(native: Outcome, active: bool) returns (r: Result<bool, Error>)
      ensures r == InTransactionOf(SupportsTransactions(), native, active)
      ensures SupportsTransactions() && native.Done? ==> r == Success(active)
    {
      Dialects.SupportsFlags(descriptor);
      r := InTransactionOf(SupportsTransactions(), native, active);
    }

    /** `transactional($callable)`: the catch block, as `Recover` states it. */
    method RollBackAfter(failed: Outcome, rollback: Outcome) returns (r: Result<(), Error>)
      requires failed.Thrown?
      modifies this
      ensures journal == old(journal) + Gated(SupportsTransactions(), NativeRollBack, rollback).0
      ensures r == Recover(SupportsTransactions(), [], failed, rollback).1
    {
      var rolled := RollBack(rollback);
      r := if rolled.Failure? then rolled else Failure(DbException(failed.message, failed.code));
    }

    /**
     * `transactional($callable)` with the outcomes of the native begin, the
     * callable, the native commit and the native rollback.
     */
    method Transactional(begin: Outcome, call: Outcome, commit: Outcome, rollback: Outcome) returns (r: Result<(), Error>)
      modifies this
      ensures journal == old(journal) + TransactionRun(SupportsTransactions(), begin, call, commit, rollback).0
      ensures r == TransactionRun(SupportsTransactions(), begin, call, commit, rollback).1
    {
      var begun := BeginTransaction(begin);
      if begun.Failure? {
        r := RollBackAfter(begin, rollback);
        return;
      }
      journal := journal + [Callable];
      if call.Thrown? {
        r := RollBackAfter(call, rollback);
        return;
      }
      var committed := Commit(commit);
      if committed.Failure? {
        r := RollBackAfter(commit, rollback);
        return;
      }
      r := Success(());
    }

    /**
     * `query($sql, $args)`: prepares a statement of the connection, executes it
     * with `(array) $args`, and rethrows a native execution failure as an
     * `Emyi\Db\Exception`.
     */
    method Query(args: Statements.Value, m: Statements.Markers, native: Outcome)
      returns (stmt: Statements.Statement, r: Result<Statements.ExecuteCall, Error>)
      ensures fresh(stmt) && stmt.hash == PhpString(GetAttribute("hash"))
      ensures stmt.bound == Statements.PlanOf(CastToArray(args), m).bindings
      ensures stmt.executions == [Statements.CallOf(CastToArray(args), m)]
      ensures r == if native.Done? then Success(Statements.CallOf(CastToArray(args), m))
                   else Failure(DbException(native.message, native.code))
    {
      stmt := new Statements.Statement(PhpString(GetAttribute("hash")));
      var call := stmt.Execute(CastToArray(args), m);
      r := if native.Done? then Success(call) else Failure(DbException(native.message, native.code));
    }

    /** `fetchAll($sql, $params)`: the execution its query makes. */
    method FetchAll(params: Statements.Value, m: Statements.Markers, native: Outcome)
      returns (r: Result<Statements.ExecuteCall, Error>)
      ensures r == if native.Done? then Success(Statements.CallOf(CastToArray(FetchAllArgument(params)), m))
                   else Failure(DbException(native.message, native.code))
    {
      var stmt;
      stmt, r := Query(FetchAllArgument(params), m, native);
    }
  }
}
