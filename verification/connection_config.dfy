/**
 * The value-level part of `Emyi\Db\Connection`: configuration values, the
 * attribute snapshot taken by the constructor, `getAttribute` for string keys,
 * `isValid`, the generic `buildDSN` and the PDO options every connection gets.
 */
module ConnectionConfig {
  import opened Wrappers
  import opened PhpStrings

  /** A configuration value: null, a boolean, an integer or a string. */
  datatype Setting = Nil | Flag(b: bool) | Number(n: int) | Text(s: string)

  /** A configuration array with string keys. */
  type Params = map<string, Setting>

  /** `(string) $value`. */
  function PhpString(v: Setting): string
  {
    match v
    case Nil => ""
    case Flag(b) => if b then "1" else ""
    case Number(n) => IntToString(n)
    case Text(s) => s
  }

  /** `isset($value)`. */
  predicate IsSet(v: Setting)
  {
    !v.Nil?
  }

  /** `if ($value)`: PHP truthiness. */
  predicate Truthy(v: Setting)
  {
    match v
    case Nil => false
    case Flag(b) => b
    case Number(n) => n != 0
    case Text(s) => s != "" && s != "0"
  }

  /** `isset($a[$key]) ? $a[$key] : null`, which is also what reading a missing key yields. */
  function Lookup(m: Params, key: string): (v: Setting)
    ensures IsSet(v) ==> key in m && m[key] == v
    ensures key in m && IsSet(m[key]) ==> v == m[key]
  {
    if key in m then m[key] else Nil
  }

  // ------------------------------------------------------------ attributes

  /** The attribute keys a connection always has. */
  const DefaultKeys: set<string> := {"driver", "username", "host", "database", "port"}

  /** The initial value of `$attributes`: the five keys, all null. */
  function DefaultAttributes(): (m: Params)
    ensures m.Keys == DefaultKeys
    ensures forall k | k in m :: m[k] == Nil
  {
    map k | k in DefaultKeys :: Nil
  }

  /**
   * The constructor's snapshot: the defaults overridden by the parameters, the
   * password dropped when it is set, and the username argument filled in when the
   * parameters carry no username.
   */
  function Snapshot(params: Params, username: Setting): Params
  {
    var merged := DefaultAttributes() + params;
    var hidden := if IsSet(Lookup(merged, "password")) then merged - {"password"} else merged;
    if IsSet(Lookup(hidden, "username")) then hidden else hidden["username" := username]
  }

  /**
   * `getAttribute($key)` on the snapshot: the password always reads as null; the
   * username is the configured one when set and the argument otherwise; every
   * other key reads as its configured value, null when missing. The default keys
   * are always present.
   */
  lemma SnapshotAttributes(params: Params, username: Setting, key: string)
    ensures var attrs := Snapshot(params, username);
      && DefaultKeys <= attrs.Keys
      && Lookup(attrs, "password") == Nil
      && Lookup(attrs, "username") == (if IsSet(Lookup(params, "username")) then params["username"] else username)
      && (key != "password" && key != "username" ==> Lookup(attrs, key) == Lookup(params, key))
  {
    var merged := DefaultAttributes() + params;
    assert Lookup(merged, "username") == Lookup(params, "username");
    assert key !in DefaultKeys ==> Lookup(merged, key) == Lookup(params, key);
  }

  /** The snapshot never holds a set password, and every key other than password and username is the merge. */
  lemma SnapshotKeys(params: Params, username: Setting)
    ensures var attrs := Snapshot(params, username);
      && attrs.Keys == (DefaultKeys + params.Keys) - (if IsSet(Lookup(params, "password")) then {"password"} else {})
  {
    var merged := DefaultAttributes() + params;
    assert merged.Keys == DefaultKeys + params.Keys;
    assert Lookup(merged, "password") == Lookup(params, "password");
  }

  // ------------------------------------------------------------------ DSN

  /** `isValid($value)`: set, and not blank after `trim()`. */
  predicate IsValid(v: Setting)
  {
    IsSet(v) && Trim(PhpString(v)) != []
  }

  /** A text is valid exactly when it has a character `trim()` keeps; a number is always valid; false never. */
  lemma IsValidCases(s: string, n: int)
    ensures IsValid(Text(s)) <==> !AllBlank(s)
    ensures IsValid(Number(n))
    ensures !IsValid(Flag(false)) && IsValid(Flag(true)) && !IsValid(Nil)
  {
    TrimEmpty(s);
    var d := IntToString(n);
    TrimEmpty(d);
    IntToStringChars(n);
    if n >= 0 {
      assert d[0] in d;
    } else {
      assert d[0] == '-';
    }
    assert !IsBlank(d[0]);
    TrimEmpty("1");
    assert !IsBlank("1"[0]);
  }

  /** One `name=value;` fragment, present only for a valid value. */
  function DsnField(name: string, value: Setting): string
  {
    if IsValid(value) then name + "=" + PhpString(value) + ";" else ""
  }

  /** `buildDSN($params)` of the base class: the driver, ':', then host, port and dbname fragments. */
  function BuildDsn(params: Params): string
  {
    PhpString(Lookup(params, "driver")) + ":"
    + DsnBody(Lookup(params, "host"), Lookup(params, "port"), Lookup(params, "database"))
  }

  /** The fragments after the ':' for the given host, port and database values. */
  function DsnBody(host: Setting, port: Setting, database: Setting): string
  {
    DsnField("host", host) + DsnField("port", port) + DsnField("dbname", database)
  }

  /** The field `name=value` as a one-element list when the value is valid, else no field. */
  function FieldIf(name: string, value: Setting): seq<(string, string)>
  {
    if IsValid(value) then [(name, PhpString(value))] else []
  }

  /** The fields `buildDSN` writes, as (name, value) pairs in the order written. */
  function DsnFields(params: Params): seq<(string, string)>
  {
    BodyFields(Lookup(params, "host"), Lookup(params, "port"), Lookup(params, "database"))
  }

  function BodyFields(host: Setting, port: Setting, database: Setting): seq<(string, string)>
  {
    FieldIf("host", host) + FieldIf("port", port) + FieldIf("dbname", database)
  }

  /** The text of a sequence of fields, each written `name=value;`. */
  function RenderFields(fields: seq<(string, string)>): string
  {
    if fields == [] then [] else fields[0].0 + "=" + fields[0].1 + ";" + RenderFields(fields[1..])
  }

  /** One field read back: the text before the first '=' and the text after it. */
  function ParseField(piece: string): (string, string)
  {
    match IndexOf(piece, '=')
    case None => (piece, "")
    case Some(e) => (piece[..e], piece[e + 1..])
  }

  /** Reads `name=value;` fields back; text after the last ';' is ignored. */
  function ParseFields(body: string): seq<(string, string)>
    decreases |body|
  {
    match IndexOf(body, ';')
    case None => []
    case Some(j) => [ParseField(body[..j])] + ParseFields(body[j + 1..])
  }

  /** Reads a DSN back into its driver and its fields. */
  function ParseDsn(dsn: string): Option<(string, seq<(string, string)>)>
  {
    match IndexOf(dsn, ':')
    case None => None
    case Some(k) => Some((dsn[..k], ParseFields(dsn[k + 1..])))
  }

  predicate FieldsParsable(fields: seq<(string, string)>)
  {
    forall i | 0 <= i < |fields| ::
      '=' !in fields[i].0 && ';' !in fields[i].0 && ';' !in fields[i].1
  }

  /** A name without '=' reads back with its value. */
  lemma ParseFieldOf(name: string, value: string)
    requires '=' !in name
    ensures ParseField(name + "=" + value) == (name, value)
  {
    assert name + "=" + value == name + ("=" + value);
    IndexOfAfter(name, "=" + value, '=');
    assert (name + "=" + value)[..|name|] == name;
    assert (name + "=" + value)[|name| + 1..] == value;
  }

  /** The first field of a body is read up to the first ';'. */
  lemma ParseFieldsCons(piece: string, rest: string)
    requires ';' !in piece
    ensures ParseFields(piece + ";" + rest) == [ParseField(piece)] + ParseFields(rest)
  {
    assert piece + ";" + rest == piece + ([';'] + rest);
    IndexOfAfter(piece, [';'] + rest, ';');
    assert (piece + ([';'] + rest))[..|piece|] == piece;
    assert (piece + ([';'] + rest))[|piece| + 1..] == rest;
  }

  lemma FieldsParsableTail(fields: seq<(string, string)>)
    requires fields != [] && FieldsParsable(fields)
    ensures FieldsParsable(fields[1..])
  {
    forall i | 0 <= i < |fields[1..]|
      ensures '=' !in fields[1..][i].0 && ';' !in fields[1..][i].0 && ';' !in fields[1..][i].1
    {
      assert fields[1..][i] == fields[i + 1];
    }
  }

  lemma {:induction false} ParseRenderFields(fields: seq<(string, string)>)
    requires FieldsParsable(fields)
    ensures ParseFields(RenderFields(fields)) == fields
  {
    if fields != [] {
      var name, value := fields[0].0, fields[0].1;
      var piece := name + "=" + value;
      assert '=' !in name && ';' !in name && ';' !in value;
      assert ';' !in piece;
      assert RenderFields(fields) == piece + ";" + RenderFields(fields[1..]);
      ParseFieldsCons(piece, RenderFields(fields[1..]));
      ParseFieldOf(name, value);
      FieldsParsableTail(fields);
      ParseRenderFields(fields[1..]);
      assert [fields[0]] + fields[1..] == fields;
    }
  }

  lemma RenderFieldsAppend(a: seq<(string, string)>, b: seq<(string, string)>)
    ensures RenderFields(a + b) == RenderFields(a) + RenderFields(b)
  {
    if a != [] {
      assert (a + b)[1..] == a[1..] + b;
      RenderFieldsAppend(a[1..], b);
    } else {
      assert a + b == b;
    }
  }

  lemma FieldIfRender(name: string, value: Setting)
    ensures RenderFields(FieldIf(name, value)) == DsnField(name, value)
  {
    if IsValid(value) {
      assert RenderFields(FieldIf(name, value)) == name + "=" + PhpString(value) + ";" + RenderFields([]);
    }
  }

  lemma RenderFieldsThree(a: seq<(string, string)>, b: seq<(string, string)>, c: seq<(string, string)>)
    ensures RenderFields(a + b + c) == RenderFields(a) + RenderFields(b) + RenderFields(c)
  {
    RenderFieldsAppend(a, b);
    RenderFieldsAppend(a + b, c);
  }

  /** The fragments after the ':' are the written fields. */
  lemma DsnBodyRender(host: Setting, port: Setting, database: Setting)
    ensures DsnBody(host, port, database) == RenderFields(BodyFields(host, port, database))
  {
    RenderFieldsThree(FieldIf("host", host), FieldIf("port", port), FieldIf("dbname", database));
    FieldIfRender("host", host);
    FieldIfRender("port", port);
    FieldIfRender("dbname", database);
  }

  /** The DSN is the driver, ':' and the written fields. */
  lemma BuildDsnRender(params: Params)
    ensures BuildDsn(params) == PhpString(Lookup(params, "driver")) + ":" + RenderFields(DsnFields(params))
  {
    DsnBodyRender(Lookup(params, "host"), Lookup(params, "port"), Lookup(params, "database"));
  }

  lemma ParseDsnOf(driver: string, fields: seq<(string, string)>)
    requires ':' !in driver && FieldsParsable(fields)
    ensures ParseDsn(driver + ":" + RenderFields(fields)) == Some((driver, fields))
  {
    var body := RenderFields(fields);
    assert driver + ":" + body == driver + ([':'] + body);
    IndexOfAfter(driver, [':'] + body, ':');
    assert (driver + ([':'] + body))[..|driver|] == driver;
    assert (driver + ([':'] + body))[|driver| + 1..] == body;
    ParseRenderFields(fields);
  }

  lemma DsnFieldsParsable(params: Params)
    requires forall k | k in params :: ';' !in PhpString(params[k])
    ensures FieldsParsable(DsnFields(params))
  {
    var f := DsnFields(params);
    forall i | 0 <= i < |f| ensures '=' !in f[i].0 && ';' !in f[i].0 && ';' !in f[i].1 {
      assert f[i].0 in {"host", "port", "dbname"};
      assert f[i].1 in {PhpString(Lookup(params, "host")), PhpString(Lookup(params, "port")),
                        PhpString(Lookup(params, "database"))};
    }
  }

  /**
   * The DSN reads back as the driver and exactly the valid host, port and
   * database values, under the names host, port and dbname, whenever the driver
   * has no ':' and no value has a ';'.
   */
  lemma BuildDsnParses(params: Params)
    requires ':' !in PhpString(Lookup(params, "driver"))
    requires forall k | k in params :: ';' !in PhpString(params[k])
    ensures ParseDsn(BuildDsn(params)) == Some((PhpString(Lookup(params, "driver")), DsnFields(params)))
  {
    BuildDsnRender(params);
    DsnFieldsParsable(params);
    ParseDsnOf(PhpString(Lookup(params, "driver")), DsnFields(params));
  }

  /** The position of each field name in the order `buildDSN` writes them. */
  function FieldRank(name: string): int
  {
    if name == "host" then 0 else if name == "port" then 1 else 2
  }

  /**
   * The fields come in the fixed order host, port, dbname, and each is present
   * exactly when its value is valid.
   */
  lemma DsnFieldsOrder(params: Params)
    ensures var f := DsnFields(params);
      && (forall i, j | 0 <= i < j < |f| :: FieldRank(f[i].0) < FieldRank(f[j].0))
      && ((exists i :: 0 <= i < |f| && f[i] == ("host", PhpString(Lookup(params, "host")))) <==> IsValid(Lookup(params, "host")))
      && ((exists i :: 0 <= i < |f| && f[i] == ("port", PhpString(Lookup(params, "port")))) <==> IsValid(Lookup(params, "port")))
      && ((exists i :: 0 <= i < |f| && f[i] == ("dbname", PhpString(Lookup(params, "database")))) <==> IsValid(Lookup(params, "database")))
  {
    var f := DsnFields(params);
    if IsValid(Lookup(params, "host")) {
      assert f[0] == ("host", PhpString(Lookup(params, "host")));
    }
    if IsValid(Lookup(params, "port")) {
      var k := if IsValid(Lookup(params, "host")) then 1 else 0;
      assert f[k] == ("port", PhpString(Lookup(params, "port")));
    }
    if IsValid(Lookup(params, "database")) {
      assert f[|f| - 1] == ("dbname", PhpString(Lookup(params, "database")));
    }
  }

  /** With nothing valid besides the driver, the DSN is the driver followed by ':'. */
  lemma BuildDsnBare(params: Params)
    requires !IsValid(Lookup(params, "host")) && !IsValid(Lookup(params, "port")) && !IsValid(Lookup(params, "database"))
    ensures BuildDsn(params) == PhpString(Lookup(params, "driver")) + ":"
  {
  }

  /** A configuration with every field: the DSN names host, port and database in this order. */
  lemma BuildDsnAllFields(driver: string, host: string, port: int, database: string)
    requires !AllBlank(host) && !AllBlank(database)
    ensures BuildDsn(map["driver" := Text(driver), "host" := Text(host), "port" := Number(port), "database" := Text(database)])
         == driver + ":" + ("host=" + host + ";") + ("port=" + IntToString(port) + ";") + ("dbname=" + database + ";")
  {
    var params := map["driver" := Text(driver), "host" := Text(host), "port" := Number(port), "database" := Text(database)];
    assert Lookup(params, "driver") == Text(driver);
    assert Lookup(params, "host") == Text(host);
    assert Lookup(params, "port") == Number(port);
    assert Lookup(params, "database") == Text(database);
    ValidFields(host, port, database);
  }

  lemma ValidField(name: string, prefix: string, v: Setting)
    requires IsValid(v) && prefix == name + "="
    ensures DsnField(name, v) == prefix + PhpString(v) + ";"
  {
  }

  lemma ValidFields(host: string, port: int, database: string)
    requires !AllBlank(host) && !AllBlank(database)
    ensures DsnField("host", Text(host)) == "host=" + host + ";"
    ensures DsnField("port", Number(port)) == "port=" + IntToString(port) + ";"
    ensures DsnField("dbname", Text(database)) == "dbname=" + database + ";"
  {
    IsValidCases(host, port);
    IsValidCases(database, port);
    ValidField("host", "host=", Text(host));
    ValidField("port", "port=", Number(port));
    ValidField("dbname", "dbname=", Text(database));
  }

  // ------------------------------------------------------------ PDO options

  datatype PdoAttribute =
    | AttrCase | AttrErrmode | AttrOracleNulls | AttrStringifyFetches
    | AttrDefaultFetchMode | AttrStatementClass | AttrPersistent

  datatype OptionValue =
    | CaseLower | ErrmodeException | NullNatural | FetchAssoc
    | Bool(b: bool)
    /** a statement class and its constructor arguments */
    | StatementClass(className: string, args: seq<Setting>)

  /** The class every prepared statement of a connection belongs to. */
  const StatementClassName: string := "Emyi\\Db\\Statement"

  /** `getConnectionOptions($hash)` of the base class. */
  function BaseConnectionOptions(hash: Setting): (options: map<PdoAttribute, OptionValue>)
    ensures AttrPersistent !in options
    ensures |options.Keys| == 6
    ensures AttrStatementClass in options && options[AttrStatementClass] == StatementClass(StatementClassName, [hash])
  {
    var options := map[
      AttrCase := CaseLower,
      AttrErrmode := ErrmodeException,
      AttrOracleNulls := NullNatural,
      AttrStringifyFetches := Bool(false),
      AttrDefaultFetchMode := FetchAssoc,
      AttrStatementClass := StatementClass(StatementClassName, [hash])
    ];
    assert options.Keys == {AttrCase, AttrErrmode, AttrOracleNulls, AttrStringifyFetches, AttrDefaultFetchMode, AttrStatementClass};
    options
  }
}
