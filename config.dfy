/**
 * The configuration of pkg/core/config.go: defaults, then overrides read
 * from the process environment (given here as a map from variable name to
 * value), checked one variable at a time in a fixed order.
 */
module Config {

  import opened Wrappers
  import opened Text

  const AppPrefix: string := "PGW_PAYMENT_GATEWAY_APP"
  /** The largest port number, 1<<16-1. */
  const MaxPort: int := 65535

  datatype LogLevel = Debug | Info | Warn | Error

  /** ParseLogLevel: the four level names, in any letter case; "warn" is not one of them. */
  function ParseLogLevel(level: string): (r: Option<LogLevel>)
    ensures r.Some? <==> ToLower(level) in {"debug", "info", "warning", "error"}
    ensures r == Some(Debug) <==> ToLower(level) == "debug"
    ensures r == Some(Info) <==> ToLower(level) == "info"
    ensures r == Some(Warn) <==> ToLower(level) == "warning"
    ensures r == Some(Error) <==> ToLower(level) == "error"
  {
    var lowered := ToLower(level);
    if lowered == "debug" then Some(Debug)
    else if lowered == "info" then Some(Info)
    else if lowered == "warning" then Some(Warn)
    else if lowered == "error" then Some(Error)
    else None
  }

  /** Letter case does not matter to ParseLogLevel. */
  lemma ParseLogLevelIgnoresCase(level: string)
    ensures ParseLogLevel(ToLower(level)) == ParseLogLevel(level)
  {
    ToLowerIdempotent(level);
  }

  /** "WARNING" and "Debug" name levels. */
  lemma ParseLogLevelAcceptsUpperCase()
    ensures ParseLogLevel("WARNING") == Some(Warn)
  {
    assert ToLower("WARNING") == "warning";
  }

  lemma ParseLogLevelAcceptsCapitalised()
    ensures ParseLogLevel("Debug") == Some(Debug)
  {
    assert ToLower("Debug") == "debug";
  }

  /** "warn" is not a level name. */
  lemma ParseLogLevelRejectsWarn()
    ensures ParseLogLevel("warn") == None && ParseLogLevel("") == None
  {
    assert ToLower("warn") == "warn";
  }

  datatype Endpoint = Endpoint(host: string, port: int)
  datatype Options = Options(devMode: bool, logLevel: LogLevel, httpClientTimeout: int)
  datatype Database = Database(host: string, port: int, username: string, password: string, dbName: string)

  /** The value of a Configuration. */
  datatype Settings = Settings(
    webserverMerchant: Endpoint,
    webserverMgmt: Endpoint,
    options: Options,
    database: Database,
    authService: Endpoint,
    pprocessorService: Endpoint)

  /** The zero configuration after setDefaults: the database, auth and processor hosts stay empty. */
  const Defaults: Settings := Settings(
    Endpoint("127.0.0.1", 8080), Endpoint("127.0.0.1", 8081), Options(false, Info, 5),
    Database("", 3306, "", "", ""), Endpoint("", 8080), Endpoint("", 8080))

  // ---------------------------------------------------------------------------
  // The environment variables LoadConfig reads, in its order.

  datatype Key =
    | WebserverMerchantHost | WebserverMerchantPort | WebserverMgmtHost | WebserverMgmtPort
    | OptionsDevMode | OptionsLogLevel | OptionsHttpClientTimeout
    | DatabaseHost | DatabasePort | DatabaseUsername | DatabasePassword | DatabaseDbName
    | AuthServiceHost | AuthServicePort | PProcessorHost | PProcessorPort

  const LoadOrder: seq<Key> := [
    WebserverMerchantHost, WebserverMerchantPort, WebserverMgmtHost, WebserverMgmtPort,
    OptionsDevMode, OptionsLogLevel, OptionsHttpClientTimeout,
    DatabaseHost, DatabasePort, DatabaseUsername, DatabasePassword, DatabaseDbName,
    AuthServiceHost, AuthServicePort, PProcessorHost, PProcessorPort]

  /** LoadConfig's blocks grouped by the part of the configuration they set. */
  const WebserverKeys: seq<Key> := [WebserverMerchantHost, WebserverMerchantPort, WebserverMgmtHost, WebserverMgmtPort]
  const OptionKeys: seq<Key> := [OptionsDevMode, OptionsLogLevel, OptionsHttpClientTimeout]
  const DatabaseKeys: seq<Key> := [DatabaseHost, DatabasePort, DatabaseUsername, DatabasePassword, DatabaseDbName]
  const ServiceKeys: seq<Key> := [AuthServiceHost, AuthServicePort, PProcessorHost, PProcessorPort]

  lemma LoadOrderSections()
    ensures LoadOrder == WebserverKeys + OptionKeys + DatabaseKeys + ServiceKeys
  {
  }

  /** Go on with `keys` after an outcome that passed. */
  function Then(r: (Settings, Option<string>), env: map<string, string>, keys: seq<Key>): (Settings, Option<string>)
  {
    if r.1.Some? then r else LoadFrom(r.0, env, keys)
  }

  /** Loading the whole order is loading its sections one after the other. */
  lemma LoadBySections(c: Settings, env: map<string, string>)
    ensures LoadFrom(c, env, LoadOrder) ==
      Then(Then(Then(LoadFrom(c, env, WebserverKeys), env, OptionKeys), env, DatabaseKeys), env, ServiceKeys)
  {
    LoadOrderSections();
    var r1 := LoadFrom(c, env, WebserverKeys);
    LoadFromConcat(c, env, WebserverKeys, OptionKeys + DatabaseKeys + ServiceKeys);
    assert WebserverKeys + OptionKeys + DatabaseKeys + ServiceKeys == WebserverKeys + (OptionKeys + DatabaseKeys + ServiceKeys);
    if r1.1.None? {
      var r2 := LoadFrom(r1.0, env, OptionKeys);
      LoadFromConcat(r1.0, env, OptionKeys, DatabaseKeys + ServiceKeys);
      assert OptionKeys + DatabaseKeys + ServiceKeys == OptionKeys + (DatabaseKeys + ServiceKeys);
      if r2.1.None? {
        LoadFromConcat(r2.0, env, DatabaseKeys, ServiceKeys);
      }
    }
  }

  lemma LoadOrderComplete(k: Key)
    ensures k in LoadOrder
  {
  }

  function EnvName(k: Key): string
  {
    AppPrefix + match k
      case WebserverMerchantHost => "_WEBSERVERMERCHANT_HOST"
      case WebserverMerchantPort => "_WEBSERVERMERCHANT_PORT"
      case WebserverMgmtHost => "_WEBSERVERMGMT_HOST"
      case WebserverMgmtPort => "_WEBSERVERMGMT_PORT"
      case OptionsDevMode => "_OPTIONS_DEV_MODE"
      case OptionsLogLevel => "_OPTIONS_LOG_LEVEL"
      case OptionsHttpClientTimeout => "_OPTIONS_HTTPCLIENTTIMEOUT"
      case DatabaseHost => "_DATABASE_HOST"
      case DatabasePort => "_DATABASE_PORT"
      case DatabaseUsername => "_DATABASE_USERNAME"
      case DatabasePassword => "_DATABASE_PASSWORD"
      case DatabaseDbName => "_DATABASE_DBNAME"
      case AuthServiceHost => "_AUTHSERVICE_HOST"
      case AuthServicePort => "_AUTHSERVICE_PORT"
      case PProcessorHost => "_PPROCESSORSERVICE_HOST"
      case PProcessorPort => "_PPROCESSORSERVICE_PORT"
  }

  /** The variables whose absence is an error. */
  predicate Mandatory(k: Key)
  {
    k in {DatabaseHost, DatabaseUsername, DatabasePassword, DatabaseDbName, AuthServiceHost, PProcessorHost}
  }

  predicate IsPort(k: Key)
  {
    k in {WebserverMerchantPort, WebserverMgmtPort, DatabasePort, AuthServicePort, PProcessorPort}
  }

  /** The name an error message gives the variable. */
  function Label(k: Key): string
  {
    match k
    case WebserverMerchantHost => "webserver host"
    case WebserverMerchantPort => "webserver port"
    case WebserverMgmtHost => "webserver host"
    case WebserverMgmtPort => "webserver port"
    case OptionsDevMode => "options devmode"
    case OptionsLogLevel => "options loglevel"
    case OptionsHttpClientTimeout => "options httpclienttimeout"
    case DatabaseHost => "database host"
    case DatabasePort => "database port"
    case DatabaseUsername => "database username"
    case DatabasePassword => "database password"
    case DatabaseDbName => "database dbname"
    case AuthServiceHost => "authservice host"
    case AuthServicePort => "authservice port"
    case PProcessorHost => "pprocessor host"
    case PProcessorPort => "pprocessor port"
  }

  /** The error texts of LoadConfig. */
  function InputNotAllowed(what: string, v: string): string
  {
    "configuration error: [" + what + "] input not allowed <" + v + ">"
  }

  function UnrecognizableBoolean(v: string): string
  {
    "configuration error: [options devmode] unrecognizable boolean <" + v + ">"
  }

  const UnrecognizedLogLevel: string := "configuration error: [options loglevel] unrecognized log level"

  function MandatoryMissing(what: string): string
  {
    "configuration error: [" + what + "] mandatory config parameter missing"
  }

  // ---------------------------------------------------------------------------
  // Reading and writing the field a key configures.

  datatype Value = Text(text: string) | Number(number: int) | Flag(flag: bool) | Level(level: LogLevel)

  predicate Fits(k: Key, x: Value)
  {
    if IsPort(k) || k == OptionsHttpClientTimeout then x.Number?
    else if k == OptionsDevMode then x.Flag?
    else if k == OptionsLogLevel then x.Level?
    else x.Text?
  }

  function Get(c: Settings, k: Key): (x: Value)
    ensures Fits(k, x)
  {
    match k
    case WebserverMerchantHost => Text(c.webserverMerchant.host)
    case WebserverMerchantPort => Number(c.webserverMerchant.port)
    case WebserverMgmtHost => Text(c.webserverMgmt.host)
    case WebserverMgmtPort => Number(c.webserverMgmt.port)
    case OptionsDevMode => Flag(c.options.devMode)
    case OptionsLogLevel => Level(c.options.logLevel)
    case OptionsHttpClientTimeout => Number(c.options.httpClientTimeout)
    case DatabaseHost => Text(c.database.host)
    case DatabasePort => Number(c.database.port)
    case DatabaseUsername => Text(c.database.username)
    case DatabasePassword => Text(c.database.password)
    case DatabaseDbName => Text(c.database.dbName)
    case AuthServiceHost => Text(c.authService.host)
    case AuthServicePort => Number(c.authService.port)
    case PProcessorHost => Text(c.pprocessorService.host)
    case PProcessorPort => Number(c.pprocessorService.port)
  }

  function Set(c: Settings, k: Key, x: Value): Settings
    requires Fits(k, x)
  {
    match k
    case WebserverMerchantHost => c.(webserverMerchant := c.webserverMerchant.(host := x.text))
    case WebserverMerchantPort => c.(webserverMerchant := c.webserverMerchant.(port := x.number))
    case WebserverMgmtHost => c.(webserverMgmt := c.webserverMgmt.(host := x.text))
    case WebserverMgmtPort => c.(webserverMgmt := c.webserverMgmt.(port := x.number))
    case OptionsDevMode => c.(options := c.options.(devMode := x.flag))
    case OptionsLogLevel => c.(options := c.options.(logLevel := x.level))
    case OptionsHttpClientTimeout => c.(options := c.options.(httpClientTimeout := x.number))
    case DatabaseHost => c.(database := c.database.(host := x.text))
    case DatabasePort => c.(database := c.database.(port := x.number))
    case DatabaseUsername => c.(database := c.database.(username := x.text))
    case DatabasePassword => c.(database := c.database.(password := x.text))
    case DatabaseDbName => c.(database := c.database.(dbName := x.text))
    case AuthServiceHost => c.(authService := c.authService.(host := x.text))
    case AuthServicePort => c.(authService := c.authService.(port := x.number))
    case PProcessorHost => c.(pprocessorService := c.pprocessorService.(host := x.text))
    case PProcessorPort => c.(pprocessorService := c.pprocessorService.(port := x.number))
  }

  /** Setting a field is read back, and leaves every other field as it was. */
  lemma GetSet(c: Settings, k: Key, x: Value, other: Key)
    requires Fits(k, x)
    ensures Get(Set(c, k, x), k) == x
    ensures other != k ==> Get(Set(c, k, x), other) == Get(c, other)
  {
  }

  // ---------------------------------------------------------------------------
  // One variable.

  /** What LoadConfig assigns for value `v` of `k`; a log level that does not parse assigns nothing. */
  function Assigned(k: Key, v: string): (r: Option<Value>)
    ensures r.Some? ==> Fits(k, r.value)
    ensures r.None? <==> k == OptionsLogLevel && ParseLogLevel(v).None?
  {
    if IsPort(k) || k == OptionsHttpClientTimeout then Some(Number(Atoi(v).value))
    else if k == OptionsDevMode then Some(Flag(ParseBool(v).value))
    else if k == OptionsLogLevel then
      (match ParseLogLevel(v) case Some(l) => Some(Level(l)) case None => None)
    else Some(Text(v))
  }

  /** Whether value `v` of `k` passes LoadConfig's check. */
  predicate Accepts(k: Key, v: string)
  {
    if IsPort(k) then Atoi(v).ok && 1 <= Atoi(v).value <= MaxPort
    else if k == OptionsHttpClientTimeout then Atoi(v).ok && Atoi(v).value > 0
    else if k == OptionsDevMode then ParseBool(v).ok
    else if k == OptionsLogLevel then ParseLogLevel(v).Some?
    else true
  }

  /** The error LoadConfig returns at `k`, if any: a missing mandatory variable or a rejected value. */
  function ErrorAt(k: Key, env: map<string, string>): Option<string>
  {
    if EnvName(k) !in env then
      if Mandatory(k) then Some(MandatoryMissing(Label(k))) else None
    else
      var v := env[EnvName(k)];
      if Accepts(k, v) then None
      else if k == OptionsDevMode then Some(UnrecognizableBoolean(v))
      else if k == OptionsLogLevel then Some(UnrecognizedLogLevel)
      else Some(InputNotAllowed(Label(k), v))
  }

  /** A variable fails exactly when it is mandatory and missing, or present and rejected. */
  lemma ErrorAtIff(k: Key, env: map<string, string>)
    ensures ErrorAt(k, env).None? <==> (EnvName(k) in env ==> Accepts(k, env[EnvName(k)])) && (Mandatory(k) ==> EnvName(k) in env)
  {
  }

  /** The settings after LoadConfig's block for `k`; the assignment happens before the check. */
  function Update(c: Settings, k: Key, env: map<string, string>): Settings
  {
    if EnvName(k) !in env then c
    else match Assigned(k, env[EnvName(k)])
      case Some(x) => Set(c, k, x)
      case None => c
  }

  /** The block for `k` touches its own field at most. */
  lemma UpdateFrame(c: Settings, k: Key, env: map<string, string>, other: Key)
    requires other != k
    ensures Get(Update(c, k, env), other) == Get(c, other)
  {
    if EnvName(k) in env && Assigned(k, env[EnvName(k)]).Some? {
      GetSet(c, k, Assigned(k, env[EnvName(k)]).value, other);
    }
  }

  // ---------------------------------------------------------------------------
  // A sequence of variables.

  /** The settings and error after the blocks for `keys`, stopping at the first error. */
  function LoadFrom(c: Settings, env: map<string, string>, keys: seq<Key>): (Settings, Option<string>)
    decreases |keys|
  {
    if keys == [] then (c, None)
    else
      var next := Update(c, keys[0], env);
      if ErrorAt(keys[0], env).Some? then (next, ErrorAt(keys[0], env))
      else LoadFrom(next, env, keys[1..])
  }

  /** Loading succeeds exactly when no variable has an error; the outcome does not depend on the start. */
  lemma {:induction false} LoadSucceedsIff(c: Settings, env: map<string, string>, keys: seq<Key>)
    ensures LoadFrom(c, env, keys).1.None? <==> forall j :: 0 <= j < |keys| ==> ErrorAt(keys[j], env).None?
    decreases |keys|
  {
    if keys != [] {
      LoadSucceedsIff(Update(c, keys[0], env), env, keys[1..]);
      assert forall j :: 1 <= j < |keys| ==> keys[j] == keys[1..][j - 1];
    }
  }

  /** A missing mandatory variable makes LoadConfig fail. */
  lemma MandatoryMissingFails(c: Settings, env: map<string, string>, k: Key)
    requires Mandatory(k) && EnvName(k) !in env
    ensures LoadFrom(c, env, LoadOrder).1.Some?
  {
    LoadOrderComplete(k);
    var j :| 0 <= j < |LoadOrder| && LoadOrder[j] == k;
    LoadSucceedsIff(c, env, LoadOrder);
  }

  /** A variable absent from the environment leaves its field as it was, whatever else happens. */
  lemma {:induction false} AbsentKeepsField(c: Settings, env: map<string, string>, keys: seq<Key>, k: Key)
    requires EnvName(k) !in env
    ensures Get(LoadFrom(c, env, keys).0, k) == Get(c, k)
    decreases |keys|
  {
    if keys != [] {
      var next := Update(c, keys[0], env);
      if keys[0] != k {
        UpdateFrame(c, keys[0], env, k);
      }
      if ErrorAt(keys[0], env).None? {
        AbsentKeepsField(next, env, keys[1..], k);
      }
    }
  }

  /** After a successful load every variable present is in its field as LoadConfig parses it. */
  lemma {:induction false} PresentIsAssigned(c: Settings, env: map<string, string>, keys: seq<Key>, k: Key)
    requires EnvName(k) in env && LoadFrom(c, env, keys).1.None?
    requires k in keys || Assigned(k, env[EnvName(k)]) == Some(Get(c, k))
    ensures Assigned(k, env[EnvName(k)]) == Some(Get(LoadFrom(c, env, keys).0, k))
    decreases |keys|
  {
    if keys != [] {
      var next := Update(c, keys[0], env);
      assert ErrorAt(keys[0], env).None?;
      if keys[0] == k {
        assert Assigned(k, env[EnvName(k)]).Some?;
        GetSet(c, k, Assigned(k, env[EnvName(k)]).value, k);
      } else {
        UpdateFrame(c, keys[0], env, k);
        if k !in keys[1..] {
          assert k !in keys;
        }
      }
      PresentIsAssigned(next, env, keys[1..], k);
    }
  }

  /** Every port in 1..65535 and a positive client timeout. */
  predicate InRange(c: Settings)
  {
    && 1 <= c.webserverMerchant.port <= MaxPort && 1 <= c.webserverMgmt.port <= MaxPort
    && 1 <= c.database.port <= MaxPort && 1 <= c.authService.port <= MaxPort
    && 1 <= c.pprocessorService.port <= MaxPort
    && c.options.httpClientTimeout > 0
  }

  lemma DefaultsInRange()
    ensures InRange(Defaults)
  {
  }

  /** A successful load from settings in range ends in range. */
  lemma {:induction false} LoadKeepsRange(c: Settings, env: map<string, string>, keys: seq<Key>)
    requires InRange(c) && LoadFrom(c, env, keys).1.None?
    ensures InRange(LoadFrom(c, env, keys).0)
    decreases |keys|
  {
    if keys != [] {
      var k := keys[0];
      assert ErrorAt(k, env).None?;
      LoadKeepsRange(Update(c, k, env), env, keys[1..]);
    }
  }

  /**
   * When no variable of the environment is in error, NewConfig followed by
   * LoadConfig succeeds and leaves every port in 1..65535 and a positive timeout.
   */
  lemma LoadedConfigInRange(env: map<string, string>)
    requires forall k: Key :: ErrorAt(k, env).None?
    ensures LoadFrom(Defaults, env, LoadOrder).1.None?
    ensures InRange(LoadFrom(Defaults, env, LoadOrder).0)
  {
    assert forall j :: 0 <= j < |LoadOrder| ==> ErrorAt(LoadOrder[j], env).None?;
    LoadSucceedsIff(Defaults, env, LoadOrder);
    DefaultsInRange();
    LoadKeepsRange(Defaults, env, LoadOrder);
  }

  /** Loading `pre` then `post` is loading `pre + post`: the first error stops it, and what was assigned stays. */
  lemma {:induction false} LoadFromConcat(c: Settings, env: map<string, string>, pre: seq<Key>, post: seq<Key>)
    ensures LoadFrom(c, env, pre + post) ==
      if LoadFrom(c, env, pre).1.Some? then LoadFrom(c, env, pre)
      else LoadFrom(LoadFrom(c, env, pre).0, env, post)
    decreases |pre|
  {
    if pre != [] {
      assert (pre + post)[0] == pre[0];
      assert (pre + post)[1..] == pre[1..] + post;
      LoadFromConcat(Update(c, pre[0], env), env, pre[1..], post);
    } else {
      assert pre + post == post;
    }
  }

  /** The outcome of the first `n` blocks of `keys`, block by block. */
  function LoadPrefix(c: Settings, env: map<string, string>, keys: seq<Key>, n: nat): (Settings, Option<string>)
    requires n <= |keys|
  {
    if n == 0 then (c, None)
    else
      var previous := LoadPrefix(c, env, keys, n - 1);
      if previous.1.Some? then previous
      else (Update(previous.0, keys[n - 1], env), ErrorAt(keys[n - 1], env))
  }

  lemma {:induction false} LoadPrefixIsLoadFrom(c: Settings, env: map<string, string>, keys: seq<Key>, n: nat)
    requires n <= |keys|
    ensures LoadPrefix(c, env, keys, n) == LoadFrom(c, env, keys[..n])
  {
    if n > 0 {
      LoadPrefixIsLoadFrom(c, env, keys, n - 1);
      var k := keys[n - 1];
      assert keys[..n] == keys[..n - 1] + [k];
      LoadFromConcat(c, env, keys[..n - 1], [k]);
      var d := LoadFrom(c, env, keys[..n - 1]).0;
      assert [k][1..] == [];
      assert LoadFrom(Update(d, k, env), env, []) == (Update(d, k, env), None);
    }
  }

  /** One more block: the outcome of the first `n + 1` blocks after `n` that passed. */
  lemma LoadPrefixStep(c: Settings, env: map<string, string>, keys: seq<Key>, n: nat, k: Key,
                       before: Settings, after: Settings, e: Option<string>)
    requires n < |keys| && keys[n] == k
    requires LoadPrefix(c, env, keys, n) == (before, None)
    requires after == Update(before, k, env) && e == ErrorAt(k, env)
    ensures LoadPrefix(c, env, keys, n + 1) == (after, e)
  {
  }

  /** Once a block fails, the outcome of the blocks of `keys` is that of the blocks up to it. */
  lemma LoadPrefixFinal(c: Settings, env: map<string, string>, keys: seq<Key>, n: nat)
    requires n <= |keys| && (n == |keys| || LoadPrefix(c, env, keys, n).1.Some?)
    ensures LoadFrom(c, env, keys) == LoadPrefix(c, env, keys, n)
  {
    assert LoadPrefix(c, env, keys, n) == LoadFrom(c, env, keys[..n]) by {
      LoadPrefixIsLoadFrom(c, env, keys, n);
    }
    assert LoadFrom(c, env, keys) == LoadFrom(c, env, keys[..n]) by {
      assert keys == keys[..n] + keys[n..];
      LoadFromConcat(c, env, keys[..n], keys[n..]);
      assert keys[..|keys|] == keys;
    }
  }

  // ---------------------------------------------------------------------------

  class Configuration {
    var webserverMerchant: Endpoint
    var webserverMgmt: Endpoint
    var options: Options
    var database: Database
    var authService: Endpoint
    var pprocessorService: Endpoint

    function Snapshot(): Settings
      reads this
    {
      Settings(webserverMerchant, webserverMgmt, options, database, authService, pprocessorService)
    }

    /** NewConfig: the zero configuration with the defaults set. */
    constructor ()
      ensures Snapshot() == Defaults
      ensures webserverMerchant == Endpoint("127.0.0.1", 8080) && webserverMgmt == Endpoint("127.0.0.1", 8081)
      ensures options == Options(false, Info, 5)
      ensures database.port == 3306 && authService.port == 8080 && pprocessorService.port == 8080
    {
      webserverMerchant := Endpoint("", 0);
      webserverMgmt := Endpoint("", 0);
      options := Options(false, Debug, 0);
      database := Database("", 0, "", "", "");
      authService := Endpoint("", 0);
      pprocessorService := Endpoint("", 0);
      new;
      SetDefaults();
    }

    /** setDefaults: the listed fields take their defaults, the hosts and credentials of the services stay. */
    method SetDefaults()
      modifies this
      ensures webserverMerchant == Endpoint("127.0.0.1", 8080) && webserverMgmt == Endpoint("127.0.0.1", 8081)
      ensures options == Options(false, Info, 5)
      ensures database == old(database).(port := 3306)
      ensures authService == old(authService).(port := 8080)
      ensures pprocessorService == old(pprocessorService).(port := 8080)
    {
      webserverMerchant := webserverMerchant.(host := "127.0.0.1");
      webserverMerchant := webserverMerchant.(port := 8080);
      webserverMgmt := webserverMgmt.(host := "127.0.0.1");
      webserverMgmt := webserverMgmt.(port := 8081);
      options := options.(devMode := false);
      options := options.(logLevel := Info);
      options := options.(httpClientTimeout := 5);
      database := database.(port := 3306);
      authService := authService.(port := 8080);
      pprocessorService := pprocessorService.(port := 8080);
    }

    /** LoadConfig: the sixteen blocks in order, returning the first error at once. */
    method LoadConfig(env: map<string, string>) returns (err: Option<string>)
      modifies this
      ensures (Snapshot(), err) == LoadFrom(old(Snapshot()), env, LoadOrder)
    {
      LoadBySections(Snapshot(), env);
      err := LoadWebservers(env);
      if err.Some? {
        return;
      }
      err := LoadOptions(env);
      if err.Some? {
        return;
      }
      err := LoadDatabase(env);
      if err.Some? {
        return;
      }
      err := LoadServices(env);
    }

    /** The blocks of LoadConfig for the merchant and management web servers. */
    method LoadWebservers(env: map<string, string>) returns (err: Option<string>)
      modifies this
      ensures (Snapshot(), err) == LoadFrom(old(Snapshot()), env, WebserverKeys)
    {
      ghost var start := Snapshot();
      ghost var before := start;
      LoadWebserverMerchantHost(env);
      LoadPrefixStep(start, env, WebserverKeys, 0, WebserverMerchantHost, before, Snapshot(), None);
      before := Snapshot();
      err := LoadWebserverMerchantPort(env);
      LoadPrefixStep(start, env, WebserverKeys, 1, WebserverMerchantPort, before, Snapshot(), err);
      if err.Some? {
        LoadPrefixFinal(start, env, WebserverKeys, 2);
        return;
      }
      before := Snapshot();
      LoadWebserverMgmtHost(env);
      LoadPrefixStep(start, env, WebserverKeys, 2, WebserverMgmtHost, before, Snapshot(), None);
      before := Snapshot();
      err := LoadWebserverMgmtPort(env);
      LoadPrefixStep(start, env, WebserverKeys, 3, WebserverMgmtPort, before, Snapshot(), err);
      if err.Some? {
        LoadPrefixFinal(start, env, WebserverKeys, 4);
        return;
      }
      LoadPrefixFinal(start, env, WebserverKeys, 4);
    }

    /** The blocks of LoadConfig for the options. */
    method LoadOptions(env: map<string, string>) returns (err: Option<string>)
      modifies this
      ensures (Snapshot(), err) == LoadFrom(old(Snapshot()), env, OptionKeys)
    {
      ghost var start := Snapshot();
      ghost var before := start;
      err := LoadOptionsDevMode(env);
      LoadPrefixStep(start, env, OptionKeys, 0, OptionsDevMode, before, Snapshot(), err);
      if err.Some? {
        LoadPrefixFinal(start, env, OptionKeys, 1);
        return;
      }
      before := Snapshot();
      err := LoadOptionsLogLevel(env);
      LoadPrefixStep(start, env, OptionKeys, 1, OptionsLogLevel, before, Snapshot(), err);
      if err.Some? {
        LoadPrefixFinal(start, env, OptionKeys, 2);
        return;
      }
      before := Snapshot();
      err := LoadOptionsHttpClientTimeout(env);
      LoadPrefixStep(start, env, OptionKeys, 2, OptionsHttpClientTimeout, before, Snapshot(), err);
      if err.Some? {
        LoadPrefixFinal(start, env, OptionKeys, 3);
        return;
      }
      LoadPrefixFinal(start, env, OptionKeys, 3);
    }

    /** The blocks of LoadConfig for the database. */
    method LoadDatabase(env: map<string, string>) returns (err: Option<string>)
      modifies this
      ensures (Snapshot(), err) == LoadFrom(old(Snapshot()), env, DatabaseKeys)
    {
      ghost var start := Snapshot();
      ghost var before := start;
      err := LoadDatabaseHost(env);
      LoadPrefixStep(start, env, DatabaseKeys, 0, DatabaseHost, before, Snapshot(), err);
      if err.Some? {
        LoadPrefixFinal(start, env, DatabaseKeys, 1);
        return;
      }
      before := Snapshot();
      err := LoadDatabasePort(env);
      LoadPrefixStep(start, env, DatabaseKeys, 1, DatabasePort, before, Snapshot(), err);
      if err.Some? {
        LoadPrefixFinal(start, env, DatabaseKeys, 2);
        return;
      }
      before := Snapshot();
      err := LoadDatabaseUsername(env);
      LoadPrefixStep(start, env, DatabaseKeys, 2, DatabaseUsername, before, Snapshot(), err);
      if err.Some? {
        LoadPrefixFinal(start, env, DatabaseKeys, 3);
        return;
      }
      before := Snapshot();
      err := LoadDatabasePassword(env);
      LoadPrefixStep(start, env, DatabaseKeys, 3, DatabasePassword, before, Snapshot(), err);
      if err.Some? {
        LoadPrefixFinal(start, env, DatabaseKeys, 4);
        return;
      }
      before := Snapshot();
      err := LoadDatabaseDbName(env);
      LoadPrefixStep(start, env, DatabaseKeys, 4, DatabaseDbName, before, Snapshot(), err);
      if err.Some? {
        LoadPrefixFinal(start, env, DatabaseKeys, 5);
        return;
      }
      LoadPrefixFinal(start, env, DatabaseKeys, 5);
    }

    /** The blocks of LoadConfig for the authentication and payment processor services. */
    method LoadServices(env: map<string, string>) returns (err: Option<string>)
      modifies this
      ensures (Snapshot(), err) == LoadFrom(old(Snapshot()), env, ServiceKeys)
    {
      ghost var start := Snapshot();
      ghost var before := start;
      err := LoadAuthServiceHost(env);
      LoadPrefixStep(start, env, ServiceKeys, 0, AuthServiceHost, before, Snapshot(), err);
      if err.Some? {
        LoadPrefixFinal(start, env, ServiceKeys, 1);
        return;
      }
      before := Snapshot();
      err := LoadAuthServicePort(env);
      LoadPrefixStep(start, env, ServiceKeys, 1, AuthServicePort, before, Snapshot(), err);
      if err.Some? {
        LoadPrefixFinal(start, env, ServiceKeys, 2);
        return;
      }
      before := Snapshot();
      err := LoadPProcessorHost(env);
      LoadPrefixStep(start, env, ServiceKeys, 2, PProcessorHost, before, Snapshot(), err);
      if err.Some? {
        LoadPrefixFinal(start, env, ServiceKeys, 3);
        return;
      }
      before := Snapshot();
      err := LoadPProcessorPort(env);
      LoadPrefixStep(start, env, ServiceKeys, 3, PProcessorPort, before, Snapshot(), err);
      if err.Some? {
        LoadPrefixFinal(start, env, ServiceKeys, 4);
        return;
      }
      LoadPrefixFinal(start, env, ServiceKeys, 4);
    }

    /** The block for WebserverMerchantHost, which cannot fail. */
    method LoadWebserverMerchantHost(env: map<string, string>)
      modifies this
      ensures Snapshot() == Update(old(Snapshot()), WebserverMerchantHost, env) && ErrorAt(WebserverMerchantHost, env).None?
    {
      var name := EnvName(WebserverMerchantHost);
      if name in env {
        webserverMerchant := webserverMerchant.(host := env[name]);
      }
    }

    /** The block for WebserverMerchantPort. */
    method LoadWebserverMerchantPort(env: map<string, string>) returns (err: Option<string>)
      modifies this
      ensures Snapshot() == Update(old(Snapshot()), WebserverMerchantPort, env) && err == ErrorAt(WebserverMerchantPort, env)
    {
      var name := EnvName(WebserverMerchantPort);
      if name in env {
        var parsed := Atoi(env[name]);
        webserverMerchant := webserverMerchant.(port := parsed.value);
        if !parsed.ok || webserverMerchant.port <= 0 || webserverMerchant.port > MaxPort {
          return Some(InputNotAllowed("webserver port", env[name]));
        }
      }
      return None;
    }

    /** The block for WebserverMgmtHost, which cannot fail. */
    method LoadWebserverMgmtHost(env: map<string, string>)
      modifies this
      ensures Snapshot() == Update(old(Snapshot()), WebserverMgmtHost, env) && ErrorAt(WebserverMgmtHost, env).None?
    {
      var name := EnvName(WebserverMgmtHost);
      if name in env {
        webserverMgmt := webserverMgmt.(host := env[name]);
      }
    }

    /** The block for WebserverMgmtPort. */
    method LoadWebserverMgmtPort(env: map<string, string>) returns (err: Option<string>)
      modifies this
      ensures Snapshot() == Update(old(Snapshot()), WebserverMgmtPort, env) && err == ErrorAt(WebserverMgmtPort, env)
    {
      var name := EnvName(WebserverMgmtPort);
      if name in env {
        var parsed := Atoi(env[name]);
        webserverMgmt := webserverMgmt.(port := parsed.value);
        if !parsed.ok || webserverMgmt.port <= 0 || webserverMgmt.port > MaxPort {
          return Some(InputNotAllowed("webserver port", env[name]));
        }
      }
      return None;
    }

    /** The block for OptionsDevMode. */
    method LoadOptionsDevMode(env: map<string, string>) returns (err: Option<string>)
      modifies this
      ensures Snapshot() == Update(old(Snapshot()), OptionsDevMode, env) && err == ErrorAt(OptionsDevMode, env)
    {
      var name := EnvName(OptionsDevMode);
      if name in env {
        var parsed := ParseBool(env[name]);
        options := options.(devMode := parsed.value);
        if !parsed.ok {
          return Some(UnrecognizableBoolean(env[name]));
        }
      }
      return None;
    }

    /** The block for OptionsLogLevel. */
    method LoadOptionsLogLevel(env: map<string, string>) returns (err: Option<string>)
      modifies this
      ensures Snapshot() == Update(old(Snapshot()), OptionsLogLevel, env) && err == ErrorAt(OptionsLogLevel, env)
    {
      var name := EnvName(OptionsLogLevel);
      if name in env {
        var parsed := ParseLogLevel(env[name]);
        if parsed.None? {
          return Some(UnrecognizedLogLevel);
        }
        options := options.(logLevel := parsed.value);
      }
      return None;
    }

    /** The block for OptionsHttpClientTimeout. */
    method LoadOptionsHttpClientTimeout(env: map<string, string>) returns (err: Option<string>)
      modifies this
      ensures Snapshot() == Update(old(Snapshot()), OptionsHttpClientTimeout, env) && err == ErrorAt(OptionsHttpClientTimeout, env)
    {
      var name := EnvName(OptionsHttpClientTimeout);
      if name in env {
        var parsed := Atoi(env[name]);
        options := options.(httpClientTimeout := parsed.value);
        if !parsed.ok || options.httpClientTimeout <= 0 {
          return Some(InputNotAllowed("options httpclienttimeout", env[name]));
        }
      }
      return None;
    }

    /** The block for DatabaseHost. */
    method LoadDatabaseHost(env: map<string, string>) returns (err: Option<string>)
      modifies this
      ensures Snapshot() == Update(old(Snapshot()), DatabaseHost, env) && err == ErrorAt(DatabaseHost, env)
    {
      var name := EnvName(DatabaseHost);
      if name in env {
        database := database.(host := env[name]);
      } else {
        return Some(MandatoryMissing("database host"));
      }
      return None;
    }

    /** The block for DatabasePort. */
    method LoadDatabasePort(env: map<string, string>) returns (err: Option<string>)
      modifies this
      ensures Snapshot() == Update(old(Snapshot()), DatabasePort, env) && err == ErrorAt(DatabasePort, env)
    {
      var name := EnvName(DatabasePort);
      if name in env {
        var parsed := Atoi(env[name]);
        database := database.(port := parsed.value);
        if !parsed.ok || database.port <= 0 || database.port > MaxPort {
          return Some(InputNotAllowed("database port", env[name]));
        }
      }
      return None;
    }

    /** The block for DatabaseUsername. */
    method LoadDatabaseUsername(env: map<string, string>) returns (err: Option<string>)
      modifies this
      ensures Snapshot() == Update(old(Snapshot()), DatabaseUsername, env) && err == ErrorAt(DatabaseUsername, env)
    {
      var name := EnvName(DatabaseUsername);
      if name in env {
        database := database.(username := env[name]);
      } else {
        return Some(MandatoryMissing("database username"));
      }
      return None;
    }

    /** The block for DatabasePassword. */
    method LoadDatabasePassword(env: map<string, string>) returns (err: Option<string>)
      modifies this
      ensures Snapshot() == Update(old(Snapshot()), DatabasePassword, env) && err == ErrorAt(DatabasePassword, env)
    {
      var name := EnvName(DatabasePassword);
      if name in env {
        database := database.(password := env[name]);
      } else {
        return Some(MandatoryMissing("database password"));
      }
      return None;
    }

    /** The block for DatabaseDbName. */
    method LoadDatabaseDbName(env: map<string, string>) returns (err: Option<string>)
      modifies this
      ensures Snapshot() == Update(old(Snapshot()), DatabaseDbName, env) && err == ErrorAt(DatabaseDbName, env)
    {
      var name := EnvName(DatabaseDbName);
      if name in env {
        database := database.(dbName := env[name]);
      } else {
        return Some(MandatoryMissing("database dbname"));
      }
      return None;
    }

    /** The block for AuthServiceHost. */
    method LoadAuthServiceHost(env: map<string, string>) returns (err: Option<string>)
      modifies this
      ensures Snapshot() == Update(old(Snapshot()), AuthServiceHost, env) && err == ErrorAt(AuthServiceHost, env)
    {
      var name := EnvName(AuthServiceHost);
      if name in env {
        authService := authService.(host := env[name]);
      } else {
        return Some(MandatoryMissing("authservice host"));
      }
      return None;
    }

    /** The block for AuthServicePort. */
    method LoadAuthServicePort(env: map<string, string>) returns (err: Option<string>)
      modifies this
      ensures Snapshot() == Update(old(Snapshot()), AuthServicePort, env) && err == ErrorAt(AuthServicePort, env)
    {
      var name := EnvName(AuthServicePort);
      if name in env {
        var parsed := Atoi(env[name]);
        authService := authService.(port := parsed.value);
        if !parsed.ok || authService.port <= 0 || authService.port > MaxPort {
          return Some(InputNotAllowed("authservice port", env[name]));
        }
      }
      return None;
    }

    /** The block for PProcessorHost. */
    method LoadPProcessorHost(env: map<string, string>) returns (err: Option<string>)
      modifies this
      ensures Snapshot() == Update(old(Snapshot()), PProcessorHost, env) && err == ErrorAt(PProcessorHost, env)
    {
      var name := EnvName(PProcessorHost);
      if name in env {
        pprocessorService := pprocessorService.(host := env[name]);
      } else {
        return Some(MandatoryMissing("pprocessor host"));
      }
      return None;
    }

    /** The block for PProcessorPort. */
    method LoadPProcessorPort(env: map<string, string>) returns (err: Option<string>)
      modifies this
      ensures Snapshot() == Update(old(Snapshot()), PProcessorPort, env) && err == ErrorAt(PProcessorPort, env)
    {
      var name := EnvName(PProcessorPort);
      if name in env {
        var parsed := Atoi(env[name]);
        pprocessorService := pprocessorService.(port := parsed.value);
        if !parsed.ok || pprocessorService.port <= 0 || pprocessorService.port > MaxPort {
          return Some(InputNotAllowed("pprocessor port", env[name]));
        }
      }
      return None;
    }
  }
}
