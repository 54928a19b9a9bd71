/** `ConfigManager`: defaults, then the `config.py` layer (a `thrift://host:port`
    URI, the connection fields and `SETTINGS`), then the environment layer, each
    layer overriding the one below it key by key. The environment and the
    `config.py` contents are inputs; the merged dictionary is a `map`. */
module ConfigManagement {
  import opened Results
  import opened Text
  import opened HiveSettings

  /** The Python values a configuration entry can hold. */
  datatype Value = Str(text: string) | Int(num: int) | Bool(flag: bool) | NoneValue

  /** What escapes `_load_config`: `int()` on text that is not an integer (`ValueError`),
      or a URI that is not a string (no `startswith`). */
  datatype ConfigError = NotAnInteger(text: string) | UriNotText

  type Config = map<string, Value>

  /** `config.py` as the import sees it: absent (or missing one of its two names), or
      `HIVE_CONNECT_INFO` and `SETTINGS`. */
  datatype ConfigFile = Missing | Present(connectInfo: Config, settings: Config)

  const ConnectionKeys: set<string> := {"host", "port", "username", "database", "auth"}

  /** `_get_default_config` */
  function DefaultConfig(): (c: Config)
    ensures ConnectionKeys <= c.Keys
  {
    map["host" := Str("localhost"), "port" := Int(10000), "username" := Str("default"),
        "database" := Str("default"), "auth" := Str("NONE"), "connection_timeout" := Int(30),
        "query_timeout" := Int(300), "retry_attempts" := Int(3), "use_beeline" := Bool(false)]
  }

  // ---------------------------------------------------------------- the config.py layer

  const ThriftScheme: string := "thrift://"

  const DefaultUri: string := "thrift://localhost:10000"

  /** Host and port from the URI: the scheme is removed, the rest split on `:`; the
      host is the first part, the port `int()` of the second, 10000 when there is no
      `:`. Any other scheme gives `localhost`/10000. */
  function ParseUri(uri: string): (r: Result<(string, int), ConfigError>)
    ensures !StartsWith(uri, ThriftScheme) ==> r == Ok(("localhost", 10000))
    ensures r.Err? ==> StartsWith(uri, ThriftScheme) && r.error.NotAnInteger?
  {
    if StartsWith(uri, ThriftScheme) then
      var parts := Split(ReplaceAll(uri, ThriftScheme, ""), ':');
      if |parts| > 1 then
        match ParseInt(parts[1])
        case Some(port) => Ok((parts[0], port))
        case None => Err(NotAnInteger(parts[1]))
      else Ok((parts[0], 10000))
    else Ok(("localhost", 10000))
  }

  /** Python's `d.get(key, default)`. */
  function GetOr(d: Config, key: string, default: Value): (v: Value)
    ensures key in d ==> v == d[key]
    ensures key !in d ==> v == default
  {
    if key in d then d[key] else default
  }

  /** `_load_from_file`: the URI-derived host and port and the three connection fields,
      then `SETTINGS` on top; a missing file contributes nothing. */
  function LoadFromFile(file: ConfigFile): (r: Result<Config, ConfigError>)
    ensures file.Missing? ==> r == Ok(map[])
    ensures file.Present? && r.Ok? ==>
      ConnectionKeys <= r.value.Keys && forall k :: k in file.settings ==> k in r.value && r.value[k] == file.settings[k]
  {
    match file
    case Missing => Ok(map[])
    case Present(info, settings) =>
      var uri := GetOr(info, "uri", Str(DefaultUri));
      if !uri.Str? then Err(UriNotText)
      else
        match ParseUri(uri.text)
        case Err(e) => Err(e)
        case Ok(hostPort) =>
          var derived := map["host" := Str(hostPort.0), "port" := Int(hostPort.1),
                             "username" := GetOr(info, "username", Str("default")),
                             "database" := GetOr(info, "database", Str("default")),
                             "auth" := GetOr(info, "auth", Str("NONE"))];
          Ok(derived + settings)
  }

  // ---------------------------------------------------------------- the environment layer

  /** How a variable's text becomes a value. */
  datatype Kind = AsText | AsInteger | AsFlag

  datatype EnvEntry = EnvEntry(variable: string, key: string, kind: Kind)

  /** The variables `_load_from_env` reads, in the order it reads them. */
  const EnvEntries: seq<EnvEntry> := [
    EnvEntry("HIVE_HOST", "host", AsText),
    EnvEntry("HIVE_PORT", "port", AsInteger),
    EnvEntry("HIVE_USERNAME", "username", AsText),
    EnvEntry("HIVE_DATABASE", "database", AsText),
    EnvEntry("HIVE_AUTH", "auth", AsText),
    EnvEntry("USE_BEELINE", "use_beeline", AsFlag),
    EnvEntry("CONNECTION_TIMEOUT", "connection_timeout", AsInteger),
    EnvEntry("QUERY_TIMEOUT", "query_timeout", AsInteger),
    EnvEntry("RETRY_ATTEMPTS", "retry_attempts", AsInteger)
  ]

  /** `if os.getenv(name)`: set and not empty. */
  predicate IsSet(env: map<string, string>, name: string) {
    name in env && env[name] != ""
  }

  /** A variable's text as its kind reads it; `use_beeline` is true iff the lower-cased text is `true`. */
  function Convert(kind: Kind, text: string): (r: Result<Value, ConfigError>)
    ensures kind != AsInteger ==> r.Ok?
    ensures kind == AsInteger ==> (r.Ok? <==> ParseInt(text).Some?)
    ensures r.Err? ==> r.error == NotAnInteger(text)
  {
    match kind
    case AsText => Ok(Str(text))
    case AsInteger => (match ParseInt(text) case Some(n) => Ok(Int(n)) case None => Err(NotAnInteger(text)))
    case AsFlag => Ok(Bool(AsciiLower(text) == "true"))
  }

  /** One conditional assignment: an earlier error stands, an unset variable changes nothing. */
  function Assign(acc: Result<Config, ConfigError>, env: map<string, string>, e: EnvEntry): Result<Config, ConfigError> {
    if acc.Err? || !IsSet(env, e.variable) then acc
    else
      match Convert(e.kind, env[e.variable])
      case Ok(v) => Ok(acc.value[e.key := v])
      case Err(x) => Err(x)
  }

  /** The assignments of `entries`, in order, starting from the empty dictionary. */
  function Gather(env: map<string, string>, entries: seq<EnvEntry>): Result<Config, ConfigError>
    decreases |entries|
  {
    if |entries| == 0 then Ok(map[])
    else Assign(Gather(env, entries[..|entries| - 1]), env, entries[|entries| - 1])
  }

  /** The environment layer. */
  function EnvConfig(env: map<string, string>): (r: Result<Config, ConfigError>)
    ensures r.Ok? <==> forall i :: 0 <= i < |EnvEntries| ==> Converts(env, EnvEntries[i])
    ensures r.Ok? ==> forall i :: 0 <= i < |EnvEntries| ==> (EnvEntries[i].key in r.value <==> IsSet(env, EnvEntries[i].variable))
  {
    GatherFailsOnFirst(env, EnvEntries);
    EnvEntriesDistinct();
    if Gather(env, EnvEntries).Ok? then GatherLookup(env, EnvEntries); Gather(env, EnvEntries)
    else Gather(env, EnvEntries)
  }

  predicate Converts(env: map<string, string>, e: EnvEntry) {
    !IsSet(env, e.variable) || Convert(e.kind, env[e.variable]).Ok?
  }

  predicate DistinctKeys(entries: seq<EnvEntry>) {
    forall i, j :: 0 <= i < j < |entries| ==> entries[i].key != entries[j].key
  }

  lemma GatherNext(env: map<string, string>, k: nat)
    requires k < |EnvEntries|
    ensures Gather(env, EnvEntries[..k + 1]) == Assign(Gather(env, EnvEntries[..k]), env, EnvEntries[k])
  {
    assert EnvEntries[..k + 1][..k] == EnvEntries[..k];
  }

  /** Assignment `k` on an unset variable leaves the dictionary as it is. */
  lemma StepUnset(env: map<string, string>, k: nat, config: Config)
    requires k < |EnvEntries| && Gather(env, EnvEntries[..k]) == Ok(config)
    requires !IsSet(env, EnvEntries[k].variable)
    ensures Gather(env, EnvEntries[..k + 1]) == Ok(config)
  {
    GatherNext(env, k);
  }

  /** Assignment `k` on a set variable whose text converts stores the value under its key. */
  lemma StepSet(env: map<string, string>, k: nat, config: Config, v: Value)
    requires k < |EnvEntries| && Gather(env, EnvEntries[..k]) == Ok(config)
    requires IsSet(env, EnvEntries[k].variable) && Convert(EnvEntries[k].kind, env[EnvEntries[k].variable]) == Ok(v)
    ensures Gather(env, EnvEntries[..k + 1]) == Ok(config[EnvEntries[k].key := v])
  {
    GatherNext(env, k);
  }

  /** Assignment `k` on a set variable whose text does not convert is the layer's error. */
  lemma StepFails(env: map<string, string>, k: nat, config: Config, x: ConfigError)
    requires k < |EnvEntries| && Gather(env, EnvEntries[..k]) == Ok(config)
    requires IsSet(env, EnvEntries[k].variable) && Convert(EnvEntries[k].kind, env[EnvEntries[k].variable]) == Err(x)
    ensures EnvConfig(env) == Err(x)
  {
    GatherNext(env, k);
    ErrorStands(env, k + 1, |EnvEntries|);
    assert EnvEntries[..|EnvEntries|] == EnvEntries;
  }

  /** `_load_from_env`: the nine conditional assignments, taken in the source's order
      from `EnvEntries`; the first `int()` that fails raises. */
  method LoadFromEnv(env: map<string, string>) returns (r: Result<Config, ConfigError>)
    ensures r == EnvConfig(env)
  {
    var config: Config := map[];
    assert EnvEntries[..0] == [];
    for k := 0 to |EnvEntries|
      invariant Gather(env, EnvEntries[..k]) == Ok(config)
    {
      var entry := EnvEntries[k];
      if IsSet(env, entry.variable) {
        var value := Convert(entry.kind, env[entry.variable]);
        if value.Err? {
          StepFails(env, k, config, value.error);
          return Err(value.error);
        }
        StepSet(env, k, config, value.value);
        config := config[entry.key := value.value];
      } else {
        StepUnset(env, k, config);
      }
    }
    assert EnvEntries[..|EnvEntries|] == EnvEntries;
    r := Ok(config);
  }

  // ---------------------------------------------------------------- the merge

  /** Defaults, then the file layer, then the environment layer; the file layer's errors come first. */
  function MergedConfig(file: ConfigFile, env: map<string, string>): (r: Result<Config, ConfigError>)
    ensures r.Ok? <==> LoadFromFile(file).Ok? && EnvConfig(env).Ok?
    ensures r.Ok? ==> ConnectionKeys <= r.value.Keys
  {
    match LoadFromFile(file)
    case Err(e) => Err(e)
    case Ok(fileConfig) =>
      match EnvConfig(env)
      case Err(e) => Err(e)
      case Ok(envConfig) => Ok(DefaultConfig() + fileConfig + envConfig)
  }

  /** `_load_config`: start from the defaults and `update` with each layer in turn. */
  method LoadConfig(file: ConfigFile, env: map<string, string>) returns (r: Result<Config, ConfigError>)
    ensures r == MergedConfig(file, env)
  {
    var config := DefaultConfig();
    var fileConfig := LoadFromFile(file);
    if fileConfig.Err? {
      return Err(fileConfig.error);
    }
    config := config + fileConfig.value;
    var envConfig := LoadFromEnv(env);
    if envConfig.Err? {
      return Err(envConfig.error);
    }
    config := config + envConfig.value;
    r := Ok(config);
  }

  /** A `ConfigManager` once built: it only reads its dictionary. */
  datatype ConfigManager = ConfigManager(config: Config) {
    /** `get(key, default)` */
    function Get(key: string, default: Value): (v: Value)
      ensures key in config ==> v == config[key]
      ensures key !in config ==> v == default
    {
      GetOr(config, key, default)
    }

    /** `get_hive_config`: the five connection keys, missing ones as `None`. */
    function GetHiveConfig(): (c: Config)
      ensures c.Keys == ConnectionKeys
      ensures forall k :: k in ConnectionKeys ==> c[k] == Get(k, NoneValue)
    {
      map["host" := Get("host", NoneValue), "port" := Get("port", NoneValue),
          "username" := Get("username", NoneValue), "database" := Get("database", NoneValue),
          "auth" := Get("auth", NoneValue)]
    }

    /** `get_all_config`: the whole dictionary. */
    function GetAllConfig(): (r: Config)
      ensures r == config
    {
      config
    }

    /** The dictionary `__repr__` shows: `password`, when present, masked as `***`. */
    function SafeConfig(): (c: Config)
      ensures c.Keys == config.Keys
      ensures "password" in config ==> c["password"] == Str("***")
      ensures forall k :: k in config && k != "password" ==> c[k] == config[k]
    {
      if "password" in config then config["password" := Str("***")] else config
    }
  }

  /** `ConfigManager()`: the merged dictionary, or the error the merge raised. */
  method NewConfigManager(file: ConfigFile, env: map<string, string>) returns (r: Result<ConfigManager, ConfigError>)
    ensures MergedConfig(file, env).Ok? ==> r == Ok(ConfigManager(MergedConfig(file, env).value))
    ensures MergedConfig(file, env).Err? ==> r == Err(MergedConfig(file, env).error)
  {
    var config := LoadConfig(file, env);
    if config.Err? {
      return Err(config.error);
    }
    r := Ok(ConfigManager(config.value));
  }

  // ---------------------------------------------------------------- properties

  /** The connection defaults are `HiveConfig::new`'s. */
  lemma DefaultsAgreeWithHiveConfig()
    ensures var d, h := DefaultConfig(), DefaultHiveConfig();
      d["host"] == Str(h.host) && d["port"] == Int(h.port as int) && d["username"] == Str(h.username) &&
      d["database"] == Str(h.database) && d["auth"] == Str(h.auth)
  {
    DefaultValues();
  }

  /** Once an assignment has failed, the later ones leave the error as it is. */
  lemma {:induction false} ErrorStands(env: map<string, string>, k: nat, j: nat)
    requires k <= j <= |EnvEntries| && Gather(env, EnvEntries[..k]).Err?
    ensures Gather(env, EnvEntries[..j]) == Gather(env, EnvEntries[..k])
    decreases j - k
  {
    if k < j {
      GatherNext(env, k);
      ErrorStands(env, k + 1, j);
    }
  }

  /** Without the URI's port the port is 10000; the host is the text after the scheme. */
  lemma NoPortGivesDefault(host: string)
    requires ':' !in host
    ensures ParseUri(ThriftScheme + host) == Ok((host, 10000))
  {
    var uri := ThriftScheme + host;
    assert uri[..|ThriftScheme|] == ThriftScheme;
    assert uri[|ThriftScheme|..] == host;
    NoSchemeInside(host, "");
    assert host + "" == host;
    ReplaceAllAbsent(host, ThriftScheme, "");
    assert ReplaceAll(uri, ThriftScheme, "") == "" + host == host;
    SplitWithoutSeparator(host, ':');
  }

  /** The scheme cannot occur in `host` followed by `tail` when the only `:` is
      the first character of `tail` and no `/` follows it. */
  lemma NoSchemeInside(host: string, tail: string)
    requires ':' !in host
    requires forall j :: 1 <= j < |tail| ==> tail[j] != ':'
    requires |tail| > 1 ==> tail[1] != '/'
    ensures forall i: nat :: !OccursAt(host + tail, ThriftScheme, i)
  {
    var s := host + tail;
    forall i: nat ensures !OccursAt(s, ThriftScheme, i) {
      if i + 9 <= |s| {
        assert s[i..i + 9][6] == s[i + 6] && s[i..i + 9][7] == s[i + 7];
        if i + 6 < |host| {
          assert s[i + 6] == host[i + 6] != ':';
        } else if i + 6 == |host| {
          assert s[i + 7] == tail[1] != '/';
        } else {
          assert s[i + 6] == tail[i + 6 - |host|] != ':';
        }
      }
    }
  }

  /** Writing a host and a port into a `thrift://` URI and parsing it gives them back. */
  lemma UriRoundTrip(host: string, port: nat)
    requires ':' !in host
    ensures ParseUri(ThriftScheme + host + ":" + NatText(port)) == Ok((host, port))
  {
    var digits := NatText(port);
    SchemeRemoved(host, digits);
    HostAndPortParts(host, digits);
    DecimalTextParses(port);
    assert DecimalText(port) == digits;
  }

  /** Removing the scheme from a written URI leaves exactly `host:digits`. */
  lemma SchemeRemoved(host: string, digits: string)
    requires ':' !in host && AllDigits(digits)
    ensures var uri := ThriftScheme + host + ":" + digits;
      StartsWith(uri, ThriftScheme) && ReplaceAll(uri, ThriftScheme, "") == host + ":" + digits
  {
    var rest := host + ":" + digits;
    var uri := ThriftScheme + host + ":" + digits;
    assert uri == ThriftScheme + rest;
    assert uri[..|ThriftScheme|] == ThriftScheme;
    assert uri[|ThriftScheme|..] == rest;
    var tail := ":" + digits;
    assert forall j :: 1 <= j < |tail| ==> tail[j] == digits[j - 1];
    assert rest == host + tail;
    NoSchemeInside(host, tail);
    ReplaceAllAbsent(rest, ThriftScheme, "");
    assert ReplaceAll(uri, ThriftScheme, "") == "" + rest == rest;
  }

  /** `host:digits` splits on `:` into the host and the digits. */
  lemma HostAndPortParts(host: string, digits: string)
    requires ':' !in host && AllDigits(digits)
    ensures Split(host + ":" + digits, ':') == [host, digits]
  {
    SplitAtFirst(host, ':', digits);
    assert host + ":" + digits == host + [':'] + digits;
    assert ':' !in digits by {
      forall j | 0 <= j < |digits| ensures digits[j] != ':' {
        assert IsDigit(digits[j]);
      }
    }
    SplitWithoutSeparator(digits, ':');
  }

  /** Every entry of the file layer is a connection field or a `SETTINGS` entry, and
      `SETTINGS` wins over the URI and `HIVE_CONNECT_INFO`. */
  lemma SettingsOverride(info: Config, settings: Config)
    requires LoadFromFile(Present(info, settings)).Ok?
    ensures var c := LoadFromFile(Present(info, settings)).value;
      c.Keys == ConnectionKeys + settings.Keys &&
      forall k :: k in settings ==> c[k] == settings[k]
  {
  }

  /** Without `SETTINGS` the file layer is the URI's host and port and the three fields,
      each field defaulting as `HiveConfig::new` does. */
  lemma FileConnectionFields(info: Config)
    requires "uri" in info && info["uri"].Str? && ParseUri(info["uri"].text).Ok?
    ensures var c := LoadFromFile(Present(info, map[])).value;
      var hostPort := ParseUri(info["uri"].text).value;
      c["host"] == Str(hostPort.0) && c["port"] == Int(hostPort.1) &&
      c["username"] == GetOr(info, "username", Str(DefaultHiveConfig().username)) &&
      c["database"] == GetOr(info, "database", Str(DefaultHiveConfig().database)) &&
      c["auth"] == GetOr(info, "auth", Str(DefaultHiveConfig().auth))
  {
    DefaultValues();
  }

  /** Without a URI the file layer connects to `localhost:10000`. */
  lemma MissingUriIsLocalDefault(info: Config)
    requires "uri" !in info
    ensures LoadFromFile(Present(info, map[])).Ok?
    ensures var c := LoadFromFile(Present(info, map[])).value;
      c["host"] == Str("localhost") && c["port"] == Int(10000)
  {
    assert GetOr(info, "uri", Str(DefaultUri)) == Str(DefaultUri);
    DefaultUriParts();
    var derived := map["host" := Str("localhost"), "port" := Int(10000),
                       "username" := GetOr(info, "username", Str("default")),
                       "database" := GetOr(info, "database", Str("default")),
                       "auth" := GetOr(info, "auth", Str("NONE"))];
    assert LoadFromFile(Present(info, map[])) == Ok(derived + map[]);
    assert derived + map[] == derived;
  }

  /** The URI used when `HIVE_CONNECT_INFO` has none names `localhost:10000`. */
  lemma DefaultUriParts()
    ensures ParseUri(DefaultUri) == Ok(("localhost", 10000))
  {
    PortText();
    assert DefaultUri == ThriftScheme + "localhost" + ":" + NatText(10000);
    UriRoundTrip("localhost", 10000);
  }

  lemma PortText()
    ensures NatText(10000) == "10000"
  {
    assert NatText(1) == "1";
    assert NatText(10) == NatText(1) + "0" == "10";
    assert NatText(100) == NatText(10) + "0" == "100";
    assert NatText(1000) == NatText(100) + "0" == "1000";
    assert NatText(10000) == NatText(1000) + "0";
  }

  /** The file layer fails only on its URI: not a string, or a port that is not an integer. */
  lemma FileFailsOnlyOnUri(info: Config, settings: Config)
    ensures LoadFromFile(Present(info, settings)).Err? <==>
      var uri := GetOr(info, "uri", Str(DefaultUri));
      !uri.Str? || ParseUri(uri.text).Err?
  {
    if "uri" !in info {
      MissingUriIsLocalDefault(info);
    }
  }

  /** Gathering fails iff some variable is set to text its kind cannot read, and the
      error is the one the first such variable raises. */
  lemma {:induction false} GatherFailsOnFirst(env: map<string, string>, entries: seq<EnvEntry>)
    ensures Gather(env, entries).Ok? <==> forall i :: 0 <= i < |entries| ==> Converts(env, entries[i])
    ensures Gather(env, entries).Err? ==>
      exists i :: 0 <= i < |entries| && !Converts(env, entries[i]) &&
        (forall j :: 0 <= j < i ==> Converts(env, entries[j])) &&
        Gather(env, entries).error == Convert(entries[i].kind, env[entries[i].variable]).error
    decreases |entries|
  {
    if |entries| > 0 {
      var init := entries[..|entries| - 1];
      GatherFailsOnFirst(env, init);
      assert forall i :: 0 <= i < |init| ==> init[i] == entries[i];
    }
  }

  /** With distinct keys, a key is gathered iff its variable is set, holding the
      variable's converted text, and nothing else is gathered. */
  lemma {:induction false} GatherLookup(env: map<string, string>, entries: seq<EnvEntry>)
    requires DistinctKeys(entries) && Gather(env, entries).Ok?
    ensures var c := Gather(env, entries).value;
      (forall i :: 0 <= i < |entries| ==>
        (entries[i].key in c <==> IsSet(env, entries[i].variable)) &&
        (IsSet(env, entries[i].variable) ==>
           (Convert(entries[i].kind, env[entries[i].variable]).Ok? &&
            c[entries[i].key] == Convert(entries[i].kind, env[entries[i].variable]).value))) &&
      (forall k :: k in c ==> exists i :: 0 <= i < |entries| && entries[i].key == k)
    decreases |entries|
  {
    if |entries| > 0 {
      var n := |entries| - 1;
      var init := entries[..n];
      assert DistinctKeys(init);
      GatherFailsOnFirst(env, entries);
      GatherFailsOnFirst(env, init);
      GatherLookup(env, init);
      var c0 := Gather(env, init).value;
      var c := Gather(env, entries).value;
      forall i | 0 <= i < |entries|
        ensures (entries[i].key in c <==> IsSet(env, entries[i].variable))
        ensures IsSet(env, entries[i].variable) ==>
          (Convert(entries[i].kind, env[entries[i].variable]).Ok? &&
           c[entries[i].key] == Convert(entries[i].kind, env[entries[i].variable]).value)
      {
        if i < n {
          assert init[i] == entries[i];
          assert entries[i].key != entries[n].key;
        }
      }
      forall k | k in c ensures exists i :: 0 <= i < |entries| && entries[i].key == k {
        if k in c0 {
          var i :| 0 <= i < |init| && init[i].key == k;
          assert entries[i].key == k;
        } else {
          assert entries[n].key == k;
        }
      }
    }
  }

  lemma EnvEntriesDistinct()
    ensures DistinctKeys(EnvEntries)
  {

  }

  /** An environment key is set only by its non-empty variable, and only the nine keys are set. */
  lemma EnvKeySetOnlyWhenVariableSet(env: map<string, string>)
    requires EnvConfig(env).Ok?
    ensures var c := EnvConfig(env).value;
      (forall i :: 0 <= i < |EnvEntries| ==> (EnvEntries[i].key in c <==> IsSet(env, EnvEntries[i].variable))) &&
      (forall k :: k in c ==> exists i :: 0 <= i < |EnvEntries| && EnvEntries[i].key == k)
  {
    EnvEntriesDistinct();
    GatherLookup(env, EnvEntries);
  }

  /** `use_beeline` from the environment is true iff `USE_BEELINE` lower-cases to `true`. */
  lemma EnvBeelineFlag(env: map<string, string>)
    requires EnvConfig(env).Ok?
    ensures var c := EnvConfig(env).value;
      ("use_beeline" in c <==> IsSet(env, "USE_BEELINE")) &&
      ("use_beeline" in c ==> c["use_beeline"] == Bool(AsciiLower(env["USE_BEELINE"]) == "true"))
  {
    EnvEntriesDistinct();
    GatherLookup(env, EnvEntries);
    assert EnvEntries[5] == EnvEntry("USE_BEELINE", "use_beeline", AsFlag);
  }

  /** The environment's port is `int()` of `HIVE_PORT`. */
  lemma EnvPort(env: map<string, string>)
    requires EnvConfig(env).Ok? && IsSet(env, "HIVE_PORT")
    ensures "port" in EnvConfig(env).value && ParseInt(env["HIVE_PORT"]).Some?
    ensures EnvConfig(env).value["port"] == Int(ParseInt(env["HIVE_PORT"]).value)
  {
    EnvEntriesDistinct();
    GatherLookup(env, EnvEntries);
    assert EnvEntries[1] == EnvEntry("HIVE_PORT", "port", AsInteger);
  }

  /** The environment layer fails iff a numeric variable is set to text `int()` rejects. */
  lemma EnvFailsOnNonInteger(env: map<string, string>)
    ensures EnvConfig(env).Err? <==>
      exists i :: 0 <= i < |EnvEntries| && EnvEntries[i].kind == AsInteger && IsSet(env, EnvEntries[i].variable) &&
        ParseInt(env[EnvEntries[i].variable]).None?
  {
    GatherFailsOnFirst(env, EnvEntries);
  }

  /** An empty environment adds nothing. */
  lemma {:induction false} GatherNothingSet(env: map<string, string>, entries: seq<EnvEntry>)
    requires forall i :: 0 <= i < |entries| ==> !IsSet(env, entries[i].variable)
    ensures Gather(env, entries) == Ok(map[])
    decreases |entries|
  {
    if |entries| > 0 {
      GatherNothingSet(env, entries[..|entries| - 1]);
    }
  }

  /** Each key comes from the highest layer that has it: environment over file over defaults. */
  lemma Precedence(file: ConfigFile, env: map<string, string>, k: string)
    requires MergedConfig(file, env).Ok?
    ensures var c, f, e := MergedConfig(file, env).value, LoadFromFile(file).value, EnvConfig(env).value;
      (k in c <==> k in DefaultConfig() || k in f || k in e) &&
      (k in e ==> c[k] == e[k]) &&
      (k !in e && k in f ==> c[k] == f[k]) &&
      (k !in e && k !in f && k in DefaultConfig() ==> c[k] == DefaultConfig()[k])
  {
  }

  /** Without `config.py` and with no variable set the configuration is the defaults. */
  lemma NothingGivenGivesDefaults(env: map<string, string>)
    requires forall i :: 0 <= i < |EnvEntries| ==> !IsSet(env, EnvEntries[i].variable)
    ensures MergedConfig(Missing, env) == Ok(DefaultConfig())
  {
    GatherNothingSet(env, EnvEntries);
    assert DefaultConfig() + map[] + map[] == DefaultConfig();
  }

  /** Without `config.py` the configuration is the defaults under the environment layer. */
  lemma MissingFileKeepsDefaultsAndEnv(env: map<string, string>)
    requires EnvConfig(env).Ok?
    ensures MergedConfig(Missing, env) == Ok(DefaultConfig() + EnvConfig(env).value)
  {
    assert DefaultConfig() + map[] == DefaultConfig();
  }

  /** A manager built by the merge always answers all five connection keys with the merged values. */
  lemma HiveConfigOfMerged(file: ConfigFile, env: map<string, string>)
    requires MergedConfig(file, env).Ok?
    ensures var m := ConfigManager(MergedConfig(file, env).value);
      forall k :: k in ConnectionKeys ==> k in m.config && m.GetHiveConfig()[k] == m.config[k]
  {
  }
}
