/**
 The configuration loader: the `Config` record, the derivation of its
 MySQL-driver connection string, and the ordered checks of `LoadConfig`.
 The process environment, the file system, and the outcomes of viper's
 parsing and decoding are inputs.
 */
module Cfg {
  import opened Wrappers
  import Fmt
  import Viper

  /** The loaded settings; every field but `DBUrl` comes from a file key. */
  datatype Config = Config(
    Environment: string,  // ENVIRONMENT
    Host: string,         // HOST
    Port: string,         // PORT
    DBUsername: string,   // MYSQL_USER
    DBPassword: string,   // MYSQL_PASS
    DBHost: string,       // MYSQL_HOST
    DBPort: string,       // MYSQL_PORT
    DBName: string,       // MYSQL_DB
    DBNameTest: string,   // MYSQL_DB_TEST
    AppDomain: string,    // APP_DOMAIN
    DBUrl: string)        // derived, never read from the file

  /** Go's zero value `Config{}`: every field is the empty string. */
  const ZeroConfig := Config("", "", "", "", "", "", "", "", "", "", "")

  /** The failure kinds of `LoadConfig`; the last two wrap viper's error text. */
  datatype LoadError =
    | MissingPath
    | NotFound
    | EmptyFile
    | ReadFailed(cause: string)
    | UnmarshalFailed(cause: string)

  const DBUrlFormat := "%s:%s@tcp(%s:%s)/%s?parseTime=true"
  const ParseTimeQuery := "?parseTime=true"

  /** The database the connection string names: the test one exactly when the environment is "test". */
  function DatabaseName(c: Config): (name: string)
    ensures name == c.DBNameTest || name == c.DBName
    ensures c.Environment == "test" ==> name == c.DBNameTest
    ensures c.Environment != "test" ==> name == c.DBName
  {
    if c.Environment == "test" then c.DBNameTest else c.DBName
  }

  /** Everything in the connection string before the database name. */
  function DsnPrefix(c: Config): string
  {
    c.DBUsername + ":" + c.DBPassword + "@tcp(" + c.DBHost + ":" + c.DBPort + ")/"
  }

  /** The literal pieces of the connection-string format, around its five `%s` verbs. */
  const DBUrlPieces := ["", ":", "@tcp(", ":", ")/", ParseTimeQuery]

  /** The template of the pieces, unfolded. */
  lemma PiecesTemplate()
    ensures Fmt.Template(DBUrlPieces)
         == "" + ("%s" + (":" + ("%s" + ("@tcp(" + ("%s" + (":" + ("%s" + (")/" + ("%s" + ParseTimeQuery)))))))))
  {
    var pieces := DBUrlPieces;
    assert Fmt.Template(pieces[5..]) == ParseTimeQuery;
    assert Fmt.Template(pieces[4..]) == ")/" + ("%s" + Fmt.Template(pieces[5..]));
    assert Fmt.Template(pieces[3..]) == ":" + ("%s" + Fmt.Template(pieces[4..]));
    assert Fmt.Template(pieces[2..]) == "@tcp(" + ("%s" + Fmt.Template(pieces[3..]));
    assert Fmt.Template(pieces[1..]) == ":" + ("%s" + Fmt.Template(pieces[2..]));
  }

  /** The format text up to the third verb, merged. */
  lemma FormatFront()
    ensures "" + "%s" + ":" + "%s" + "@tcp(" + "%s" == "%s:%s@tcp(%s"
  {
  }

  /** The rest of the format text, merged. */
  lemma FormatBack()
    ensures "%s:%s@tcp(%s" + ":" + "%s" + ")/" + "%s" + ParseTimeQuery == DBUrlFormat
  {
  }

  /** The nested template regrouped as a left-to-right concatenation. */
  lemma Reassociate(s: string)
    ensures s + ("%s" + (":" + ("%s" + ("@tcp(" + ("%s" + (":" + ("%s" + (")/" + ("%s" + ParseTimeQuery)))))))))
         == s + "%s" + ":" + "%s" + "@tcp(" + "%s" + ":" + "%s" + ")/" + "%s" + ParseTimeQuery
  {
  }

  /** The connection-string format is its pieces joined by `%s`. */
  lemma FormatIsTemplate()
    ensures Fmt.Template(DBUrlPieces) == DBUrlFormat
  {
    PiecesTemplate();
    Reassociate("");
    FormatFront();
    FormatBack();
  }

  /** The pieces interleaved with five operands, written out. */
  lemma InterleaveLayout(user: string, pass: string, host: string, port: string, db: string)
    ensures Fmt.Interleave(DBUrlPieces, [user, pass, host, port, db])
         == user + ":" + pass + "@tcp(" + host + ":" + port + ")/" + db + ParseTimeQuery
  {
    var pieces, args := DBUrlPieces, [user, pass, host, port, db];
    assert Fmt.Interleave(pieces[5..], args[5..]) == ParseTimeQuery;
    assert Fmt.Interleave(pieces[4..], args[4..]) == ")/" + (db + ParseTimeQuery);
    assert Fmt.Interleave(pieces[3..], args[3..]) == ":" + (port + (")/" + (db + ParseTimeQuery)));
    assert Fmt.Interleave(pieces[2..], args[2..])
        == "@tcp(" + (host + (":" + (port + (")/" + (db + ParseTimeQuery)))));
    assert Fmt.Interleave(pieces[1..], args[1..])
        == ":" + (pass + ("@tcp(" + (host + (":" + (port + (")/" + (db + ParseTimeQuery)))))));
  }

  /** The connection-string format, applied to five operands, is their plain concatenation with its literals. */
  lemma DsnLayout(user: string, pass: string, host: string, port: string, db: string)
    ensures Fmt.Supported(DBUrlFormat)
    ensures Fmt.Sprintf(DBUrlFormat, [user, pass, host, port, db])
         == user + ":" + pass + "@tcp(" + host + ":" + port + ")/" + db + ParseTimeQuery
  {
    FormatIsTemplate();
    Fmt.TemplateSprintf(DBUrlPieces, [user, pass, host, port, db]);
    InterleaveLayout(user, pass, host, port, db);
  }

  /** `constructDBUrl`: the MySQL-driver connection string of a configuration. */
  function ConstructDBUrl(c: Config): (url: string)
    ensures url == DsnPrefix(c) + DatabaseName(c) + ParseTimeQuery
  {
    DsnLayout(c.DBUsername, c.DBPassword, c.DBHost, c.DBPort, DatabaseName(c));
    Fmt.Sprintf(DBUrlFormat, [c.DBUsername, c.DBPassword, c.DBHost, c.DBPort, DatabaseName(c)])
  }

  /** The part of a connection string for `c` between its prefix and the query. */
  function DatabaseSegment(url: string, c: Config): string
    requires |DsnPrefix(c)| + |ParseTimeQuery| <= |url|
  {
    url[|DsnPrefix(c)|..|url| - |ParseTimeQuery|]
  }

  /** The middle of a three-part concatenation, cut out by the lengths of its ends. */
  lemma MiddleOf(front: string, middle: string, back: string)
    ensures |front| + |back| <= |front + middle + back|
    ensures (front + middle + back)[|front|..|front + middle + back| - |back|] == middle
  {
    var whole := front + middle + back;
    assert whole == front + (middle + back);
    assert whole[|front|..] == middle + back;
  }

  /** The database segment of the connection string is exactly the selected name. */
  lemma SegmentIsDatabaseName(c: Config)
    ensures |DsnPrefix(c)| + |ParseTimeQuery| <= |ConstructDBUrl(c)|
    ensures DatabaseSegment(ConstructDBUrl(c), c) == DatabaseName(c)
  {
    MiddleOf(DsnPrefix(c), DatabaseName(c), ParseTimeQuery);
  }

  /** In the "test" environment the connection string names `DBNameTest`. */
  lemma TestEnvironmentUsesTestDatabase(c: Config)
    requires c.Environment == "test"
    ensures |DsnPrefix(c)| + |ParseTimeQuery| <= |ConstructDBUrl(c)|
    ensures DatabaseSegment(ConstructDBUrl(c), c) == c.DBNameTest
  {
    SegmentIsDatabaseName(c);
  }

  /** In every other environment, compared exactly and case-sensitively, it names `DBName`. */
  lemma OtherEnvironmentUsesDatabase(c: Config)
    requires c.Environment != "test"
    ensures |DsnPrefix(c)| + |ParseTimeQuery| <= |ConstructDBUrl(c)|
    ensures DatabaseSegment(ConstructDBUrl(c), c) == c.DBName
  {
    SegmentIsDatabaseName(c);
  }

  /** A prefix stays a prefix when more text is appended. */
  lemma PrefixExtends(a: string, b: string, tail: string)
    requires a <= b
    ensures a <= b + tail
  {
  }

  /** The connection string starts with the user name and a colon and ends with the parseTime query. */
  lemma DBUrlAffixes(c: Config)
    ensures c.DBUsername + ":" <= ConstructDBUrl(c)
    ensures |ParseTimeQuery| <= |ConstructDBUrl(c)|
    ensures ConstructDBUrl(c)[|ConstructDBUrl(c)| - |ParseTimeQuery|..] == ParseTimeQuery
  {
    // one prefix step per appended piece; without them the solver exceeds its budget
    var head := c.DBUsername + ":";
    PrefixExtends(head, head, c.DBPassword);
    PrefixExtends(head, head + c.DBPassword, "@tcp(");
    PrefixExtends(head, head + c.DBPassword + "@tcp(", c.DBHost);
    PrefixExtends(head, head + c.DBPassword + "@tcp(" + c.DBHost, ":");
    PrefixExtends(head, head + c.DBPassword + "@tcp(" + c.DBHost + ":", c.DBPort);
    PrefixExtends(head, head + c.DBPassword + "@tcp(" + c.DBHost + ":" + c.DBPort, ")/");
    PrefixExtends(head, DsnPrefix(c), DatabaseName(c));
    PrefixExtends(head, DsnPrefix(c) + DatabaseName(c), ParseTimeQuery);
  }

  /** The service's own bind address, the app domain and any stale `DBUrl` do not affect the connection string. */
  lemma IgnoresUnrelatedFields(c: Config, host: string, port: string, domain: string, dbUrl: string)
    ensures ConstructDBUrl(c.(Host := host, Port := port, AppDomain := domain, DBUrl := dbUrl))
         == ConstructDBUrl(c)
  {
  }

  /**
   For configurations with the same credentials and address, the connection
   strings are equal exactly when the selected database names are.
   */
  lemma UrlDeterminesDatabaseName(c1: Config, c2: Config)
    requires DsnPrefix(c1) == DsnPrefix(c2)
    ensures ConstructDBUrl(c1) == ConstructDBUrl(c2) <==> DatabaseName(c1) == DatabaseName(c2)
  {
    if ConstructDBUrl(c1) == ConstructDBUrl(c2) {
      SegmentIsDatabaseName(c1);
      SegmentIsDatabaseName(c2);
    }
  }

  /** A configuration whose `DBUrl` is the one derived from its other fields. */
  predicate UrlConsistent(c: Config)
  {
    c.DBUrl == ConstructDBUrl(c)
  }

  /** Filling in `DBUrl` yields a consistent configuration, and recomputing it changes nothing. */
  lemma FillUrlIsIdempotent(c: Config)
    ensures UrlConsistent(c.(DBUrl := ConstructDBUrl(c)))
    ensures var d := c.(DBUrl := ConstructDBUrl(c)); d.(DBUrl := ConstructDBUrl(d)) == d
  {
    IgnoresUnrelatedFields(c, c.Host, c.Port, c.AppDomain, ConstructDBUrl(c));
  }

  /** The database settings of the repository's own test scenarios. */
  predicate ScenarioDatabase(c: Config)
  {
    c.DBUsername == "root" && c.DBPassword == "password" && c.DBHost == "127.0.0.1" &&
    c.DBPort == "3306" && c.DBName == "mydb" && c.DBNameTest == "mydb_test"
  }

  /** The literal text of the scenario URLs, merged piece by piece. */
  lemma ScenarioPrefixText()
    ensures "root" + ":" + "password" + "@tcp(" + "127.0.0.1" + ":" + "3306" + ")/"
         == "root:password@tcp(127.0.0.1:3306)/"
  {
  }

  lemma ProductionUrlText()
    ensures "root:password@tcp(127.0.0.1:3306)/" + "mydb" + ParseTimeQuery
         == "root:password@tcp(127.0.0.1:3306)/mydb?parseTime=true"
  {
  }

  lemma TestUrlText()
    ensures "root:password@tcp(127.0.0.1:3306)/" + "mydb_test" + ParseTimeQuery
         == "root:password@tcp(127.0.0.1:3306)/mydb_test?parseTime=true"
  {
  }

  /** The production scenario: the URL names `mydb`, whatever the other fields hold. */
  lemma ProductionScenario(c: Config)
    requires ScenarioDatabase(c) && c.Environment == "production"
    ensures ConstructDBUrl(c) == "root:password@tcp(127.0.0.1:3306)/mydb?parseTime=true"
  {
    ScenarioPrefixText();
    ProductionUrlText();
    assert DatabaseName(c) == "mydb";
    assert DsnPrefix(c) == "root:password@tcp(127.0.0.1:3306)/";
  }

  /** The test scenario: the URL names `mydb_test`. */
  lemma TestScenario(c: Config)
    requires ScenarioDatabase(c) && c.Environment == "test"
    ensures ConstructDBUrl(c) == "root:password@tcp(127.0.0.1:3306)/mydb_test?parseTime=true"
  {
    ScenarioPrefixText();
    TestUrlText();
    assert DatabaseName(c) == "mydb_test";
    assert DsnPrefix(c) == "root:password@tcp(127.0.0.1:3306)/";
  }

  const CfgPathVariable := "CFG_PATH"

  /** `os.Getenv`: the value of a variable, the empty string when it is unset. */
  function Getenv(env: map<string, string>, key: string): (value: string)
    ensures key !in env ==> value == ""
    ensures key in env ==> value == env[key]
  {
    if key in env then env[key] else ""
  }

  function CfgPath(env: map<string, string>): string
  {
    Getenv(env, CfgPathVariable)
  }

  /** The configuration file `<dir>/<name>.env`. */
  function ConfigFile(dir: string, name: string): (file: string)
    ensures dir + "/" <= file
    ensures |file| == |dir| + 1 + |name| + 4
    ensures file[|dir| + 1..|file| - 4] == name
    ensures file[|file| - 4..] == ".env"
  {
    dir + "/" + name + ".env"
  }

  /**
   `LoadConfig(name)`. `env` is the process environment, `fs` maps each file
   that can be stat-ed to its size, `readError` is the error of viper's
   `ReadInConfig` (None when it succeeds) and `unmarshalled` the outcome of
   viper's `Unmarshal`. The result pairs a configuration with an optional
   error, as Go's `(Config, error)` does.
   */
  method LoadConfig(v: Viper.Registry, env: map<string, string>, fs: map<string, nat>, name: string,
                    readError: Option<string>, unmarshalled: Result<Config, string>)
    returns (config: Config, err: Option<LoadError>)
    modifies v
    // the path check comes first and leaves viper untouched
    ensures CfgPath(env) == "" ==> err == Some(MissingPath)
    ensures CfgPath(env) == "" ==>
      v.configPaths == old(v.configPaths) && v.configName == old(v.configName) &&
      v.configType == old(v.configType) && v.automaticEnv == old(v.automaticEnv)
    ensures CfgPath(env) != "" ==>
      v.configPaths == (if CfgPath(env) in old(v.configPaths) then old(v.configPaths)
                        else old(v.configPaths) + [CfgPath(env)]) &&
      v.configName == (if name == "" then old(v.configName) else name) &&
      v.configType == "env" && v.automaticEnv
    // then the file checks, before any parsing
    ensures CfgPath(env) != "" && ConfigFile(CfgPath(env), name) !in fs ==> err == Some(NotFound)
    ensures CfgPath(env) != "" && ConfigFile(CfgPath(env), name) in fs &&
            fs[ConfigFile(CfgPath(env), name)] == 0 ==>
            err == Some(EmptyFile)
    // then reading and decoding
    ensures CfgPath(env) != "" && ConfigFile(CfgPath(env), name) in fs &&
            fs[ConfigFile(CfgPath(env), name)] > 0 && readError.Some? ==>
            err == Some(ReadFailed(readError.value))
    ensures CfgPath(env) != "" && ConfigFile(CfgPath(env), name) in fs &&
            fs[ConfigFile(CfgPath(env), name)] > 0 && readError.None? && unmarshalled.Err? ==>
            err == Some(UnmarshalFailed(unmarshalled.error))
    ensures CfgPath(env) != "" && ConfigFile(CfgPath(env), name) in fs &&
            fs[ConfigFile(CfgPath(env), name)] > 0 && readError.None? && unmarshalled.Ok? ==>
            err == None && config == unmarshalled.value.(DBUrl := ConstructDBUrl(unmarshalled.value))
    // an error never comes with a populated configuration
    ensures err.Some? ==> config == ZeroConfig
    ensures err.None? ==> UrlConsistent(config)
  {
    var cfgPath := Getenv(env, CfgPathVariable);
    if cfgPath == "" {
      return ZeroConfig, Some(MissingPath);
    }

    v.AddConfigPath(cfgPath);
    v.SetConfigName(name);
    v.SetConfigType("env");
    v.AutomaticEnv();

    var cfgFile := ConfigFile(cfgPath, name);
    if cfgFile !in fs {
      return ZeroConfig, Some(NotFound);
    }
    if fs[cfgFile] == 0 {
      return ZeroConfig, Some(EmptyFile);
    }

    if readError.Some? {
      return ZeroConfig, Some(ReadFailed(readError.value));
    }

    if unmarshalled.Err? {
      return ZeroConfig, Some(UnmarshalFailed(unmarshalled.error));
    }
    config := unmarshalled.value;

    config := config.(DBUrl := ConstructDBUrl(config));
    FillUrlIsIdempotent(unmarshalled.value);
    err := None;
  }

  /**
   Loading twice from the same environment, files and decoder outcomes gives
   the same configuration and error both times and registers nothing new the
   second time.
   */
  method LoadTwice(v: Viper.Registry, env: map<string, string>, fs: map<string, nat>, name: string,
                   readError: Option<string>, unmarshalled: Result<Config, string>)
    returns (first: Config, firstErr: Option<LoadError>, second: Config, secondErr: Option<LoadError>)
    modifies v
    ensures first == second && firstErr == secondErr
    ensures v.configPaths == if CfgPath(env) == "" || CfgPath(env) in old(v.configPaths) then old(v.configPaths)
                             else old(v.configPaths) + [CfgPath(env)]
    ensures CfgPath(env) == "" ==>
      v.configName == old(v.configName) && v.configType == old(v.configType) &&
      v.automaticEnv == old(v.automaticEnv)
    ensures CfgPath(env) != "" ==>
      v.configName == (if name == "" then old(v.configName) else name) &&
      v.configType == "env" && v.automaticEnv
  {
    first, firstErr := LoadConfig(v, env, fs, name, readError, unmarshalled);
    ghost var between := v.configPaths;
    second, secondErr := LoadConfig(v, env, fs, name, readError, unmarshalled);
    assert v.configPaths == between;
  }

  /**
   The test with a complete file under `CFG_PATH`: `decoded` is what viper
   decodes from it, and the loader returns it with the connection string filled in.
   */
  method LoadCompleteFile(decoded: Config) returns (loaded: Config, err: Option<LoadError>)
    requires ScenarioDatabase(decoded) && decoded.Environment == "production"
    requires decoded.Host == "localhost" && decoded.Port == "8080" && decoded.AppDomain == "example.com"
    ensures err == None
    ensures loaded.Environment == "production" && loaded.Host == "localhost" && loaded.Port == "8080"
    ensures loaded.AppDomain == "example.com" && ScenarioDatabase(loaded)
    ensures loaded.DBUrl == "root:password@tcp(127.0.0.1:3306)/mydb?parseTime=true"
  {
    assert ConfigFile("/cfg", "config") == "/cfg/config.env" by {
      assert "/cfg" + "/" == "/cfg/";
      assert "/cfg/" + "config" == "/cfg/config";
    }
    var v := new Viper.Registry();
    loaded, err := LoadConfig(v, map[CfgPathVariable := "/cfg"], map["/cfg/config.env" := 160], "config",
                              None, Ok(decoded));
    ProductionScenario(decoded);
  }

  /** The test with `CFG_PATH` unset: the loader fails whatever the file system and viper hold. */
  method LoadUnsetPath(fs: map<string, nat>, readError: Option<string>, unmarshalled: Result<Config, string>)
    returns (loaded: Config, err: Option<LoadError>)
    ensures err == Some(MissingPath) && loaded == ZeroConfig
  {
    var v := new Viper.Registry();
    loaded, err := LoadConfig(v, map[], fs, "config", readError, unmarshalled);
  }

  /** The test with an empty file under `CFG_PATH`: the loader fails whatever viper would report. */
  method LoadEmptyFile(readError: Option<string>, unmarshalled: Result<Config, string>)
    returns (loaded: Config, err: Option<LoadError>)
    ensures err == Some(EmptyFile) && loaded == ZeroConfig
  {
    assert ConfigFile("/empty", "config") == "/empty/config.env" by {
      assert "/empty" + "/" == "/empty/";
      assert "/empty/" + "config" == "/empty/config";
    }
    var v := new Viper.Registry();
    loaded, err := LoadConfig(v, map[CfgPathVariable := "/empty"], map["/empty/config.env" := 0], "config",
                              readError, unmarshalled);
  }
}
