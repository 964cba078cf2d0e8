/** The configuration layer of app/config.py: choosing the configuration file
    from the `ENV` environment variable, and building the typed application
    and logging configuration from the parsed INI sections.

    The process environment is a parameter; reading and parsing the file is
    not modelled, the parsed file is given as a map from section name to the
    options of that section. */
module Config {
  import opened Wrappers

  /** The ways configuration can fail. */
  datatype ConfigError =
    | EnvNotSet                                   // ENV unset or empty
    | UnknownEnv(env: string)                     // ENV not in the allow-list (as given, not lower-cased)
    | NoSection(section: string)                  // configparser.NoSectionError
    | NoOption(section: string, option: string)   // configparser.NoOptionError
    | NotABoolean(value: string)                  // ValueError from getboolean

  /** A parsed INI file: section name to option name to (interpolated) value,
      for every section but `[DEFAULT]`, whose options join the defaults. */
  type Ini = map<string, map<string, string>>

  /** ConfigLoader._allowed_envs. */
  const ALLOWED_ENVS: seq<string> := ["test", "local", "development", "staging", "production"]

  /** The file read when the environment is `test`. */
  const TEST_CONFIG_PATH: string := "tests/resources/config/test.ini"

  /** The directory holding the file of every other environment. */
  const CONFIG_DIR: string := "/app/config/"

  const INI_SUFFIX: string := ".ini"

  // ---------------------------------------------------------------------------
  // Lower-casing (str.lower, restricted to ASCII letters)

  predicate IsUpper(c: char) {
    'A' <= c <= 'Z'
  }

  function LowerChar(c: char): (r: char)
    ensures !IsUpper(r)
    ensures !IsUpper(c) ==> r == c
    ensures IsUpper(c) ==> r as int - 'a' as int == c as int - 'A' as int
  {
    if IsUpper(c) then (c as int - 'A' as int + 'a' as int) as char else c
  }

  /** s lower-cased, one character at a time. */
  function Lower(s: string): (r: string)
    ensures |r| == |s|
    ensures forall i :: 0 <= i < |s| ==> r[i] == LowerChar(s[i])
  {
    if s == "" then "" else [LowerChar(s[0])] + Lower(s[1..])
  }

  /** Lower-casing a string twice changes nothing more. */
  lemma LowerIdempotent(s: string)
    ensures Lower(Lower(s)) == Lower(s)
  {
  }

  /** A string without upper-case letters is its own lower-casing; so are the allowed names. */
  lemma LowerOfLowerCase(s: string)
    requires forall i :: 0 <= i < |s| ==> !IsUpper(s[i])
    ensures Lower(s) == s
  {
  }

  lemma AllowedEnvsAreLowerCase()
    ensures forall e :: e in ALLOWED_ENVS ==> Lower(e) == e
  {
    forall e | e in ALLOWED_ENVS
      ensures Lower(e) == e
    {
      LowerOfLowerCase(e);
    }
  }

  // ---------------------------------------------------------------------------
  // ConfigLoader._get_config_file_path

  /** s ends with suffix. */
  predicate EndsWith(s: string, suffix: string) {
    |suffix| <= |s| && s[|s| - |suffix|..] == suffix
  }

  /** The path of the configuration file selected by the value of `ENV`
      (None when the variable is unset): an unset or empty value and a name
      outside the allow-list are errors; the name is matched lower-cased. */
  function ConfigFilePath(env: Option<string>): (r: Result<string, ConfigError>)
    ensures r.Ok? <==> env.Some? && Lower(env.value) in ALLOWED_ENVS
    ensures r.Ok? ==> EndsWith(r.value, INI_SUFFIX)
  {
    if env.None? || env.value == "" then
      Err(EnvNotSet)
    else if Lower(env.value) !in ALLOWED_ENVS then
      Err(UnknownEnv(env.value))
    else
      var lowerEnv := Lower(env.value);
      Ok(if lowerEnv == "test" then TEST_CONFIG_PATH else CONFIG_DIR + lowerEnv + INI_SUFFIX)
  }

  /** An unset or empty `ENV` is reported as such, and no path is produced. */
  lemma UnsetEnvIsError(env: Option<string>)
    requires env.None? || env.value == ""
    ensures ConfigFilePath(env) == Err(EnvNotSet)
  {
  }

  /** A non-empty `ENV` whose lower-cased value is not allowed is reported,
      with the value as given. */
  lemma UnknownEnvIsError(env: string)
    requires env != "" && Lower(env) !in ALLOWED_ENVS
    ensures ConfigFilePath(Some(env)) == Err(UnknownEnv(env))
  {
  }

  /** `test`, in any case, selects the test fixture. */
  lemma TestEnvSelectsFixture(env: string)
    requires Lower(env) == "test"
    ensures ConfigFilePath(Some(env)) == Ok(TEST_CONFIG_PATH)
  {
  }

  /** Every other allowed name selects its own file in the configuration directory. */
  lemma OtherEnvSelectsConfigDir(env: string)
    requires Lower(env) in ALLOWED_ENVS && Lower(env) != "test"
    ensures ConfigFilePath(Some(env)) == Ok(CONFIG_DIR + Lower(env) + INI_SUFFIX)
  {
  }

  /** Matching ignores case: two values with the same lower-casing are both
      accepted or both rejected, and select the same file. */
  lemma EnvCaseInsensitive(a: string, b: string)
    requires Lower(a) == Lower(b)
    ensures ConfigFilePath(Some(a)).Ok? == ConfigFilePath(Some(b)).Ok?
    ensures ConfigFilePath(Some(a)).Ok? ==> ConfigFilePath(Some(a)).value == ConfigFilePath(Some(b)).value
    ensures ConfigFilePath(Some(a)).Err? ==> ConfigFilePath(Some(a)).error.EnvNotSet? == ConfigFilePath(Some(b)).error.EnvNotSet?
  {
  }

  /** The allowed names, one by one. */
  lemma AllowedEnvCases(e: string)
    requires e in ALLOWED_ENVS
    ensures e == "test" || e == "local" || e == "development" || e == "staging" || e == "production"
  {
  }

  lemma DeploymentPaths(e: string)
    requires e == "local" || e == "development" || e == "staging" || e == "production"
    ensures var path := CONFIG_DIR + e + INI_SUFFIX;
      || path == "/app/config/local.ini"
      || path == "/app/config/development.ini"
      || path == "/app/config/staging.ini"
      || path == "/app/config/production.ini"
  {
  }

  /** The files selectable at all: the fixture and the four deployment files. */
  lemma ConfigFilePaths(env: Option<string>)
    requires ConfigFilePath(env).Ok?
    ensures var path := ConfigFilePath(env).value;
      || path == TEST_CONFIG_PATH
      || path == "/app/config/local.ini"
      || path == "/app/config/development.ini"
      || path == "/app/config/staging.ini"
      || path == "/app/config/production.ini"
  {
    var e := Lower(env.value);
    AllowedEnvCases(e);
    if e == "test" {
      TestEnvSelectsFixture(env.value);
    } else {
      OtherEnvSelectsConfigDir(env.value);
      DeploymentPaths(e);
    }
  }

  /** Distinct allowed environments select distinct files. */
  lemma {:induction false} ConfigFilePathInjective(a: string, b: string)
    requires ConfigFilePath(Some(a)).Ok? && ConfigFilePath(Some(b)).Ok?
    requires Lower(a) != Lower(b)
    ensures ConfigFilePath(Some(a)).value != ConfigFilePath(Some(b)).value
  {
    var pa, pb := ConfigFilePath(Some(a)).value, ConfigFilePath(Some(b)).value;
    if Lower(a) == "test" || Lower(b) == "test" {
      // the fixture path is relative, the others start at the root
      assert pa[0] != pb[0];
    } else {
      // the environment name sits between the directory and the suffix
      var n := |CONFIG_DIR|;
      assert Lower(a) == pa[n..|pa| - |INI_SUFFIX|];
      assert Lower(b) == pb[n..|pb| - |INI_SUFFIX|];
    }
  }

  // ---------------------------------------------------------------------------
  // Reading options: ConfigParser.get and ConfigParser.getboolean

  /** The name configparser gives its section of defaults. */
  const DEFAULT_SECTION: string := "DEFAULT"

  /** The options a section holds itself. The default section holds none of
      its own: everything in it is among the defaults. */
  function SectionOptions(ini: Ini, section: string): (options: map<string, string>)
    ensures section == DEFAULT_SECTION || section !in ini ==> options == map[]
    ensures section != DEFAULT_SECTION && section in ini ==> options == ini[section]
  {
    if section != DEFAULT_SECTION && section in ini then ini[section] else map[]
  }

  /** ConfigParser.get(section, option). The parser's defaults are the process
      environment (keyed by the lower-cased variable name) together with any
      `[DEFAULT]` section of the file, so an option missing from the section is
      looked up among them. A missing section is an error whatever the defaults
      hold, except for the default section itself, which always exists. */
  function GetOption(ini: Ini, defaults: map<string, string>, section: string, option: string): (r: Result<string, ConfigError>)
    ensures section != DEFAULT_SECTION && section !in ini ==> r == Err(NoSection(section))
    ensures section == DEFAULT_SECTION || section in ini ==>
      (r.Ok? <==> option in SectionOptions(ini, section) || option in defaults)
    ensures r.Ok? && option in SectionOptions(ini, section) ==> r.value == SectionOptions(ini, section)[option]
    ensures r.Ok? && option !in SectionOptions(ini, section) ==> option in defaults && r.value == defaults[option]
    ensures r.Err? && (section == DEFAULT_SECTION || section in ini) ==> r == Err(NoOption(section, option))
  {
    if section != DEFAULT_SECTION && section !in ini then
      Err(NoSection(section))
    else
      var own := SectionOptions(ini, section);
      if option in own then Ok(own[option])
      else if option in defaults then Ok(defaults[option])
      else Err(NoOption(section, option))
  }

  /** Reading from the default section gives the defaults, whatever the sections hold. */
  lemma DefaultSectionReadsDefaults(ini: Ini, defaults: map<string, string>, option: string)
    ensures GetOption(ini, defaults, DEFAULT_SECTION, option) ==
      if option in defaults then Ok(defaults[option]) else Err(NoOption(DEFAULT_SECTION, option))
  {
  }

  /** The spellings configparser accepts for true and for false, lower-cased. */
  const TRUE_SPELLINGS: set<string> := {"1", "yes", "true", "on"}
  const FALSE_SPELLINGS: set<string> := {"0", "no", "false", "off"}

  /** The boolean conversion of getboolean: the value is compared lower-cased
      with configparser's fixed table of spellings; anything else fails. */
  function ParseBoolean(value: string): (r: Result<bool, ConfigError>)
    ensures r.Ok? <==> Lower(value) in TRUE_SPELLINGS + FALSE_SPELLINGS
    ensures r.Ok? ==> (r.value <==> Lower(value) in TRUE_SPELLINGS)
    ensures r.Err? ==> r.error == NotABoolean(value)
  {
    var lowered := Lower(value);
    if lowered in TRUE_SPELLINGS then Ok(true)
    else if lowered in FALSE_SPELLINGS then Ok(false)
    else Err(NotABoolean(value))
  }

  /** `true` and `false`, in any case, read back as the boolean they spell. */
  lemma ParseBooleanTrueFalse(value: string, b: bool)
    requires Lower(value) == (if b then "true" else "false")
    ensures ParseBoolean(value) == Ok(b)
  {
  }

  /** ConfigParser.getboolean(section, option). */
  function GetBoolean(ini: Ini, defaults: map<string, string>, section: string, option: string): (r: Result<bool, ConfigError>)
    ensures GetOption(ini, defaults, section, option).Err? ==> r == Err(GetOption(ini, defaults, section, option).error)
    ensures GetOption(ini, defaults, section, option).Ok? ==> r == ParseBoolean(GetOption(ini, defaults, section, option).value)
  {
    var value :- GetOption(ini, defaults, section, option);
    ParseBoolean(value)
  }

  // ---------------------------------------------------------------------------
  // The typed configuration objects

  /** AppConfig: set once by its constructor and read back through its properties. */
  datatype AppConfig = AppConfig(debug: bool, description: string, name: string)

  /** LoggingConfig: set once by its constructor and read back through its properties. */
  datatype LoggingConfig = LoggingConfig(level: string, format: string)

  /** ChuckNorrisApiConfig: the two sections together. */
  datatype ChuckNorrisApiConfig = ChuckNorrisApiConfig(appConfig: AppConfig, loggingConfig: LoggingConfig)

  /** AppConfig.from_config_section: reads `name`, `description` and the
      boolean `debug`, in that order; the first failing read is the error. */
  function AppConfigFromSection(ini: Ini, defaults: map<string, string>, section: string): (r: Result<AppConfig, ConfigError>)
    ensures r.Ok? <==>
      && GetOption(ini, defaults, section, "name").Ok?
      && GetOption(ini, defaults, section, "description").Ok?
      && GetBoolean(ini, defaults, section, "debug").Ok?
    ensures r.Ok? ==>
      && r.value.name == GetOption(ini, defaults, section, "name").value
      && r.value.description == GetOption(ini, defaults, section, "description").value
      && r.value.debug == GetBoolean(ini, defaults, section, "debug").value
    ensures GetOption(ini, defaults, section, "name").Err? ==> r == Err(GetOption(ini, defaults, section, "name").error)
    ensures section != DEFAULT_SECTION && section !in ini ==> r == Err(NoSection(section))
  {
    var name :- GetOption(ini, defaults, section, "name");
    var description :- GetOption(ini, defaults, section, "description");
    var debug :- GetBoolean(ini, defaults, section, "debug");
    Ok(AppConfig(debug, description, name))
  }

  /** LoggingConfig.from_config_section: reads `level` then `format`. */
  function LoggingConfigFromSection(ini: Ini, defaults: map<string, string>, section: string): (r: Result<LoggingConfig, ConfigError>)
    ensures r.Ok? <==>
      && GetOption(ini, defaults, section, "level").Ok?
      && GetOption(ini, defaults, section, "format").Ok?
    ensures r.Ok? ==>
      && r.value.level == GetOption(ini, defaults, section, "level").value
      && r.value.format == GetOption(ini, defaults, section, "format").value
    ensures GetOption(ini, defaults, section, "level").Err? ==> r == Err(GetOption(ini, defaults, section, "level").error)
    ensures section != DEFAULT_SECTION && section !in ini ==> r == Err(NoSection(section))
  {
    var level :- GetOption(ini, defaults, section, "level");
    var format :- GetOption(ini, defaults, section, "format");
    Ok(LoggingConfig(level, format))
  }

  /** ChuckNorrisApiConfig.from_config: the application settings from section
      `APP`, then the logging settings from section `LOGGING`. */
  function FromConfig(ini: Ini, defaults: map<string, string>): (r: Result<ChuckNorrisApiConfig, ConfigError>)
    ensures r.Ok? <==> AppConfigFromSection(ini, defaults, "APP").Ok? && LoggingConfigFromSection(ini, defaults, "LOGGING").Ok?
    ensures r.Ok? ==>
      && r.value.appConfig == AppConfigFromSection(ini, defaults, "APP").value
      && r.value.loggingConfig == LoggingConfigFromSection(ini, defaults, "LOGGING").value
    ensures AppConfigFromSection(ini, defaults, "APP").Err? ==> r == Err(AppConfigFromSection(ini, defaults, "APP").error)
  {
    var appConfig :- AppConfigFromSection(ini, defaults, "APP");
    var loggingConfig :- LoggingConfigFromSection(ini, defaults, "LOGGING");
    Ok(ChuckNorrisApiConfig(appConfig, loggingConfig))
  }

  /** A file written with the five options is read back as exactly the values
      written: every property returns what its option held. */
  lemma {:induction false} FromConfigReadsBack(defaults: map<string, string>, name: string, description: string,
                                               debug: bool, level: string, format: string)
    ensures
      var ini := map[
        "APP" := map["name" := name, "description" := description, "debug" := if debug then "true" else "false"],
        "LOGGING" := map["level" := level, "format" := format]];
      FromConfig(ini, defaults) == Ok(ChuckNorrisApiConfig(AppConfig(debug, description, name), LoggingConfig(level, format)))
  {
    var ini := map[
      "APP" := map["name" := name, "description" := description, "debug" := if debug then "true" else "false"],
      "LOGGING" := map["level" := level, "format" := format]];
    ParseBooleanTrueFalse(if debug then "true" else "false", debug);
    assert GetBoolean(ini, defaults, "APP", "debug") == Ok(debug);
  }

  /** No file read (configparser skips a file it cannot open) leaves no
      sections, and the failure is the missing `APP` section. */
  lemma EmptyFileMissesAppSection(defaults: map<string, string>)
    ensures FromConfig(map[], defaults) == Err(NoSection("APP"))
  {
  }

  /** With `APP` readable, a missing `LOGGING` section is the failure. */
  lemma MissingLoggingSection(ini: Ini, defaults: map<string, string>)
    requires AppConfigFromSection(ini, defaults, "APP").Ok?
    requires "LOGGING" !in ini
    ensures FromConfig(ini, defaults) == Err(NoSection("LOGGING"))
  {
  }

  /** An option that neither its section nor the environment supplies fails the whole load. */
  lemma MissingOptionFails(ini: Ini, defaults: map<string, string>, option: string)
    requires "APP" in ini && option in {"name", "description", "debug"}
    requires option !in ini["APP"] && option !in defaults
    ensures FromConfig(ini, defaults).Err?
  {
  }

  /** The result depends on the sections `APP` and `LOGGING` alone: any
      other section may change freely. */
  lemma FromConfigReadsOnlyItsSections(ini1: Ini, ini2: Ini, defaults: map<string, string>)
    requires forall s :: s in {"APP", "LOGGING"} ==> (s in ini1 <==> s in ini2) && (s in ini1 ==> ini1[s] == ini2[s])
    ensures FromConfig(ini1, defaults) == FromConfig(ini2, defaults)
  {
    assert "APP" in {"APP", "LOGGING"} && "LOGGING" in {"APP", "LOGGING"};
  }
}
