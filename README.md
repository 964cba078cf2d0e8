# Chuck Norris facts API: fact ids and configuration, in Dafny

This project models the two pieces of sequential logic in the Chuck Norris facts API and proves properties about them:

- **Fact ids** (`fact_db.dfy`, module `FactDb`). The fact table is an in-memory dictionary from integer id to fact text. It is seeded with the ten facts 0..9. A new fact gets id `max(ids) + 1`. app/db.py only reads the table, so it is modelled as an immutable `map<int, string>`. `get_next_id` becomes `NextId`, a function of the table. The model proves that the id is fresh and exactly one above the largest id, that only the key set matters, that the first id handed out for the seed is 10, and when a removed id is handed out again.
- **Configuration** (`config.dfy`, module `Config`). The `ENV` environment variable selects the configuration file. It is a parameter of type `Option<string>`, where `None` means unset. The parsed INI file is a `map<string, map<string, string>>` from section to option to value. `AppConfig`, `LoggingConfig` and `ChuckNorrisApiConfig` are immutable datatypes: their constructor arguments are their fields, and the fields are the read-only properties. Each `from_config_section` / `from_config` classmethod is a function that returns either the object or the `ConfigError` the source would raise.
- `wrappers.dfy` (module `Wrappers`) holds `Option` and `Result`.

The data the model declares, and what each stands for:

- `FactDb.SEED`: the seeded `DB` dictionary, app/db.py:2-13.
- `Config.ALLOWED_ENVS`: `ConfigLoader._allowed_envs`, app/config.py:94.
- `Config.AppConfig`: the `AppConfig` class with its constructor and its `debug`, `description` and `name` properties, app/config.py:7-27.
- `Config.LoggingConfig`: the `LoggingConfig` class with its constructor and its `level` and `format` properties, app/config.py:39-51.
- `Config.ChuckNorrisApiConfig`: the `ChuckNorrisApiConfig` class with its `app_config` and `logging_config` properties, app/config.py:62-76.
- `Config.ConfigError`: the exceptions raised at app/config.py:100 and :102, and configparser's `NoSectionError`, `NoOptionError` and the `ValueError` of `getboolean`.

Points where configparser's behaviour shapes the model:

- The parser is built as `ConfigParser(os.environ, ...)` (app/config.py:110). That makes the process environment the parser's defaults, so an option missing from `APP` or `LOGGING` is taken from an environment variable of that name, when one exists. `GetOption` takes these defaults as a parameter, keyed by lower-cased variable name, as configparser stores them; a `[DEFAULT]` section of the file also belongs to them. An option is an error only when neither the section nor the defaults supply it.
- The section named `DEFAULT` always exists for configparser and holds only the defaults. Reading from it never fails with a missing section, and the parsed sections (`Ini`) never contain it.
- `config.read` skips a file it cannot open. So a missing file does not fail inside the `try` of `load_config`. It leaves an empty parser, and `from_config` (app/config.py:120, outside the `try`) then fails with the missing `APP` section. `EmptyFileMissesAppSection` states this.
- Removing the largest id k makes k the next id again only when k - 1 is still an id. With ids {0, 5}, removing 5 makes the next id 1. `NextIdAfterRemovingLargest` proves the exact condition in both directions. `InsertThenRemoveReusesId` proves the reuse that always holds: removing the fact just inserted gives its id out again.
- `debug` is converted by configparser's own fixed table: `1`, `yes`, `true`, `on` are true and `0`, `no`, `false`, `off` are false, compared after lower-casing. Any other value is an error. This table is configparser's behaviour and is not in the repository's files.
- The literal at tests/app_tests.py:18 shows the seeded fact 1 with a mis-encoded "où". The model uses the text of app/db.py:4.

## Model

| member | source | states |
|---|---|---|
| `FactDb.LargestWitness` | app/db.py:17 | every non-empty set of ids has an element that is at least every other one (the maximum `max` returns), proved by induction on the set |
| `FactDb.Largest` | app/db.py:17 | `max` of the ids: defined only for a non-empty set; the result is one of the ids and no id exceeds it |
| `FactDb.NextId` | app/db.py:16-17 | `get_next_id` needs a non-empty table; its result minus one is an id in the table, every id is smaller than it, and it is not already a key |
| `FactDb.NextIdIsLargestPlusOne` | app/db.py:17 | if k is the largest id, the next id is exactly k + 1 |
| `FactDb.NextIdDependsOnlyOnKeys` | app/db.py:16-17 | two tables with the same ids give the same next id, whatever their texts |
| `FactDb.SeedIds` | app/db.py:2-13 | the seeded table has exactly the ids 0..9, ten entries, and its next id is 10 |
| `FactDb.SeedFactOne` | app/db.py:4 | seeded id 1 holds the Google fact text |
| `FactDb.NextIdAfterInsert` | app/db.py:17 | storing a fact under the next id raises the next id by exactly one |
| `FactDb.InsertThenRemoveReusesId` | app/db.py:17 | storing a fact under the next id and removing it again makes that id the next one again |
| `FactDb.NextIdAfterRemovingLargest` | app/db.py:17 | after removing the largest id k, the next id is at most k, and equals k exactly when k - 1 is still an id |
| `FactDb.SeedReusesLargestId` | app/db.py:2-17 | removing fact 9 from the seed makes 9 the next id again |
| `Config.Lower` | app/config.py:101-104 | `str.lower` on ASCII letters: same length, each character lower-cased on its own |
| `Config.LowerIdempotent` | app/config.py:101-104 | lower-casing an already lower-cased value changes nothing |
| `Config.AllowedEnvsAreLowerCase` | app/config.py:94 | every name in the allow-list is its own lower-casing, so each can be matched |
| `Config.ConfigFilePath` | app/config.py:96-105 | a path is produced exactly when `ENV` is set and its lower-casing is in the allow-list; every path ends in `.ini` |
| `Config.UnsetEnvIsError` | app/config.py:98-100 | an unset or empty `ENV` gives the "not set" error and no path |
| `Config.UnknownEnvIsError` | app/config.py:101-102 | a non-empty `ENV` whose lower-casing is not allowed gives the "unknown environment" error, carrying the value as given |
| `Config.TestEnvSelectsFixture` | app/config.py:105 | `test`, in any case, selects `tests/resources/config/test.ini` |
| `Config.OtherEnvSelectsConfigDir` | app/config.py:105 | any other allowed value e selects `/app/config/` + lower(e) + `.ini` |
| `Config.EnvCaseInsensitive` | app/config.py:101-105 | two values with the same lower-casing are accepted or rejected together, fail for the same reason, and select the same file |
| `Config.ConfigFilePaths` | app/config.py:94-105 | the only selectable files are the fixture and the local, development, staging and production files |
| `Config.ConfigFilePathInjective` | app/config.py:105 | environments with different lower-casings select different files |
| `Config.GetOption` | app/config.py:110 | `ConfigParser.get`: a section other than `DEFAULT` that is missing is reported as such; otherwise it succeeds exactly when the section's own options or the defaults hold the option, the section's value winning over the default, and a missing option is reported as such |
| `Config.DefaultSectionReadsDefaults` | app/config.py:110 | reading from the `DEFAULT` section gives the defaults' value, or a missing option, whatever the parsed sections hold |
| `Config.ParseBoolean` | app/config.py:34 | the conversion succeeds exactly for the eight spellings, after lower-casing; it gives true exactly for `1`, `yes`, `true`, `on`; otherwise it reports the value |
| `Config.ParseBooleanTrueFalse` | app/config.py:34 | `true` and `false`, in any case, read as the boolean they spell |
| `Config.GetBoolean` | app/config.py:34 | `getboolean` fails as the lookup fails, and otherwise gives the conversion of the value it found |
| `Config.AppConfigFromSection` | app/config.py:29-36 | succeeds exactly when `name`, `description` and a boolean `debug` can all be read; the properties then hold exactly the values read; a failing `name` read, or a missing section other than `DEFAULT`, is the error |
| `Config.LoggingConfigFromSection` | app/config.py:53-59 | succeeds exactly when `level` and `format` can be read; the properties then hold exactly those values; a failing `level` read, or a missing section other than `DEFAULT`, is the error |
| `Config.FromConfig` | app/config.py:78-83 | succeeds exactly when `AppConfig` reads from section `APP` and `LoggingConfig` from section `LOGGING`; the result holds exactly those two objects; an `APP` failure comes first |
| `Config.FromConfigReadsBack` | app/config.py:12-83 | a file holding the five options reads back as objects whose properties return exactly the values written |
| `Config.EmptyFileMissesAppSection` | app/config.py:111-120 | with no sections read, loading fails with the missing `APP` section |
| `Config.MissingLoggingSection` | app/config.py:78-83 | with `APP` readable and no `LOGGING` section, loading fails with the missing `LOGGING` section |
| `Config.MissingOptionFails` | app/config.py:29-36 | an `APP` option present neither in the section nor in the environment fails the load |
| `Config.FromConfigReadsOnlyItsSections` | app/config.py:78-83 | the loaded configuration depends only on sections `APP` and `LOGGING` |

## Left out

- Reading and parsing the INI file (`config.read` and configparser's parser, app/config.py:110-111): these are file I/O and library code. The model starts from the parsed sections. It also does not model configparser's checks on values as they are stored, so an environment value with a stray `%` is outside the model.
- `EnvInterpolation` and `${VAR}` expansion (app/config.py:86-90): this is a wrapper over `os.path.expandvars`. Section values are taken as already expanded.
- Option-name case folding: configparser lower-cases option names. The model assumes the section maps and the environment defaults are already keyed by lower-cased names.
- `load_config`'s `importlib`/`globals()` class lookup and its `try`/`except` message wrapping (app/config.py:107-120): this is reflection and exception plumbing. The message texts of the errors are not modelled; `ConfigError` carries their data.
- `Lower`: only ASCII letters are lower-cased, where Python's `str.lower` covers all of Unicode. For the allow-list this makes no difference to which values are accepted or to the paths. The only non-ASCII characters that lower-case to ASCII are the Kelvin sign (to `k`) and the dotted capital I (to `i` plus a combining dot), and neither can produce an allowed name.
- `ParseBoolean`: `getboolean` lower-cases with `str.lower` too; the same ASCII restriction applies.
- The HTTP routes (app/main.py), the pydantic models (app/models.py) and the logging set-up (app/logging_utils.py): these are framework plumbing. The routes that read, insert, update and delete facts are outside the model. It only states what `get_next_id` gives for a table after such a change.
- Concurrency on the shared table: the source has none.
