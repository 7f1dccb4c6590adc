# clabz/cfg configuration loader, modelled in Dafny

The repository's package `cfg` loads a `Config` record from an environment-style
file `<CFG_PATH>/<name>.env` with the viper library. It also derives the field
`DBUrl`, a MySQL-driver connection string worked out from the other fields.
This project models that package's core, `cfg.go`, in four modules:

- `Cfg` (cfg.dfy) holds the eleven-field `Config` datatype, its zero value, and
  the error kinds `MissingPath | NotFound | EmptyFile | ReadFailed | UnmarshalFailed`.
  - `ConstructDBUrl` is defined exactly as the Go code computes it: `fmt.Sprintf`
    applied to the format `"%s:%s@tcp(%s:%s)/%s?parseTime=true"` and five
    operands, the last of which is `DBNameTest` when `Environment == "test"`
    and `DBName` otherwise.
  - Lemmas prove the plain concatenation this produces and the choice of the
    database name. They also prove what the result does and does not depend on.
  - `LoadConfig` is a method with the same early returns as the Go function.
    The environment, the file system and viper's read/decode outcomes are its
    parameters. It returns a configuration together with an optional error, as
    Go's `(Config, error)` does.
- `Fmt` (fmt.dfy) models Go's `fmt.Sprintf` for `%s` verbs on string operands
  and the `%%` escape. This includes Go's `%!s(MISSING)` and `%!(EXTRA ...)`
  reports. The lemmas `LiteralPrefix`, `VerbPrefix` and `TemplateSprintf` cover
  formats made of plain text and `%s` verbs.
- `Viper` (viper.dfy) is the process-wide registration state that `LoadConfig`
  changes: the search directories, the configuration name and type, and the
  environment-override switch. It is a class whose methods update those fields.
- `Wrappers` (wrappers.dfy) holds `Option` and `Result`.

`LoadConfig`'s inputs:
- `env: map<string, string>` is the process environment. `os.Getenv` gives `""`
  for an unset variable, so an unset and an empty `CFG_PATH` behave alike.
- `fs: map<string, nat>` maps each file that `os.Stat` can reach to its size.
- `readError: Option<string>` is the error returned by `viper.ReadInConfig`.
- `unmarshalled: Result<Config, string>` is the outcome of `viper.Unmarshal`.

`Cfg.LoadCompleteFile`, `Cfg.LoadUnsetPath` and `Cfg.LoadEmptyFile` replay the
three loader tests of the repository (cfg_test.go:28-80) against `LoadConfig`:
a complete file, an unset `CFG_PATH`, and an empty file.

Two details of the code that the model follows:
- `viper.ReadInConfig` reports read and parse failures as one error
  (cfg.go:52-54); `ReadFailed` models it.
- The decoder may fill `DBUrl`; cfg.go:62 overwrites it, and so does the model.

## Model

| member | source | states |
|---|---|---|
| `Cfg.DatabaseName` | cfg.go:69-72 | the database name is `DBNameTest` when `Environment` is exactly `"test"` and `DBName` otherwise, and always one of the two |
| `Cfg.ConstructDBUrl` | cfg.go:68-81 | the connection string is exactly the user, `:`, the password, `@tcp(`, the host, `:`, the port, `)/`, the selected database name and `?parseTime=true`, with no escaping |
| `Cfg.DsnLayout` | cfg.go:74-80 | `Sprintf` of the five-verb connection-string format over any five operands equals their plain concatenation with the format's literal text |
| `Cfg.FormatIsTemplate` | cfg.go:74 | the format literal is the pieces `""`, `:`, `@tcp(`, `:`, `)/`, `?parseTime=true` joined by `%s` |
| `Cfg.SegmentIsDatabaseName` | cfg.go:69-80 | cutting the user/password/host/port prefix and the query off the connection string leaves exactly the selected database name |
| `Cfg.TestEnvironmentUsesTestDatabase` | cfg.go:69-72 | when `Environment` is exactly `"test"`, the database segment is `DBNameTest` |
| `Cfg.OtherEnvironmentUsesDatabase` | cfg.go:69-72 | for every other `Environment` value (compared exactly and case-sensitively), the database segment is `DBName` |
| `Cfg.DBUrlAffixes` | cfg.go:74-80 | the connection string starts with `DBUsername + ":"` and ends with `?parseTime=true` |
| `Cfg.IgnoresUnrelatedFields` | cfg.go:68-81 | changing `Host`, `Port`, `AppDomain` or `DBUrl` does not change the connection string |
| `Cfg.UrlDeterminesDatabaseName` | cfg.go:68-81 | with the same credentials and address, two configurations give the same connection string if and only if they select the same database name |
| `Cfg.FillUrlIsIdempotent` | cfg.go:61-62 | after `DBUrl` is filled in, the configuration is consistent, and recomputing the URL leaves it unchanged |
| `Cfg.ProductionScenario` | cfg_test.go:97-110 | with the test suite's database settings and `Environment == "production"`, the result is `root:password@tcp(127.0.0.1:3306)/mydb?parseTime=true`, whatever the other fields hold |
| `Cfg.TestScenario` | cfg_test.go:82-95 | with the same settings and `Environment == "test"`, the result is `root:password@tcp(127.0.0.1:3306)/mydb_test?parseTime=true` |
| `Cfg.LoadConfig` | cfg.go:29-65 | the checks run in order: an empty `CFG_PATH` gives `MissingPath` and leaves viper untouched; otherwise viper is registered; then a file that cannot be stat-ed gives `NotFound`; then a zero-size file gives `EmptyFile`, whatever the parser would report; then a read failure gives `ReadFailed`; then a decode failure gives `UnmarshalFailed`; success returns the decoded fields unchanged with `DBUrl` filled in; every error comes with the zero `Config`, and the success case is consistent |
| `Cfg.Getenv` | cfg.go:31 | an unset variable reads as `""`, a set one as its value |
| `Cfg.ConfigFile` | cfg.go:43 | the file path starts with the directory and `/`, holds the name after it, and ends with `.env` |
| `Cfg.LoadTwice` | cfg.go:29-65 | two loads from identical inputs give identical configurations and errors; the search list gains `CFG_PATH` at most once, and only when it is non-empty and new; the name, type and override switch are set only when `CFG_PATH` is non-empty, and an empty name keeps the old one |
| `Cfg.LoadCompleteFile` | cfg_test.go:28-60 | with the test's complete file, the load succeeds, keeps the decoded fields, and fills in `root:password@tcp(127.0.0.1:3306)/mydb?parseTime=true` |
| `Cfg.LoadUnsetPath` | cfg_test.go:62-70 | with `CFG_PATH` unset, the load fails with `MissingPath` and the zero `Config`, whatever the file system and viper hold |
| `Cfg.LoadEmptyFile` | cfg_test.go:72-80 | with an empty `config.env`, the load fails with `EmptyFile` and the zero `Config`, whatever viper would report |
| `Viper.Registry.constructor` | cfg.go:36-40 | a fresh registry has no search directories, the default name `config`, no type and the override switched off |
| `Viper.Registry.AddConfigPath` | cfg.go:36 | the directory is added to the search list unless it is empty or already there; nothing else changes |
| `Viper.Registry.SetConfigName` | cfg.go:37 | sets the configuration name, except that an empty name leaves the old one; nothing else changes |
| `Viper.Registry.SetConfigType` | cfg.go:38 | sets the configuration type, except that an empty type leaves the old one; nothing else changes |
| `Viper.Registry.AutomaticEnv` | cfg.go:40 | turns the environment override on; nothing else changes |
| `Fmt.Sprintf` | cfg.go:74 | a format without `%` and without operands prints itself |
| `Fmt.Extra` | cfg.go:74-80 | operands left over after the format are reported in Go's `%!(EXTRA ...)` text, and the report is empty exactly when no operand is left over |
| `Fmt.TemplateSprintf` | cfg.go:74-80 | when there is one operand per `%s`, formatting plain pieces joined by `%s` prints the pieces interleaved with the operands |
| `Fmt.VerbPrefix` | cfg.go:74-80 | a `%s` inserts its operand verbatim, whatever characters the operand holds, including `%` |
| `Fmt.LiteralPrefix` | cfg.go:74 | text without `%` in a format is copied to the output unchanged |

## Left out

- `viper.ReadInConfig`, `viper.Unmarshal` and the effect of `viper.AutomaticEnv`
  (cfg.go:40, 52-58). These are the library's env-file parser, its
  environment-variable overriding and its tag-based field mapping. Their
  outcomes are parameters of `LoadConfig`.
- Cfg.LoadConfig: does not model which file viper actually reads. Viper
  searches all registered directories, while `os.Stat` checks only
  `<CFG_PATH>/<name>.env`. After loads with different `CFG_PATH` values, the
  registry holds several directories, as the contract states, but the read
  outcome is still an independent input.
- `os.Getenv` and `os.Stat` (cfg.go:31, 44) are modelled by the maps `env` and
  `fs`. Every way `os.Stat` can fail is one case: the path is absent from `fs`.
- `filepath.Join` path cleaning (cfg.go:43): the file is `cfgPath + "/" + name + ".env"`.
- Viper.Registry.AddConfigPath: does not model viper turning the directory into
  an absolute path, so two spellings of one directory are kept as two entries.
- Fmt.Sprintf: handles only `%s` and `%%`; the `Supported` precondition rules
  out other verbs, flags, widths and precisions. The connection-string format
  uses none of them.
- `MustLoadConfig` (cfg.go:84-90): it only logs and ends the process.
- cfg/cfg.go is not part of this model. It is an older variant that only
  configures viper and calls `log.Fatalf`.
- Error message texts: `ReadFailed` and `UnmarshalFailed` carry the wrapped
  cause as a string, and `NotFound` does not carry the stat error.
- File sizes are unbounded naturals; Go's `int64` size is not modelled.
- Go strings are byte strings, while a Dafny `string` is a sequence of Unicode
  characters. Field values that are not valid UTF-8 cannot be represented.
