# File log sink: settings resolution and routing

A Dafny model of the core of the `log_file` driver for the chef-go logging
framework. The driver writes log records to files: one file per severity
level, plus an optional aggregate ("output") file. The model covers three
parts of `logger.go`:

- **Connect** (`fileLogDriver.Connect`) turns the loosely typed settings map
  into a `fileLogSetting`:
  - the store directory;
  - a file for every level;
  - the aggregate file;
  - the size cap, through the chain `maxsize` (string) / `maxsize` (int64) / `weight`;
  - the line cap, through the chain `maxline` / `height`;
  - the date slice.

  The defaults are 100 MiB, 1,000,000 lines and `"day"`. `Setting.Resolve`
  is the declarative definition. `Logger.FileLogDriver.Connect` builds the
  setting step by step, as the Go code does, and is proved equal to it.
- **Open** (`fileLogConnect.Open`) builds the writer registry: one writer per
  level file, plus the aggregate writer under `MAX_LEVEL`. A writer is
  modelled by the file it was built for. `Routing.WritersFor` is the
  specification, and `Logger.FileLogConnect.Open` fills the map in a loop
  that is proved to reach it.
- **Write** (`fileLogConnect.Write`) gives one record to up to two writers and
  combines their results:
  - a path that is not started, or that finds no writer, reports nil;
  - the aggregate error wins over the level error.

  `Routing.WriteOutcome` is the specification, and
  `Logger.FileLogConnect.Write` computes the result the way the Go code does.

Modules:

- `Types` (types.dfy) holds the values of the settings map, `Lookup`, and
  `Env`. `Env` gathers the collaborators the driver calls but does not define.
- `Setting` (setting.dfy) holds the settings resolution and its lemmas.
- `Routing` (routing.dfy) holds the registry, the write outcome, and how
  they fit together after Connect.
- `Logger` (logger.dfy) holds the two classes.

Settings values are `Str`, `Bool`, `Int` (an int64) or `Other`. `Other`
stands for any other type and for a missing key. A Go type assertion fails
on a missing key exactly as it does on a value of the wrong type.

Three behaviours of the code are worth stating outright:

- Every level of `chef.LogLevels()` gets a file. `false` or a missing key
  gives `<store>/<level>.log`, the same as `true` (logger.go:64-70).
- When both paths fail, Write returns the aggregate error and drops the
  level error (logger.go:184-189).
- The driver's default store is set where the driver is registered, in
  index.go. Here it is a constructor argument of `FileLogDriver`.

## Model

| member | source | states |
|---|---|---|
| `Setting.Resolve` | logger.go:39-105 | every level of the level list gets a file and no other level does; `output` gives a non-empty string verbatim, `true` gives `<store>/output.log`, and any other value (`false`, `""`, an int64, a missing key) gives no aggregate file; both caps are positive; the slice differs from "day" only for a non-empty string `slice`, and is then `checkSlice` of it |
| `Setting.LevelFilesResolved` | logger.go:60-71 | a level whose key holds a non-empty string uses it verbatim; any other value (`true`, `false`, missing, another type) gives `join(store, lower(name) + ".log")` |
| `Setting.MaxSizeOf` | logger.go:79-89 | the size cap is always positive; a non-empty string `maxsize` decides alone (its parsed size if positive, else the default, never `weight`); a positive int64 `maxsize` is used as is; for any other `maxsize` (`true`, `""`, a non-positive int64, missing) a positive int64 `weight` applies, else the default |
| `Setting.MaxLineOf` | logger.go:91-96 | the line cap is always positive; a positive `maxline` beats `height`; a positive `height` applies only without one; otherwise 1,000,000 |
| `Setting.DefaultsWhenUnset` | logger.go:52-58 | when `maxsize` is neither a non-empty string nor a positive int64, `weight`, `maxline` and `height` are not positive int64s, and `slice` is not a non-empty string (so `maxline: "500"` or `weight: true` too), the caps are 104857600 bytes and 1000000 lines and the slice is "day" |
| `Setting.EmptySettings` | logger.go:41-77 | an empty map gives the default setting, no aggregate file, and `<driver store>/<lower(name)>.log` for every level |
| `Setting.ResolveReadsOnlyReadKeys` | logger.go:39-100 | two maps that hold the same or inert values on every key Connect reads resolve to the same setting |
| `Setting.InertValueIsAbsent` | logger.go:42-99 | `false`, `""`, a non-positive int64 or a value of another type under any key resolves exactly as if the key were missing |
| `Setting.UnreadKeyIsIgnored` | logger.go:42-99 | a key outside store, output, maxsize, weight, maxline, height, slice and the lower-cased level names does not change the setting |
| `Setting.FallbacksAreShadowed` | logger.go:79-96 | with a non-empty string or positive int64 `maxsize`, no value of `weight` changes the size cap; with a positive `maxline`, no value of `height` changes the line cap |
| `Logger.ResolveLevelFiles` | logger.go:60-71 | the range loop over the levels, in any visiting order, builds exactly the level-file map `LevelFilesOf` |
| `Logger.FileLogDriver.Connect` | logger.go:39-105 | returns a new, unopened connection whose setting is `Resolve` of the driver's store and the settings map, and never an error |
| `Routing.WritersFor` | logger.go:108-127 | the registry's keys are the level-file keys plus `MAX_LEVEL` exactly when there is an aggregate file; `MAX_LEVEL` maps to the aggregate file's writer; every other level maps to the writer built from its own file |
| `Routing.RegistrySize` | logger.go:110-122 | the registry holds one writer per level file, plus one exactly when there is an aggregate file and `MAX_LEVEL` is not itself a level |
| `Logger.FileLogConnect.Open` | logger.go:108-127 | replaces the registry with `WritersFor` of the setting and returns nil |
| `Routing.WriteOutcome` | logger.go:140-191 | Write fails exactly when an attempted path fails; a failing aggregate path decides the result; otherwise the result is the level path's result when that path is attempted and nil when not, so the error of a path that was not attempted never shows; the result is nil or one of the two writers' errors. Its helpers `Attempts` (which paths are started and find a writer), `PathResult` and `FirstError` carry the pieces of this selection |
| `Logger.FileLogConnect.Write` | logger.go:140-191 | returns `WriteOutcome` for the record's level and the writers' results, and attempts exactly the paths of `Attempts` |
| `Routing.WriteAfterOpen` | logger.go:39-191 | after Connect and Open, a record of a listed level other than `MAX_LEVEL` always reaches its level writer, reaches the aggregate writer exactly when there is an aggregate file, and gets the first failure of those two |
| `Routing.RoutedToLevelWriter` | logger.go:108-174 | over Open's registry, a level with a file that is not `MAX_LEVEL` always finds its writer |
| `Routing.UnknownLevelWritesOnlyAggregate` | logger.go:140-191 | after Connect and Open, a record whose level is not listed reaches only the aggregate writer, and succeeds when there is no aggregate file |
| `Routing.MaxLevelRecordWrittenTwice` | logger.go:144-174 | a record whose level is `MAX_LEVEL`, with an aggregate file and at least one level file, takes both paths, both find the aggregate writer, and the aggregate error wins |

## Left out

- The goroutines and channels of Write. The two paths run in sequence here. The model keeps only the combined result, which does not depend on their scheduling.
- What a writer's `write` returns is not computed. It enters `Write` as two parameters, one per path. The file writer itself (`FileWriter`, `newFileWriter`, `init`, `write`) is not part of this model. Neither is rotation by size, line count or date: that code is not in the modelled files.
- `chef.LogLevels`, `strings.ToLower`, `path.Join`, `util.ParseSize`, `checkSlice` and `MAX_LEVEL` are defined outside `logger.go`. They are the fields of `Types.Env`, and no property of them is assumed.
- `os.Stat` and `os.MkdirAll` in Connect are file-system effects, and Connect ignores their result.
- `Close` and `Flush` are left out: they only sleep and close file handles.
- index.go is not part of this model. `Driver` and its registration with `chef.Register` are framework glue.
- The `config` field keeps only the settings map. The other fields of `chef.LogConfig` are not read by the modelled code.
- Go visits map entries in an unspecified order. The two loops pick the next key nondeterministically and are proved correct for every order.
