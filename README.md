# Logger facade model

A Dafny model of `logger.go`, a small process-wide logging facade over the zap
structured-logging library. It covers:

- the `Environment` enumeration and its names;
- the default configuration of each environment (level, encoding, output paths);
- the merge inside `Initialize` that turns a caller's configuration into the settings handed to zap's builder;
- the three package-level variables `logger`, `sugar` and `currentEnv`, the operations that update them, and the nil-guarded operations that only read them.

Files:

- `wrappers.dfy`: `Option`, which stands for a Go pointer that may be nil.
- `zap.dfy` (module `Zap`): the engine as the facade sees it.
  - Levels are zapcore's signed 8-bit values, from Debug = -1 to Fatal = 5.
  - A handle keeps its build settings, its minimum level and its attached fields.
  - `Build`, `IncreaseLevel`, `With` and `Write` model the engine calls that build, re-level, extend and write through a handle.
  - `logger.Sugar()` (logger.go:123, 140) is the `Sugared` constructor, a view over the same handle.
  - `logger.Sync()` (logger.go:163) is not modelled; its result is the `flushErr` input of `Facade.Sync`.
  - Whether a build fails depends on the file system and on zap. It is an input (`fault`), which also carries the pointer zap returned along with the error.
- `logger.dfy` (module `Logger`): environments, `Config`, `DefaultConfig`, the merge, and the pure state transitions.
  - `AfterInitialize` and `AfterSetLevel` are the transitions.
  - `Emit` and `EmitFormatted` give what a structured or formatted call writes.
  - The class `Facade` holds the three package variables. Its methods are proved against those functions.
  - A ghost sequence `recorded` lists every entry the engine accepted.
- `traces.dfy` (module `LoggerTraces`): any sequence of `Initialize`, `SetEnvironment` and `SetLevel` calls, and what holds after it.

The model follows the code literally in two places a caller may not expect:

- A failed build still overwrites `logger` with what the builder returned (`nil` in zap), but leaves `sugar` and `currentEnv` alone. After that, structured calls write nothing, while formatted calls still reach the previous engine (`FailedInitializeSplitsCalls`).
- `SetLevel` uses zap's `IncreaseLevel`, so it can only raise the minimum level (`SetLevelNeverLowers`). A usage example in the repository expects `SetLevel(DebugLevel)` to enable debug output after an Info configuration. The model keeps the code's behaviour.

## Model

| member | source | states |
|---|---|---|
| Zap.Build | logger.go:117-121 | the build fails exactly when a fault is given, and `logger` is then whatever the builder returned (zap returns nil; any pointer is allowed, since logger.go:118 assigns it without looking); on success the handle carries the requested settings and level, with no fields |
| Zap.IncreaseLevel | logger.go:139 | the new handle writes a level exactly when both the old minimum level and the requested one allow it; its settings and fields are unchanged |
| Zap.With | logger.go:264 | the child handle keeps settings and minimum level, and its fields are the parent's followed by the new ones |
| Zap.Write | logger.go:168-237 | a call writes at most one entry, and writes one exactly when its level reaches the handle's minimum; the entry carries the level, the message and the handle's fields followed by the call's |
| Logger.Name | logger.go:28-42 | each of the four named environments maps to its own name, and every other value, and only those, maps to "unknown" |
| Logger.DefaultConfig | logger.go:61-85 | the environment is kept. Development gives Debug/console/[stdout], Test gives Error/json/[], Staging gives Info/json/[stdout] and Production gives Warn/json/[stdout]. Any other value gives Info (the zero level), an empty encoding and [stdout] |
| Logger.DefaultSilentOnlyInTest | logger.go:72-75 | the default output path list is empty exactly for Test |
| Logger.DefaultLevelsOrdered | logger.go:68-82 | default minimum levels rise strictly from Development to Staging to Production to Test |
| Logger.BaseFor | logger.go:101-109 | Development uses the development preset; Test, Staging and Production use the production preset. Only Test, and any unnamed environment (the zero zap config), start with an explicitly empty output list |
| Logger.Merge | logger.go:99-115 | the build always takes the caller's level and encoding. It takes the caller's output paths exactly when that list is non-empty or the base list is already empty; otherwise it keeps the base paths |
| Logger.MergeDefaults | logger.go:62-115 | building from an environment's defaults keeps its level and encoding, and writes to stdout, except in Test, where it writes nowhere |
| Logger.MergeEmptyPaths | logger.go:101-115 | with no caller output paths, the preset's own outputs are kept exactly for Development, Staging and Production; otherwise the output is empty |
| Logger.AfterInitialize | logger.go:95-127 | success: `logger` is built from the merged settings with the caller's level, `sugar` is its view, and `currentEnv` is the config's environment. Failure: `logger` is what the builder returned, and `sugar` and `currentEnv` are unchanged |
| Logger.AfterSetLevel | logger.go:135-142 | with no logger, nothing changes. Otherwise `logger` writes only what both the old minimum and the new level allow, keeps its settings and fields, `sugar` is re-derived, and the environment is kept |
| Logger.SetEnvironmentRecordsEnv | logger.go:129-132 | a successful SetEnvironment(env) leaves both handles present and records env |
| Logger.SetLevelNeverLowers | logger.go:135-142 | a level that was disabled stays disabled after any SetLevel |
| Logger.Emit | logger.go:168-229 | structured calls write nothing when `logger` is nil. They write one entry exactly when `logger` is present and its minimum level allows it; the entry carries the given message and level, the logger's fields followed by the call's, and the logger's settings |
| Logger.EmitFormatted | logger.go:177-237 | formatted calls write nothing when `sugar` is nil. They write one entry exactly when `sugar` is present and its minimum level allows it; the entry carries the template and arguments, the level, and the fields and settings of the engine `sugar` views |
| Logger.WarnThresholdFilters | logger.go:168-229 | under a Warn minimum, a Debug call writes nothing, and an Error call writes exactly one entry with the message and fields as given |
| Logger.SilentTestInitialize | logger.go:106-115 | on a successful build, Initialize with Test, Info, no outputs and json leaves a facade where a later Info call is accepted but has no output path to go to |
| Logger.FailedInitializeSplitsCalls | logger.go:117-124 | after a failed build that returned nil on a working facade, structured calls write nothing, formatted calls still write to the old engine, and the environment is unchanged |
| Logger.Facade.constructor | logger.go:44-51 | the package starts with no logger, no sugared logger and the Development environment |
| Logger.Facade.Init | logger.go:87-92 | init() applies Initialize(DefaultConfig(Development)) and reports process exit exactly when the build fails |
| Logger.Facade.Initialize | logger.go:95-127 | the new state is AfterInitialize of the old one. The error is nil exactly on success and otherwise wraps the builder's cause with "failed to build logger: " |
| Logger.Facade.SetEnvironment | logger.go:129-132 | the new state is that of Initialize(DefaultConfig(env)); it returns Initialize's error, nil exactly on success and otherwise the wrapped build cause; on success the environment is env |
| Logger.Facade.SetLevel | logger.go:134-142 | the new state is AfterSetLevel of the old one |
| Logger.Facade.GetLogger | logger.go:144-149 | returns the stored logger, nil when unset |
| Logger.Facade.GetSugar | logger.go:151-156 | returns the stored sugared logger, nil when unset |
| Logger.Facade.Sync | logger.go:158-166 | succeeds when there is no logger; otherwise returns the engine's flush result |
| Logger.Facade.Debug | logger.go:168-175 | appends what `logger` writes at Debug, which is nothing when `logger` is nil |
| Logger.Facade.Debugf | logger.go:177-184 | appends what `sugar` writes at Debug, which is nothing when `sugar` is nil |
| Logger.Facade.Info | logger.go:186-193 | appends what `logger` writes at Info, which is nothing when `logger` is nil |
| Logger.Facade.Infof | logger.go:195-202 | appends what `sugar` writes at Info, which is nothing when `sugar` is nil |
| Logger.Facade.Warn | logger.go:204-211 | appends what `logger` writes at Warn, which is nothing when `logger` is nil |
| Logger.Facade.Warnf | logger.go:213-220 | appends what `sugar` writes at Warn, which is nothing when `sugar` is nil |
| Logger.Facade.Error | logger.go:222-229 | appends what `logger` writes at Error, which is nothing when `logger` is nil |
| Logger.Facade.Errorf | logger.go:231-238 | appends what `sugar` writes at Error, which is nothing when `sugar` is nil |
| Logger.Facade.With | logger.go:259-267 | nil exactly when `logger` is nil. Otherwise a child with the same settings and minimum level, whose fields are the logger's followed by the given ones |
| Logger.Facade.WithFields | logger.go:269-272 | the same result as With |
| LoggerTraces.CurrentEnvIsLastApplied | logger.go:118-124 | after any sequence of calls, `currentEnv` is the environment of the last successful Initialize or SetEnvironment, or the starting one if none succeeded |
| LoggerTraces.SetLevelsRaiseToStrictest | logger.go:135-142 | a run of SetLevel calls on a present logger leaves its minimum level at the strictest of the original and all requested levels. With no logger, nothing changes |
| LoggerTraces.TestDefaultsIgnoreLowerLevels | logger_test.go:135-152 | after a successful Initialize with the Test defaults, SetLevel with Debug, Info, Warn and then Error leaves the minimum at Error, with environment Test |
| LoggerTraces.CoherentWithoutFailedBuild | logger.go:117-141 | from a working facade, any run without a failed build keeps `sugar` a view of `logger` |

## Left out

- The read/write lock (logger.go:47 and the Lock/RLock calls): calls run one at a time, so the concurrent-access behaviour is not modelled.
- Fatal and Fatalf (logger.go:240-257): they end the process, so they are not modelled. init()'s message "Failed to initialize logger: …" on standard output and its `os.Exit(1)` are not modelled; the exit is reported as a returned flag instead.
- zap's internals are not modelled.
  - This covers the contents of `NewDevelopmentConfig` and `NewProductionConfig`, which appear only as named presets whose own output paths are opaque.
  - It also covers encoders, sinks, sampling and caller annotation.
  - It also covers the error `IncreaseLevel` prints when asked to lower the level.
  - Whether `Build` or `Sync` fails is an input to the model.
  - `Build`'s failing outcome may carry any logger pointer, although zap's returns nil; every property about a failed build holds for all of them.
- Printf formatting in the `*f` calls: the template and its arguments are kept as they are.
- Field values are kept as strings. Their zap types and encoding are not modelled.
- Go's `int` width for `Environment` is not modelled, because no operation depends on it.
- Logger.Facade.Debug and the other leveled methods: entries are appended to a ghost record of what the engine accepted, rather than written to output streams.
