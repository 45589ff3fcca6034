/**
 * The logging facade of logger.go: environments and their default
 * configurations, the merge that turns a configuration into zap build
 * settings, and the process-wide state (`logger`, `sugar`, `currentEnv`) that
 * Initialize, SetEnvironment and SetLevel update and every other operation
 * reads. The read/write lock is not modelled: operations run one at a time.
 */
module Logger {
  import opened Wrappers
  import opened Zap

  // ---------------------------------------------------------------------------
  // Environments

  /** Go's `type Environment int`: any integer, of which 0..3 are named. */
  newtype Environment = int

  const Development: Environment := 0
  const Test: Environment := 1
  const Staging: Environment := 2
  const Production: Environment := 3

  predicate Known(e: Environment)
  {
    Development <= e <= Production
  }

  /** Environment.String: the lower-case name of a known environment, "unknown" otherwise. */
  function Name(e: Environment): (s: string)
    ensures s == "development" <==> e == Development
    ensures s == "test" <==> e == Test
    ensures s == "staging" <==> e == Staging
    ensures s == "production" <==> e == Production
    ensures s == "unknown" <==> !Known(e)
  {
    if e == Development then "development"
    else if e == Test then "test"
    else if e == Staging then "staging"
    else if e == Production then "production"
    else "unknown"
  }

  // ---------------------------------------------------------------------------
  // Configuration

  /** The facade's Config: environment, minimum level, output paths and encoding ("json" or "console"). */
  datatype Config = Config(environment: Environment, level: Level, outputPaths: seq<string>, encoding: string)

  /**
   * DefaultConfig: a configuration for `env` that logs to stdout, with the
   * level and encoding of the environment's row of the table; Test logs
   * nowhere. The switch has no default branch, so an unnamed environment keeps
   * the zero level (Info) and the empty encoding.
   */
  function DefaultConfig(env: Environment): (c: Config)
    ensures c.environment == env
    ensures env == Development ==> c.level == DebugLevel && c.encoding == "console" && c.outputPaths == ["stdout"]
    ensures env == Test ==> c.level == ErrorLevel && c.encoding == "json" && c.outputPaths == []
    ensures env == Staging ==> c.level == InfoLevel && c.encoding == "json" && c.outputPaths == ["stdout"]
    ensures env == Production ==> c.level == WarnLevel && c.encoding == "json" && c.outputPaths == ["stdout"]
    ensures !Known(env) ==> c.level == InfoLevel && c.encoding == "" && c.outputPaths == ["stdout"]
  {
    var config := Config(env, InfoLevel, ["stdout"], "");
    if env == Development then config.(level := DebugLevel, encoding := "console")
    else if env == Test then config.(level := ErrorLevel, encoding := "json", outputPaths := [])
    else if env == Staging then config.(level := InfoLevel, encoding := "json")
    else if env == Production then config.(level := WarnLevel, encoding := "json")
    else config
  }

  /** Only the Test defaults have no output path. */
  lemma DefaultSilentOnlyInTest(env: Environment)
    ensures DefaultConfig(env).outputPaths == [] <==> env == Test
  {
  }

  /** Among the named environments, Development is the most verbose and Test the least. */
  lemma DefaultLevelsOrdered()
    ensures DefaultConfig(Development).level < DefaultConfig(Staging).level
    ensures DefaultConfig(Staging).level < DefaultConfig(Production).level
    ensures DefaultConfig(Production).level < DefaultConfig(Test).level
  {
  }

  /** The zap preset Initialize starts from, and the output paths it carries before the merge. */
  datatype Base = Base(preset: Preset, outputPaths: Paths)

  /**
   * The switch at the top of Initialize: development preset for Development,
   * production preset for Staging and Production, production preset with no
   * output path for Test, and (no default branch) the zero zap.Config, whose
   * output path list is nil, for anything else.
   */
  function BaseFor(env: Environment): (b: Base)
    ensures b.preset == DevelopmentPreset <==> env == Development
    ensures b.preset == ProductionPreset <==> env == Test || env == Staging || env == Production
    ensures b.outputPaths == PresetPaths <==> env == Development || env == Staging || env == Production
    ensures b.outputPaths != PresetPaths ==> b.outputPaths == Explicit([])
  {
    if env == Development then Base(DevelopmentPreset, PresetPaths)
    else if env == Production || env == Staging then Base(ProductionPreset, PresetPaths)
    else if env == Test then Base(ProductionPreset, Explicit([]))
    else Base(ZeroPreset, Explicit([]))
  }

  /**
   * The settings Initialize builds with: the base for the configuration's
   * environment, the caller's level and encoding always, and the caller's
   * output paths only when that list is non-empty.
   */
  function Merge(config: Config): (z: BuildConfig)
    ensures z.preset == BaseFor(config.environment).preset
    ensures z.level == config.level && z.encoding == config.encoding
    ensures z.outputPaths == Explicit(config.outputPaths) <==> |config.outputPaths| > 0 || BaseFor(config.environment).outputPaths == Explicit([])
    ensures |config.outputPaths| == 0 ==> z.outputPaths == BaseFor(config.environment).outputPaths
  {
    var base := BaseFor(config.environment);
    var zapConfig := BuildConfig(base.preset, config.level, config.encoding, base.outputPaths);
    if |config.outputPaths| > 0 then zapConfig.(outputPaths := Explicit(config.outputPaths)) else zapConfig
  }

  /**
   * Building from the defaults reproduces the table: same level and encoding,
   * stdout as the only output everywhere except in Test, which writes nowhere.
   */
  lemma MergeDefaults(env: Environment)
    ensures Merge(DefaultConfig(env)).level == DefaultConfig(env).level
    ensures Merge(DefaultConfig(env)).encoding == DefaultConfig(env).encoding
    ensures Merge(DefaultConfig(env)).outputPaths == if env == Test then Explicit([]) else Explicit(["stdout"])
  {
  }

  /**
   * A caller's configuration with no output path keeps the preset's outputs
   * in Development, Staging and Production, and writes nowhere otherwise.
   */
  lemma MergeEmptyPaths(config: Config)
    requires config.outputPaths == []
    ensures Merge(config).outputPaths == PresetPaths <==> config.environment in {Development, Staging, Production}
    ensures Merge(config).outputPaths != PresetPaths ==> Merge(config).outputPaths == Explicit([])
  {
  }

  // ---------------------------------------------------------------------------
  // Facade state and its transitions

  /** The package-level variables: the zap logger, its sugared view, and the current environment. */
  datatype State = State(logger: Option<Handle>, sugar: Option<Sugared>, currentEnv: Environment)

  /** The state when the package is loaded, before init() runs. */
  const Start: State := State(None, None, Development)

  /** Both handles are present and the sugared one is a view of the structured one. */
  predicate Coherent(s: State)
  {
    s.logger.Some? && s.sugar == Some(Sugared(s.logger.value))
  }

  /**
   * Initialize(config) with the builder's outcome `fault`. On success the new
   * handle, built from Merge(config), becomes `logger`, `sugar` is its view and
   * the environment is recorded. On failure `logger` has already been
   * overwritten with what the builder returned; `sugar` and `currentEnv` keep
   * their old values.
   */
  function AfterInitialize(s: State, config: Config, fault: Option<BuildFault>): (t: State)
    ensures fault.None? ==> Coherent(t) && t.currentEnv == config.environment
    ensures fault.None? ==> t.logger.value.config == Merge(config)
    ensures fault.None? ==> t.logger.value.threshold == config.level && t.logger.value.fields == []
    ensures fault.Some? ==> t.logger == fault.value.returned
    ensures fault.Some? ==> t.sugar == s.sugar && t.currentEnv == s.currentEnv
  {
    var built := Build(Merge(config), fault);
    if built.err.Some? then s.(logger := built.logger)
    else State(built.logger, Some(Sugared(built.logger.value)), config.environment)
  }

  /**
   * SetLevel(level): nothing when `logger` is nil; otherwise `logger` becomes a
   * handle that writes only what both its old minimum level and `level` allow,
   * `sugar` is re-derived from it and the environment is kept.
   */
  function AfterSetLevel(s: State, level: Level): (t: State)
    ensures s.logger.None? ==> t == s
    ensures s.logger.Some? ==> Coherent(t) && t.currentEnv == s.currentEnv
    ensures s.logger.Some? ==> t.logger.value.config == s.logger.value.config
    ensures s.logger.Some? ==> t.logger.value.fields == s.logger.value.fields
    ensures s.logger.Some? ==> forall l :: Enabled(t.logger.value.threshold, l) <==> Enabled(s.logger.value.threshold, l) && Enabled(level, l)
  {
    match s.logger
    case None => s
    case Some(h) =>
      var raised := IncreaseLevel(h, level);
      s.(logger := Some(raised), sugar := Some(Sugared(raised)))
  }

  /** SetEnvironment(env) is Initialize(DefaultConfig(env)): on success the environment is `env`. */
  lemma SetEnvironmentRecordsEnv(s: State, env: Environment)
    ensures AfterInitialize(s, DefaultConfig(env), None).currentEnv == env
    ensures Coherent(AfterInitialize(s, DefaultConfig(env), None))
  {
  }

  /** SetLevel never lowers the minimum level: nothing disabled before is enabled after. */
  lemma SetLevelNeverLowers(s: State, level: Level, l: Level)
    requires s.logger.Some? && !Enabled(s.logger.value.threshold, l)
    ensures !Enabled(AfterSetLevel(s, level).logger.value.threshold, l)
  {
  }

  // ---------------------------------------------------------------------------
  // What the logging calls write

  /** A structured call (Debug, Info, Warn, Error) through `logger`: nothing when it is nil. */
  function Emit(logger: Option<Handle>, lvl: Level, msg: string, fields: seq<Field>): (out: seq<Entry>)
    ensures logger.None? ==> out == []
    ensures out != [] <==> logger.Some? && Enabled(logger.value.threshold, lvl)
    ensures out != [] ==> |out| == 1 && out[0].message == Plain(msg) && out[0].level == lvl
    ensures out != [] ==> out[0].fields == logger.value.fields + fields && out[0].config == logger.value.config
  {
    match logger
    case None => []
    case Some(h) => Write(h, lvl, Plain(msg), fields)
  }

  /** A formatted call (Debugf, Infof, Warnf, Errorf) through `sugar`: nothing when it is nil. */
  function EmitFormatted(sugar: Option<Sugared>, lvl: Level, template: string, args: seq<string>): (out: seq<Entry>)
    ensures sugar.None? ==> out == []
    ensures out != [] <==> sugar.Some? && Enabled(sugar.value.base.threshold, lvl)
    ensures out != [] ==> |out| == 1 && out[0].message == Formatted(template, args) && out[0].level == lvl
    ensures out != [] ==> out[0].fields == sugar.value.base.fields && out[0].config == sugar.value.base.config
  {
    match sugar
    case None => []
    case Some(s) => Write(s.base, lvl, Formatted(template, args), [])
  }

  /**
   * Under the Warn minimum level a Debug call writes nothing, and an Error
   * call writes one entry carrying the message and the fields as given.
   */
  lemma WarnThresholdFilters(h: Handle, msg: string, fields: seq<Field>)
    requires h.threshold == WarnLevel && h.fields == []
    ensures Emit(Some(h), DebugLevel, msg, fields) == []
    ensures Emit(Some(h), ErrorLevel, msg, fields) == [Entry(ErrorLevel, Plain(msg), fields, h.config)]
  {
    assert h.fields + fields == fields;
  }

  /**
   * Initialize with the Test environment, Info level, no output path and JSON
   * encoding succeeds on a good build; an Info call is then accepted by the
   * engine but written to no output at all.
   */
  lemma SilentTestInitialize(s: State, fields: seq<Field>)
    ensures var t := AfterInitialize(s, Config(Test, InfoLevel, [], "json"), None);
      var out := Emit(t.logger, InfoLevel, "svc up", fields);
      && |out| == 1
      && out[0].config.outputPaths == Explicit([])
      && out[0].config.encoding == "json"
  {
  }

  /**
   * A failed Initialize whose builder returned nil, applied to a working
   * facade, leaves the two kinds of call disagreeing: structured calls write
   * nothing, while formatted calls still reach the previous engine.
   */
  lemma FailedInitializeSplitsCalls(s: State, config: Config, cause: string, lvl: Level, msg: string, args: seq<string>)
    requires Coherent(s) && Enabled(s.logger.value.threshold, lvl)
    ensures var t := AfterInitialize(s, config, Some(BuildFault(None, cause)));
      && Emit(t.logger, lvl, msg, []) == []
      && EmitFormatted(t.sugar, lvl, msg, args) != []
      && EmitFormatted(t.sugar, lvl, msg, args)[0].config == s.logger.value.config
      && t.currentEnv == s.currentEnv
  {
  }

  // ---------------------------------------------------------------------------
  // The facade object

  /** The package-level state of logger.go and the operations over it. */
  class Facade {
    var logger: Option<Handle>
    var sugar: Option<Sugared>
    var currentEnv: Environment
    /** Every entry the engine accepted, in order; it reaches a sink only through its `config.outputPaths`. */
    ghost var recorded: seq<Entry>

    function Snapshot(): State
      reads this
    {
      State(logger, sugar, currentEnv)
    }

    /** The package variables as declared: no logger yet, Development environment. */
    constructor ()
      ensures Snapshot() == Start && recorded == []
    {
      logger := None;
      sugar := None;
      currentEnv := Development;
      recorded := [];
    }

    /**
     * init(): Initialize(DefaultConfig(Development)); a failure there ends the
     * process, which `exits` reports instead.
     */
    method Init(fault: Option<BuildFault>) returns (exits: bool)
      modifies this`logger, this`sugar, this`currentEnv
      ensures Snapshot() == AfterInitialize(old(Snapshot()), DefaultConfig(Development), fault)
      ensures exits <==> fault.Some?
    {
      var err := Initialize(DefaultConfig(Development), fault);
      exits := err.Some?;
    }

    /** Initialize(config): build from Merge(config), then update the state as AfterInitialize says. */
    method Initialize(config: Config, fault: Option<BuildFault>) returns (err: Option<string>)
      modifies this`logger, this`sugar, this`currentEnv
      ensures Snapshot() == AfterInitialize(old(Snapshot()), config, fault)
      ensures err.None? <==> fault.None?
      ensures err.Some? ==> err.value == "failed to build logger: " + fault.value.cause
      ensures err.None? ==> Coherent(Snapshot()) && currentEnv == config.environment
    {
      var zapConfig := Merge(config);
      var built := Build(zapConfig, fault);
      logger := built.logger;
      if built.err.Some? {
        return Some("failed to build logger: " + built.err.value);
      }
      sugar := Some(Sugared(logger.value));
      currentEnv := config.environment;
      return None;
    }

    /** SetEnvironment(env): Initialize(DefaultConfig(env)). */
    method SetEnvironment(env: Environment, fault: Option<BuildFault>) returns (err: Option<string>)
      modifies this`logger, this`sugar, this`currentEnv
      ensures Snapshot() == AfterInitialize(old(Snapshot()), DefaultConfig(env), fault)
      ensures err.None? <==> fault.None?
      ensures err.Some? ==> err.value == "failed to build logger: " + fault.value.cause
      ensures err.None? ==> currentEnv == env
    {
      err := Initialize(DefaultConfig(env), fault);
    }

    /** SetLevel(level): raise the minimum level of a present logger and re-derive `sugar`. */
    method SetLevel(level: Level)
      modifies this`logger, this`sugar
      ensures Snapshot() == AfterSetLevel(old(Snapshot()), level)
    {
      if logger.Some? {
        logger := Some(IncreaseLevel(logger.value, level));
        sugar := Some(Sugared(logger.value));
      }
    }

    /** GetLogger: the stored logger, nil when unset. */
    method GetLogger() returns (l: Option<Handle>)
      ensures l == logger
    {
      l := logger;
    }

    /** GetSugar: the stored sugared logger, nil when unset. */
    method GetSugar() returns (s: Option<Sugared>)
      ensures s == sugar
    {
      s := sugar;
    }

    /** Sync: the engine's flush result (`flushErr`, an input) when a logger is present, success otherwise. */
    method Sync(flushErr: Option<string>) returns (err: Option<string>)
      ensures logger.None? ==> err.None?
      ensures logger.Some? ==> err == flushErr
    {
      if logger.Some? {
        return flushErr;
      }
      return None;
    }

    /** Debug: write at DebugLevel through `logger`, if present. */
    method Debug(msg: string, fields: seq<Field>)
      modifies this`recorded
      ensures recorded == old(recorded) + Emit(logger, DebugLevel, msg, fields)
    {
      if logger.Some? {
        recorded := recorded + Write(logger.value, DebugLevel, Plain(msg), fields);
      }
    }

    /** Debugf: write at DebugLevel through `sugar`, if present. */
    method Debugf(template: string, args: seq<string>)
      modifies this`recorded
      ensures recorded == old(recorded) + EmitFormatted(sugar, DebugLevel, template, args)
    {
      if sugar.Some? {
        recorded := recorded + Write(sugar.value.base, DebugLevel, Formatted(template, args), []);
      }
    }

    /** Info: write at InfoLevel through `logger`, if present. */
    method Info(msg: string, fields: seq<Field>)
      modifies this`recorded
      ensures recorded == old(recorded) + Emit(logger, InfoLevel, msg, fields)
    {
      if logger.Some? {
        recorded := recorded + Write(logger.value, InfoLevel, Plain(msg), fields);
      }
    }

    /** Infof: write at InfoLevel through `sugar`, if present. */
    method Infof(template: string, args: seq<string>)
      modifies this`recorded
      ensures recorded == old(recorded) + EmitFormatted(sugar, InfoLevel, template, args)
    {
      if sugar.Some? {
        recorded := recorded + Write(sugar.value.base, InfoLevel, Formatted(template, args), []);
      }
    }

    /** Warn: write at WarnLevel through `logger`, if present. */
    method Warn(msg: string, fields: seq<Field>)
      modifies this`recorded
      ensures recorded == old(recorded) + Emit(logger, WarnLevel, msg, fields)
    {
      if logger.Some? {
        recorded := recorded + Write(logger.value, WarnLevel, Plain(msg), fields);
      }
    }

    /** Warnf: write at WarnLevel through `sugar`, if present. */
    method Warnf(template: string, args: seq<string>)
      modifies this`recorded
      ensures recorded == old(recorded) + EmitFormatted(sugar, WarnLevel, template, args)
    {
      if sugar.Some? {
        recorded := recorded + Write(sugar.value.base, WarnLevel, Formatted(template, args), []);
      }
    }

    /** Error: write at ErrorLevel through `logger`, if present. */
    method Error(msg: string, fields: seq<Field>)
      modifies this`recorded
      ensures recorded == old(recorded) + Emit(logger, ErrorLevel, msg, fields)
    {
      if logger.Some? {
        recorded := recorded + Write(logger.value, ErrorLevel, Plain(msg), fields);
      }
    }

    /** Errorf: write at ErrorLevel through `sugar`, if present. */
    method Errorf(template: string, args: seq<string>)
      modifies this`recorded
      ensures recorded == old(recorded) + EmitFormatted(sugar, ErrorLevel, template, args)
    {
      if sugar.Some? {
        recorded := recorded + Write(sugar.value.base, ErrorLevel, Formatted(template, args), []);
      }
    }

    /** With: a child of `logger` carrying `fields`, nil when there is no logger. */
    method With(fields: seq<Field>) returns (child: Option<Handle>)
      ensures child.None? <==> logger.None?
      ensures child.Some? ==> child.value.config == logger.value.config
      ensures child.Some? ==> child.value.threshold == logger.value.threshold
      ensures child.Some? ==> child.value.fields == logger.value.fields + fields
    {
      if logger.Some? {
        return Some(Zap.With(logger.value, fields));
      }
      return None;
    }

    /** WithFields: the same as With. */
    method WithFields(fields: seq<Field>) returns (child: Option<Handle>)
      ensures child.None? <==> logger.None?
      ensures child.Some? ==> child.value == Zap.With(logger.value, fields)
    {
      child := With(fields);
    }
  }
}
