/**
 * The part of the zap logging engine that the facade relies on, seen from the
 * outside: severity levels, the settings handed to the builder, and the
 * handles the builder returns. Encoding, sinks and I/O are not modelled; a
 * handle only knows its settings, its minimum level and its attached fields.
 */
module Zap {
  import opened Wrappers

  /** zapcore.Level: a signed 8-bit severity; larger is more severe. */
  newtype Level = x: int | -128 <= x < 128

  const DebugLevel: Level := -1
  const InfoLevel: Level := 0
  const WarnLevel: Level := 1
  const ErrorLevel: Level := 2
  const DPanicLevel: Level := 3
  const PanicLevel: Level := 4
  const FatalLevel: Level := 5

  /** A handle whose minimum level is `threshold` writes an entry at `lvl` exactly when this holds. */
  predicate Enabled(threshold: Level, lvl: Level)
  {
    lvl >= threshold
  }

  /** A structured key/value pair (zap.Field); its value's type is not modelled. */
  datatype Field = Field(key: string, value: string)

  /** The preset zap.Config the builder starts from. */
  datatype Preset =
    | DevelopmentPreset   // zap.NewDevelopmentConfig()
    | ProductionPreset    // zap.NewProductionConfig()
    | ZeroPreset          // the zero zap.Config, whose OutputPaths is nil

  /** Output paths of a build: the preset's own list (zap's, not modelled) or an explicit one. */
  datatype Paths = PresetPaths | Explicit(paths: seq<string>)

  /** The zap.Config handed to Build: preset, level, encoding and output paths. */
  datatype BuildConfig = BuildConfig(preset: Preset, level: Level, encoding: string, outputPaths: Paths)

  /** A *zap.Logger: the settings it was built with, its minimum level and its attached fields. */
  datatype Handle = Handle(config: BuildConfig, threshold: Level, fields: seq<Field>)

  /** A *zap.SugaredLogger: a printf-style view over the same core as `base`. */
  datatype Sugared = Sugared(base: Handle)

  /** What a failing Build returned: the logger pointer that came back with the error, and the cause. */
  datatype BuildFault = BuildFault(returned: Option<Handle>, cause: string)

  /** The pair (logger, err) returned by zap.Config.Build. */
  datatype BuildResult = BuildResult(logger: Option<Handle>, err: Option<string>)

  /** The text of a log entry: a plain message, or a printf template and its (opaque) arguments. */
  datatype Message = Plain(text: string) | Formatted(template: string, args: seq<string>)

  /** One entry accepted by a handle; it is written to `config.outputPaths` in `config.encoding`. */
  datatype Entry = Entry(level: Level, message: Message, fields: seq<Field>, config: BuildConfig)

  /**
   * zap.Config.Build. Whether it fails (an unopenable path, an unknown
   * encoding) depends on the file system and on zap, so it is an input:
   * `fault` is None when the build succeeds.
   */
  function Build(c: BuildConfig, fault: Option<BuildFault>): (r: BuildResult)
    ensures r.err.None? <==> fault.None?
    ensures r.err.None? ==> r.logger.Some? && r.logger.value.config == c
    ensures r.err.None? ==> r.logger.value.threshold == c.level && r.logger.value.fields == []
    ensures r.err.Some? ==> r.logger == fault.value.returned
    ensures r.err.Some? ==> r.err.value == fault.value.cause
  {
    match fault
    case None => BuildResult(Some(Handle(c, c.level, [])), None)
    case Some(f) => BuildResult(f.returned, Some(f.cause))
  }

  /**
   * logger.WithOptions(zap.IncreaseLevel(lvl)): a handle over the same core
   * that writes only what both the old minimum level and `lvl` allow. When
   * `lvl` is below the old level zap reports an error and keeps the old one,
   * which is the same filter.
   */
  function IncreaseLevel(h: Handle, lvl: Level): (r: Handle)
    ensures r.config == h.config && r.fields == h.fields
    ensures forall l :: Enabled(r.threshold, l) <==> Enabled(h.threshold, l) && Enabled(lvl, l)
    ensures r.threshold == h.threshold || r.threshold == lvl
  {
    if lvl > h.threshold then h.(threshold := lvl) else h
  }

  /** logger.With(fields...): a child handle that adds `fields` to every entry it writes. */
  function With(h: Handle, fields: seq<Field>): (r: Handle)
    ensures r.config == h.config && r.threshold == h.threshold
    ensures |r.fields| == |h.fields| + |fields|
    ensures r.fields[..|h.fields|] == h.fields && r.fields[|h.fields|..] == fields
  {
    h.(fields := h.fields + fields)
  }

  /** The entries handle `h` writes for one call at `lvl`: none, or one carrying the message and all fields. */
  function Write(h: Handle, lvl: Level, m: Message, fields: seq<Field>): (out: seq<Entry>)
    ensures |out| <= 1
    ensures out != [] <==> Enabled(h.threshold, lvl)
    ensures out != [] ==> out[0].level == lvl && out[0].message == m && out[0].config == h.config
    ensures out != [] ==> out[0].fields == h.fields + fields
  {
    if lvl >= h.threshold then [Entry(lvl, m, h.fields + fields, h.config)] else []
  }
}
