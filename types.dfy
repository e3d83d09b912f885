/** The data model of lib/index.ts: levels, settings, callbacks and configuration inputs. */
module LogTypes {
  import opened Options

  /** `LogLevel`; every value's string is its own name. */
  datatype Level = DEBUG | INFO | LOG | WARN | ERROR

  /** The string value of a `LogLevel` member, which is what the renderer inserts. */
  function Name(level: Level): string {
    match level
    case DEBUG => "DEBUG"
    case INFO => "INFO"
    case LOG => "LOG"
    case WARN => "WARN"
    case ERROR => "ERROR"
  }

  /** The five levels are all there is. */
  lemma LevelCases(level: Level)
    ensures level == DEBUG || level == INFO || level == LOG || level == WARN || level == ERROR
  {
    match level
    case DEBUG => case INFO => case LOG => case WARN => case ERROR =>
  }

  /** A registered callback. Its behaviour is external, so only its identity is kept. */
  datatype Callback = Callback(id: nat)

  /** `LogSettings`: every field present. */
  datatype Settings = Settings(singleLine: bool, format: string, useConsole: bool, useStackTrace: bool)

  /** `Partial<LogSettings>`: an absent field is `None`. */
  datatype PartialSettings = PartialSettings(
    singleLine: Option<bool>,
    format: Option<string>,
    useConsole: Option<bool>,
    useStackTrace: Option<bool>)

  const NO_OVERRIDES: PartialSettings := PartialSettings(None, None, None, None)

  /** `DEFAULT_LOG_SETTINGS`; never changed. */
  const DEFAULT_LOG_SETTINGS: Settings := Settings(false, "[LEVEL]: TIMESTAMP - MESSAGE", true, false)

  /** `LogCallbackInput`: one callback or an array of them. */
  datatype CallbackInput = One(callback: Callback) | Many(callbacks: seq<Callback>)

  /** `LogDetailInput`: the per-level entry of the configuration. */
  datatype DetailInput = DetailInput(settings: PartialSettings, callback: Option<CallbackInput>)

  /** `LogDetail`: what the logger stores per level. */
  datatype Detail = Detail(settings: PartialSettings, callbacks: seq<Callback>)

  /** `LogConfig`: a missing key of `levels` is an absent per-level entry. */
  datatype LogConfig = LogConfig(levels: map<Level, DetailInput>, defaultSettings: Option<PartialSettings>)
}
