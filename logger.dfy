/**
 * `ToyLogger`: a per-level table of settings and callbacks, an immutable default, and
 * the five level methods that resolve a level's settings and hand the message to `output`.
 */
module Logger {
  import opened Options
  import opened LogTypes
  import opened Format
  import opened Resolution
  import opened Dispatch

  /**
   * What a level method produces: the level's fields laid over the default, the level's
   * callbacks, the level tag `LOG` (every level method passes `LogLevel.LOG`) and the
   * console method of the level itself.
   */
  function LevelTrace(target: map<Level, Detail>, defaults: Settings, level: Level, message: Message,
                      clock: nat -> string, stack: Option<string>): seq<Event>
    requires level in target
  {
    DispatchTrace(Merge(defaults, target[level].settings), target[level].callbacks, message, LOG, level, clock, stack)
  }

  /**
   * The method picks only the entry and the console method: since every level method
   * renders with the tag `LOG`, two levels with equal entries start the same callbacks
   * on the same texts.
   */
  lemma SameEntrySameCalls(target: map<Level, Detail>, defaults: Settings, l1: Level, l2: Level,
                           message: Message, clock: nat -> string, stack: Option<string>)
    requires l1 in target && l2 in target && target[l1] == target[l2]
    ensures Calls(LevelTrace(target, defaults, l1, message, clock, stack))
         == Calls(LevelTrace(target, defaults, l2, message, clock, stack))
  {
    var settings := Merge(defaults, target[l1].settings);
    var lines := Lines(settings, message, stack);
    var texts := Texts(settings.format, LOG, clock, lines, |lines|);
    CallsOfGrid(texts, settings.useConsole, l1, target[l1].callbacks);
    CallsOfGrid(texts, settings.useConsole, l2, target[l1].callbacks);
  }

  class ToyLogger {
    var target: map<Level, Detail>
    const defaultSetting: Settings

    /** Every level has an entry, so the lookups of the level methods never miss. */
    ghost predicate Valid()
      reads this
    {
      forall level: Level :: level in target
    }

    /** `new ToyLogger(config)`: one entry per level from `toLogDetail`, and the merged default. */
    constructor (config: Option<LogConfig>)
      ensures Valid()
      ensures target == InitialTarget(config)
      ensures defaultSetting == InitialDefault(config)
    {
      var t: map<Level, Detail> := map[];
      t := t[DEBUG := ToLogDetail(Entry(config, DEBUG))];
      t := t[INFO := ToLogDetail(Entry(config, INFO))];
      t := t[LOG := ToLogDetail(Entry(config, LOG))];
      t := t[WARN := ToLogDetail(Entry(config, WARN))];
      t := t[ERROR := ToLogDetail(Entry(config, ERROR))];
      target := t;
      defaultSetting := Merge(DEFAULT_LOG_SETTINGS, ConfigDefaults(config));
      new;
      forall level: Level
        ensures level in target && target[level] == InitialTarget(config)[level]
      {
        LevelCases(level);
      }
    }

    /** `ToyLogger.create(config)`. */
    static method Create(config: Option<LogConfig>) returns (logger: ToyLogger)
      ensures fresh(logger)
      ensures logger.Valid()
      ensures logger.target == InitialTarget(config)
      ensures logger.defaultSetting == InitialDefault(config)
    {
      logger := new ToyLogger(config);
    }

    /** `addCallBack(level, callback)`: the level's list grows by the added callback(s). */
    method AddCallBack(level: Level, callback: CallbackInput)
      requires Valid()
      modifies this
      ensures Valid()
      ensures target == AddCallbacks(old(target), level, callback)
    {
      var logDetail := target[level];
      var callbackList := Normalise(callback);
      target := target[level := Detail(logDetail.settings, logDetail.callbacks + callbackList)];
    }

    /** `log(message)`, written to `console.log`. */
    method Log(message: Message, clock: nat -> string, stack: Option<string>)
      returns (trace: seq<Event>, after: Message)
      requires Valid()
      ensures trace == LevelTrace(target, defaultSetting, LOG, message, clock, stack)
      ensures after == MessageAfter(Merge(defaultSetting, target[LOG].settings), message, stack)
    {
      var logDetail := target[LOG];
      trace, after := Output(Merge(defaultSetting, logDetail.settings), logDetail.callbacks, message, LOG, LOG, clock, stack);
    }

    /** `debug(message)`, written to `console.debug`. */
    method Debug(message: Message, clock: nat -> string, stack: Option<string>)
      returns (trace: seq<Event>, after: Message)
      requires Valid()
      ensures trace == LevelTrace(target, defaultSetting, DEBUG, message, clock, stack)
      ensures after == MessageAfter(Merge(defaultSetting, target[DEBUG].settings), message, stack)
    {
      var logDetail := target[DEBUG];
      trace, after := Output(Merge(defaultSetting, logDetail.settings), logDetail.callbacks, message, LOG, DEBUG, clock, stack);
    }

    /** `info(message)`, written to `console.info`. */
    method Info(message: Message, clock: nat -> string, stack: Option<string>)
      returns (trace: seq<Event>, after: Message)
      requires Valid()
      ensures trace == LevelTrace(target, defaultSetting, INFO, message, clock, stack)
      ensures after == MessageAfter(Merge(defaultSetting, target[INFO].settings), message, stack)
    {
      var logDetail := target[INFO];
      trace, after := Output(Merge(defaultSetting, logDetail.settings), logDetail.callbacks, message, LOG, INFO, clock, stack);
    }

    /** `warn(message)`, written to `console.warn`. */
    method Warn(message: Message, clock: nat -> string, stack: Option<string>)
      returns (trace: seq<Event>, after: Message)
      requires Valid()
      ensures trace == LevelTrace(target, defaultSetting, WARN, message, clock, stack)
      ensures after == MessageAfter(Merge(defaultSetting, target[WARN].settings), message, stack)
    {
      var logDetail := target[WARN];
      trace, after := Output(Merge(defaultSetting, logDetail.settings), logDetail.callbacks, message, LOG, WARN, clock, stack);
    }

    /** `error(message)`, written to `console.error`. */
    method Error(message: Message, clock: nat -> string, stack: Option<string>)
      returns (trace: seq<Event>, after: Message)
      requires Valid()
      ensures trace == LevelTrace(target, defaultSetting, ERROR, message, clock, stack)
      ensures after == MessageAfter(Merge(defaultSetting, target[ERROR].settings), message, stack)
    {
      var logDetail := target[ERROR];
      trace, after := Output(Merge(defaultSetting, logDetail.settings), logDetail.callbacks, message, LOG, ERROR, clock, stack);
    }
  }
}
