/**
 * The behaviours test/index.test.ts checks, stated over the model: what each level
 * method does with two callbacks, registration after construction, the precedence of a
 * level's own `useConsole` over the configured default, and the rendering example. Also
 * what happens to an array message that is logged twice with the stack trace on.
 */
module Scenarios {
  import opened Options
  import opened LogTypes
  import opened Format
  import opened Resolution
  import opened Dispatch
  import opened Logger

  /**
   * With the default settings, a scalar message is one line `"[LOG]: <time> - <message>"`:
   * it goes to the console and then to every callback.
   */
  lemma DefaultEvents(settings: Settings, callbacks: seq<Callback>, m: string, sink: Level,
                      clock: nat -> string, stack: Option<string>)
    requires settings == DEFAULT_LOG_SETTINGS
    requires '$' !in clock(0) && '$' !in m && !Contains(clock(0), "MESSAGE")
    ensures DispatchTrace(settings, callbacks, Text(m), LOG, sink, clock, stack)
         == LineEvents("[LOG]: " + clock(0) + " - " + m, true, sink, callbacks)
  {
    OneLineTrace(settings, callbacks, m, LOG, sink, clock, stack);
    RenderLog(settings.format, clock(0), m);
  }

  lemma RenderLog(format: string, timestamp: string, m: string)
    requires format == DEFAULT_LOG_SETTINGS.format
    requires '$' !in timestamp && '$' !in m && !Contains(timestamp, "MESSAGE")
    ensures IntoLogFormat(format, LOG, timestamp, m) == "[LOG]: " + timestamp + " - " + m
  {
    RenderDefaultTemplate(format, LOG, timestamp, m);
    LogPrefix(timestamp, m);
  }

  lemma LogPrefix(timestamp: string, m: string)
    ensures "[" + Name(LOG) + "]: " + timestamp + " - " + m == "[LOG]: " + timestamp + " - " + m
  {
    assert "[" + Name(LOG) + "]: " == "[LOG]: ";
  }

  /** The configuration of the first test group: every level lists the same two callbacks. */
  function BothCallbacks(a: Callback, b: Callback): LogConfig {
    var entry := DetailInput(NO_OVERRIDES, Some(Many([a, b])));
    LogConfig(map[DEBUG := entry, INFO := entry, LOG := entry, WARN := entry, ERROR := entry], None)
  }

  /** Under that configuration every level resolves to the defaults and the two callbacks. */
  lemma BothCallbacksEntry(a: Callback, b: Callback, level: Level)
    ensures InitialTarget(Some(BothCallbacks(a, b)))[level] == Detail(NO_OVERRIDES, [a, b])
    ensures Merge(InitialDefault(Some(BothCallbacks(a, b))), NO_OVERRIDES) == DEFAULT_LOG_SETTINGS
  {
    LevelCases(level);
    MergeNothing(DEFAULT_LOG_SETTINGS);
  }

  /**
   * Whichever level method is called, each of the two callbacks is started exactly once,
   * on the line rendered with the tag `LOG`.
   */
  lemma {:induction false} EveryLevelStartsBoth(a: Callback, b: Callback, level: Level, m: string,
                                                clock: nat -> string, stack: Option<string>)
    requires '$' !in clock(0) && '$' !in m && !Contains(clock(0), "MESSAGE")
    ensures Calls(LevelTrace(InitialTarget(Some(BothCallbacks(a, b))), InitialDefault(Some(BothCallbacks(a, b))),
                             level, Text(m), clock, stack))
         == [Invoke(a, "[LOG]: " + clock(0) + " - " + m), Invoke(b, "[LOG]: " + clock(0) + " - " + m)]
  {
    var text := "[LOG]: " + clock(0) + " - " + m;
    BothCallbacksEntry(a, b, level);
    DefaultEvents(DEFAULT_LOG_SETTINGS, [a, b], m, level, clock, stack);
    LineEventsKinds(text, true, level, [a, b]);
    assert Invocations([a, b], text) == [Invoke(a, text), Invoke(b, text)];
  }

  /**
   * A logger created without configuration starts no callback on `log`; after one
   * callback is added to `LOG`, the next `log` starts it exactly once.
   */
  method LateRegistration(cb: Callback, clock: nat -> string, stack: Option<string>)
    returns (before: seq<Event>, after: seq<Event>)
    requires '$' !in clock(0) && !Contains(clock(0), "MESSAGE")
    ensures Calls(before) == []
    ensures Calls(after) == [Invoke(cb, "[LOG]: " + clock(0) + " - ")]
  {
    hide IntoLogFormat;
    var logger := ToyLogger.Create(None);
    var m1;
    before, m1 := logger.Log(Text(""), clock, stack);
    logger.AddCallBack(LOG, One(cb));
    var m2;
    after, m2 := logger.Log(Text(""), clock, stack);

    MergeNothing(DEFAULT_LOG_SETTINGS);
    var text := "[LOG]: " + clock(0) + " - " + "";
    assert text == "[LOG]: " + clock(0) + " - ";
    DefaultEvents(DEFAULT_LOG_SETTINGS, [], "", LOG, clock, stack);
    DefaultEvents(DEFAULT_LOG_SETTINGS, [cb], "", LOG, clock, stack);
    LineEventsKinds(text, true, LOG, []);
    LineEventsKinds(text, true, LOG, [cb]);
    assert [] + [cb] == [cb];
    assert Invocations([cb], text) == [Invoke(cb, text)];
  }

  /** `useConsole` off by default and on for `WARN` only. */
  const CONSOLE_FOR_WARN: LogConfig :=
    LogConfig(map[WARN := DetailInput(PartialSettings(None, None, Some(true), None), None)],
              Some(PartialSettings(None, None, Some(false), None)))

  /** Under `CONSOLE_FOR_WARN`, `LOG` resolves to the quiet default and `WARN` to the built-in one. */
  lemma ConsoleForWarnEntries()
    ensures Merge(InitialDefault(Some(CONSOLE_FOR_WARN)), InitialTarget(Some(CONSOLE_FOR_WARN))[LOG].settings)
         == Settings(false, DEFAULT_LOG_SETTINGS.format, false, false)
    ensures Merge(InitialDefault(Some(CONSOLE_FOR_WARN)), InitialTarget(Some(CONSOLE_FOR_WARN))[WARN].settings)
         == DEFAULT_LOG_SETTINGS
    ensures InitialTarget(Some(CONSOLE_FOR_WARN))[LOG].callbacks == []
    ensures InitialTarget(Some(CONSOLE_FOR_WARN))[WARN].callbacks == []
  {
  }

  /**
   * A level's own `useConsole` wins over the configured default: `log` writes nothing to
   * the console while `warn` writes its line once, to `console.warn`.
   */
  method ConsolePrecedence(clock: nat -> string, stack: Option<string>)
    returns (logTrace: seq<Event>, warnTrace: seq<Event>)
    requires '$' !in clock(0) && !Contains(clock(0), "MESSAGE")
    ensures ConsoleWrites(logTrace) == []
    ensures ConsoleWrites(warnTrace) == [Console(WARN, "[LOG]: " + clock(0) + " - ")]
  {
    hide IntoLogFormat, Merge, InitialTarget, InitialDefault;
    var logger := ToyLogger.Create(Some(CONSOLE_FOR_WARN));
    ConsoleForWarnEntries();
    var m1, m2;
    logTrace, m1 := logger.Log(Text(""), clock, stack);
    warnTrace, m2 := logger.Warn(Text(""), clock, stack);

    var quiet := Settings(false, DEFAULT_LOG_SETTINGS.format, false, false);
    OneLineTrace(quiet, [], "", LOG, LOG, clock, stack);
    LineEventsKinds(IntoLogFormat(quiet.format, LOG, clock(0), ""), false, LOG, []);
    var text := "[LOG]: " + clock(0) + " - " + "";
    assert text == "[LOG]: " + clock(0) + " - ";
    DefaultEvents(DEFAULT_LOG_SETTINGS, [], "", WARN, clock, stack);
    LineEventsKinds(text, true, WARN, []);
  }

  /** `useStackTrace` on for `LOG` only. */
  const STACK_FOR_LOG: LogConfig :=
    LogConfig(map[LOG := DetailInput(PartialSettings(None, None, None, Some(true)), None)], None)

  /** Under `STACK_FOR_LOG`, `LOG` keeps the defaults except for the stack-trace line. */
  lemma StackForLogEntry()
    ensures Merge(InitialDefault(Some(STACK_FOR_LOG)), InitialTarget(Some(STACK_FOR_LOG))[LOG].settings)
         == Settings(false, DEFAULT_LOG_SETTINGS.format, true, true)
    ensures InitialTarget(Some(STACK_FOR_LOG))[LOG].callbacks == []
  {
  }

  /**
   * One array passed to `log` twice with the stack trace on. The first call writes the
   * element and a stack line and leaves that stack line in the array; the second call
   * writes all three and leaves the array holding both stack lines.
   */
  method ReusedArray(clock: nat -> string, first: Option<string>, second: Option<string>)
    returns (firstTrace: seq<Event>, secondTrace: seq<Event>, reused: Message)
    ensures |ConsoleWrites(firstTrace)| == 2
    ensures |ConsoleWrites(secondTrace)| == 3
    ensures reused == Parts(["a", StackLine(first), StackLine(second)])
  {
    hide IntoLogFormat, Merge, InitialTarget, InitialDefault;
    var logger := ToyLogger.Create(Some(STACK_FOR_LOG));
    StackForLogEntry();
    var message := Parts(["a"]);
    firstTrace, message := logger.Log(message, clock, first);
    secondTrace, reused := logger.Log(message, clock, second);

    var settings := Settings(false, DEFAULT_LOG_SETTINGS.format, true, true);
    ConsoleCount(settings, [], Parts(["a"]), LOG, LOG, clock, first);
    ConsoleCount(settings, [], message, LOG, LOG, clock, second);
    ReusedMessageLines(settings, Parts(["a"]), first, second);
  }

  /** The rendering test's own instance: `DEBUG`, `1984/04/04T00:00:00` and `crucial`. */
  lemma RenderDebugInstance(format: string, timestamp: string, message: string)
    requires format == DEFAULT_LOG_SETTINGS.format
    requires timestamp == "1984/04/04T00:00:00" && message == "crucial"
    ensures IntoLogFormat(format, DEBUG, timestamp, message) == "[DEBUG]: " + timestamp + " - " + message
  {
    hide IntoLogFormat;
    assert '$' !in timestamp && 'M' !in timestamp && '$' !in message;
    NotContainsStart(timestamp, [], "MESSAGE");
    assert timestamp + [] == timestamp;
    RenderDefaultTemplate(format, DEBUG, timestamp, message);
    DebugPrefix(timestamp, message);
  }

  lemma DebugPrefix(timestamp: string, m: string)
    ensures "[" + Name(DEBUG) + "]: " + timestamp + " - " + m == "[DEBUG]: " + timestamp + " - " + m
  {
    assert "[" + Name(DEBUG) + "]: " == "[DEBUG]: ";
  }
}
