# toy-logger, modelled in Dafny

toy-logger is a small TypeScript logging facade, `lib/index.ts`. A `ToyLogger` keeps one
entry per level (`DEBUG`, `INFO`, `LOG`, `WARN`, `ERROR`). Each entry holds partial settings
and a list of callbacks. The logger also keeps a default `LogSettings`: `DEFAULT_LOG_SETTINGS`
overridden by `config.defaultSettings`.

Each level method resolves the level's settings over the default and calls `output`.
`output` turns the message into lines:
- a scalar message is one line;
- an array message is its elements, or their join with the two characters `/n` when
  `singleLine` is set;
- a stack-trace line is appended when `useStackTrace` is set.

For every line in order, `output` renders the line with `intoLogFormat`. It writes the
result to the level's console method when `useConsole` is set, then starts every callback
on it, in registration order.

The model has seven modules, one file each:

- `Options` (options.dfy): an `Option` type, used for absent fields.
- `LogTypes` (types.dfy): levels, settings, partial settings, callback inputs, per-level
  details and the configuration, plus `DEFAULT_LOG_SETTINGS`.
- `Format` (format.dfy): `String.prototype.replace` with a string pattern. It replaces the
  first occurrence only and interprets the `$$`, `$&`, `` $` `` and `$'` patterns of the
  replacement. On top of it, `intoLogFormat`.
- `Resolution` (resolution.dfy): the object spreads that resolve settings, `toLogDetail`,
  the table the constructor builds, and the table after `addCallBack`.
- `Dispatch` (dispatch.dfy): `output`. It is an imperative method with its nested loop,
  proved against a trace function.
- `Logger` (logger.dfy): the `ToyLogger` class. Its `target` map is a field that
  `addCallBack` reassigns.
- `Scenarios` (scenarios.dfy): the behaviours test/index.test.ts checks, and an array
  message logged twice, stated over the model.

The effects of `output` are a sequence of events. `Console(sink, text)` is a write to the
console method of level `sink`. `Invoke(callback, text)` is the start of a callback.

`new Date().toISOString()` and `new Error().stack` become parameters. `clock(i)` is the
timestamp read when line `i` is rendered. `stack` is what the stack capture returned, with
`None` for `undefined`.

Three behaviours that look unintended are kept exactly as written:
- all five level methods pass the tag `LOG` to the renderer, while using their own
  level's settings, callbacks and console method;
- the array join uses the two-character string `/n`, not a newline;
- without `singleLine`, an array message is not copied, so the stack-trace line is pushed
  onto the caller's own array. `Output` and the level methods therefore also return the
  message as the caller holds it afterwards. An array logged again carries the earlier
  stack lines with it.

A callback failure is not isolated: callbacks are started inside the loop, so a
synchronous throw from a callback ends `output` at that point. The model does not
model throwing (see "Left out").

`DEFAULT_LOG_SETTINGS` (lib/index.ts:1-6) is the constant `LogTypes.DEFAULT_LOG_SETTINGS`:
not joined, the template `[LEVEL]: TIMESTAMP - MESSAGE`, console on, no stack trace.

## Model

| member | source | states |
|---|---|---|
| LogTypes.Name | lib/index.ts:130-136 | Each level's string is its own name: the text the renderer inserts for `LEVEL`. |
| Format.IndexOf | lib/index.ts:78 | A found index lies at or after the start, with the whole pattern inside the string. |
| Format.IndexOfFinds | lib/index.ts:78 | A found index is at or after the start, the pattern occurs there, and no earlier index from the start has it. When nothing is found, the pattern occurs at no index from the start. |
| Format.Substitution | lib/index.ts:78 | The replacement text for a match: `$$` gives `$`, `$&` the match, `` $` `` the text before it, `$'` the text after it, and any other character stands for itself. |
| Format.SubstitutionVerbatim | lib/index.ts:78 | A replacement string without `$` is inserted verbatim. |
| Format.Replace | lib/index.ts:78 | `replace` with a string pattern: the text before the first occurrence, its substitution, then the text after it; the string itself when there is no occurrence. |
| Format.ReplaceFirst | lib/index.ts:78 | A string without the pattern is unchanged. Otherwise only the first occurrence is replaced: the text before and after it is kept unchanged. |
| Format.IntoLogFormat | lib/index.ts:77-79 | `LEVEL`, then `TIMESTAMP`, then `MESSAGE` are each replaced once, in that order, each on the result of the previous replacement. |
| Format.RenderTemplate | lib/index.ts:77-79 | For a template `a LEVEL b TIMESTAMP c MESSAGE d` whose shown tokens are the first ones when each is replaced: each token is replaced once, in order, and every other character is kept. It requires that the level name, the timestamp and the message hold no `$`. |
| Format.RenderDefaultTemplate | lib/index.ts:77-79 | The default template gives `"[" + level + "]: " + timestamp + " - " + message` when neither value contains `$` and the timestamp does not contain `MESSAGE`. |
| Resolution.Merge | lib/index.ts:23-26 | Field by field, a present override wins and an absent one leaves the base value. |
| Resolution.MergeTwice | lib/index.ts:41 | Merging two overrides one after the other equals merging once with the second laid over the first. |
| Resolution.MergeNothing | lib/index.ts:23-26 | An override with no field present changes nothing. |
| Resolution.Normalise | lib/index.ts:32 | A single callback becomes a one-element list; a list is kept as it is. |
| Resolution.ToLogDetail | lib/index.ts:121-128 | An absent entry gives no settings and no callbacks. A present entry keeps its settings, and its callbacks become `[]`, `[cb]` or the given list. |
| Resolution.Entry | lib/index.ts:18-22 | A level's configuration entry: absent without a configuration or when the configuration has no key for the level. |
| Resolution.ConfigDefaults | lib/index.ts:25 | The configured defaults, read as no override when the configuration or its `defaultSettings` is absent. |
| Resolution.InitialTarget | lib/index.ts:18-22 | Every level has an entry, and it is `toLogDetail` of that level's configuration entry. |
| Resolution.InitialDefault | lib/index.ts:23-26 | Without a configuration the default is `DEFAULT_LOG_SETTINGS`. In general it is `DEFAULT_LOG_SETTINGS` overridden by the configured defaults. |
| Resolution.EffectiveSettings | lib/index.ts:41-58 | A level method's settings are the level's fields over the configured defaults over `DEFAULT_LOG_SETTINGS`. |
| Resolution.AddCallbacks | lib/index.ts:30-37 | The key set is kept, the level keeps its settings, and its list becomes the old list followed by the added callbacks. Every other level is unchanged. |
| Resolution.AddCallbacksExtends | lib/index.ts:33-36 | The old list is a prefix of the new one, and the length grows by the number added. A single callback becomes the new last element. |
| Dispatch.Join | lib/index.ts:94 | `join`: `""` for no parts, the part itself for one, and the parts with the separator between neighbours otherwise. |
| Dispatch.Expand | lib/index.ts:93-95 | With `singleLine` there is exactly one line: the join of the pieces with `/n`. Without it, the lines are the pieces. A scalar is always the single line. |
| Dispatch.JoinAppend | lib/index.ts:94 | Joining two non-empty lists puts exactly one separator between their joins. |
| Dispatch.JoinLength | lib/index.ts:94 | The join is as long as the parts plus one separator between each neighbouring pair. |
| Dispatch.StackLine | lib/index.ts:100 | The stack line is never empty. A non-empty stack is used as it is; an absent or empty one gives `the stack trace is not available`. |
| Dispatch.Lines | lib/index.ts:93-101 | Without `useStackTrace`, the lines are the expansion. With it, there is one more line: the expansion followed by the stack line. |
| Dispatch.Texts | lib/index.ts:105-106 | The rendered lines in order, line `i` rendered with the `i`-th clock reading. |
| Dispatch.TextsLength | lib/index.ts:105-106 | Rendering gives one text per line. |
| Dispatch.TextsAt | lib/index.ts:105-106 | Text `i` is line `i` rendered with the format, the level and `clock(i)`. |
| Dispatch.Invocations | lib/index.ts:110-112 | Every callback started on one text, one start per callback, in registration order. |
| Dispatch.LineEvents | lib/index.ts:107-112 | One line's effects: the console write if `useConsole` is set, then every callback started on that text. |
| Dispatch.Trace | lib/index.ts:105-113 | The effects of a list of rendered lines: each line's console write (if enabled) and callback starts, line after line. |
| Dispatch.DispatchTrace | lib/index.ts:90-115 | The effects of `output`: the trace of the rendered lines of the expanded message plus the stack line. |
| Dispatch.MessageAfter | lib/index.ts:93-100 | The caller's message after `output`: an unjoined array with the stack line pushed on when `useStackTrace` is set, otherwise the message as it was. |
| Dispatch.MessageAfterLines | lib/index.ts:93-100 | When `output` pushes onto the caller's array, the array ends up holding exactly the dispatched lines; any other message is unchanged. |
| Dispatch.ReusedMessageLines | lib/index.ts:93-100 | Passing the same array again dispatches all lines of the first call, its stack line included, then a new stack line: two more lines than the array had at first. |
| Dispatch.Output | lib/index.ts:90-115 | The effects are those of the rendered lines of the expanded message plus the stack line, under the given console choice, sink and callbacks. The caller's message afterwards is `MessageAfter`: the pushed array when it was not copied. |
| Dispatch.Emit | lib/index.ts:105-113 | The loop over the lines produces, line after line, the effects of each line rendered with its own clock reading. |
| Dispatch.EmitLine | lib/index.ts:107-112 | One line's effects are the console write if enabled, then every callback started on that text in order. |
| Dispatch.TraceSnoc | lib/index.ts:105-113 | One more line appends exactly that line's effects. |
| Dispatch.TraceStep | lib/index.ts:105-113 | Rendering one more line appends the effects of that line, rendered with the next clock reading. |
| Dispatch.ConsoleWritesOfTrace | lib/index.ts:105-109 | If and only if `useConsole` is set, the console gets exactly one write per line, in line order, with that line's text, to the given sink. |
| Dispatch.CallsOfGrid | lib/index.ts:110-112 | The callback starts of a trace are the line-major grid of callbacks and texts, whatever the console choice. |
| Dispatch.GridLength | lib/index.ts:110-112 | The grid has lines × callbacks entries. |
| Dispatch.GridAt | lib/index.ts:110-112 | Entry `i * k + j` of the grid, with `k` callbacks, is callback `j` started on line `i`. |
| Dispatch.CallsCount | lib/index.ts:105-113 | There are lines × callbacks callback starts, whatever the console choice. |
| Dispatch.CallsOfTrace | lib/index.ts:105-113 | Start number `i * k + j`, with `k` callbacks, is callback `j` started on line `i`'s text: line-major, then in registration order. |
| Dispatch.TraceLength | lib/index.ts:105-113 | Each line contributes one event per callback plus one if the console is enabled. |
| Dispatch.ConsoleWriteAt | lib/index.ts:105-109 | With `useConsole` set, console write `i` of `output` goes to the sink and carries line `i` rendered with `clock(i)`. |
| Dispatch.CallsTotal | lib/index.ts:105-112 | `output` starts lines × callbacks callbacks. |
| Dispatch.CallAt | lib/index.ts:105-112 | Callback start `i * k + j` of `output`, with `k` callbacks, is callback `j` started on line `i` rendered with `clock(i)`. |
| Dispatch.OneLineTrace | lib/index.ts:93-112 | A scalar message with no stack line gives the effects of one line rendered with the first clock reading. |
| Dispatch.ConsoleCount | lib/index.ts:105-109 | The number of console writes is the number of lines when `useConsole` is set, and zero otherwise, whatever the format. |
| Logger.LevelTrace | lib/index.ts:39-59 | A level method's effects: `output` with the level's fields over the default, the level's callbacks, the tag `LOG` and the level's own console method. |
| Logger.SameEntrySameCalls | lib/index.ts:39-59 | Two levels with equal entries start the same callbacks on the same texts, because every level method renders with the tag `LOG`. |
| Logger.ToyLogger.constructor | lib/index.ts:17-27 | The table holds every level, built by `toLogDetail`, and the default is the merged default. |
| Logger.ToyLogger.Create | lib/index.ts:65-67 | A fresh logger in the state the constructor gives. |
| Logger.ToyLogger.AddCallBack | lib/index.ts:30-37 | The table becomes the table after registration, and every level keeps an entry. |
| Logger.ToyLogger.Log | lib/index.ts:39-42 | The effects of `output` with `LOG`'s resolved settings and callbacks, tag `LOG`, to `console.log`. The message is returned as `output` leaves it. |
| Logger.ToyLogger.Debug | lib/index.ts:43-46 | The effects of `output` with `DEBUG`'s resolved settings and callbacks, tag `LOG`, to `console.debug`. The message is returned as `output` leaves it. |
| Logger.ToyLogger.Info | lib/index.ts:47-50 | The effects of `output` with `INFO`'s resolved settings and callbacks, tag `LOG`, to `console.info`. The message is returned as `output` leaves it. |
| Logger.ToyLogger.Warn | lib/index.ts:52-55 | The effects of `output` with `WARN`'s resolved settings and callbacks, tag `LOG`, to `console.warn`. The message is returned as `output` leaves it. |
| Logger.ToyLogger.Error | lib/index.ts:56-59 | The effects of `output` with `ERROR`'s resolved settings and callbacks, tag `LOG`, to `console.error`. The message is returned as `output` leaves it. |
| Scenarios.DefaultEvents | lib/index.ts:105-112 | Under the default settings, a scalar message writes `"[LOG]: " + time + " - " + message` to the console and then starts every callback on it. |
| Scenarios.RenderLog | lib/index.ts:41-58 | The default template with the tag `LOG`, which every level method passes, renders as `"[LOG]: " + time + " - " + message`. |
| Scenarios.BothCallbacksEntry | test/index.test.ts:22-38 | With every level listing the same two callbacks, each level's entry is those two callbacks with no overrides, and its settings are the defaults. |
| Scenarios.EveryLevelStartsBoth | test/index.test.ts:45-69 | Whichever level method is called, each of the two callbacks is started exactly once, on the line tagged `LOG`. |
| Scenarios.LateRegistration | test/index.test.ts:72-85 | Before `addCallBack`, `log` starts no callback. After it, the next `log` starts the added callback exactly once. |
| Scenarios.RenderDebugInstance | test/index.test.ts:109-113 | The test's own instance: the default template with `DEBUG`, `1984/04/04T00:00:00` and `crucial` gives `"[DEBUG]: " + timestamp + " - " + message`. |
| Scenarios.ConsolePrecedence | test/index.test.ts:87-105 | A level's own `useConsole: true` wins over the default `false`: `log` writes nothing to the console, and `warn` writes once to `console.warn`. |
| Scenarios.ReusedArray | lib/index.ts:93-100 | With the stack trace on, one array logged twice gives two console writes, then three, and ends up holding the element and both stack lines. |

## Left out

- `async`/`await` and `Promise.all`: callbacks are recorded when they are started. Their settling, completion order and rejection are not modelled.
- Exceptions thrown by a callback or by the console method are not modelled. A synchronous throw would end the loop of `output` early.
- `new Date().toISOString()` and `new Error().stack` are platform calls. They are parameters: a clock indexed by line and an optional stack string.
- The real `console` methods are not called. A write is a `Console` event tagged with the level whose method `output` was given. A sink is identified by a level, so `output` called directly with some other function as its console (it is exported) is not modelled.
- Explicitly `undefined` fields in partial settings are not modelled. A field is present (`Some`) or absent (`None`), and a spread of an absent field falls through.
- The `callback` field that `{...this.defaultSetting, ...logDetail}` also copies into the settings object is unused by `output`, so resolution merges settings fields only.
- Callbacks are opaque handles; their own behaviour is outside the logger.
- `create` and the private constructor are one operation: `Create` calls the constructor. TypeScript visibility is not modelled.
- Scenarios.DefaultEvents, Scenarios.EveryLevelStartsBoth, Scenarios.LateRegistration, Scenarios.ConsolePrecedence: they require that the timestamp holds no `$` and no `MESSAGE`, and that the message holds no `$`. An ISO-8601 timestamp satisfies these, and the tests' messages do too.
- Resolution.ToLogDetail: a callback array in the configuration is stored as that same array, not a copy, until the first `addCallBack` on the level builds a new list. The model copies it at construction, so a later change to the caller's array (a push, or truncation) does not change which callbacks a level starts.
- Dispatch.MessageAfter: the caller's array is a value. Its contents after the push are returned to the caller, but other references to the same array, and the moment during `output` at which it changes, are not modelled.
- vite.config.ts is build configuration and is not part of this model. test/index.test.ts is cited, not modelled.
