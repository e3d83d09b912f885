/**
 * `output`: expands a message into lines, may append a stack-trace line, and for each
 * line in order renders it, writes it to the console when enabled and starts every
 * callback on it. Its effects are recorded as a trace of events.
 */
module Dispatch {
  import opened Options
  import opened LogTypes
  import opened Format

  /** `LogMessage`: one string or an array of strings. */
  datatype Message = Text(text: string) | Parts(parts: seq<string>)

  /** One observable effect of `output`: a console write or the start of a callback. */
  datatype Event = Console(sink: Level, text: string) | Invoke(callback: Callback, text: string)

  /** The separator `output` passes to `join` (the two characters `/` and `n`). */
  const LINE_JOIN: string := "/n"

  const NO_STACK_TRACE: string := "the stack trace is not available"

  /** The strings a message is made of, in order. */
  function Pieces(message: Message): seq<string> {
    match message
    case Text(s) => [s]
    case Parts(ps) => ps
  }

  /** `Array.prototype.join`: the parts with `sep` between neighbours, `""` for no parts. */
  function Join(parts: seq<string>, sep: string): string {
    if |parts| == 0 then ""
    else if |parts| == 1 then parts[0]
    else parts[0] + sep + Join(parts[1..], sep)
  }

  /** Joining two non-empty lists puts one separator between their joins. */
  lemma {:induction false} JoinAppend(xs: seq<string>, ys: seq<string>, sep: string)
    requires |xs| > 0 && |ys| > 0
    ensures Join(xs + ys, sep) == Join(xs, sep) + sep + Join(ys, sep)
  {
    if |xs| == 1 {
      assert (xs + ys)[1..] == ys;
    } else {
      assert (xs + ys)[1..] == xs[1..] + ys;
      JoinAppend(xs[1..], ys, sep);
    }
  }

  /** The joined text is as long as the parts plus one separator between each two. */
  lemma {:induction false} JoinLength(parts: seq<string>, sep: string)
    requires |parts| > 0
    ensures |Join(parts, sep)| == TotalLength(parts) + (|parts| - 1) * |sep|
  {
    if |parts| > 1 {
      JoinLength(parts[1..], sep);
    }
  }

  function TotalLength(parts: seq<string>): nat {
    if parts == [] then 0 else |parts[0]| + TotalLength(parts[1..])
  }

  /**
   * Message expansion: with `singleLine` the message is exactly one line, the join of
   * its pieces with `"/n"` (a scalar is its own join); otherwise its pieces are the lines.
   */
  function Expand(singleLine: bool, message: Message): (lines: seq<string>)
    ensures singleLine ==> |lines| == 1 && lines[0] == Join(Pieces(message), LINE_JOIN)
    ensures !singleLine ==> lines == Pieces(message)
    ensures message.Text? ==> lines == [message.text]
  {
    if singleLine then
      match message
      case Parts(ps) => [Join(ps, LINE_JOIN)]
      case Text(s) => [s]
    else
      match message
      case Parts(ps) => ps
      case Text(s) => [s]
  }

  /** `stackTrace || "the stack trace is not available"`: an absent or empty stack falls back. */
  function StackLine(stack: Option<string>): (line: string)
    ensures line != ""
    ensures stack.Some? && stack.value != "" ==> line == stack.value
    ensures stack.None? || stack.value == "" ==> line == NO_STACK_TRACE
  {
    if stack.Some? && stack.value != "" then stack.value else NO_STACK_TRACE
  }

  /**
   * The lines `output` dispatches: the expansion, followed by exactly one stack-trace
   * line when `useStackTrace` is set.
   */
  function Lines(settings: Settings, message: Message, stack: Option<string>): (lines: seq<string>)
    ensures !settings.useStackTrace ==> lines == Expand(settings.singleLine, message)
    ensures settings.useStackTrace ==>
      |lines| == |Expand(settings.singleLine, message)| + 1 &&
      lines[..|lines| - 1] == Expand(settings.singleLine, message) &&
      lines[|lines| - 1] == StackLine(stack)
  {
    Expand(settings.singleLine, message) + if settings.useStackTrace then [StackLine(stack)] else []
  }

  /** The first `n` lines rendered, line `i` with the `i`-th timestamp read from the clock. */
  function Texts(format: string, level: Level, clock: nat -> string, lines: seq<string>, n: nat): seq<string>
    requires n <= |lines|
  {
    if n == 0 then []
    else Texts(format, level, clock, lines, n - 1) + [IntoLogFormat(format, level, clock(n - 1), lines[n - 1])]
  }

  /** Rendering keeps one text per line. */
  lemma {:induction false} TextsLength(format: string, level: Level, clock: nat -> string, lines: seq<string>, n: nat)
    requires n <= |lines|
    ensures |Texts(format, level, clock, lines, n)| == n
  {
    if n > 0 {
      TextsLength(format, level, clock, lines, n - 1);
    }
  }

  /** Text `i` is line `i` rendered with the `i`-th clock reading. */
  lemma {:induction false} TextsAt(format: string, level: Level, clock: nat -> string, lines: seq<string>,
                                   n: nat, i: nat)
    requires n <= |lines| && i < n
    ensures |Texts(format, level, clock, lines, n)| == n
    ensures Texts(format, level, clock, lines, n)[i] == IntoLogFormat(format, level, clock(i), lines[i])
  {
    // Only which text sits where matters here, not what the renderer computes.
    hide IntoLogFormat;
    TextsLength(format, level, clock, lines, n - 1);
    if i < n - 1 {
      TextsAt(format, level, clock, lines, n - 1, i);
    }
  }

  /** Every callback started on `text`, in registration order. */
  function Invocations(callbacks: seq<Callback>, text: string): seq<Event> {
    seq(|callbacks|, j requires 0 <= j < |callbacks| => Invoke(callbacks[j], text))
  }

  /** The effects of one rendered line: the console write if enabled, then the callbacks. */
  function LineEvents(text: string, useConsole: bool, sink: Level, callbacks: seq<Callback>): seq<Event> {
    (if useConsole then [Console(sink, text)] else []) + Invocations(callbacks, text)
  }

  /** The effects of a sequence of rendered lines, line after line. */
  function Trace(texts: seq<string>, useConsole: bool, sink: Level, callbacks: seq<Callback>): seq<Event> {
    if texts == [] then []
    else Trace(texts[..|texts| - 1], useConsole, sink, callbacks)
         + LineEvents(texts[|texts| - 1], useConsole, sink, callbacks)
  }

  /** Appending a line to a trace appends that line's effects. */
  lemma TraceSnoc(texts: seq<string>, text: string, useConsole: bool, sink: Level, callbacks: seq<Callback>)
    ensures Trace(texts + [text], useConsole, sink, callbacks)
         == Trace(texts, useConsole, sink, callbacks) + LineEvents(text, useConsole, sink, callbacks)
  {
    assert (texts + [text])[..|texts|] == texts;
  }

  /** Rendering one more line appends the effects of that line, rendered with the next clock reading. */
  lemma TraceStep(format: string, level: Level, clock: nat -> string, lines: seq<string>, n: nat,
                  useConsole: bool, sink: Level, callbacks: seq<Callback>)
    requires n < |lines|
    ensures Trace(Texts(format, level, clock, lines, n + 1), useConsole, sink, callbacks)
         == Trace(Texts(format, level, clock, lines, n), useConsole, sink, callbacks)
            + LineEvents(IntoLogFormat(format, level, clock(n), lines[n]), useConsole, sink, callbacks)
  {
    TraceSnoc(Texts(format, level, clock, lines, n), IntoLogFormat(format, level, clock(n), lines[n]),
              useConsole, sink, callbacks);
  }

  /** The effects `output` has for the given settings, callbacks, message, clock and stack. */
  function DispatchTrace(settings: Settings, callbacks: seq<Callback>, message: Message, level: Level,
                         sink: Level, clock: nat -> string, stack: Option<string>): seq<Event>
  {
    var lines := Lines(settings, message, stack);
    Trace(Texts(settings.format, level, clock, lines, |lines|), settings.useConsole, sink, callbacks)
  }

  /**
   * The caller's message after `output`. An array message that is not joined is not
   * copied: `messages` is the caller's own array, so the stack-trace line is pushed onto it.
   */
  function MessageAfter(settings: Settings, message: Message, stack: Option<string>): Message {
    if settings.useStackTrace && !settings.singleLine && message.Parts? then
      Parts(message.parts + [StackLine(stack)])
    else message
  }

  /**
   * When the caller's array is pushed onto, it ends up holding exactly the lines that
   * were dispatched; every other message comes back unchanged.
   */
  lemma MessageAfterLines(settings: Settings, message: Message, stack: Option<string>)
    ensures settings.useStackTrace && !settings.singleLine && message.Parts? ==>
      MessageAfter(settings, message, stack) == Parts(Lines(settings, message, stack))
    ensures !(settings.useStackTrace && !settings.singleLine && message.Parts?) ==>
      MessageAfter(settings, message, stack) == message
  {
  }

  /**
   * Passing the same array again dispatches every line of the first call, the first
   * stack line included, followed by a second stack line.
   */
  lemma ReusedMessageLines(settings: Settings, message: Message, first: Option<string>, second: Option<string>)
    requires settings.useStackTrace && !settings.singleLine && message.Parts?
    ensures Lines(settings, MessageAfter(settings, message, first), second)
         == Lines(settings, message, first) + [StackLine(second)]
    ensures |Lines(settings, MessageAfter(settings, message, first), second)| == |message.parts| + 2
  {
  }

  /**
   * `output(logDetail, callbackFunctions, logMessage, level, console)`. `sink` names the
   * console method passed in, `clock(i)` is the timestamp read for the `i`-th line and
   * `stack` is what `new Error().stack` gave.
   */
  method Output(settings: Settings, callbacks: seq<Callback>, message: Message, level: Level,
                sink: Level, clock: nat -> string, stack: Option<string>)
    returns (trace: seq<Event>, after: Message)
    ensures trace == DispatchTrace(settings, callbacks, message, level, sink, clock, stack)
    ensures after == MessageAfter(settings, message, stack)
  {
    var messages := Expand(settings.singleLine, message);
    // Without `singleLine` an array message is used as it is: `messages` is the caller's array.
    var shared := !settings.singleLine && message.Parts?;
    if settings.useStackTrace {
      messages := messages + [StackLine(stack)];
    }
    after := if shared then Parts(messages) else message;
    trace := Emit(settings.format, settings.useConsole, level, sink, clock, callbacks, messages);
  }

  /** The loop of `output` over the lines: render each, then write it and start the callbacks. */
  method Emit(format: string, useConsole: bool, level: Level, sink: Level, clock: nat -> string,
              callbacks: seq<Callback>, messages: seq<string>) returns (trace: seq<Event>)
    ensures trace == Trace(Texts(format, level, clock, messages, |messages|), useConsole, sink, callbacks)
  {
    // The loop needs only that each line is rendered, not how: the renderer's body stays out of this proof.
    hide IntoLogFormat;
    trace := [];
    var i := 0;
    while i < |messages|
      invariant 0 <= i <= |messages|
      invariant trace == Trace(Texts(format, level, clock, messages, i), useConsole, sink, callbacks)
    {
      var formattedMessage := IntoLogFormat(format, level, clock(i), messages[i]);
      var events := EmitLine(formattedMessage, useConsole, sink, callbacks);
      TraceStep(format, level, clock, messages, i, useConsole, sink, callbacks);
      trace := trace + events;
      i := i + 1;
    }
  }

  /** The body of the loop for one rendered line: the console write if enabled, then each callback. */
  method EmitLine(text: string, useConsole: bool, sink: Level, callbacks: seq<Callback>) returns (events: seq<Event>)
    ensures events == LineEvents(text, useConsole, sink, callbacks)
  {
    events := [];
    if useConsole {
      events := [Console(sink, text)];
    }
    ghost var withConsole := events;
    var j := 0;
    while j < |callbacks|
      invariant 0 <= j <= |callbacks|
      invariant events == withConsole + Invocations(callbacks[..j], text)
    {
      assert Invocations(callbacks[..j + 1], text) == Invocations(callbacks[..j], text) + [Invoke(callbacks[j], text)];
      events := events + [Invoke(callbacks[j], text)];
      j := j + 1;
    }
    assert callbacks[..j] == callbacks;
  }

  /** The console events of a trace, in order. */
  function ConsoleWrites(trace: seq<Event>): seq<Event> {
    if trace == [] then []
    else (if trace[0].Console? then [trace[0]] else []) + ConsoleWrites(trace[1..])
  }

  /** The callback invocations of a trace, in order. */
  function Calls(trace: seq<Event>): seq<Event> {
    if trace == [] then []
    else (if trace[0].Invoke? then [trace[0]] else []) + Calls(trace[1..])
  }

  lemma {:induction false} ConsoleWritesAppend(a: seq<Event>, b: seq<Event>)
    ensures ConsoleWrites(a + b) == ConsoleWrites(a) + ConsoleWrites(b)
  {
    if a == [] {
      assert a + b == b;
    } else {
      var ab := a + b;
      var head: seq<Event> := if a[0].Console? then [a[0]] else [];
      assert ab[0] == a[0];
      assert ab[1..] == a[1..] + b;
      assert ConsoleWrites(ab) == head + ConsoleWrites(a[1..] + b);
      ConsoleWritesAppend(a[1..], b);
      assert ConsoleWrites(a) == head + ConsoleWrites(a[1..]);
    }
  }

  lemma {:induction false} CallsAppend(a: seq<Event>, b: seq<Event>)
    ensures Calls(a + b) == Calls(a) + Calls(b)
  {
    if a == [] {
      assert a + b == b;
    } else {
      var ab := a + b;
      var head: seq<Event> := if a[0].Invoke? then [a[0]] else [];
      assert ab[0] == a[0];
      assert ab[1..] == a[1..] + b;
      assert Calls(ab) == head + Calls(a[1..] + b);
      CallsAppend(a[1..], b);
      assert Calls(a) == head + Calls(a[1..]);
    }
  }

  /** A run of invocations has no console write and consists of calls only. */
  lemma {:induction false} InvocationsKind(callbacks: seq<Callback>, text: string)
    ensures ConsoleWrites(Invocations(callbacks, text)) == []
    ensures Calls(Invocations(callbacks, text)) == Invocations(callbacks, text)
  {
    if callbacks != [] {
      var inv := Invocations(callbacks, text);
      assert inv[1..] == Invocations(callbacks[1..], text);
      InvocationsKind(callbacks[1..], text);
    }
  }

  /** The effects of one line split into its console part and its callback part. */
  lemma LineEventsKinds(text: string, useConsole: bool, sink: Level, callbacks: seq<Callback>)
    ensures ConsoleWrites(LineEvents(text, useConsole, sink, callbacks))
         == if useConsole then [Console(sink, text)] else []
    ensures Calls(LineEvents(text, useConsole, sink, callbacks)) == Invocations(callbacks, text)
  {
    var head: seq<Event> := if useConsole then [Console(sink, text)] else [];
    ConsoleWritesAppend(head, Invocations(callbacks, text));
    CallsAppend(head, Invocations(callbacks, text));
    InvocationsKind(callbacks, text);
    if useConsole {
      assert head[1..] == [];
    }
  }

  /**
   * The console receives exactly one write per line, in line order, carrying that
   * line's text and going to `sink`, if and only if `useConsole` is set.
   */
  lemma {:induction false} ConsoleWritesOfTrace(texts: seq<string>, useConsole: bool, sink: Level,
                                                callbacks: seq<Callback>)
    ensures ConsoleWrites(Trace(texts, useConsole, sink, callbacks))
         == if useConsole then seq(|texts|, i requires 0 <= i < |texts| => Console(sink, texts[i])) else []
  {
    if texts != [] {
      var n := |texts| - 1;
      ConsoleWritesOfTrace(texts[..n], useConsole, sink, callbacks);
      ConsoleWritesAppend(Trace(texts[..n], useConsole, sink, callbacks),
                          LineEvents(texts[n], useConsole, sink, callbacks));
      LineEventsKinds(texts[n], useConsole, sink, callbacks);
      if useConsole {
        WritesSnoc(texts, sink);
      }
    }
  }

  lemma WritesSnoc(texts: seq<string>, sink: Level)
    requires texts != []
    ensures seq(|texts|, i requires 0 <= i < |texts| => Console(sink, texts[i]))
         == seq(|texts| - 1, i requires 0 <= i < |texts| - 1 => Console(sink, texts[..|texts| - 1][i]))
            + [Console(sink, texts[|texts| - 1])]
  {
  }

  lemma MulSucc(n: nat, k: nat)
    ensures (n + 1) * k == n * k + k
  {
  }

  lemma {:induction false} MulMonotone(a: nat, b: nat, k: nat)
    requires a <= b
    ensures a * k <= b * k
  {
    if a < b {
      MulMonotone(a, b - 1, k);
      MulSucc(b - 1, k);
    }
  }

  /** Entry `j` of row `i` of an `n` by `k` table lies inside the table. */
  lemma RowBound(i: nat, n: nat, k: nat, j: nat)
    requires i < n && j < k
    ensures i * k + j < n * k
  {
    MulSucc(i, k);
    MulMonotone(i + 1, n, k);
  }

  /** The invocations of `texts` line-major: every callback on line 0, then on line 1, and so on. */
  function Grid(texts: seq<string>, callbacks: seq<Callback>): seq<Event> {
    if texts == [] then []
    else Grid(texts[..|texts| - 1], callbacks) + Invocations(callbacks, texts[|texts| - 1])
  }

  lemma {:induction false} GridLength(texts: seq<string>, callbacks: seq<Callback>)
    ensures |Grid(texts, callbacks)| == |texts| * |callbacks|
  {
    if texts != [] {
      GridLength(texts[..|texts| - 1], callbacks);
      MulSucc(|texts| - 1, |callbacks|);
    }
  }

  /** Entry `i * |callbacks| + j` of the grid is callback `j` started on line `i`. */
  lemma {:induction false} GridAt(texts: seq<string>, callbacks: seq<Callback>, i: nat, j: nat)
    requires i < |texts| && j < |callbacks|
    ensures i * |callbacks| + j < |Grid(texts, callbacks)|
    ensures Grid(texts, callbacks)[i * |callbacks| + j] == Invoke(callbacks[j], texts[i])
  {
    var n := |texts| - 1;
    var front := Grid(texts[..n], callbacks);
    GridLength(texts[..n], callbacks);
    GridLength(texts, callbacks);
    RowBound(i, |texts|, |callbacks|, j);
    if i < n {
      GridAt(texts[..n], callbacks, i, j);
      assert texts[..n][i] == texts[i];
    } else {
      assert i * |callbacks| + j == |front| + j;
    }
  }

  lemma {:induction false} CallsOfGrid(texts: seq<string>, useConsole: bool, sink: Level, callbacks: seq<Callback>)
    ensures Calls(Trace(texts, useConsole, sink, callbacks)) == Grid(texts, callbacks)
  {
    if texts != [] {
      var n := |texts| - 1;
      CallsOfGrid(texts[..n], useConsole, sink, callbacks);
      CallsAppend(Trace(texts[..n], useConsole, sink, callbacks), LineEvents(texts[n], useConsole, sink, callbacks));
      LineEventsKinds(texts[n], useConsole, sink, callbacks);
    }
  }

  /** There are `|texts| * |callbacks|` invocations. */
  lemma CallsCount(texts: seq<string>, useConsole: bool, sink: Level, callbacks: seq<Callback>)
    ensures |Calls(Trace(texts, useConsole, sink, callbacks))| == |texts| * |callbacks|
  {
    CallsOfGrid(texts, useConsole, sink, callbacks);
    GridLength(texts, callbacks);
  }

  /**
   * The invocations are line-major: invocation `i * |callbacks| + j` is callback `j`
   * started on line `i`.
   */
  lemma CallsOfTrace(texts: seq<string>, useConsole: bool, sink: Level, callbacks: seq<Callback>, i: nat, j: nat)
    requires i < |texts| && j < |callbacks|
    ensures i * |callbacks| + j < |Calls(Trace(texts, useConsole, sink, callbacks))|
    ensures Calls(Trace(texts, useConsole, sink, callbacks))[i * |callbacks| + j] == Invoke(callbacks[j], texts[i])
  {
    CallsOfGrid(texts, useConsole, sink, callbacks);
    GridAt(texts, callbacks, i, j);
  }

  /** A trace has one block per line, each of one console write (if enabled) and one call per callback. */
  lemma {:induction false} TraceLength(texts: seq<string>, useConsole: bool, sink: Level, callbacks: seq<Callback>)
    ensures |Trace(texts, useConsole, sink, callbacks)| == |texts| * (|callbacks| + if useConsole then 1 else 0)
  {
    if texts != [] {
      var n := |texts| - 1;
      TraceLength(texts[..n], useConsole, sink, callbacks);
      MulSucc(n, |callbacks| + if useConsole then 1 else 0);
    }
  }

  /**
   * A scalar message with no stack-trace line is one line, rendered with the first clock
   * reading: its effects are that line's console write (if enabled) and then the callbacks.
   */
  lemma OneLineTrace(settings: Settings, callbacks: seq<Callback>, m: string, level: Level,
                     sink: Level, clock: nat -> string, stack: Option<string>)
    requires !settings.useStackTrace
    ensures DispatchTrace(settings, callbacks, Text(m), level, sink, clock, stack)
         == LineEvents(IntoLogFormat(settings.format, level, clock(0), m), settings.useConsole, sink, callbacks)
  {
    var lines := Lines(settings, Text(m), stack);
    assert lines == [m];
    var text := IntoLogFormat(settings.format, level, clock(0), m);
    assert Texts(settings.format, level, clock, lines, 1) == [text];
    TraceSnoc([], text, settings.useConsole, sink, callbacks);
    assert [] + [text] == [text];
  }

  /**
   * `output` writes to the console once per line when `useConsole` is set and never
   * otherwise, whatever the format.
   */
  lemma ConsoleCount(settings: Settings, callbacks: seq<Callback>, message: Message, level: Level,
                     sink: Level, clock: nat -> string, stack: Option<string>)
    ensures |ConsoleWrites(DispatchTrace(settings, callbacks, message, level, sink, clock, stack))|
         == if settings.useConsole then |Lines(settings, message, stack)| else 0
  {
    var lines := Lines(settings, message, stack);
    var texts := Texts(settings.format, level, clock, lines, |lines|);
    TextsLength(settings.format, level, clock, lines, |lines|);
    ConsoleWritesOfTrace(texts, settings.useConsole, sink, callbacks);
  }

  /** With `useConsole` set, console write `i` carries line `i` rendered with `clock(i)`. */
  lemma ConsoleWriteAt(settings: Settings, callbacks: seq<Callback>, message: Message, level: Level,
                       sink: Level, clock: nat -> string, stack: Option<string>, i: nat)
    requires settings.useConsole && i < |Lines(settings, message, stack)|
    ensures i < |ConsoleWrites(DispatchTrace(settings, callbacks, message, level, sink, clock, stack))|
    ensures ConsoleWrites(DispatchTrace(settings, callbacks, message, level, sink, clock, stack))[i]
         == Console(sink, IntoLogFormat(settings.format, level, clock(i), Lines(settings, message, stack)[i]))
  {
    hide IntoLogFormat;
    var lines := Lines(settings, message, stack);
    var texts := Texts(settings.format, level, clock, lines, |lines|);
    TextsAt(settings.format, level, clock, lines, |lines|, i);
    ConsoleWritesOfTrace(texts, settings.useConsole, sink, callbacks);
  }

  /** `output` starts lines × callbacks callbacks. */
  lemma CallsTotal(settings: Settings, callbacks: seq<Callback>, message: Message, level: Level,
                   sink: Level, clock: nat -> string, stack: Option<string>)
    ensures |Calls(DispatchTrace(settings, callbacks, message, level, sink, clock, stack))|
         == |Lines(settings, message, stack)| * |callbacks|
  {
    var lines := Lines(settings, message, stack);
    TextsLength(settings.format, level, clock, lines, |lines|);
    CallsCount(Texts(settings.format, level, clock, lines, |lines|), settings.useConsole, sink, callbacks);
  }

  /** Where callback `j`'s start on line `i` sits among the starts, with `k` callbacks per line. */
  function CallIndex(i: nat, j: nat, k: nat): nat {
    i * k + j
  }

  /**
   * Callback start `i * k + j`, with `k` callbacks, is callback `j` started on line `i`
   * rendered with `clock(i)`.
   */
  lemma CallAt(settings: Settings, callbacks: seq<Callback>, message: Message, level: Level,
               sink: Level, clock: nat -> string, stack: Option<string>, i: nat, j: nat)
    requires i < |Lines(settings, message, stack)| && j < |callbacks|
    ensures CallIndex(i, j, |callbacks|) < |Calls(DispatchTrace(settings, callbacks, message, level, sink, clock, stack))|
    ensures Calls(DispatchTrace(settings, callbacks, message, level, sink, clock, stack))[CallIndex(i, j, |callbacks|)]
         == Invoke(callbacks[j], IntoLogFormat(settings.format, level, clock(i), Lines(settings, message, stack)[i]))
  {
    hide IntoLogFormat;
    var lines := Lines(settings, message, stack);
    var texts := Texts(settings.format, level, clock, lines, |lines|);
    TextsAt(settings.format, level, clock, lines, |lines|, i);
    CallsOfTrace(texts, settings.useConsole, sink, callbacks, i, j);
  }
}
