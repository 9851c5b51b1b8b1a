/** packages/snap/src/logger.ts: a `Logger` holds a context object with a
    threshold and one handler per level; a message is handed to the handler
    of its level when the level is at or above the threshold. Handlers are
    output channels: calling one appends an emission to the `Console`, which
    stands for the console the default handlers write to. `NODE_ENV`, read
    when the module loads, is a parameter. */
module Logging {
  import opened Wrappers
  import opened Js

  /** `LogLevel`. */
  datatype LogLevel = DEBUG | INFO | WARN | ERROR {
    function Value(): (n: int)
      ensures 0 <= n <= 3
    {
      match this
      case DEBUG => 0
      case INFO => 1
      case WARN => 2
      case ERROR => 3
    }
  }

  /** A log function: the console method or caller-supplied function a
      handler names. */
  datatype Sink = Sink(name: string)

  /** `Record<LogLevel, LogFunction>`. */
  datatype Handlers = Handlers(debug: Sink, info: Sink, warn: Sink, error: Sink) {
    function At(level: LogLevel): Sink {
      match level
      case DEBUG => debug
      case INFO => info
      case WARN => warn
      case ERROR => error
    }
  }

  /** One call of a handler. */
  datatype Emission = Emission(sink: Sink, level: LogLevel, message: Json, params: seq<Json>)

  /** A property of a `Partial<LoggerContext>`: left out, or given (possibly
      as undefined, which `None` stands for). */
  datatype Field<T> = Absent | Given(value: T)

  datatype PartialContext = PartialContext(threshold: Field<Option<LogLevel>>, handlers: Field<Option<Handlers>>)

  /** `getDefaultLevel()`: DEBUG exactly when NODE_ENV is 'development', WARN otherwise. */
  function DefaultLevel(nodeEnv: Option<string>): (level: LogLevel)
    ensures level == DEBUG <==> nodeEnv == Some("development")
    ensures level != DEBUG ==> level == WARN
  {
    if nodeEnv == Some("development") then DEBUG else WARN
  }

  /** The handlers of DEFAULT_CONTEXT. */
  const ConsoleHandlers := Handlers(Sink("console.debug"), Sink("console.info"), Sink("console.warn"), Sink("console.error"))

  /** `level >= threshold`: an undefined threshold compares false with every level. */
  predicate Emits(threshold: Option<LogLevel>, level: LogLevel) {
    threshold.Some? && level.Value() >= threshold.value.Value()
  }

  /** A level that is emitted keeps being emitted at every higher level. */
  lemma EmitsUpward(threshold: Option<LogLevel>, level: LogLevel, higher: LogLevel)
    requires Emits(threshold, level) && level.Value() <= higher.Value()
    ensures Emits(threshold, higher)
  {
  }

  /** With any threshold set, ERROR messages are emitted; with the default
      threshold outside development, DEBUG and INFO are not. */
  lemma ThresholdFacts(threshold: LogLevel, nodeEnv: Option<string>)
    ensures Emits(Some(threshold), ERROR)
    ensures nodeEnv != Some("development") ==>
      !Emits(Some(DefaultLevel(nodeEnv)), DEBUG) && !Emits(Some(DefaultLevel(nodeEnv)), INFO)
      && Emits(Some(DefaultLevel(nodeEnv)), WARN)
    ensures nodeEnv == Some("development") ==> forall level :: Emits(Some(DefaultLevel(nodeEnv)), level)
  {
  }

  /** The console the handlers write to. */
  class Console {
    var lines: seq<Emission>

    constructor()
      ensures lines == []
    {
      lines := [];
    }

    method Write(e: Emission)
      modifies this
      ensures lines == old(lines) + [e]
    {
      lines := lines + [e];
    }
  }

  /** `LoggerContext`: the object a Logger keeps and setLevel changes. */
  class LoggerContext {
    var threshold: Option<LogLevel>
    var handlers: Option<Handlers>

    constructor(threshold: Option<LogLevel>, handlers: Option<Handlers>)
      ensures this.threshold == threshold && this.handlers == handlers
    {
      this.threshold := threshold;
      this.handlers := handlers;
    }
  }

  class Logger {
    const context: LoggerContext

    /** `new Logger(context)`: a new context object holding each given field
        and the default for each field left out. */
    constructor(partial: PartialContext, nodeEnv: Option<string>)
      ensures fresh(context)
      ensures context.threshold == (if partial.threshold.Given? then partial.threshold.value else Some(DefaultLevel(nodeEnv)))
      ensures context.handlers == (if partial.handlers.Given? then partial.handlers.value else Some(ConsoleHandlers))
    {
      var threshold := if partial.threshold.Given? then partial.threshold.value else Some(DefaultLevel(nodeEnv));
      var handlers := if partial.handlers.Given? then partial.handlers.value else Some(ConsoleHandlers);
      context := new LoggerContext(threshold, handlers);
    }

    /** `setLevel(level)`: the threshold becomes `level`; the handlers stay. */
    method SetLevel(level: LogLevel)
      modifies context
      ensures context.threshold == Some(level)
      ensures context.handlers == old(context.handlers)
    {
      context.threshold := Some(level);
    }

    /** `#log(level, message, ...params)`: the handler of `level` receives the
        message exactly when the level is at or above the threshold; calling
        a handler of an undefined handlers record throws. */
    method Log(level: LogLevel, message: Json, params: seq<Json>, console: Console) returns (r: Outcome)
      modifies console
      ensures Emits(context.threshold, level) && context.handlers.Some? ==>
        r == Pass && console.lines == old(console.lines) + [Emission(context.handlers.value.At(level), level, message, params)]
      ensures !Emits(context.threshold, level) ==> r == Pass && console.lines == old(console.lines)
      ensures Emits(context.threshold, level) && context.handlers.None? ==>
        r.Fail? && r.error.RuntimeTypeError? && console.lines == old(console.lines)
    {
      var threshold, handlers := context.threshold, context.handlers;
      if threshold.Some? && level.Value() >= threshold.value.Value() {
        if handlers.None? {
          return Fail(RuntimeTypeError("Cannot read properties of undefined"));
        }
        console.Write(Emission(handlers.value.At(level), level, message, params));
      }
      r := Pass;
    }

    /** `debug(message, ...params)`: logs at DEBUG. */
    method Debug(message: Json, params: seq<Json>, console: Console) returns (r: Outcome)
      modifies console
      ensures Emits(context.threshold, DEBUG) && context.handlers.Some? ==>
        r == Pass && console.lines == old(console.lines) + [Emission(context.handlers.value.debug, DEBUG, message, params)]
      ensures !Emits(context.threshold, DEBUG) ==> r == Pass && console.lines == old(console.lines)
      ensures Emits(context.threshold, DEBUG) && context.handlers.None? ==> r.Fail? && console.lines == old(console.lines)
    {
      r := Log(DEBUG, message, params, console);
    }

    /** `info(message, ...params)`: logs at INFO. */
    method Info(message: Json, params: seq<Json>, console: Console) returns (r: Outcome)
      modifies console
      ensures Emits(context.threshold, INFO) && context.handlers.Some? ==>
        r == Pass && console.lines == old(console.lines) + [Emission(context.handlers.value.info, INFO, message, params)]
      ensures !Emits(context.threshold, INFO) ==> r == Pass && console.lines == old(console.lines)
      ensures Emits(context.threshold, INFO) && context.handlers.None? ==> r.Fail? && console.lines == old(console.lines)
    {
      r := Log(INFO, message, params, console);
    }

    /** `warn(message, ...params)`: logs at WARN. */
    method Warn(message: Json, params: seq<Json>, console: Console) returns (r: Outcome)
      modifies console
      ensures Emits(context.threshold, WARN) && context.handlers.Some? ==>
        r == Pass && console.lines == old(console.lines) + [Emission(context.handlers.value.warn, WARN, message, params)]
      ensures !Emits(context.threshold, WARN) ==> r == Pass && console.lines == old(console.lines)
      ensures Emits(context.threshold, WARN) && context.handlers.None? ==> r.Fail? && console.lines == old(console.lines)
    {
      r := Log(WARN, message, params, console);
    }

    /** `error(message, ...params)`: logs at ERROR. */
    method Error(message: Json, params: seq<Json>, console: Console) returns (r: Outcome)
      modifies console
      ensures Emits(context.threshold, ERROR) && context.handlers.Some? ==>
        r == Pass && console.lines == old(console.lines) + [Emission(context.handlers.value.error, ERROR, message, params)]
      ensures !Emits(context.threshold, ERROR) ==> r == Pass && console.lines == old(console.lines)
      ensures Emits(context.threshold, ERROR) && context.handlers.None? ==> r.Fail? && console.lines == old(console.lines)
    {
      r := Log(ERROR, message, params, console);
    }
  }

  /** Two loggers built from the defaults do not share a context: raising the
      threshold of one leaves the other at the default level. */
  method SetLevelIsPerLogger(nodeEnv: Option<string>, level: LogLevel)
    returns (first: Option<LogLevel>, second: Option<LogLevel>)
    ensures first == Some(level)
    ensures second == Some(DefaultLevel(nodeEnv))
  {
    var a := new Logger(PartialContext(Absent, Absent), nodeEnv);
    var b := new Logger(PartialContext(Absent, Absent), nodeEnv);
    a.SetLevel(level);
    first, second := a.context.threshold, b.context.threshold;
  }

  /** A default logger outside development drops a DEBUG message and prints
      an ERROR message through console.error. */
  method DefaultLoggerFilters(nodeEnv: Option<string>, message: Json)
    returns (afterDebug: seq<Emission>, afterError: seq<Emission>)
    requires nodeEnv != Some("development")
    ensures afterDebug == []
    ensures afterError == [Emission(Sink("console.error"), ERROR, message, [])]
  {
    var console := new Console();
    var logger := new Logger(PartialContext(Absent, Absent), nodeEnv);
    var _ := logger.Debug(message, [], console);
    afterDebug := console.lines;
    var _ := logger.Error(message, [], console);
    afterError := console.lines;
  }
}
