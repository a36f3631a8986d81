/** The shared logging package: choosing the console handler's formatter from LOG_FORMAT,
    and initialising the root logger (level, no propagation, and one console handler of its
    own however often it is initialised). */
module Microlog {
  import opened Common

  /** The two formatters: the readable one-line format and one JSON object per record. */
  datatype FormatterKind = Pretty | JsonLines

  /** The exact class of a handler: the console stream handler, or any other class (a
      subclass of the stream handler included). */
  datatype HandlerClass = StreamHandlerClass | OtherHandlerClass(name: string)

  /** A handler attached to a logger; `marked` is the package's own `_microlog` mark. */
  datatype Handler = Handler(cls: HandlerClass, formatter: Option<FormatterKind>, marked: bool)

  /** The requested format, lower-cased, "pretty" when unset. */
  function LogFormat(env: map<string, string>): string {
    ToLower(EnvGet(env, "LOG_FORMAT", "pretty"))
  }

  /** `get_stream_handler`: a stream handler with the pretty or the JSON formatter; any other
      format is an invalid environment value, reported with the lower-cased text. */
  function GetStreamHandler(env: map<string, string>): (r: Result<Handler>)
    ensures r.Ok? <==> LogFormat(env) == "pretty" || LogFormat(env) == "json"
    ensures r.Ok? ==> r.value.cls == StreamHandlerClass && !r.value.marked
    ensures r.Ok? ==> r.value.formatter == Some(if LogFormat(env) == "pretty" then Pretty else JsonLines)
    ensures r.Err? ==> r.error == InvalidEnv("Invalid value for LOG_FORMAT: " + LogFormat(env))
  {
    var format := LogFormat(env);
    if format == "pretty" then Ok(Handler(StreamHandlerClass, Some(Pretty), false))
    else if format == "json" then Ok(Handler(StreamHandlerClass, Some(JsonLines), false))
    else Err(InvalidEnv("Invalid value for LOG_FORMAT: " + format))
  }

  /** An unset format selects the pretty formatter, and the value is compared without regard
      to the case of its letters. */
  lemma {:induction false} FormatDefaultsAndCase(env: map<string, string>)
    ensures "LOG_FORMAT" !in env ==> GetStreamHandler(env) == Ok(Handler(StreamHandlerClass, Some(Pretty), false))
    ensures "LOG_FORMAT" in env && env["LOG_FORMAT"] == "JSON" ==> GetStreamHandler(env) == Ok(Handler(StreamHandlerClass, Some(JsonLines), false))
  {
    if "LOG_FORMAT" !in env {
      assert LogFormat(env) == "pretty";
    }
    if "LOG_FORMAT" in env && env["LOG_FORMAT"] == "JSON" {
      assert LogFormat(env) == "json";
    }
  }

  /** The numeric value of a level name the logging library knows, if it knows it. */
  function LevelValue(name: string): Option<int> {
    if name == "CRITICAL" || name == "FATAL" then Some(50)
    else if name == "ERROR" then Some(40)
    else if name == "WARNING" || name == "WARN" then Some(30)
    else if name == "INFO" then Some(20)
    else if name == "DEBUG" then Some(10)
    else if name == "NOTSET" then Some(0)
    else None
  }

  /** The level name `init_logger` asks for: LOG_LEVEL, or the argument when unset, upper-cased. */
  function RequestedLevel(env: map<string, string>, level: string): string {
    ToUpper(EnvGet(env, "LOG_LEVEL", level))
  }

  /** The handler the package adds: a marked console handler. */
  predicate IsOurs(h: Handler) {
    h.marked && h.cls == StreamHandlerClass
  }

  /** Some attached handler is the package's own. */
  predicate HasOurs(handlers: seq<Handler>) {
    exists i :: 0 <= i < |handlers| && IsOurs(handlers[i])
  }

  /** The root logger's state as seen by `init_logger`. */
  datatype LoggerState = LoggerState(level: int, propagate: bool, handlers: seq<Handler>)

  /** What `init_logger` does to the root logger and whether it raises. An unknown level
      raises before anything changes; otherwise the level is set and propagation switched
      off, and a marked console handler is appended only when none is attached yet (an
      invalid LOG_FORMAT then raises after level and propagation were already set). */
  function InitLoggerSpec(env: map<string, string>, level: string, s: LoggerState): (o: (Option<Error>, LoggerState))
    ensures LevelValue(RequestedLevel(env, level)).None? ==>
      o == (Some(Unhandled("Unknown level: '" + RequestedLevel(env, level) + "'")), s)
    ensures LevelValue(RequestedLevel(env, level)).Some? ==>
      && o.1.level == LevelValue(RequestedLevel(env, level)).value
      && !o.1.propagate
      && (HasOurs(s.handlers) ==> o.0.None? && o.1.handlers == s.handlers)
      && (!HasOurs(s.handlers) && GetStreamHandler(env).Err? ==> o.0 == Some(GetStreamHandler(env).error) && o.1.handlers == s.handlers)
      && (!HasOurs(s.handlers) && GetStreamHandler(env).Ok? ==>
            o.0.None? && o.1.handlers == s.handlers + [GetStreamHandler(env).value.(marked := true)])
  {
    var name := RequestedLevel(env, level);
    match LevelValue(name)
    case None => (Some(Unhandled("Unknown level: '" + name + "'")), s)
    case Some(value) =>
      if HasOurs(s.handlers) then (None, LoggerState(value, false, s.handlers))
      else match GetStreamHandler(env)
        case Err(e) => (Some(e), LoggerState(value, false, s.handlers))
        case Ok(h) => (None, LoggerState(value, false, s.handlers + [h.(marked := true)]))
  }

  /** How many of the package's own handlers are attached. */
  function CountOurs(handlers: seq<Handler>): nat {
    if handlers == [] then 0
    else CountOurs(handlers[..|handlers| - 1]) + (if IsOurs(handlers[|handlers| - 1]) then 1 else 0)
  }

  lemma {:induction false} CountOursZero(handlers: seq<Handler>)
    ensures CountOurs(handlers) == 0 <==> !HasOurs(handlers)
  {
    if handlers != [] {
      var init := handlers[..|handlers| - 1];
      CountOursZero(init);
      if HasOurs(handlers) && !IsOurs(handlers[|handlers| - 1]) {
        var i :| 0 <= i < |handlers| && IsOurs(handlers[i]);
        assert init[i] == handlers[i];
      }
      if HasOurs(init) {
        var i :| 0 <= i < |init| && IsOurs(init[i]);
        assert handlers[i] == init[i];
      }
    }
  }

  /** A successful initialisation always leaves the package's handler attached, and every
      handler attached before stays in place, in order. */
  lemma {:induction false} InitKeepsHandlersAndAddsOurs(env: map<string, string>, level: string, s: LoggerState)
    requires InitLoggerSpec(env, level, s).0.None?
    ensures HasOurs(InitLoggerSpec(env, level, s).1.handlers)
    ensures s.handlers <= InitLoggerSpec(env, level, s).1.handlers
  {
    var t := InitLoggerSpec(env, level, s).1;
    if !HasOurs(s.handlers) {
      assert IsOurs(t.handlers[|s.handlers|]);
    }
  }

  /** Initialising again changes nothing: same level, no propagation, same handlers. */
  lemma {:induction false} InitIdempotent(env: map<string, string>, level: string, s: LoggerState)
    requires InitLoggerSpec(env, level, s).0.None?
    ensures InitLoggerSpec(env, level, InitLoggerSpec(env, level, s).1) == InitLoggerSpec(env, level, s)
  {
    InitKeepsHandlersAndAddsOurs(env, level, s);
  }

  /** Starting without a handler of its own, one successful initialisation leaves exactly one,
      and any further initialisation, with whatever environment and level, keeps it at one. */
  lemma {:induction false} ExactlyOneOfOurs(env: map<string, string>, level: string, s: LoggerState, env2: map<string, string>, level2: string)
    requires !HasOurs(s.handlers)
    requires InitLoggerSpec(env, level, s).0.None?
    ensures CountOurs(InitLoggerSpec(env, level, s).1.handlers) == 1
    ensures CountOurs(InitLoggerSpec(env2, level2, InitLoggerSpec(env, level, s).1).1.handlers) == 1
  {
    var t := InitLoggerSpec(env, level, s).1;
    CountOursZero(s.handlers);
    assert t.handlers[..|t.handlers| - 1] == s.handlers;
    InitKeepsHandlersAndAddsOurs(env, level, s);
  }

  /** The process-wide root logger, changed in place. */
  class RootLogger {
    var level: int
    var propagate: bool
    var handlers: seq<Handler>

    /** The library's initial root logger: WARNING, propagating, no handlers. */
    constructor()
      ensures level == 30 && propagate && handlers == []
    {
      level := 30;
      propagate := true;
      handlers := [];
    }

    function State(): LoggerState
      reads this
    {
      LoggerState(level, propagate, handlers)
    }

    /** `init_logger`: sets the level (unknown names raise), switches propagation off, and
        attaches a marked console handler unless a marked console handler is already attached.
        `None` stands for returning the root logger. */
    method InitLogger(env: map<string, string>, levelName: string) returns (err: Option<Error>)
      modifies this
      ensures (err, State()) == InitLoggerSpec(env, levelName, old(State()))
    {
      var name := ToUpper(EnvGet(env, "LOG_LEVEL", levelName));
      var value := LevelValue(name);
      if value.None? {
        return Some(Unhandled("Unknown level: '" + name + "'"));
      }
      level := value.value;
      propagate := false;
      var existing := false;
      for i := 0 to |handlers|
        invariant existing <==> exists j :: 0 <= j < i && IsOurs(handlers[j])
      {
        if handlers[i].marked && handlers[i].cls == StreamHandlerClass {
          existing := true;
        }
      }
      if !existing {
        var handler := GetStreamHandler(env);
        if handler.Err? {
          return Some(handler.error);
        }
        handlers := handlers + [handler.value.(marked := true)];
      }
      return None;
    }
  }
}
