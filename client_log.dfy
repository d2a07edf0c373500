/** The frontend logger: the level read from the configuration, `Logger`
    with its level filter and message format, and the `getLogger` registry. */
module ClientLog {
  import opened Common

  datatype LogLevel = Debug | Info | Warn | Error

  /** `LOG_LEVELS` */
  function Rank(l: LogLevel): int {
    match l
    case Debug => 10
    case Info => 20
    case Warn => 30
    case Error => 40
  }

  function Name(l: LogLevel): string {
    match l
    case Debug => "debug"
    case Info => "info"
    case Warn => "warn"
    case Error => "error"
  }

  const DefaultLevel: LogLevel := Info
  const MainLoggerName: string := "app"

  /** The level whose key is `s`, if any (`Object.keys(LOG_LEVELS).includes`). */
  function LevelNamed(s: string): (r: Option<LogLevel>)
    ensures r.Some? ==> Name(r.value) == s
    ensures r.None? <==> forall l: LogLevel :: Name(l) != s
  {
    if s == "debug" then Some(Debug)
    else if s == "info" then Some(Info)
    else if s == "warn" then Some(Warn)
    else if s == "error" then Some(Error)
    else None
  }

  /** `getLogLevel(value)`: the lower-cased name when it is a level,
      otherwise the default `info`. */
  function GetLogLevel(value: Option<string>): (r: LogLevel)
    ensures value.None? ==> r == DefaultLevel
    ensures value.Some? && (exists l: LogLevel :: Name(l) == Lower(value.value)) ==> Name(r) == Lower(value.value)
    ensures value.Some? && (forall l: LogLevel :: Name(l) != Lower(value.value)) ==> r == DefaultLevel
  {
    match value
    case None => DefaultLevel
    case Some(v) =>
      match LevelNamed(Lower(v))
      case Some(l) => l
      case None => DefaultLevel
  }

  /** A level's name in any letter case selects that level. */
  lemma {:induction false} GetLogLevelAnyCase(l: LogLevel, s: string)
    requires Lower(s) == Name(l)
    ensures GetLogLevel(Some(s)) == l
  {
    assert Name(GetLogLevel(Some(s))) == Name(l);
  }

  /** The console method a level is written with (`LOG_HANDLERS`). */
  datatype Console = ConsoleLog | ConsoleWarn | ConsoleError

  function Handler(l: LogLevel): Console {
    match l
    case Debug => ConsoleLog
    case Info => ConsoleLog
    case Warn => ConsoleWarn
    case Error => ConsoleError
  }

  /** One line written to the console. */
  datatype Line = Line(console: Console, text: string)

  class Logger {
    const name: string
    const logLevel: LogLevel

    constructor(name: string, logLevel: LogLevel)
      ensures this.name == name && this.logLevel == logLevel
    {
      this.name := name;
      this.logLevel := logLevel;
    }

    /** `formatMessage(level, message)`: `[name] [LEVEL] message`. */
    function FormatMessage(level: LogLevel, message: string): (r: string)
      ensures r == "[" + name + "] [" + Upper(Name(level)) + "] " + message
    {
      "[" + name + "] [" + Upper(Name(level)) + "] " + message
    }

    /** `log(level, message)`: the line written, or None when the level is
        below the logger's. */
    function Log(level: LogLevel, message: string): (r: Option<Line>)
      ensures r.Some? <==> Rank(level) >= Rank(logLevel)
      ensures r.Some? ==> r.value == Line(Handler(level), FormatMessage(level, message))
    {
      if Rank(level) < Rank(logLevel) then None
      else Some(Line(Handler(level), FormatMessage(level, message)))
    }

    /** `debug(message)`: written only by a logger at the debug level. */
    function Debug(message: string): (r: Option<Line>)
      ensures r.Some? <==> logLevel == LogLevel.Debug
      ensures r.Some? ==> r.value.console == ConsoleLog
      ensures r.Some? ==> r.value.text == FormatMessage(LogLevel.Debug, message)
    {
      Log(LogLevel.Debug, message)
    }

    /** `info(message)` */
    function Info(message: string): (r: Option<Line>)
      ensures r.Some? <==> logLevel == LogLevel.Debug || logLevel == LogLevel.Info
      ensures r.Some? ==> r.value.console == ConsoleLog
      ensures r.Some? ==> r.value.text == FormatMessage(LogLevel.Info, message)
    {
      Log(LogLevel.Info, message)
    }

    /** `warn(message)` logs at the `info` level. */
    function Warn(message: string): (r: Option<Line>)
      ensures r.Some? <==> logLevel == LogLevel.Debug || logLevel == LogLevel.Info
      ensures r.Some? ==> r.value.console == ConsoleLog
      ensures r.Some? ==> r.value.text == FormatMessage(LogLevel.Info, message)
    {
      Log(LogLevel.Info, message)
    }

    function Error(message: string): (r: Option<Line>)
      ensures r.Some? && r.value.console == ConsoleError
      ensures r.value.text == FormatMessage(LogLevel.Error, message)
    {
      Log(LogLevel.Error, message)
    }
  }

  /** Each level is tagged with its name in capitals. */
  lemma {:induction false} FormatTags(l: Logger, message: string)
    ensures l.FormatMessage(LogLevel.Debug, message) == "[" + l.name + "] [DEBUG] " + message
    ensures l.FormatMessage(LogLevel.Info, message) == "[" + l.name + "] [INFO] " + message
    ensures l.FormatMessage(LogLevel.Warn, message) == "[" + l.name + "] [WARN] " + message
    ensures l.FormatMessage(LogLevel.Error, message) == "[" + l.name + "] [ERROR] " + message
  {
    LevelTags();
  }

  lemma {:induction false} LevelTags()
    ensures Upper(Name(LogLevel.Debug)) == "DEBUG" && Upper(Name(LogLevel.Info)) == "INFO"
    ensures Upper(Name(LogLevel.Warn)) == "WARN" && Upper(Name(LogLevel.Error)) == "ERROR"
  {
    assert Upper(Name(LogLevel.Debug)) == "DEBUG" by { UpperName(LogLevel.Debug, "DEBUG"); }
    assert Upper(Name(LogLevel.Info)) == "INFO" by { UpperName(LogLevel.Info, "INFO"); }
    assert Upper(Name(LogLevel.Warn)) == "WARN" by { UpperName(LogLevel.Warn, "WARN"); }
    assert Upper(Name(LogLevel.Error)) == "ERROR" by { UpperName(LogLevel.Error, "ERROR"); }
  }

  lemma UpperName(level: LogLevel, tag: string)
    requires |tag| == |Name(level)|
    requires forall i :: 0 <= i < |tag| ==> tag[i] == UpperChar(Name(level)[i])
    ensures Upper(Name(level)) == tag
  {
  }

  /** The module state: the configured level, the app logger and
      `LOGGER_MAP`. */
  class LoggerRegistry {
    const level: LogLevel
    const appLogger: Logger
    var loggers: map<string, Logger>

    /** `app` maps to the app logger, the empty name is never registered,
        and every logger is registered under its own name with the
        configured level. */
    ghost predicate Valid()
      reads this
    {
      && MainLoggerName in loggers
      && loggers[MainLoggerName] == appLogger
      && "" !in loggers
      && forall n :: n in loggers ==> loggers[n].name == n && loggers[n].logLevel == level
    }

    /** Module initialisation, given `config.logLevel`. */
    constructor(configLevel: Option<string>)
      ensures Valid()
      ensures level == GetLogLevel(configLevel)
      ensures appLogger.name == MainLoggerName && appLogger.logLevel == level
      ensures loggers == map[MainLoggerName := appLogger]
    {
      level := GetLogLevel(configLevel);
      var app := new Logger(MainLoggerName, GetLogLevel(configLevel));
      appLogger := app;
      loggers := map[MainLoggerName := app];
    }

    /** `getLogger(name)`: no name gives the app logger; a known name gives
        the registered logger; a new name registers a new logger with the
        configured level. */
    method GetLogger(name: Option<string>) returns (l: Logger)
      requires Valid()
      modifies this
      ensures Valid()
      ensures name.None? || name.value == "" ==> l == appLogger && loggers == old(loggers)
      ensures name.Some? && name.value in old(loggers) ==> l == old(loggers)[name.value] && loggers == old(loggers)
      ensures name.Some? && name.value != "" && name.value !in old(loggers) ==>
        fresh(l) && l.name == name.value && l.logLevel == level && loggers == old(loggers)[name.value := l]
    {
      if name.None? || name.value == "" {
        return appLogger;
      }
      var n := name.value;
      if n !in loggers {
        var logger := new Logger(n, level);
        loggers := loggers[n := logger];
      }
      l := loggers[n];
    }
  }

  /** Asking twice for the same name yields the same instance, and asking
      for `app` yields the app logger. */
  method SameInstance(registry: LoggerRegistry, name: string) returns (first: Logger, second: Logger, app: Logger)
    requires registry.Valid()
    modifies registry
    ensures first == second && first.logLevel == registry.level
    ensures name != "" ==> first.name == name
    ensures app == registry.appLogger
  {
    first := registry.GetLogger(Some(name));
    second := registry.GetLogger(Some(name));
    app := registry.GetLogger(Some(MainLoggerName));
  }
}
