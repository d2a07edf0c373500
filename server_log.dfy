/** The backend's structured logger: `createLogger(scope, minLevel)` fixes a
    threshold and each level method emits a record only at or above it. */
module ServerLog {
  import opened Common

  datatype Level = Debug | Info | Warn | Error

  /** The `levels` table. */
  function Rank(l: Level): (r: int)
    ensures 10 <= r <= 40
  {
    match l
    case Debug => 10
    case Info => 20
    case Warn => 30
    case Error => 40
  }

  lemma RanksStrictlyOrdered()
    ensures Rank(Debug) < Rank(Info) < Rank(Warn) < Rank(Error)
  {
  }

  /** Which console stream a level writes to. */
  datatype Stream = Log | WarnStream | ErrorStream

  /** The record `fmt` serialises (its JSON text is not modelled; the
      optional `meta` is left out). */
  datatype Record = Record(ts: string, level: Level, scope: string, message: string)

  datatype Emission = Emission(stream: Stream, record: Record)

  /** The logger `createLogger` returns: its scope and the threshold `min`. */
  datatype Logger = Logger(scope: string, min: int) {

    /** `should(level)` */
    predicate Should(level: Level) {
      Rank(level) >= min
    }

    /** `debug` / `info` / `warn` / `error`, with the clock reading `ts`
        passed in: the emission, or None when the level is filtered out. */
    function Emit(level: Level, message: string, ts: string): (r: Option<Emission>)
      ensures r.Some? <==> Should(level)
      ensures r.Some? ==> r.value.record == Record(ts, level, scope, message)
      ensures r.Some? ==> (r.value.stream == Log <==> level == Debug || level == Info)
      ensures r.Some? ==> (r.value.stream == ErrorStream <==> level == Error)
    {
      if !Should(level) then None
      else
        var stream := match level
          case Debug => Log
          case Info => Log
          case Warn => WarnStream
          case Error => ErrorStream;
        Some(Emission(stream, Record(ts, level, scope, message)))
    }
  }

  /** `createLogger(scope, minLevel = 'info')`; None stands for the omitted
      argument. */
  function CreateLogger(scope: string, minLevel: Option<Level>): (lg: Logger)
    ensures lg.scope == scope
    ensures lg.min == Rank(minLevel.GetOr(Info))
    ensures forall l :: lg.Should(l) <==> Rank(l) >= Rank(minLevel.GetOr(Info))
  {
    Logger(scope, Rank(minLevel.GetOr(Info)))
  }

  /** If a level is emitted, so is every level ranked above it. */
  lemma ShouldMonotone(minLevel: Option<Level>, a: Level, b: Level)
    requires Rank(a) <= Rank(b)
    requires CreateLogger("", minLevel).Should(a)
    ensures CreateLogger("", minLevel).Should(b)
  {
  }

  /** With the default threshold debug is dropped and the rest are kept. */
  lemma DefaultThreshold(scope: string)
    ensures !CreateLogger(scope, None).Should(Debug)
    ensures CreateLogger(scope, None).Should(Info)
    ensures CreateLogger(scope, None).Should(Warn)
    ensures CreateLogger(scope, None).Should(Error)
  {
  }

  /** Errors are emitted whatever the threshold. */
  lemma ErrorAlwaysEmitted(scope: string, minLevel: Option<Level>, message: string, ts: string)
    ensures CreateLogger(scope, minLevel).Emit(Error, message, ts) ==
            Some(Emission(ErrorStream, Record(ts, Error, scope, message)))
  {
  }
}
