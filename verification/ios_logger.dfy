/** The iOS `Logger`: three levels ordered through their integral values, and
    a process-wide minimum below which messages are not printed. */
module IosLogger {
  import opened Wrappers

  datatype Level = Debug | Info | Error {
    /** `naturalIntegralValue`. */
    function NaturalIntegralValue(): int {
      match this
      case Debug => 1
      case Info => 2
      case Error => 3
    }
  }

  /** `<` on levels: by integral value. */
  predicate Less(a: Level, b: Level) {
    a.NaturalIntegralValue() < b.NaturalIntegralValue()
  }

  /** `>=` on levels, as Swift derives it from `<`. */
  predicate AtLeast(a: Level, b: Level) {
    !Less(a, b)
  }

  /** The levels form a strict total order, debug < info < error, and `>=`
      is its reflexive converse. */
  lemma LevelOrder(a: Level, b: Level, c: Level)
    ensures !Less(a, a)
    ensures Less(a, b) && Less(b, c) ==> Less(a, c)
    ensures a == b || Less(a, b) || Less(b, a)
    ensures Less(a, b) ==> !Less(b, a)
    ensures Less(Debug, Info) && Less(Info, Error)
    ensures AtLeast(a, b) <==> a == b || Less(b, a)
  {
  }

  class Logger {
    var minimumLogLvl: Level

    /** The minimum starts at `debug`. */
    constructor ()
      ensures minimumLogLvl == Debug
    {
      minimumLogLvl := Debug;
    }

    method SetMinimumLogLvl(lvl: Level)
      modifies this
      ensures minimumLogLvl == lvl
    {
      minimumLogLvl := lvl;
    }

    /** `log(message, lvl)`: what is printed, if anything. */
    function Log(message: string, lvl: Level): (printed: Option<string>)
      reads this
      ensures printed.Some? <==> lvl.NaturalIntegralValue() >= minimumLogLvl.NaturalIntegralValue()
      ensures printed.Some? ==> printed.value == message
    {
      if AtLeast(lvl, minimumLogLvl) then Some(message) else None
    }

    /** `debug`: printed only under the default minimum. */
    function LogDebug(message: string): (printed: Option<string>)
      reads this
      ensures printed.Some? <==> minimumLogLvl == Debug
      ensures printed.Some? ==> printed.value == message
    {
      Log(message, Debug)
    }

    /** `info`: printed unless the minimum is `error`. */
    function LogInfo(message: string): (printed: Option<string>)
      reads this
      ensures printed.Some? <==> minimumLogLvl != Error
      ensures printed.Some? ==> printed.value == message
    {
      Log(message, Info)
    }

    /** `error`: always printed. */
    function LogError(message: string): (printed: Option<string>)
      reads this
      ensures printed == Some(message)
    {
      Log(message, Error)
    }
  }

  /** Under the default minimum every message is printed; under the `error`
      minimum only error messages are. */
  lemma LogFilter(logger: Logger, message: string, lvl: Level)
    ensures logger.minimumLogLvl == Debug ==> logger.Log(message, lvl) == Some(message)
    ensures logger.minimumLogLvl == Error ==> (logger.Log(message, lvl).Some? <==> lvl == Error)
  {
  }
}
