/** Android's `PluginLogger`: a switch in front of Capacitor's `Logger`.
    Debug lines and throwable-only errors pass only while logging is enabled;
    an error with a message always passes. A call returns the line handed to
    Capacitor's `Logger`, if any. */
module PluginLogging {
  import opened Wrappers
  import opened Domain

  /** A line handed to Capacitor's `Logger`. */
  datatype LogLine =
    | DebugLine(tag: Option<string>, text: string)
    | ErrorLine(tag: Option<string>, message: Option<string>, throwable: Option<Exception>)
    | ThrowableLine(tag: Option<string>, throwable: Option<Exception>)

  class PluginLogger {
    var enableLogging: bool

    /** Logging starts enabled. */
    constructor ()
      ensures enableLogging
    {
      enableLogging := true;
    }

    /** `enableLogging = value` (set by `startCamera` from the configuration). */
    method SetEnableLogging(value: bool)
      modifies this
      ensures enableLogging == value
    {
      enableLogging := value;
    }

    /** `debug(tag, message)`: forwarded exactly when logging is enabled, a
        missing message as the empty string. */
    function Debug(tag: Option<string>, message: Option<string>): (line: Option<LogLine>)
      reads this
      ensures line.Some? <==> enableLogging
      ensures line.Some? ==> line.value.DebugLine? && line.value.tag == tag
      ensures line.Some? && message.Some? ==> line.value.text == message.value
      ensures line.Some? && message.None? ==> line.value.text == ""
    {
      if !enableLogging then None else Some(DebugLine(tag, message.GetOr("")))
    }

    /** `error(tag, message, throwable)`: always forwarded, unchanged, whatever
        the switch says. */
    function ErrorWithMessage(tag: Option<string>, message: Option<string>, throwable: Option<Exception>): (line: LogLine)
      ensures line.ErrorLine?
      ensures line.tag == tag && line.message == message && line.throwable == throwable
    {
      ErrorLine(tag, message, throwable)
    }

    /** `error(tag, throwable)`: forwarded exactly when logging is enabled. */
    function ErrorWithThrowable(tag: Option<string>, throwable: Option<Exception>): (line: Option<LogLine>)
      reads this
      ensures line.Some? <==> enableLogging
      ensures line.Some? ==> line.value == ThrowableLine(tag, throwable)
    {
      if !enableLogging then None else Some(ThrowableLine(tag, throwable))
    }
  }

  /** Turning logging off silences every gated call and no other: the
      message-carrying error still gets through. */
  lemma DisabledLoggerOnlyErrors(logger: PluginLogger, tag: Option<string>, message: Option<string>, throwable: Option<Exception>)
    requires !logger.enableLogging
    ensures logger.Debug(tag, message) == None
    ensures logger.ErrorWithThrowable(tag, throwable) == None
    ensures logger.ErrorWithMessage(tag, message, throwable) == ErrorLine(tag, message, throwable)
  {
  }
}
