/** Android's `CameraActivity`: which use cases are bound to the camera for a
    configuration, and what happens to what the analyzers report — results
    go to the event bus, barcode errors are logged, text errors are
    dropped. */
module CameraActivity {
  import opened Wrappers
  import opened Domain
  import opened PluginLogging
  import opened EventBus
  import opened Analyzers

  /** `CameraActivity::class.simpleName`. */
  const TAG: string := "CameraActivity"

  /** The use cases a `UseCaseGroup` can hold here. */
  datatype UseCase = BarcodeAnalysis | TextAnalysis | PreviewUseCase

  /** `UseCaseGroup.Builder`: accumulates use cases in order. */
  class UseCaseGroupBuilder {
    var useCases: seq<UseCase>

    constructor ()
      ensures useCases == []
    {
      useCases := [];
    }

    method AddUseCase(u: UseCase)
      modifies this
      ensures useCases == old(useCases) + [u]
    {
      useCases := useCases + [u];
    }
  }

  predicate BarcodeAllowed(config: Option<RecognizerConfig>) {
    config.Some? && config.value.barcodeScanner.isAllowed
  }

  predicate TextAllowed(config: Option<RecognizerConfig>) {
    config.Some? && config.value.textRecognizerConfig.isAllowed
  }

  /** The use cases `startCamera` binds: the allowed analyzers, barcode before
      text, then the preview. */
  function UseCasesFor(config: Option<RecognizerConfig>): seq<UseCase> {
    (if BarcodeAllowed(config) then [BarcodeAnalysis] else [])
    + (if TextAllowed(config) then [TextAnalysis] else [])
    + [PreviewUseCase]
  }

  /** The use-case assembly of `startCamera`. */
  method AssembleUseCases(config: Option<RecognizerConfig>) returns (useCases: seq<UseCase>)
    ensures useCases == UseCasesFor(config)
  {
    var builder := new UseCaseGroupBuilder();
    if config.Some? && config.value.barcodeScanner.isAllowed {
      builder.AddUseCase(BarcodeAnalysis);
    }
    if config.Some? && config.value.textRecognizerConfig.isAllowed {
      builder.AddUseCase(TextAnalysis);
    }
    builder.AddUseCase(PreviewUseCase);
    useCases := builder.useCases;
  }

  /** Each analyzer is bound exactly when the configuration is present and
      allows it, each at most once; the preview is always bound, and last;
      the barcode analysis comes first whenever it is bound. Without a
      configuration only the preview is bound. */
  lemma UseCasesSpec(config: Option<RecognizerConfig>)
    ensures BarcodeAnalysis in UseCasesFor(config) <==> BarcodeAllowed(config)
    ensures TextAnalysis in UseCasesFor(config) <==> TextAllowed(config)
    ensures |UseCasesFor(config)| == 1 + (if BarcodeAllowed(config) then 1 else 0) + (if TextAllowed(config) then 1 else 0)
    ensures UseCasesFor(config)[|UseCasesFor(config)| - 1] == PreviewUseCase
    ensures PreviewUseCase !in UseCasesFor(config)[..|UseCasesFor(config)| - 1]
    ensures BarcodeAllowed(config) ==> UseCasesFor(config)[0] == BarcodeAnalysis
    ensures BarcodeAllowed(config) && TextAllowed(config) ==>
              UseCasesFor(config) == [BarcodeAnalysis, TextAnalysis, PreviewUseCase]
    ensures config.None? ==> UseCasesFor(config) == [PreviewUseCase]
  {
    var b: seq<UseCase> := if BarcodeAllowed(config) then [BarcodeAnalysis] else [];
    var t: seq<UseCase> := if TextAllowed(config) then [TextAnalysis] else [];
    assert UseCasesFor(config) == b + t + [PreviewUseCase];
    assert UseCasesFor(config)[..|UseCasesFor(config)| - 1] == b + t;
  }

  /** The text of the debug line for a barcode result (Kotlin's rendering of
      the result data class). */
  function BarcodeResultsText(r: RecognizerResult): string {
    match r
    case Barcode(content) => "Barcode results are: Barcode(content=" + content + ")"
    case Text(content, _) => "Barcode results are: Text(content=" + content + ")"
  }

  /** The message of a logged barcode error; a missing message reads "null". */
  function ExceptionText(e: Exception): string {
    "Exception happened " + e.message.GetOr("null")
  }

  /** What the activity's callbacks make of one report of the analyzer bound
      as `kind`: a result is handed to the event bus (the barcode callback
      also writes a debug line); a barcode error is logged as an error, a
      text error is dropped. */
  method HandleEmission<L(==)>(bus: ObjectRecognizerEventBus<L>, logger: PluginLogger, kind: UseCase, m: Emission)
    returns (delivered: seq<(L, RecognizerResult)>, line: Option<LogLine>)
    requires kind != PreviewUseCase
    ensures m.Recognized? ==> delivered == Deliveries(bus.recognizedEventListeners, m.result)
    ensures m.Recognized? && kind == TextAnalysis ==> line == None
    ensures m.Recognized? && kind == BarcodeAnalysis ==>
              line == logger.Debug(Some(TAG), Some(BarcodeResultsText(m.result)))
    ensures m.Error? ==> delivered == []
    ensures m.Error? && kind == TextAnalysis ==> line == None
    ensures m.Error? && kind == BarcodeAnalysis ==>
              line == Some(ErrorLine(Some(TAG), Some(ExceptionText(m.e)), Some(m.e)))
  {
    match m
    case Recognized(r) =>
      line := if kind == BarcodeAnalysis then logger.Debug(Some(TAG), Some(BarcodeResultsText(r))) else None;
      delivered := bus.Notify(r);
    case Error(e) =>
      delivered := [];
      line := if kind == BarcodeAnalysis then Some(logger.ErrorWithMessage(Some(TAG), Some(ExceptionText(e)), Some(e))) else None;
  }

  /** A barcode error is logged whatever the logging switch says, and its
      message keeps the exception's message; the debug line for a barcode
      result appears only while logging is enabled. */
  lemma BarcodeErrorAlwaysLogged(logger: PluginLogger, e: Exception, msg: string)
    requires e.message == Some(msg)
    ensures ExceptionText(e) == "Exception happened " + msg
    ensures ExceptionText(Exception(None)) == "Exception happened null"
    ensures logger.ErrorWithMessage(Some(TAG), Some(ExceptionText(e)), Some(e)).ErrorLine?
  {
  }

  /** A failed use-case binding is reported through the throwable-only error,
      so it is silent while logging is disabled. */
  function BindingFailureLine(logger: PluginLogger, exc: Exception): (line: Option<LogLine>)
    reads logger
    ensures line.Some? <==> logger.enableLogging
    ensures line.Some? ==> line.value == ThrowableLine(Some("Use case binding failed"), Some(exc))
  {
    logger.ErrorWithThrowable(Some("Use case binding failed"), Some(exc))
  }
}
