/** The iOS `MLKitTextRecognizerPlugin` and the configuration parsing of
    `MLKitTextRecognizer.startCamera`: the plugin saves every started call,
    reads the configuration with `false` for anything missing or not a
    boolean, raises the log minimum to `error` when logging is off, and
    resolves the saved call with one object per finding. */
module IosPlugin {
  import opened Wrappers
  import opened Domain
  import opened IosLogger
  import opened IosAnalyzers

  /** `value as? Bool ?? false` for an optional entry. */
  function BoolOrFalse(obj: map<string, JSValue>, key: string): bool {
    key in obj && obj[key].JSBool? && obj[key].b
  }

  /** `configuration[section] as? JSObject`, then its `allow` entry. */
  function SectionAllows(config: map<string, JSValue>, section: string): bool {
    section in config && config[section].JSObject? && BoolOrFalse(config[section].fields, "allow")
  }

  /** The `RecoginzerConfig` built by `startCamera`. */
  function ParseIosConfig(config: map<string, JSValue>): RecognizerConfig {
    RecognizerConfig(
      BoolOrFalse(config, "isLoggingEnabled"),
      BarCodeScannerConfig(SectionAllows(config, "barcodeScanner")),
      TextRecognizerConfig(SectionAllows(config, "textRecognizer")))
  }

  /** Each switch is on exactly when its entry is the boolean `true`; a
      missing entry, a missing section or any other value (a string "true"
      included) leaves it off, so the empty configuration turns everything
      off. */
  lemma ParseIosConfigSpec(config: map<string, JSValue>)
    ensures ParseIosConfig(config).isLoggingEnabled <==>
              "isLoggingEnabled" in config && config["isLoggingEnabled"] == JSBool(true)
    ensures ParseIosConfig(config).barcodeScanner.isAllowed <==>
              "barcodeScanner" in config && config["barcodeScanner"].JSObject? &&
              "allow" in config["barcodeScanner"].fields && config["barcodeScanner"].fields["allow"] == JSBool(true)
    ensures ParseIosConfig(config).textRecognizerConfig.isAllowed <==>
              "textRecognizer" in config && config["textRecognizer"].JSObject? &&
              "allow" in config["textRecognizer"].fields && config["textRecognizer"].fields["allow"] == JSBool(true)
    ensures ParseIosConfig(map[]) == RecognizerConfig(false, BarCodeScannerConfig(false), TextRecognizerConfig(false))
  {
  }

  /** The object a finding is resolved with: the content under the key of
      its type, and nothing else. */
  function DataObject(text: string, kind: AnalyzerType): JSValue {
    var content := JSObject(map["content" := JSString(text)]);
    match kind
    case BarCode => JSObject(map["barcode" := content])
    case ImageText => JSObject(map["text" := content])
  }

  /** How the web side reads a resolved object: the kind from its key and the
      content inside; an optional confidence is not looked at. */
  function ReadData(v: JSValue): Option<Found> {
    if !v.JSObject? then None
    else if "text" in v.fields && v.fields["text"].JSObject? then
      var t := v.fields["text"].fields;
      if "content" in t && t["content"].JSString? then Some(Found(t["content"].s, ImageText)) else None
    else if "barcode" in v.fields && v.fields["barcode"].JSObject? then
      var b := v.fields["barcode"].fields;
      if "content" in b && b["content"].JSString? then Some(Found(b["content"].s, BarCode)) else None
    else None
  }

  /** A barcode is an object with the single key `barcode`, text one with the
      single key `text`, each holding only `content` (no confidence on iOS);
      reading the object back gives the finding. */
  lemma DataObjectShape(text: string, kind: AnalyzerType)
    ensures DataObject(text, kind).JSObject?
    ensures kind == BarCode ==> DataObject(text, kind).fields.Keys == {"barcode"}
    ensures kind == ImageText ==> DataObject(text, kind).fields.Keys == {"text"}
    ensures forall k :: k in DataObject(text, kind).fields ==>
              DataObject(text, kind).fields[k] == JSObject(map["content" := JSString(text)])
    ensures ReadData(DataObject(text, kind)) == Some(Found(text, kind))
  {
  }

  /** What `killPlugin` does: nothing when no call is saved; otherwise release
      the saved call, remove the camera and resolve the kill call. */
  datatype KillOutcome = NothingToKill | Killed(released: PluginCall)

  /** A saved call resolved with a result object. */
  datatype Resolution = Resolution(call: PluginCall, data: JSValue)

  class MLKitTextRecognizerPlugin {
    var savedCall: Option<PluginCall>
    /** The process-wide `Logger` (its `minimumLogLvl` is static state). */
    const logger: Logger

    constructor (logger: Logger)
      ensures savedCall == None && this.logger == logger
    {
      savedCall := None;
      this.logger := logger;
    }

    /** `startRecognizer`: keeps the call alive, saves it, and starts the
        camera with the parsed configuration (an absent configuration reads as
        the empty object). With logging off the log minimum becomes `error`;
        with logging on it is left as it was. */
    method StartRecognizer(c: PluginCall, config: Option<map<string, JSValue>>) returns (rc: RecognizerConfig)
      modifies this, logger
      ensures savedCall == Some(c.(keepAlive := true))
      ensures rc == ParseIosConfig(config.GetOr(map[]))
      ensures logger.minimumLogLvl == if rc.isLoggingEnabled then old(logger.minimumLogLvl) else Error
    {
      savedCall := Some(c.(keepAlive := true));
      rc := ParseIosConfig(config.GetOr(map[]));
      if !rc.isLoggingEnabled {
        logger.SetMinimumLogLvl(Error);
      }
    }

    /** `killPlugin`, with the log lines it prints. */
    method KillPlugin() returns (outcome: KillOutcome, printed: seq<string>)
      modifies this
      ensures old(savedCall).None? ==> outcome == NothingToKill
      ensures old(savedCall).Some? ==> outcome == Killed(old(savedCall).value)
      ensures savedCall == None
      ensures old(savedCall).None? ==>
                printed == OptionToSeq(logger.LogDebug("Plugin kill is being invoked"))
                           + ["Saved call not found - can't kill plugin"]
      ensures old(savedCall).Some? ==>
                printed == OptionToSeq(logger.LogDebug("Plugin kill is being invoked"))
                           + OptionToSeq(logger.LogDebug("Plugin is being released"))
    {
      printed := OptionToSeq(logger.LogDebug("Plugin kill is being invoked"));
      if savedCall.None? {
        printed := printed + OptionToSeq(logger.LogError("Saved call not found - can't kill plugin"));
        return NothingToKill, printed;
      }
      outcome := Killed(savedCall.value);
      savedCall := None;
      printed := printed + OptionToSeq(logger.LogDebug("Plugin is being released"));
    }

    /** `onDataRead`: resolves the saved call, if any, with the finding's
        object; without a saved call the finding is dropped. */
    method OnDataRead(text: string, kind: AnalyzerType) returns (resolved: Option<Resolution>)
      ensures resolved.Some? <==> savedCall.Some?
      ensures resolved.Some? ==> resolved.value.call == savedCall.value
      ensures resolved.Some? ==> ReadData(resolved.value.data) == Some(Found(text, kind))
      ensures resolved.Some? ==> resolved.value.data == DataObject(text, kind)
    {
      if savedCall.None? {
        return None;
      }
      DataObjectShape(text, kind);
      resolved := Some(Resolution(savedCall.value, DataObject(text, kind)));
    }
  }
}
