/** The Android `MLKitTextRecognizerPlugin`: it holds at most one saved call,
    opens the camera once the permission flow allows it, parses the
    configuration object, turns each recognition result into the object the
    saved call is resolved with, and releases the call when killed. */
module AndroidPlugin {
  import opened Wrappers
  import opened Domain
  import opened Permissions
  import opened PluginLogging
  import opened EventBus

  // ---- reading the configuration object ----

  /** Why reading a boolean from a JS object fails. */
  datatype ConfigError = NoValue(key: string) | NotABoolean(key: string)

  /** ASCII lower case of one character. */
  function AsciiLower(c: char): char {
    if 'A' <= c <= 'Z' then (c as int - 'A' as int + 'a' as int) as char else c
  }

  /** `s` equals the lower-case word `word` ignoring ASCII case. */
  predicate EqualsIgnoreCase(s: string, word: string) {
    |s| == |word| && forall i :: 0 <= i < |s| ==> AsciiLower(s[i]) == word[i]
  }

  /** How a JSON value reads as a boolean: a boolean as itself, and the strings
      "true" and "false" in any letter case; anything else does not read. */
  function ToBoolean(v: JSValue): (b: Option<bool>)
    ensures v.JSBool? ==> b == Some(v.b)
    ensures v.JSString? && v.s == "true" ==> b == Some(true)
    ensures v.JSString? && v.s == "false" ==> b == Some(false)
    ensures !v.JSBool? && !v.JSString? ==> b == None
  {
    match v
    case JSBool(x) => Some(x)
    case JSString(s) =>
      if EqualsIgnoreCase(s, "true") then Some(true)
      else if EqualsIgnoreCase(s, "false") then Some(false)
      else None
    case _ => None
  }

  /** `getBoolean(key)`: the value, or an error when the key is missing or its
      value does not read as a boolean. */
  function GetBoolean(obj: map<string, JSValue>, key: string): (r: Result<bool, ConfigError>)
    ensures key !in obj <==> r == Failure(NoValue(key))
    ensures r.Success? <==> key in obj && ToBoolean(obj[key]).Some?
    ensures r.Success? ==> r.value == ToBoolean(obj[key]).value
  {
    if key !in obj then Failure(NoValue(key))
    else match ToBoolean(obj[key])
      case Some(b) => Success(b)
      case None => Failure(NotABoolean(key))
  }

  /** `getBool(key)`: `getBoolean` with every error turned into `null`. */
  function GetBool(obj: map<string, JSValue>, key: string): (b: Option<bool>)
    ensures b.Some? <==> GetBoolean(obj, key).Success?
    ensures b.Some? ==> b.value == GetBoolean(obj, key).value
  {
    match GetBoolean(obj, key)
    case Success(x) => Some(x)
    case Failure(_) => None
  }

  /** `getJSObject(key)`: the nested object, or `null` when the key is missing
      or holds something else. */
  function GetJSObject(obj: map<string, JSValue>, key: string): (r: Option<map<string, JSValue>>)
    ensures r.Some? <==> key in obj && obj[key].JSObject?
    ensures r.Some? ==> r.value == obj[key].fields
  {
    if key in obj && obj[key].JSObject? then Some(obj[key].fields) else None
  }

  /** An `allow` switch nested under `section`; a missing section, a missing
      key or a value that does not read as a boolean means `false`. */
  function AllowFlag(config: map<string, JSValue>, section: string): bool {
    match GetJSObject(config, section)
    case None => false
    case Some(o) => GetBool(o, "allow").GetOr(false)
  }

  /** The `RecognizerConfig` built in `startCamera`: `isLoggingEnabled` must
      read as a boolean, or the whole construction fails. */
  function ParseConfig(config: map<string, JSValue>): Result<RecognizerConfig, ConfigError> {
    match GetBoolean(config, "isLoggingEnabled")
    case Failure(e) => Failure(e)
    case Success(logging) =>
      Success(RecognizerConfig(
        logging,
        BarCodeScannerConfig(AllowFlag(config, "barcodeScanner")),
        TextRecognizerConfig(AllowFlag(config, "textRecognizer"))))
  }

  /** The configuration parses exactly when `isLoggingEnabled` reads as a
      boolean; a missing key is reported as such. Each detector is allowed
      exactly when its section is an object whose `allow` reads as `true`. */
  lemma ParseConfigSpec(config: map<string, JSValue>)
    ensures ParseConfig(config).Success? <==>
              "isLoggingEnabled" in config && ToBoolean(config["isLoggingEnabled"]).Some?
    ensures "isLoggingEnabled" !in config ==> ParseConfig(config) == Failure(NoValue("isLoggingEnabled"))
    ensures ParseConfig(config).Success? ==>
              ParseConfig(config).value.isLoggingEnabled == ToBoolean(config["isLoggingEnabled"]).value
    ensures ParseConfig(config).Success? ==>
              (ParseConfig(config).value.barcodeScanner.isAllowed <==>
                 "barcodeScanner" in config && config["barcodeScanner"].JSObject? &&
                 "allow" in config["barcodeScanner"].fields &&
                 ToBoolean(config["barcodeScanner"].fields["allow"]) == Some(true))
    ensures ParseConfig(config).Success? ==>
              (ParseConfig(config).value.textRecognizerConfig.isAllowed <==>
                 "textRecognizer" in config && config["textRecognizer"].JSObject? &&
                 "allow" in config["textRecognizer"].fields &&
                 ToBoolean(config["textRecognizer"].fields["allow"]) == Some(true))
  {
  }

  /** A missing section or a missing `allow` key leaves that detector off. */
  lemma MissingSectionDisallows(config: map<string, JSValue>, section: string)
    requires section !in config || (config[section].JSObject? && "allow" !in config[section].fields)
    ensures !AllowFlag(config, section)
  {
  }

  // ---- result objects ----

  /** The object a saved call is resolved with: a single key naming the kind
      of result, holding the content and, for text, the confidence. */
  function ResultObject(r: RecognizerResult): JSValue {
    match r
    case Text(content, confidence) =>
      JSObject(map["text" := JSObject(map["content" := JSString(content), "confidencePercentage" := JSNumber(confidence)])])
    case Barcode(content) =>
      JSObject(map["barcode" := JSObject(map["content" := JSString(content)])])
  }

  /** How the web side reads a resolved object (`FoundRecognizerCallback`):
      a `text` entry with a content and a confidence, or a `barcode` entry
      with a content. */
  function ReadResult(v: JSValue): Option<RecognizerResult> {
    if !v.JSObject? then None
    else if "text" in v.fields && v.fields["text"].JSObject? then
      var t := v.fields["text"].fields;
      if "content" in t && t["content"].JSString? && "confidencePercentage" in t && t["confidencePercentage"].JSNumber?
      then Some(Text(t["content"].s, t["confidencePercentage"].n))
      else None
    else if "barcode" in v.fields && v.fields["barcode"].JSObject? then
      var b := v.fields["barcode"].fields;
      if "content" in b && b["content"].JSString? then Some(Barcode(b["content"].s)) else None
    else None
  }

  /** A text result is an object with the single key `text`, holding exactly
      `content` and `confidencePercentage`; a barcode result one with the
      single key `barcode`, holding exactly `content`. Reading the object back
      gives the result, so no two results give the same object. */
  lemma ResultObjectShape(r: RecognizerResult)
    ensures ResultObject(r).JSObject?
    ensures r.Text? ==>
              ResultObject(r).fields.Keys == {"text"} &&
              ResultObject(r).fields["text"].JSObject? &&
              ResultObject(r).fields["text"].fields.Keys == {"content", "confidencePercentage"}
    ensures r.Barcode? ==>
              ResultObject(r).fields.Keys == {"barcode"} &&
              ResultObject(r).fields["barcode"].JSObject? &&
              ResultObject(r).fields["barcode"].fields.Keys == {"content"}
    ensures ReadResult(ResultObject(r)) == Some(r)
  {
  }

  lemma ResultObjectInjective(r1: RecognizerResult, r2: RecognizerResult)
    ensures ResultObject(r1) == ResultObject(r2) ==> r1 == r2
  {
    ResultObjectShape(r1);
    ResultObjectShape(r2);
  }

  // ---- the plugin ----

  /** How a permission check ends. `CameraStarted` opens the camera with the
      parsed configuration; `StartThrew` is the configuration error escaping
      `startCamera` after the call has been saved. */
  datatype StartOutcome =
    | PermissionRequested
    | CallRejected(message: string, error: RejectError)
    | CameraStarted(config: RecognizerConfig)
    | StartThrew(configError: ConfigError)

  /** `call.getObject("config", JSObject())`: the call's `config` entry when
      it is an object (`config` is `None` when the entry is missing or is not
      an object), and otherwise the empty default object. The default is never
      null, so the null check that follows in `startCamera` never rejects. */
  function CallConfig(config: Option<map<string, JSValue>>): map<string, JSValue> {
    config.GetOr(map[])
  }

  /** `startCamera`: the outcome of building the `RecognizerConfig` from the
      call's configuration. */
  function StartCameraOutcome(config: Option<map<string, JSValue>>): StartOutcome {
    match ParseConfig(CallConfig(config))
    case Success(rc) => CameraStarted(rc)
    case Failure(e) => StartThrew(e)
  }

  /** `checkPermissionsInternal` followed, when allowed, by `startCamera`. */
  function StartOutcomeOf(state: Option<PermissionState>, isAfterPermissionRequest: bool,
                          config: Option<map<string, JSValue>>): StartOutcome {
    match CheckPermissionsInternal(state, isAfterPermissionRequest)
    case OpenCamera => StartCameraOutcome(config)
    case RequestCameraPermission => PermissionRequested
    case RejectStart(m, e) => CallRejected(m, e)
  }

  /** Whether an outcome leaves the call saved. */
  predicate SavesCall(o: StartOutcome) {
    o.CameraStarted? || o.StartThrew?
  }

  /** The call is saved exactly when the permission is granted, whatever
      the configuration; the camera starts exactly when, in addition, the
      configuration parses. A missing or non-object configuration reads as
      the empty object, so it is saved and then fails on `isLoggingEnabled`.
      Every rejection comes from the permission check. */
  lemma StartOutcomeSpec(state: Option<PermissionState>, isAfterPermissionRequest: bool,
                         config: Option<map<string, JSValue>>)
    ensures SavesCall(StartOutcomeOf(state, isAfterPermissionRequest, config)) <==>
              state == Some(Granted)
    ensures StartOutcomeOf(state, isAfterPermissionRequest, config).CameraStarted? <==>
              state == Some(Granted) && config.Some? && ParseConfig(config.value).Success?
    ensures state == Some(Granted) && config.None? ==>
              StartOutcomeOf(state, isAfterPermissionRequest, config) ==
              StartThrew(NoValue("isLoggingEnabled"))
    ensures StartOutcomeOf(state, isAfterPermissionRequest, config) == PermissionRequested <==>
              !isAfterPermissionRequest && (state == Some(Prompt) || state == Some(PromptWithRationale))
    ensures StartOutcomeOf(state, isAfterPermissionRequest, config).CallRejected? <==>
              state != Some(Granted) &&
              !(!isAfterPermissionRequest && (state == Some(Prompt) || state == Some(PromptWithRationale)))
  {
    PermissionFlow(state, isAfterPermissionRequest);
    CheckPermissionTable(state);
  }

  /** What `killPlugin` does: nothing when no call is saved (the kill call is
      left pending); otherwise release the saved call, kill the camera and
      resolve the kill call. */
  datatype KillOutcome = NothingToKill | Killed(released: PluginCall)

  /** A saved call resolved with a result object. */
  datatype Resolution = Resolution(call: PluginCall, data: JSValue)

  class MLKitTextRecognizerPlugin {
    var call: Option<PluginCall>
    const logger: PluginLogger

    constructor (logger: PluginLogger)
      ensures call == None && this.logger == logger
    {
      call := None;
      this.logger := logger;
    }

    /** `load`: registers the plugin as a listener of the event bus. */
    method Load(bus: ObjectRecognizerEventBus<MLKitTextRecognizerPlugin>)
      modifies bus
      ensures bus.recognizedEventListeners == old(bus.recognizedEventListeners) + [this]
    {
      bus.AddListener(this);
    }

    /** `handleOnDestroy`: unregisters the plugin. */
    method HandleOnDestroy(bus: ObjectRecognizerEventBus<MLKitTextRecognizerPlugin>)
      modifies bus
      ensures bus.recognizedEventListeners == RemoveFirst(old(bus.recognizedEventListeners), this)
    {
      bus.RemoveListener(this);
    }

    /** `checkPermissionsInternal(c, isAfterPermissionRequest)` with the state
        the OS reports and the configuration the call carries. A started
        camera also sets the logger's switch from the configuration. */
    method CheckPermissionsInternal(c: PluginCall, state: Option<PermissionState>, isAfterPermissionRequest: bool,
                                    config: Option<map<string, JSValue>>) returns (outcome: StartOutcome)
      modifies this, logger
      ensures outcome == StartOutcomeOf(state, isAfterPermissionRequest, config)
      ensures call == if SavesCall(outcome) then Some(c.(keepAlive := true)) else old(call)
      ensures logger.enableLogging ==
                if outcome.CameraStarted? then outcome.config.isLoggingEnabled else old(logger.enableLogging)
    {
      match Permissions.CheckPermissionsInternal(state, isAfterPermissionRequest)
      case OpenCamera =>
        outcome := StartCamera(c, config);
      case RequestCameraPermission =>
        outcome := PermissionRequested;
      case RejectStart(m, e) =>
        outcome := CallRejected(m, e);
    }

    /** `startCamera`: keeps the call alive, saves it, and starts the camera
        with the configuration parsed from the call (the empty object when it
        carries none). */
    method StartCamera(c: PluginCall, config: Option<map<string, JSValue>>) returns (outcome: StartOutcome)
      modifies this, logger
      ensures outcome == StartCameraOutcome(config)
      ensures call == Some(c.(keepAlive := true))
      ensures config.None? ==> outcome == StartThrew(NoValue("isLoggingEnabled"))
      ensures logger.enableLogging ==
                if outcome.CameraStarted? then outcome.config.isLoggingEnabled else old(logger.enableLogging)
    {
      var obj := CallConfig(config);
      call := Some(c.(keepAlive := true));
      match ParseConfig(obj)
      case Failure(e) =>
        outcome := StartThrew(e);
      case Success(rc) =>
        logger.SetEnableLogging(rc.isLoggingEnabled);
        outcome := CameraStarted(rc);
    }

    /** `startRecognizer`: the first permission check. */
    method StartRecognizer(c: PluginCall, state: Option<PermissionState>, config: Option<map<string, JSValue>>)
      returns (outcome: StartOutcome)
      modifies this, logger
      ensures outcome == StartOutcomeOf(state, false, config)
      ensures call == if SavesCall(outcome) then Some(c.(keepAlive := true)) else old(call)
    {
      outcome := CheckPermissionsInternal(c, state, false, config);
    }

    /** `cameraPermissionCallback`: the check after the user answered. */
    method CameraPermissionCallback(c: PluginCall, state: Option<PermissionState>, config: Option<map<string, JSValue>>)
      returns (outcome: StartOutcome)
      modifies this, logger
      ensures outcome == StartOutcomeOf(state, true, config)
      ensures outcome != PermissionRequested
      ensures call == if SavesCall(outcome) then Some(c.(keepAlive := true)) else old(call)
    {
      AtMostOnePrompt(state, state);
      outcome := CheckPermissionsInternal(c, state, true, config);
    }

    /** `killPlugin`. */
    method KillPlugin() returns (outcome: KillOutcome)
      modifies this
      ensures old(call).None? ==> outcome == NothingToKill
      ensures old(call).Some? ==> outcome == Killed(old(call).value)
      ensures call == None
    {
      if call.None? {
        return NothingToKill;
      }
      outcome := Killed(call.value);
      call := None;
    }

    /** `onEventReceived`: resolves the saved call, if any, with the result
        object; without a saved call the result is dropped. */
    method OnEventReceived(result: RecognizerResult) returns (resolved: Option<Resolution>)
      ensures resolved.Some? <==> call.Some?
      ensures resolved.Some? ==> resolved.value.call == call.value
      ensures resolved.Some? ==> ReadResult(resolved.value.data) == Some(result)
      ensures resolved.Some? ==> resolved.value.data == ResultObject(result)
    {
      if call.None? {
        return None;
      }
      ResultObjectShape(result);
      resolved := Some(Resolution(call.value, ResultObject(result)));
    }
  }
}
