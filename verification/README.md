# mlkit-barcode-text-scanner in Dafny

A model of the core of the `mlkit-barcode-text-scanner` Capacitor plugin, with its properties proved. The plugin opens a camera, runs ML Kit's text recognizer and barcode scanner on the frames, and streams every recognized line of text and every barcode value back to the web app through one kept-alive plugin call.

The model covers both native implementations.

**Android (Kotlin)**
- `VisionProcessorBase`, in `vision_processor.dfy`, admits frames and keeps the latency and frame-rate statistics.
  - The byte-buffer path uses a "latest" slot that each new frame overwrites, and a "processing" slot. A detection starts only while the processing slot is empty.
  - The image-proxy path starts a detection for every frame until `stop`.
  - The statistics restart every 500 runs.
  - The processor is given first as a pure state machine over `Processor` values, driven by event traces. The class `VisionProcessorBase` then holds the same fields, and each of its methods is proved to move that state as the matching function does.
- The text and barcode analyzers (`analyzers.dfy`) turn detector output into `RecognizerResult` callbacks.
- The `ObjectRecognizerEventBus` (`event_bus.dfy`) keeps the listener list and notifies each listener.
- The permission flow covers `PermissionHandler` and `checkPermissionsInternal` (`permissions.dfy`).
- The `PluginLogger` switch is in `plugin_logger.dfy`.
- The plugin object (`android_plugin.dfy`) handles:
  - the saved call;
  - the configuration parsing of `startCamera`;
  - the result objects;
  - `killPlugin`.
- `CameraActivity` (`camera_activity.dfy`) chooses the use cases and routes the analyzers' callbacks.

**iOS (Swift)**
- The `Logger` with its level order (`ios_logger.dfy`).
- The two analyzers (`ios_analyzers.dfy`).
- `CameraViewController` (`ios_camera.dfy`) registers the analyzers, keeps the last frame and fans each frame out to the analyzers.
- The plugin object and the configuration parsing of `MLKitTextRecognizer` (`ios_plugin.dfy`).

`platforms.dfy` proves where the two platforms agree and where they differ.

ML Kit is foreign code. A detector's output for a frame is an input to the model: a list of text blocks made of lines, or a list of barcodes whose raw value may be absent, or a failure. The same goes for the camera, the permission state the OS reports, and the configuration object the web app sends. Effects on the outside world become returned values: a started detection, a log line, a resolved call, a kill outcome.

Points where the code's behaviour is easy to misread:
- **A failed detection never frees the processing slot.** Only the success listener pulls the next frame. After one failure, the byte-buffer path starts no detection again (`StalledForever`, `FailureStallsSlotPath`).
- **Latency is recorded per analyzer success.** It is not recorded once per frame after all analyzers finish.
- **Text-analyzer errors are dropped** by `CameraActivity`. Only barcode errors are logged.
- **A frame offered after `stop`** still overwrites the latest slot, but it starts nothing.
- **On Android, `isLoggingEnabled` is read with `getBoolean`.** A configuration without it makes `startCamera` fail after the call has been saved. A call without any configuration gets the empty default object from `getObject("config", JSObject())`, so it fails the same way; the null check after it never rejects. The TypeScript declaration marks the key as optional, and iOS reads a missing key as `false`.

## Model

| member | source | states |
|---|---|---|
| VisionProcessor.RecordKeepsStatsValid | android/src/main/java/hu/tsulok/mlkit/textrecognizer/camera/vision/VisionProcessorBase.kt:272-282 | recording a run keeps the counters valid, leaves 1 to 500 runs, and puts each latency between its minimum and its maximum |
| VisionProcessor.RecordAfterFullWindow | android/src/main/java/hu/tsulok/mlkit/textrecognizer/camera/vision/VisionProcessorBase.kt:272-282 | after 500 runs the counters restart: the new run's latencies become the totals, maxima and minima, and the run count is 1 |
| VisionProcessor.RecordAllWithinWindow | android/src/main/java/hu/tsulok/mlkit/textrecognizer/camera/vision/VisionProcessorBase.kt:272-282 | while a series of runs stays within one window, the run count grows by its length, each total by the sum of its latencies, and each maximum and minimum by folding in its largest and smallest latency |
| VisionProcessor.WindowAggregates | android/src/main/java/hu/tsulok/mlkit/textrecognizer/camera/vision/VisionProcessorBase.kt:264-282 | from reset counters and for at most 500 runs, the counters are the number of runs and, per latency kind, the sum, the maximum and the minimum of the recorded latencies |
| VisionProcessor.RunsCycleThroughWindow | android/src/main/java/hu/tsulok/mlkit/textrecognizer/camera/vision/VisionProcessorBase.kt:272-275 | from reset counters, after n > 0 recorded runs the run count is ((n - 1) mod 500) + 1 |
| VisionProcessor.OfferOverwrites | android/src/main/java/hu/tsulok/mlkit/textrecognizer/camera/vision/VisionProcessorBase.kt:114-123 | an offered frame overwrites the latest slot; it starts a detection at once exactly when both processing slots are empty, the frame and its metadata are present and the processor is not shut down; otherwise it waits, replacing any older frame; the counters are untouched |
| VisionProcessor.TakeEmptiesLatest | android/src/main/java/hu/tsulok/mlkit/textrecognizer/camera/vision/VisionProcessorBase.kt:126-134 | taking the latest frame empties the latest slot and moves it into the processing slot; a detection of exactly that frame starts iff frame and metadata are present and the processor is not shut down |
| VisionProcessor.StepKeepsValid | android/src/main/java/hu/tsulok/mlkit/textrecognizer/camera/vision/VisionProcessorBase.kt:114-182 | every event keeps the invariant; a slot detection starts only when none is running or the running one has just succeeded, so at most one runs at a time |
| VisionProcessor.RunKeepsValid | android/src/main/java/hu/tsulok/mlkit/textrecognizer/camera/vision/VisionProcessorBase.kt:114-182 | the invariant holds after any series of events |
| VisionProcessor.SuccessBoundsStats | android/src/main/java/hu/tsulok/mlkit/textrecognizer/camera/vision/VisionProcessorBase.kt:266-282 | after a successful detection 1 <= numRuns <= 500 and, per latency kind, 0 <= min <= max <= total |
| VisionProcessor.OffersWhileBusy | android/src/main/java/hu/tsulok/mlkit/textrecognizer/camera/vision/VisionProcessorBase.kt:118-122 | frames offered while a slot detection runs start nothing; only the last one is kept and nothing else changes |
| VisionProcessor.FreshestFrameWins | android/src/main/java/hu/tsulok/mlkit/textrecognizer/camera/vision/VisionProcessorBase.kt:114-181 | frames offered during a detection and then a success: only the last offered frame is detected next |
| VisionProcessor.StalledForever | android/src/main/java/hu/tsulok/mlkit/textrecognizer/camera/vision/VisionProcessorBase.kt:169-181 | with an occupied processing slot and no detection running, no event series ever starts a slot detection, and the slot keeps its frame |
| VisionProcessor.FailureStallsSlotPath | android/src/main/java/hu/tsulok/mlkit/textrecognizer/camera/vision/VisionProcessorBase.kt:314-330 | a frame offered to an idle processor is detected; if that detection fails, no later event starts another slot detection |
| VisionProcessor.ShutdownIsFinal | android/src/main/java/hu/tsulok/mlkit/textrecognizer/camera/vision/VisionProcessorBase.kt:334-339 | after stop no event starts a detection, the processor stays shut down, reset counters stay reset and the frame-rate counters never change |
| VisionProcessor.StopResetsStats | android/src/main/java/hu/tsulok/mlkit/textrecognizer/camera/vision/VisionProcessorBase.kt:334-349 | stop sets the shutdown flag and restores the reset counters, which are valid with zero runs |
| VisionProcessor.ProxySuccessesCount | android/src/main/java/hu/tsulok/mlkit/textrecognizer/camera/vision/VisionProcessorBase.kt:276 | each successful image-proxy detection before stop adds one to the interval's frame count |
| VisionProcessor.IntervalCountsSuccesses | android/src/main/java/hu/tsulok/mlkit/textrecognizer/camera/vision/VisionProcessorBase.kt:276 | over any events without tick or stop, the interval count grows by exactly the number of successful detections of either path, whatever offers, frames and failures come between |
| VisionProcessor.FpsCountsSuccessesSinceTick | android/src/main/java/hu/tsulok/mlkit/textrecognizer/camera/vision/VisionProcessorBase.kt:75-86 | over any events without tick or stop, the frame rate the next tick publishes is the interval count left by the previous tick (0 right after it) plus the successful detections of either path since, and the interval count restarts at 0 |
| VisionProcessor.ProxySuccessesAllCount | android/src/main/java/hu/tsulok/mlkit/textrecognizer/camera/vision/VisionProcessorBase.kt:264-276 | before stop, every image-proxy success in a series counts as a successful detection |
| VisionProcessor.ProxyOfferedAfterStop | android/src/main/java/hu/tsulok/mlkit/textrecognizer/camera/vision/VisionProcessorBase.kt:187-191 | processImageProxy starts a detection of the given image iff the processor is not shut down |
| VisionProcessor.VisionProcessorBase.constructor | android/src/main/java/hu/tsulok/mlkit/textrecognizer/camera/vision/VisionProcessorBase.kt:46-73 | a new processor has empty slots, is not shut down, and has reset counters and zero frame-rate counters |
| VisionProcessor.VisionProcessorBase.ProcessByteBuffer | android/src/main/java/hu/tsulok/mlkit/textrecognizer/camera/vision/VisionProcessorBase.kt:113-123 | keeps the invariant and moves the fields and the started detection exactly as Offered does |
| VisionProcessor.VisionProcessorBase.ProcessLatestImage | android/src/main/java/hu/tsulok/mlkit/textrecognizer/camera/vision/VisionProcessorBase.kt:125-134 | moves the fields and the started detection exactly as LatestTaken does |
| VisionProcessor.VisionProcessorBase.RecordRun | android/src/main/java/hu/tsulok/mlkit/textrecognizer/camera/vision/VisionProcessorBase.kt:272-282 | the counters become Record of the old counters, stay valid, the interval count grows by one and no other field changes |
| VisionProcessor.VisionProcessorBase.OnDetectionSuccess | android/src/main/java/hu/tsulok/mlkit/textrecognizer/camera/vision/VisionProcessorBase.kt:264-313 | the success listener of a slot detection: the state and the next started detection are exactly those of Succeeded, and the invariant is kept |
| VisionProcessor.VisionProcessorBase.OnDetectionFailure | android/src/main/java/hu/tsulok/mlkit/textrecognizer/camera/vision/VisionProcessorBase.kt:314-330 | the failure listener ends the detection and changes nothing else (Failed) |
| VisionProcessor.VisionProcessorBase.ProcessImageProxy | android/src/main/java/hu/tsulok/mlkit/textrecognizer/camera/vision/VisionProcessorBase.kt:187-227 | starts the detection ProxyOffered gives for the current state and changes nothing |
| VisionProcessor.VisionProcessorBase.OnProxySuccess | android/src/main/java/hu/tsulok/mlkit/textrecognizer/camera/vision/VisionProcessorBase.kt:264-282 | the success listener of an image-proxy detection: state becomes ProxySucceeded of the old state |
| VisionProcessor.VisionProcessorBase.FpsTick | android/src/main/java/hu/tsulok/mlkit/textrecognizer/camera/vision/VisionProcessorBase.kt:78-80 | the timer task: state becomes Ticked of the old state |
| VisionProcessor.VisionProcessorBase.Stop | android/src/main/java/hu/tsulok/mlkit/textrecognizer/camera/vision/VisionProcessorBase.kt:334-339 | state becomes Stopped of the old state, keeping the invariant |
| VisionProcessor.VisionProcessorBase.ResetLatencyStats | android/src/main/java/hu/tsulok/mlkit/textrecognizer/camera/vision/VisionProcessorBase.kt:341-349 | the counters become the reset values and nothing else changes |
| Analyzers.TextResultsFollowLines | android/src/main/java/hu/tsulok/mlkit/textrecognizer/camera/analyzer/TextAnalyzer.kt:34-40 | onSuccess yields as many results as there are lines in all blocks, the k-th being the k-th line (block after block) with its confidence in percent |
| Analyzers.TextResultAt | android/src/main/java/hu/tsulok/mlkit/textrecognizer/camera/analyzer/TextAnalyzer.kt:35-39 | line j of block i yields the result at position (lines of the blocks before i) + j |
| Analyzers.TextOnlyText | android/src/main/java/hu/tsulok/mlkit/textrecognizer/camera/analyzer/TextAnalyzer.kt:37 | only Text results are emitted, each with the text of some recognized line |
| Analyzers.BarcodeResultsFollowValues | android/src/main/java/hu/tsulok/mlkit/textrecognizer/camera/analyzer/BarCodeAnalyzer.kt:26-31 | onSuccess yields one Barcode result per present raw value, in input order, with that value as content |
| Analyzers.BarcodeOnSuccessAppend | android/src/main/java/hu/tsulok/mlkit/textrecognizer/camera/analyzer/BarCodeAnalyzer.kt:27-30 | the results for two lists of barcodes are the results of each, in order |
| Analyzers.BarcodeSingle | android/src/main/java/hu/tsulok/mlkit/textrecognizer/camera/analyzer/BarCodeAnalyzer.kt:28-29 | a barcode without raw value yields nothing; one with a value yields exactly Barcode(value), the empty string included |
| Analyzers.BarcodeCountBounded | android/src/main/java/hu/tsulok/mlkit/textrecognizer/camera/analyzer/BarCodeAnalyzer.kt:26-31 | never more results than barcodes, and only Barcode results |
| Analyzers.FailureForwardedOnce | android/src/main/java/hu/tsulok/mlkit/textrecognizer/camera/analyzer/BarCodeAnalyzer.kt:33-35 | a failed detection is passed unchanged to onError exactly once, by both analyzers; a successful one never reaches onError |
| Analyzers.TextAnalyzer.constructor | android/src/main/java/hu/tsulok/mlkit/textrecognizer/camera/analyzer/TextAnalyzer.kt:15-23 | a fresh processor in its initial state and an open recognizer |
| Analyzers.TextAnalyzer.Stop | android/src/main/java/hu/tsulok/mlkit/textrecognizer/camera/analyzer/TextAnalyzer.kt:25-28 | the base stop (shut down, counters reset), then the recognizer is closed |
| Analyzers.TextAnalyzer.Analyze | android/src/main/java/hu/tsulok/mlkit/textrecognizer/camera/analyzer/TextAnalyzer.kt:46-49 | analyze starts what processImageProxy starts |
| Analyzers.TextAnalyzer.OnDetectionSuccess | android/src/main/java/hu/tsulok/mlkit/textrecognizer/camera/analyzer/TextAnalyzer.kt:34-40 | the processor records the run as ProxySucceeded, and the callbacks are one per line unless the processor was shut down |
| Analyzers.TextAnalyzer.OnDetectionFailure | android/src/main/java/hu/tsulok/mlkit/textrecognizer/camera/analyzer/TextAnalyzer.kt:42-44 | a failure is forwarded once unless the processor is shut down |
| Analyzers.BarCodeAnalyzer.constructor | android/src/main/java/hu/tsulok/mlkit/textrecognizer/camera/analyzer/BarCodeAnalyzer.kt:14-20 | a fresh processor in its initial state and an open scanner |
| Analyzers.BarCodeAnalyzer.Stop | android/src/main/java/hu/tsulok/mlkit/textrecognizer/camera/analyzer/BarCodeAnalyzer.kt:14-18 | only the inherited stop runs; the scanner is not closed |
| Analyzers.BarCodeAnalyzer.Analyze | android/src/main/java/hu/tsulok/mlkit/textrecognizer/camera/analyzer/BarCodeAnalyzer.kt:37-40 | analyze starts what processImageProxy starts |
| Analyzers.BarCodeAnalyzer.OnDetectionSuccess | android/src/main/java/hu/tsulok/mlkit/textrecognizer/camera/analyzer/BarCodeAnalyzer.kt:26-31 | the processor records the run as ProxySucceeded, and the callbacks are one per present raw value unless the processor was shut down |
| Analyzers.BarCodeAnalyzer.OnDetectionFailure | android/src/main/java/hu/tsulok/mlkit/textrecognizer/camera/analyzer/BarCodeAnalyzer.kt:33-35 | a failure is forwarded once unless the processor is shut down |
| EventBus.RemoveFirstDeletesFirst | android/src/main/java/hu/tsulok/mlkit/textrecognizer/domain/eventbus/ObjectRecognizerEventBus.kt:19-22 | removing an absent listener leaves the list unchanged; removing a present one deletes exactly its first occurrence, keeping the order of the rest |
| EventBus.RemoveAbsent | android/src/main/java/hu/tsulok/mlkit/textrecognizer/domain/eventbus/ObjectRecognizerEventBus.kt:19-22 | removing a listener that is not registered leaves the list unchanged |
| EventBus.RemoveAt | android/src/main/java/hu/tsulok/mlkit/textrecognizer/domain/eventbus/ObjectRecognizerEventBus.kt:20 | when position i holds the first occurrence of the listener, removal deletes exactly that entry and keeps the order of the rest |
| EventBus.RemoveFirstMultiset | android/src/main/java/hu/tsulok/mlkit/textrecognizer/domain/eventbus/ObjectRecognizerEventBus.kt:20 | removal takes out exactly one copy of the listener, if any |
| EventBus.AddThenRemoveRestores | android/src/main/java/hu/tsulok/mlkit/textrecognizer/domain/eventbus/ObjectRecognizerEventBus.kt:14-22 | adding a listener not yet present and removing it restores the list |
| EventBus.DeliveriesPerListener | android/src/main/java/hu/tsulok/mlkit/textrecognizer/domain/eventbus/ObjectRecognizerEventBus.kt:24-29 | a listener registered n times receives a result n times |
| EventBus.DeliveriesAt | android/src/main/java/hu/tsulok/mlkit/textrecognizer/domain/eventbus/ObjectRecognizerEventBus.kt:26-28 | one delivery per registration, the k-th to the k-th listener |
| EventBus.ObjectRecognizerEventBus.constructor | android/src/main/java/hu/tsulok/mlkit/textrecognizer/domain/eventbus/ObjectRecognizerEventBus.kt:11 | the list starts empty |
| EventBus.ObjectRecognizerEventBus.AddListener | android/src/main/java/hu/tsulok/mlkit/textrecognizer/domain/eventbus/ObjectRecognizerEventBus.kt:14-17 | the listener is appended at the end |
| EventBus.ObjectRecognizerEventBus.RemoveListener | android/src/main/java/hu/tsulok/mlkit/textrecognizer/domain/eventbus/ObjectRecognizerEventBus.kt:19-22 | the list loses the first occurrence of the listener, and one element when it was present |
| EventBus.ObjectRecognizerEventBus.Notify | android/src/main/java/hu/tsulok/mlkit/textrecognizer/domain/eventbus/ObjectRecognizerEventBus.kt:24-29 | one delivery per registered entry in registration order (none for an empty list), and the list is unchanged |
| Permissions.CheckPermissionTable | android/src/main/java/hu/tsulok/mlkit/textrecognizer/domain/PermissionHandler.kt:16-39 | granted iff the camera opens; prompt or prompt-with-rationale iff a request is asked; denied iff the "Manual enable needed" rejection; no state iff the "Unknown state" rejection |
| Permissions.PermissionFlow | android/src/main/java/hu/tsulok/mlkit/textrecognizer/MLKitTextRecognizerPlugin.kt:56-73 | a request happens iff first attempt and a prompt state; the camera opens iff granted; a prompt state after a request is rejected with PermissionDeniedError |
| Permissions.AtMostOnePrompt | android/src/main/java/hu/tsulok/mlkit/textrecognizer/MLKitTextRecognizerPlugin.kt:63-71 | the check after a request never requests again, and the first check requests only in a prompt state |
| PluginLogging.PluginLogger.constructor | android/src/main/java/hu/tsulok/mlkit/textrecognizer/utils/PluginLogger.kt:7 | logging starts enabled |
| PluginLogging.PluginLogger.SetEnableLogging | android/src/main/java/hu/tsulok/mlkit/textrecognizer/MLKitTextRecognizer.kt:18 | the switch takes the configured value |
| PluginLogging.PluginLogger.Debug | android/src/main/java/hu/tsulok/mlkit/textrecognizer/utils/PluginLogger.kt:9-14 | a debug line is forwarded iff logging is enabled, a missing message as "" |
| PluginLogging.PluginLogger.ErrorWithMessage | android/src/main/java/hu/tsulok/mlkit/textrecognizer/utils/PluginLogger.kt:16-18 | always forwarded with tag, message and throwable unchanged |
| PluginLogging.PluginLogger.ErrorWithThrowable | android/src/main/java/hu/tsulok/mlkit/textrecognizer/utils/PluginLogger.kt:20-25 | forwarded iff logging is enabled |
| PluginLogging.DisabledLoggerOnlyErrors | android/src/main/java/hu/tsulok/mlkit/textrecognizer/utils/PluginLogger.kt:9-25 | with logging disabled the gated calls are silent and the message-carrying error still passes |
| AndroidPlugin.ToBoolean | android/src/main/java/hu/tsulok/mlkit/textrecognizer/MLKitTextRecognizerPlugin.kt:90 | a boolean reads as itself, the strings "true"/"false" as the boolean, anything else does not read |
| AndroidPlugin.GetBoolean | android/src/main/java/hu/tsulok/mlkit/textrecognizer/MLKitTextRecognizerPlugin.kt:90 | fails with "no value" iff the key is missing; succeeds iff the value reads as a boolean, with that boolean |
| AndroidPlugin.GetBool | android/src/main/java/hu/tsulok/mlkit/textrecognizer/MLKitTextRecognizerPlugin.kt:92 | null exactly where getBoolean fails, its value elsewhere |
| AndroidPlugin.GetJSObject | android/src/main/java/hu/tsulok/mlkit/textrecognizer/MLKitTextRecognizerPlugin.kt:86-87 | the nested object iff the key holds an object |
| AndroidPlugin.ParseConfigSpec | android/src/main/java/hu/tsulok/mlkit/textrecognizer/MLKitTextRecognizerPlugin.kt:86-100 | the configuration parses iff isLoggingEnabled reads as a boolean (a missing key fails as such); each detector is allowed iff its section is an object whose allow reads as true |
| AndroidPlugin.MissingSectionDisallows | android/src/main/java/hu/tsulok/mlkit/textrecognizer/MLKitTextRecognizerPlugin.kt:91-98 | a missing section or a missing allow key gives isAllowed = false |
| AndroidPlugin.ResultObjectShape | android/src/main/java/hu/tsulok/mlkit/textrecognizer/MLKitTextRecognizerPlugin.kt:118-136 | a text result is an object with the single key text holding content and confidencePercentage; a barcode one with the single key barcode holding content; reading it back gives the result |
| AndroidPlugin.ResultObjectInjective | android/src/main/java/hu/tsulok/mlkit/textrecognizer/MLKitTextRecognizerPlugin.kt:118-136 | different results give different objects |
| AndroidPlugin.StartOutcomeSpec | android/src/main/java/hu/tsulok/mlkit/textrecognizer/MLKitTextRecognizerPlugin.kt:56-101 | the call is saved iff permission is granted, whatever the configuration; the camera starts iff, in addition, the configuration parses; a missing configuration reads as the empty object, so the call is saved and the start fails on the missing isLoggingEnabled; every rejection comes from the permission check |
| AndroidPlugin.MLKitTextRecognizerPlugin.constructor | android/src/main/java/hu/tsulok/mlkit/textrecognizer/MLKitTextRecognizerPlugin.kt:22-23 | no call is saved |
| AndroidPlugin.MLKitTextRecognizerPlugin.Load | android/src/main/java/hu/tsulok/mlkit/textrecognizer/MLKitTextRecognizerPlugin.kt:25-28 | the plugin is appended to the bus's listeners |
| AndroidPlugin.MLKitTextRecognizerPlugin.HandleOnDestroy | android/src/main/java/hu/tsulok/mlkit/textrecognizer/MLKitTextRecognizerPlugin.kt:51-54 | the plugin's first registration is removed from the bus |
| AndroidPlugin.MLKitTextRecognizerPlugin.CheckPermissionsInternal | android/src/main/java/hu/tsulok/mlkit/textrecognizer/MLKitTextRecognizerPlugin.kt:56-73 | the outcome is StartOutcomeOf; the call is saved with keepAlive exactly for the outcomes that save it; the logging switch follows a started configuration |
| AndroidPlugin.MLKitTextRecognizerPlugin.StartCamera | android/src/main/java/hu/tsulok/mlkit/textrecognizer/MLKitTextRecognizerPlugin.kt:75-101 | the call is always saved with keepAlive; the camera starts with the configuration parsed from the call's object (the empty object when it carries none), or the parse error escapes; a call without configuration ends in the missing-isLoggingEnabled error |
| AndroidPlugin.MLKitTextRecognizerPlugin.StartRecognizer | android/src/main/java/hu/tsulok/mlkit/textrecognizer/MLKitTextRecognizerPlugin.kt:31-34 | the first permission check, with its effect on the saved call |
| AndroidPlugin.MLKitTextRecognizerPlugin.CameraPermissionCallback | android/src/main/java/hu/tsulok/mlkit/textrecognizer/MLKitTextRecognizerPlugin.kt:113-116 | the check after a request; it never requests again |
| AndroidPlugin.MLKitTextRecognizerPlugin.KillPlugin | android/src/main/java/hu/tsulok/mlkit/textrecognizer/MLKitTextRecognizerPlugin.kt:37-49 | with no saved call nothing happens; otherwise the saved call is released, the camera killed, the kill call resolved; afterwards no call is saved |
| AndroidPlugin.MLKitTextRecognizerPlugin.OnEventReceived | android/src/main/java/hu/tsulok/mlkit/textrecognizer/MLKitTextRecognizerPlugin.kt:118-139 | the saved call, if any, is resolved with the result's object, which reads back as the result; without a saved call nothing is resolved |
| CameraActivity.UseCaseGroupBuilder.constructor | android/src/main/java/hu/tsulok/mlkit/textrecognizer/camera/CameraActivity.kt:48 | the builder starts empty |
| CameraActivity.UseCaseGroupBuilder.AddUseCase | android/src/main/java/hu/tsulok/mlkit/textrecognizer/camera/CameraActivity.kt:53 | the use case is appended |
| CameraActivity.AssembleUseCases | android/src/main/java/hu/tsulok/mlkit/textrecognizer/camera/CameraActivity.kt:48-89 | the builder ends holding exactly UseCasesFor(config) |
| CameraActivity.UseCasesSpec | android/src/main/java/hu/tsulok/mlkit/textrecognizer/camera/CameraActivity.kt:49-89 | each analyzer is bound iff the configuration is present and allows it; the preview always, last and once; barcode first; a null configuration binds only the preview |
| CameraActivity.HandleEmission | android/src/main/java/hu/tsulok/mlkit/textrecognizer/camera/CameraActivity.kt:58-82 | a result reaches every bus listener unchanged (barcode results also write a gated debug line); a barcode error is logged as "Exception happened ..." through the always-on error; a text error has no effect |
| CameraActivity.BarcodeErrorAlwaysLogged | android/src/main/java/hu/tsulok/mlkit/textrecognizer/camera/CameraActivity.kt:61-63 | the logged message keeps the exception's message, "null" when it has none, and is logged whatever the switch |
| CameraActivity.BindingFailureLine | android/src/main/java/hu/tsulok/mlkit/textrecognizer/camera/CameraActivity.kt:100-102 | a binding failure is logged iff logging is enabled |
| IosLogger.LevelOrder | ios/Plugin/utils/LoggerUtil.swift:46-60 | the levels form a strict total order debug < info < error, and >= is its reflexive converse |
| IosLogger.Logger.constructor | ios/Plugin/utils/LoggerUtil.swift:12 | the minimum starts at debug |
| IosLogger.Logger.SetMinimumLogLvl | ios/Plugin/MLKitTextRecognizer.swift:24 | the minimum takes the given level |
| IosLogger.Logger.Log | ios/Plugin/utils/LoggerUtil.swift:26-29 | a message is printed, unchanged, iff its level's value is at least the minimum's |
| IosLogger.Logger.LogDebug | ios/Plugin/utils/LoggerUtil.swift:14-16 | printed iff the minimum is debug |
| IosLogger.Logger.LogInfo | ios/Plugin/utils/LoggerUtil.swift:22-24 | printed iff the minimum is not error |
| IosLogger.Logger.LogError | ios/Plugin/utils/LoggerUtil.swift:18-20 | always printed |
| IosLogger.LogFilter | ios/Plugin/utils/LoggerUtil.swift:26-29 | under the default minimum everything prints; under the error minimum exactly the error messages print |
| IosAnalyzers.TextRecognize | ios/Plugin/camera/analyzer/TextAnalyzer.swift:22-33 | a thrown recognition makes no callback and logs "Failed to recognize text with error: ...."; a successful one logs nothing |
| IosAnalyzers.TextFoundFollowsLines | ios/Plugin/camera/analyzer/TextAnalyzer.swift:25-29 | one callback per line in block-then-line order, carrying the line's text with the text type; as many callbacks as lines |
| IosAnalyzers.TextOnlyImageText | ios/Plugin/camera/analyzer/TextAnalyzer.swift:27 | only the text type is reported |
| IosAnalyzers.ValuesFoundFollowsValues | ios/Plugin/camera/analyzer/BarcodeAnalyzer.swift:25-28 | one callback per present raw value in input order, with the barcode type; never more than barcodes |
| IosAnalyzers.BarcodeFoundSpec | ios/Plugin/camera/analyzer/BarcodeAnalyzer.swift:24-29 | a nil list gives no callback; the error argument never changes the callbacks; only the barcode type is reported |
| IosCamera.RegisteredForSpec | ios/Plugin/camera/CameraViewController.swift:33-43 | each analyzer is registered iff allowed, at most once, barcode before text; none when neither is allowed |
| IosCamera.FanOutRegistered | ios/Plugin/camera/CameraViewController.swift:83-90 | a frame gives the barcode callbacks (if allowed) followed by the text callbacks (if allowed); a detector that is not allowed never reports |
| IosCamera.CameraViewController.constructor | ios/Plugin/camera/CameraViewController.swift:33-43 | the registered analyzers are RegisteredFor(config); no last frame, no delegate |
| IosCamera.CameraViewController.SetDataFoundDelegate | ios/Plugin/camera/CameraViewController.swift:29 | the delegate is set or cleared and nothing else changes |
| IosCamera.CameraViewController.RecognizeText | ios/Plugin/camera/CameraViewController.swift:83-90 | every registered analyzer runs once in registration order; its callbacks reach the delegate unchanged, or none when there is no delegate; the analyzers' error messages are returned in the same order |
| IosCamera.CameraViewController.CaptureOutput | ios/Plugin/camera/CameraViewController.swift:239-264 | a frame without image buffer is dropped with its error and leaves lastFrame; otherwise it becomes lastFrame, and it is analyzed unless no MLImage can be built (then dropped with its error) |
| IosPlugin.ParseIosConfigSpec | ios/Plugin/MLKitTextRecognizer.swift:13-21 | each switch is on iff its entry is the boolean true; anything missing or of another type gives false; the empty configuration turns everything off |
| IosPlugin.DataObjectShape | ios/Plugin/MLKitTextRecognizerPlugin.swift:32-40 | a barcode is an object with the single key barcode, text with the single key text, each holding only content; reading it back gives the finding |
| IosPlugin.MLKitTextRecognizerPlugin.constructor | ios/Plugin/MLKitTextRecognizerPlugin.swift:7-8 | no call is saved |
| IosPlugin.MLKitTextRecognizerPlugin.StartRecognizer | ios/Plugin/MLKitTextRecognizerPlugin.swift:10-15 | the call is saved with keepAlive whatever the configuration; the camera gets the parsed configuration (an absent one reads as empty); with logging off the minimum becomes error, otherwise it is unchanged |
| IosPlugin.MLKitTextRecognizerPlugin.KillPlugin | ios/Plugin/MLKitTextRecognizerPlugin.swift:17-28 | with no saved call nothing is released and the error is printed; otherwise the saved call is released, the camera removed and the kill call resolved; afterwards no call is saved |
| IosPlugin.MLKitTextRecognizerPlugin.OnDataRead | ios/Plugin/MLKitTextRecognizerPlugin.swift:32-43 | the saved call, if any, is resolved with the finding's object, which reads back as the finding; without a saved call nothing is resolved |
| Platforms.BarcodesAgree | ios/Plugin/camera/analyzer/BarcodeAnalyzer.swift:25-28 | for the same barcodes both platforms report the same values in the same order and send identical objects |
| Platforms.TextAgrees | ios/Plugin/camera/analyzer/TextAnalyzer.swift:25-29 | for the same text both platforms report one finding per line in the same order, and Android's object reads as the iOS finding |
| Platforms.WiringAgrees | ios/Plugin/camera/CameraViewController.swift:33-43 | Android binds the analyzers iOS registers, in the same order, plus the preview at the end |
| Platforms.ConfigsAgree | ios/Plugin/MLKitTextRecognizer.swift:13-21 | with isLoggingEnabled a boolean and every allow absent or boolean, both platforms build the same configuration; without isLoggingEnabled Android fails and iOS reads false; a string "TRUE" allows a detector on Android but not on iOS |

## Left out

- ML Kit's text recognizer and barcode scanner are foreign code. Their output for a frame is an input to the model, a value or a failure. Image conversion (`InputImage`, `MLImage`, `VisionImage`) is left out with them.
- Threads, executors and timers are not modelled as such. `ScopedExecutor` is not part of this model. Task completions, the one-second timer and `stop` are sequential events. The executor's shutdown is modelled as dropping the listeners that complete after `stop`, and `fpsTimer.cancel()` as ticks after `stop` doing nothing. `@Synchronized` and the `@GuardedBy` locking are not modelled.
- `processBitmap` and the `isMlImageEnabled` branches are left out. `isMlImageEnabled` is always false, so those branches never run. `processBitmap` handles a single still image and is not used by the camera path.
- Analyzers.LineResult: confidence is a `real`, and `confidence * 100.0` is exact. Double rounding is not modelled.
- VisionProcessor.Record: latency totals are unbounded integers. The wrap-around of the Kotlin `Long` totals is not modelled, since it would need about 2^63 ms of latency.
- The logging inside the processor is not modelled: the `Log.d` statistics lines, the memory-info line, the failure `Toast` and the stack trace.
- `PluginCall`, `JSObject` and Android's `org.json` are not part of this model. The call's `config` entry is an input, absent when it is missing or not an object; `getObject("config", JSObject())` then gives the empty default object (`CallConfig`). The null check at `MLKitTextRecognizerPlugin.kt:77-80` can never reject, so it is not modelled. `getBoolean` and `getBool` are modelled as described on `ToBoolean`.
- AndroidPlugin.ToBoolean: case-insensitive matching is ASCII only.
- EventBus.ObjectRecognizerEventBus.Notify: a listener that adds or removes listeners while `notify` iterates over the live list would make Kotlin's iterator throw `ConcurrentModificationException`; such re-entrant mutation is not modelled (a listener cannot call back into the bus here), and no listener in this program does it.
- AndroidPlugin.MLKitTextRecognizerPlugin.StartCamera: where the parse error goes after it escapes `startCamera` is not modelled. The outcome is `StartThrew`, with the call already saved.
- IosPlugin.ParseIosConfig: only a JS boolean reads as `Bool`. Swift's bridging of numbers to `Bool` is not modelled.
- These actions are returned as outcomes, not performed:
  - `bridge.releaseCall`;
  - the camera launch and kill, which are intents on Android and view-controller presentation on iOS;
  - resolving and rejecting calls;
  - the permission request.
- Some constants the code refers to are not part of this model:
  - `CameraActivity.KILL_KEY`, used by `MLKitTextRecognizer.kt`, is not declared in `CameraActivity.kt`.
  - `removeCamera()`, called by the iOS plugin, is not declared in `MLKitTextRecognizer.swift`.
  - Killing the camera is therefore only the `Killed` outcome.
- Camera hardware and UI are left out: CameraX binding, the AVFoundation session, the preview overlay, layout and the drawing of `lastFrame`.
- IosCamera.CameraViewController.RecognizeText: the barcode scanner's completion is treated as synchronous. On a device it may arrive after the text callbacks of the same frame, so the relative order of the two analyzers' callbacks within a frame is not a promise of the code.
- Several log lines are not modelled:
  - the debug lines of the event bus ("Listener added", "Event notified …");
  - the plugin's "Call should be resolved with …" line;
  - the debug and error lines of the Android `killPlugin`, which go to Capacitor's `Logger` directly.
- CameraActivity.BarcodeResultsText: the rendering of a `Text` result's confidence is not modelled. The barcode callback only ever receives `Barcode` results.
- The weak `self` captured by the iOS closures is not modelled. The controller is assumed alive while it processes a frame.
- `MainActivity.java`, `src/index.ts`, `src/web.ts` and `src/definitions.ts` are not part of this model. The last one holds type declarations only, and `ReadResult`/`ReadData` follow its result shape.
