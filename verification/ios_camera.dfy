/** The iOS `CameraViewController`: the analyzers registered for a
    configuration, the last frame kept for the preview, and the fan-out of
    every usable frame to every registered analyzer, whose findings go to the
    data-found delegate when there is one. */
module IosCamera {
  import opened Wrappers
  import opened Domain
  import opened IosAnalyzers

  datatype Analyzer = BarcodeAnalyzer | TextAnalyzer

  /** A camera sample buffer: whether it carries an image buffer and whether
      an `MLImage` can be built from it. */
  datatype SampleBuffer = SampleBuffer(id: nat, hasImageBuffer: bool, mlImageBuildable: bool)

  /** What ML Kit returns for one frame: the text recognizer's blocks or
      thrown error description, and the barcode scanner's completion
      arguments. */
  datatype FrameDetections = FrameDetections(
    text: Result<seq<TextBlock>, string>,
    barcodes: Option<seq<MlBarcode>>,
    barcodeError: Option<Exception>)

  const NO_IMAGE_BUFFER: string := "Failed to get image buffer from sample buffer."
  const NO_ML_IMAGE: string := "Failed to create MLImage from sample buffer."

  /** The analyzers `init` registers: barcode, then text, each if allowed. */
  function RegisteredFor(config: RecognizerConfig): seq<Analyzer> {
    (if config.barcodeScanner.isAllowed then [BarcodeAnalyzer] else [])
    + (if config.textRecognizerConfig.isAllowed then [TextAnalyzer] else [])
  }

  /** Each analyzer is registered exactly when allowed, at most once, and
      barcode before text; nothing is registered when neither is allowed. */
  lemma RegisteredForSpec(config: RecognizerConfig)
    ensures BarcodeAnalyzer in RegisteredFor(config) <==> config.barcodeScanner.isAllowed
    ensures TextAnalyzer in RegisteredFor(config) <==> config.textRecognizerConfig.isAllowed
    ensures |RegisteredFor(config)| ==
              (if config.barcodeScanner.isAllowed then 1 else 0) + (if config.textRecognizerConfig.isAllowed then 1 else 0)
    ensures config.barcodeScanner.isAllowed ==> RegisteredFor(config)[0] == BarcodeAnalyzer
    ensures !config.barcodeScanner.isAllowed && !config.textRecognizerConfig.isAllowed ==> RegisteredFor(config) == []
  {
  }

  /** The callbacks one analyzer makes for a frame. */
  function AnalyzerFound(a: Analyzer, d: FrameDetections): seq<Found> {
    match a
    case BarcodeAnalyzer => BarcodeFound(d.barcodes, d.barcodeError)
    case TextAnalyzer => TextRecognize(d.text).0
  }

  /** The error messages one analyzer logs for a frame. */
  function AnalyzerErrors(a: Analyzer, d: FrameDetections): seq<string> {
    match a
    case BarcodeAnalyzer => []
    case TextAnalyzer => OptionToSeq(TextRecognize(d.text).1)
  }

  /** The callbacks of the analyzers, one analyzer after the other. */
  function FanOut(analyzers: seq<Analyzer>, d: FrameDetections): seq<Found> {
    if analyzers == [] then [] else AnalyzerFound(analyzers[0], d) + FanOut(analyzers[1..], d)
  }

  function FanOutErrors(analyzers: seq<Analyzer>, d: FrameDetections): seq<string> {
    if analyzers == [] then [] else AnalyzerErrors(analyzers[0], d) + FanOutErrors(analyzers[1..], d)
  }

  lemma {:induction false} FanOutAppend(a: seq<Analyzer>, b: seq<Analyzer>, d: FrameDetections)
    ensures FanOut(a + b, d) == FanOut(a, d) + FanOut(b, d)
    ensures FanOutErrors(a + b, d) == FanOutErrors(a, d) + FanOutErrors(b, d)
  {
    if a == [] {
      assert a + b == b;
    } else {
      assert (a + b)[1..] == a[1..] + b;
      FanOutAppend(a[1..], b, d);
    }
  }

  /** A frame seen by the analyzers of a configuration gives the barcode
      callbacks, if barcode scanning is allowed, followed by the text
      callbacks, if text recognition is allowed; a detector that is not
      allowed never reports. */
  lemma FanOutRegistered(config: RecognizerConfig, d: FrameDetections)
    ensures FanOut(RegisteredFor(config), d) ==
              (if config.barcodeScanner.isAllowed then BarcodeFound(d.barcodes, d.barcodeError) else [])
              + (if config.textRecognizerConfig.isAllowed then TextRecognize(d.text).0 else [])
    ensures forall f :: f in FanOut(RegisteredFor(config), d) && f.kind == BarCode ==> config.barcodeScanner.isAllowed
    ensures forall f :: f in FanOut(RegisteredFor(config), d) && f.kind == ImageText ==> config.textRecognizerConfig.isAllowed
  {
    var b: seq<Analyzer> := if config.barcodeScanner.isAllowed then [BarcodeAnalyzer] else [];
    var t: seq<Analyzer> := if config.textRecognizerConfig.isAllowed then [TextAnalyzer] else [];
    FanOutAppend(b, t, d);
    assert FanOut([BarcodeAnalyzer], d) == BarcodeFound(d.barcodes, d.barcodeError) by {
      assert [BarcodeAnalyzer][1..] == [];
    }
    assert FanOut([TextAnalyzer], d) == TextRecognize(d.text).0 by {
      assert [TextAnalyzer][1..] == [];
    }
    BarcodeFoundSpec(d.barcodes, d.barcodeError, d.barcodeError);
    if d.text.Success? {
      TextOnlyImageText(d.text.value);
    }
  }

  class CameraViewController {
    var registeredAnalyzers: seq<Analyzer>
    var lastFrame: Option<SampleBuffer>
    /** Whether the weak `dataFoundDelegate` is set. */
    var hasDelegate: bool

    /** `init(recognizerConfig:)`. */
    constructor (config: RecognizerConfig)
      ensures registeredAnalyzers == RegisteredFor(config)
      ensures lastFrame == None && !hasDelegate
    {
      registeredAnalyzers := [];
      if config.barcodeScanner.isAllowed {
        registeredAnalyzers := registeredAnalyzers + [BarcodeAnalyzer];
      }
      if config.textRecognizerConfig.isAllowed {
        registeredAnalyzers := registeredAnalyzers + [TextAnalyzer];
      }
      lastFrame := None;
      hasDelegate := false;
    }

    /** `dataFoundDelegate = ...`. */
    method SetDataFoundDelegate(present: bool)
      modifies this
      ensures hasDelegate == present
      ensures registeredAnalyzers == old(registeredAnalyzers) && lastFrame == old(lastFrame)
    {
      hasDelegate := present;
    }

    /** `recognizeText(in:)`: every registered analyzer is given the frame once,
        in registration order; their callbacks reach the delegate unchanged,
        or are dropped when there is no delegate. Also returns the error
        messages the analyzers log. */
    method RecognizeText(d: FrameDetections) returns (delivered: seq<Found>, errors: seq<string>)
      ensures delivered == if hasDelegate then FanOut(registeredAnalyzers, d) else []
      ensures errors == FanOutErrors(registeredAnalyzers, d)
    {
      delivered := [];
      errors := [];
      for i := 0 to |registeredAnalyzers|
        invariant delivered == if hasDelegate then FanOut(registeredAnalyzers[..i], d) else []
        invariant errors == FanOutErrors(registeredAnalyzers[..i], d)
      {
        var a := registeredAnalyzers[i];
        FanOutAppend(registeredAnalyzers[..i], [a], d);
        assert registeredAnalyzers[..i + 1] == registeredAnalyzers[..i] + [a];
        assert FanOut([a], d) == AnalyzerFound(a, d) + [] && FanOutErrors([a], d) == AnalyzerErrors(a, d) + [] by {
          assert [a][1..] == [];
        }
        if hasDelegate {
          delivered := delivered + AnalyzerFound(a, d);
        }
        errors := errors + AnalyzerErrors(a, d);
      }
      assert registeredAnalyzers[..|registeredAnalyzers|] == registeredAnalyzers;
    }

    /** `captureOutput(_:didOutput:from:)`: a frame without an image buffer is
        dropped with an error; otherwise it becomes the last frame, and it is
        analyzed unless no `MLImage` can be built from it. */
    method CaptureOutput(frame: SampleBuffer, d: FrameDetections) returns (delivered: seq<Found>, errors: seq<string>)
      modifies this
      ensures lastFrame == if frame.hasImageBuffer then Some(frame) else old(lastFrame)
      ensures registeredAnalyzers == old(registeredAnalyzers) && hasDelegate == old(hasDelegate)
      ensures !frame.hasImageBuffer ==> delivered == [] && errors == [NO_IMAGE_BUFFER]
      ensures frame.hasImageBuffer && !frame.mlImageBuildable ==> delivered == [] && errors == [NO_ML_IMAGE]
      ensures frame.hasImageBuffer && frame.mlImageBuildable ==>
                delivered == (if hasDelegate then FanOut(registeredAnalyzers, d) else []) &&
                errors == FanOutErrors(registeredAnalyzers, d)
    {
      if !frame.hasImageBuffer {
        return [], [NO_IMAGE_BUFFER];
      }
      lastFrame := Some(frame);
      if !frame.mlImageBuildable {
        return [], [NO_ML_IMAGE];
      }
      delivered, errors := RecognizeText(d);
    }
  }
}
