/** The Android analyzers: `TextAnalyzer` and `BarCodeAnalyzer`. Each owns a
    `VisionProcessorBase` and turns its detector's output into
    `RecognizerResult` callbacks; a failed detection is handed to `onError`.

    The ML Kit detectors are foreign: their output is given as a value, a
    sequence of text blocks or a sequence of barcodes. */
module Analyzers {
  import opened Wrappers
  import opened Domain
  import VP = VisionProcessor

  /** A callback made by an analyzer: a result (`onTextRecognized`,
      `onBarCodeRecognized`) or an exception (`onError`). */
  datatype Emission = Recognized(result: RecognizerResult) | Error(e: Exception)

  /** How a detector task ended. */
  datatype DetectorOutcome<T> = Detected(results: T) | DetectionFailed(e: Exception)

  /** The confidence scaled to percent (`confidence * 100.0`). */
  function ConfidencePercent(confidence: real): real {
    confidence * 100.0
  }

  /** The result made from one recognized line. */
  function LineResult(line: TextLine): RecognizerResult {
    Text(line.text, ConfidencePercent(line.confidence))
  }

  /** The inner `forEach` of `TextAnalyzer.onSuccess`: one result per line. */
  function LineResults(lines: seq<TextLine>): seq<RecognizerResult> {
    if lines == [] then [] else [LineResult(lines[0])] + LineResults(lines[1..])
  }

  /** `TextAnalyzer.onSuccess`: the outer `forEach` over the blocks. */
  function TextOnSuccess(blocks: seq<TextBlock>): seq<RecognizerResult> {
    if blocks == [] then [] else LineResults(blocks[0].lines) + TextOnSuccess(blocks[1..])
  }

  /** `BarCodeAnalyzer.onSuccess`: a barcode without a raw value is skipped,
      every other one yields `Barcode(rawValue)`. */
  function BarcodeOnSuccess(barcodes: seq<MlBarcode>): seq<RecognizerResult> {
    if barcodes == [] then []
    else
      (match barcodes[0].rawValue
       case None => []
       case Some(v) => [Barcode(v)])
      + BarcodeOnSuccess(barcodes[1..])
  }

  /** Each result handed to the result callback, in order. */
  function AsRecognized(results: seq<RecognizerResult>): (emitted: seq<Emission>)
    ensures |emitted| == |results|
    ensures forall k :: 0 <= k < |results| ==> emitted[k] == Recognized(results[k])
  {
    if results == [] then [] else [Recognized(results[0])] + AsRecognized(results[1..])
  }

  /** The callbacks of a `TextAnalyzer` for one finished detection. */
  function TextEmissions(outcome: DetectorOutcome<seq<TextBlock>>): seq<Emission> {
    match outcome
    case Detected(blocks) => AsRecognized(TextOnSuccess(blocks))
    case DetectionFailed(e) => [Error(e)]
  }

  /** The callbacks of a `BarCodeAnalyzer` for one finished detection. */
  function BarcodeEmissions(outcome: DetectorOutcome<seq<MlBarcode>>): seq<Emission> {
    match outcome
    case Detected(barcodes) => AsRecognized(BarcodeOnSuccess(barcodes))
    case DetectionFailed(e) => [Error(e)]
  }

  // ---- text ----

  lemma {:induction false} LineResultsAt(lines: seq<TextLine>)
    ensures |LineResults(lines)| == |lines|
    ensures forall k :: 0 <= k < |lines| ==> LineResults(lines)[k] == LineResult(lines[k])
  {
    if lines != [] {
      LineResultsAt(lines[1..]);
    }
  }

  /** One Text result per line, in block-then-line order: the k-th result is
      made from the k-th line of all blocks, and there are as many results as
      lines. */
  lemma {:induction false} TextResultsFollowLines(blocks: seq<TextBlock>)
    ensures |TextOnSuccess(blocks)| == |AllLines(blocks)| == TotalLines(blocks)
    ensures forall k :: 0 <= k < |AllLines(blocks)| ==>
      TextOnSuccess(blocks)[k] == LineResult(AllLines(blocks)[k])
  {
    AllLinesLength(blocks);
    if blocks != [] {
      TextResultsFollowLines(blocks[1..]);
      LineResultsAt(blocks[0].lines);
      AllLinesLength(blocks[1..]);
    }
  }

  /** Line `j` of block `i` yields the result at position
      (lines in blocks before `i`) + `j`, carrying that line's text and its
      confidence in percent. */
  lemma TextResultAt(blocks: seq<TextBlock>, i: nat, j: nat)
    requires i < |blocks| && j < |blocks[i].lines|
    ensures TotalLines(blocks[..i]) + j < |TextOnSuccess(blocks)|
    ensures TextOnSuccess(blocks)[TotalLines(blocks[..i]) + j]
         == Text(blocks[i].lines[j].text, blocks[i].lines[j].confidence * 100.0)
  {
    AllLinesAt(blocks, i, j);
    AllLinesLength(blocks);
    TextResultsFollowLines(blocks);
  }

  /** Only the Text variant is emitted, and its content is a line's text. */
  lemma TextOnlyText(blocks: seq<TextBlock>)
    ensures forall r :: r in TextOnSuccess(blocks) ==> r.Text?
    ensures forall r :: r in TextOnSuccess(blocks) ==> exists line :: line in AllLines(blocks) && r.content == line.text
  {
    TextResultsFollowLines(blocks);
    AllLinesLength(blocks);
    forall r | r in TextOnSuccess(blocks)
      ensures r.Text? && exists line :: line in AllLines(blocks) && r.content == line.text
    {
      var k :| 0 <= k < |TextOnSuccess(blocks)| && TextOnSuccess(blocks)[k] == r;
      assert AllLines(blocks)[k] in AllLines(blocks);
    }
  }

  // ---- barcodes ----

  /** The results are exactly `Barcode(v)` for the present raw values `v`, in
      input order. */
  lemma {:induction false} BarcodeResultsFollowValues(barcodes: seq<MlBarcode>)
    ensures |BarcodeOnSuccess(barcodes)| == |PresentValues(barcodes)|
    ensures forall k :: 0 <= k < |PresentValues(barcodes)| ==>
      BarcodeOnSuccess(barcodes)[k] == Barcode(PresentValues(barcodes)[k])
  {
    if barcodes != [] {
      BarcodeResultsFollowValues(barcodes[1..]);
    }
  }

  /** Results of earlier barcodes come before results of later ones. */
  lemma {:induction false} BarcodeOnSuccessAppend(a: seq<MlBarcode>, b: seq<MlBarcode>)
    ensures BarcodeOnSuccess(a + b) == BarcodeOnSuccess(a) + BarcodeOnSuccess(b)
  {
    if a == [] {
      assert a + b == b;
    } else {
      assert (a + b)[1..] == a[1..] + b;
      BarcodeOnSuccessAppend(a[1..], b);
    }
  }

  /** A barcode without a raw value yields nothing; one with a raw value, even
      the empty string, yields exactly `Barcode(value)`. */
  lemma BarcodeSingle(b: MlBarcode)
    ensures b.rawValue.None? ==> BarcodeOnSuccess([b]) == []
    ensures b.rawValue.Some? ==> BarcodeOnSuccess([b]) == [Barcode(b.rawValue.value)]
    ensures BarcodeOnSuccess([MlBarcode(Some(""))]) == [Barcode("")]
  {
    assert [b][1..] == [];
    assert [MlBarcode(Some(""))][1..] == [];
  }

  /** There are at most as many results as barcodes, and all are Barcode results. */
  lemma {:induction false} BarcodeCountBounded(barcodes: seq<MlBarcode>)
    ensures |BarcodeOnSuccess(barcodes)| <= |barcodes|
    ensures forall r :: r in BarcodeOnSuccess(barcodes) ==> r.Barcode?
  {
    if barcodes != [] {
      BarcodeCountBounded(barcodes[1..]);
    }
  }

  // ---- failures ----

  /** A failed detection hands its exception to `onError` once, unchanged, and
      produces no result; a successful one never calls `onError`. */
  lemma FailureForwardedOnce(e: Exception, blocks: seq<TextBlock>, barcodes: seq<MlBarcode>)
    ensures TextEmissions(DetectionFailed(e)) == [Error(e)]
    ensures BarcodeEmissions(DetectionFailed(e)) == [Error(e)]
    ensures forall m :: m in TextEmissions(Detected(blocks)) ==> m.Recognized?
    ensures forall m :: m in BarcodeEmissions(Detected(barcodes)) ==> m.Recognized?
  {
  }

  // ---- the analyzer objects ----

  /** `TextAnalyzer`: a vision processor whose detector is a text recognizer
      that `stop` closes. */
  class TextAnalyzer {
    const processor: VP.VisionProcessorBase
    var recognizerClosed: bool

    ghost predicate Valid()
      reads this, processor
    {
      processor.Valid()
    }

    constructor ()
      ensures Valid() && fresh(processor)
      ensures processor.State() == VP.Initial && !recognizerClosed
    {
      processor := new VP.VisionProcessorBase();
      recognizerClosed := false;
    }

    /** `stop`: the processor's own stop, then the recognizer is closed. */
    method Stop()
      requires Valid()
      modifies this, processor
      ensures Valid()
      ensures processor.State() == VP.Stopped(old(processor.State()))
      ensures processor.State().isShutdown && processor.Stats() == VP.ResetStats
      ensures recognizerClosed
    {
      processor.Stop();
      recognizerClosed := true;
    }

    /** `analyze`: hands the image to `processImageProxy`. */
    method Analyze(image: VP.ImageProxy) returns (started: Option<VP.Detection>)
      ensures started == VP.ProxyOffered(processor.State(), image)
    {
      started := processor.ProcessImageProxy(image);
    }

    /** A detection started by `analyze` succeeded: the statistics listener
        runs, then `onSuccess` reports every line. Both are dropped after `stop`. */
    method OnDetectionSuccess(results: seq<TextBlock>, frameMs: nat, detectorMs: nat)
      returns (emitted: seq<Emission>)
      requires Valid()
      modifies processor
      ensures Valid()
      ensures processor.State() == VP.ProxySucceeded(old(processor.State()), frameMs, detectorMs)
      ensures emitted == if old(processor.isShutdown) then [] else TextEmissions(Detected(results))
    {
      var shutdown := processor.isShutdown;
      processor.OnProxySuccess(frameMs, detectorMs);
      emitted := if shutdown then [] else AsRecognized(TextOnSuccess(results));
    }

    /** A detection started by `analyze` failed: `onFailure` forwards the
        exception, unless the processor is shut down. */
    method OnDetectionFailure(e: Exception) returns (emitted: seq<Emission>)
      ensures emitted == if processor.isShutdown then [] else TextEmissions(DetectionFailed(e))
    {
      emitted := if processor.isShutdown then [] else [Error(e)];
    }
  }

  /** `BarCodeAnalyzer`: a vision processor whose detector is a barcode
      scanner. It has no `stop` of its own, so the scanner is never closed. */
  class BarCodeAnalyzer {
    const processor: VP.VisionProcessorBase
    var scannerClosed: bool

    ghost predicate Valid()
      reads this, processor
    {
      processor.Valid()
    }

    constructor ()
      ensures Valid() && fresh(processor)
      ensures processor.State() == VP.Initial && !scannerClosed
    {
      processor := new VP.VisionProcessorBase();
      scannerClosed := false;
    }

    /** `stop` is the processor's own; the scanner stays open. */
    method Stop()
      requires Valid()
      modifies processor
      ensures Valid()
      ensures processor.State() == VP.Stopped(old(processor.State()))
      ensures scannerClosed == old(scannerClosed)
    {
      processor.Stop();
    }

    /** `analyze`: hands the image to `processImageProxy`. */
    method Analyze(image: VP.ImageProxy) returns (started: Option<VP.Detection>)
      ensures started == VP.ProxyOffered(processor.State(), image)
    {
      started := processor.ProcessImageProxy(image);
    }

    /** A detection started by `analyze` succeeded: statistics, then one
        callback per barcode that has a raw value. Dropped after `stop`. */
    method OnDetectionSuccess(results: seq<MlBarcode>, frameMs: nat, detectorMs: nat)
      returns (emitted: seq<Emission>)
      requires Valid()
      modifies processor
      ensures Valid()
      ensures processor.State() == VP.ProxySucceeded(old(processor.State()), frameMs, detectorMs)
      ensures emitted == if old(processor.isShutdown) then [] else BarcodeEmissions(Detected(results))
    {
      var shutdown := processor.isShutdown;
      processor.OnProxySuccess(frameMs, detectorMs);
      emitted := if shutdown then [] else AsRecognized(BarcodeOnSuccess(results));
    }

    /** A detection started by `analyze` failed: `onFailure` forwards the
        exception, unless the processor is shut down. */
    method OnDetectionFailure(e: Exception) returns (emitted: seq<Emission>)
      ensures emitted == if processor.isShutdown then [] else BarcodeEmissions(DetectionFailed(e))
    {
      emitted := if processor.isShutdown then [] else [Error(e)];
    }
  }
}
