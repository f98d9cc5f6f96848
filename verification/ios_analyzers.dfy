/** The iOS analyzers. Each turns what ML Kit returns for a frame into
    `(found text, analyzer type)` callbacks: the text analyzer one per line,
    the barcode analyzer one per barcode that has a raw value. */
module IosAnalyzers {
  import opened Wrappers
  import opened Domain

  /** One call of `foundResultCallback`. */
  datatype Found = Found(text: string, kind: AnalyzerType)

  /** The callbacks for recognized text: every line of every block, in order. */
  function TextFound(blocks: seq<TextBlock>): seq<Found> {
    if blocks == [] then [] else LinesFound(blocks[0].lines) + TextFound(blocks[1..])
  }

  function LinesFound(lines: seq<TextLine>): seq<Found> {
    if lines == [] then [] else [Found(lines[0].text, ImageText)] + LinesFound(lines[1..])
  }

  /** The message logged when `results(in:)` throws. */
  function TextErrorMessage(description: string): string {
    "Failed to recognize text with error: " + description + "."
  }

  /** `TextAnalyzer.recognizeText`: the recognized blocks, or the thrown
      error's description. Returns the callbacks made and the error message
      handed to the logger, if any. */
  function TextRecognize(recognized: Result<seq<TextBlock>, string>): (r: (seq<Found>, Option<string>))
    ensures recognized.Failure? ==> r.0 == [] && r.1 == Some(TextErrorMessage(recognized.error))
    ensures recognized.Success? ==> r.1 == None
  {
    match recognized
    case Success(blocks) => (TextFound(blocks), None)
    case Failure(description) => ([], Some(TextErrorMessage(description)))
  }

  /** `BarcodeAnalyzer.recognizeText`'s completion: the callbacks for the
      barcodes that have a raw value; a missing list gives none, and the
      completion's error is not looked at. */
  function BarcodeFound(barcodes: Option<seq<MlBarcode>>, error: Option<Exception>): seq<Found> {
    match barcodes
    case None => []
    case Some(bs) => ValuesFound(bs)
  }

  function ValuesFound(bs: seq<MlBarcode>): seq<Found> {
    if bs == [] then []
    else match bs[0].rawValue
      case None => ValuesFound(bs[1..])
      case Some(v) => [Found(v, BarCode)] + ValuesFound(bs[1..])
  }

  lemma {:induction false} LinesFoundAt(lines: seq<TextLine>)
    ensures |LinesFound(lines)| == |lines|
    ensures forall k :: 0 <= k < |lines| ==> LinesFound(lines)[k] == Found(lines[k].text, ImageText)
  {
    if lines != [] {
      LinesFoundAt(lines[1..]);
    }
  }

  /** One callback per line, in block-then-line order, each carrying the
      line's text and the text type; as many callbacks as lines. */
  lemma {:induction false} TextFoundFollowsLines(blocks: seq<TextBlock>)
    ensures |TextFound(blocks)| == |AllLines(blocks)| == TotalLines(blocks)
    ensures forall k :: 0 <= k < |AllLines(blocks)| ==>
              TextFound(blocks)[k] == Found(AllLines(blocks)[k].text, ImageText)
  {
    AllLinesLength(blocks);
    if blocks != [] {
      TextFoundFollowsLines(blocks[1..]);
      LinesFoundAt(blocks[0].lines);
      var head := blocks[0].lines;
      forall k | 0 <= k < |AllLines(blocks)|
        ensures TextFound(blocks)[k] == Found(AllLines(blocks)[k].text, ImageText)
      {
        if k < |head| {
          assert AllLines(blocks)[k] == head[k];
        } else {
          assert AllLines(blocks)[k] == AllLines(blocks[1..])[k - |head|];
          assert TextFound(blocks)[k] == TextFound(blocks[1..])[k - |head|];
        }
      }
    }
  }

  /** Only the text type is reported by the text analyzer. */
  lemma TextOnlyImageText(blocks: seq<TextBlock>)
    ensures forall f :: f in TextFound(blocks) ==> f.kind == ImageText
  {
    TextFoundFollowsLines(blocks);
  }

  /** One callback per present raw value, in input order, each with the
      barcode type; never more callbacks than barcodes. */
  lemma {:induction false} ValuesFoundFollowsValues(bs: seq<MlBarcode>)
    ensures |ValuesFound(bs)| == |PresentValues(bs)| <= |bs|
    ensures forall k :: 0 <= k < |PresentValues(bs)| ==> ValuesFound(bs)[k] == Found(PresentValues(bs)[k], BarCode)
  {
    if bs != [] {
      ValuesFoundFollowsValues(bs[1..]);
      if bs[0].rawValue.Some? {
        var v := bs[0].rawValue.value;
        assert PresentValues(bs) == [v] + PresentValues(bs[1..]);
        assert ValuesFound(bs) == [Found(v, BarCode)] + ValuesFound(bs[1..]);
      } else {
        assert PresentValues(bs) == [] + PresentValues(bs[1..]);
      }
    }
  }

  /** A missing list gives no callback; the error argument never changes the
      callbacks; only the barcode type is reported. */
  lemma BarcodeFoundSpec(barcodes: Option<seq<MlBarcode>>, e1: Option<Exception>, e2: Option<Exception>)
    ensures barcodes.None? ==> BarcodeFound(barcodes, e1) == []
    ensures BarcodeFound(barcodes, e1) == BarcodeFound(barcodes, e2)
    ensures forall f :: f in BarcodeFound(barcodes, e1) ==> f.kind == BarCode
  {
    if barcodes.Some? {
      ValuesFoundFollowsValues(barcodes.value);
    }
  }
}
