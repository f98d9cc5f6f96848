/** The plugin's value types, shared by the Android and the iOS side:
    recognition results, the recognizer configuration, plugin errors,
    JavaScript values crossing the bridge and the abstract output of the
    ML Kit detectors. */
module Domain {
  import opened Wrappers

  /** A recognition result: a line of text with the detector's confidence in
      percent, or the raw value of a barcode. */
  datatype RecognizerResult =
    | Text(content: string, confidence: real)
    | Barcode(content: string)

  datatype BarCodeScannerConfig = BarCodeScannerConfig(isAllowed: bool)
  datatype TextRecognizerConfig = TextRecognizerConfig(isAllowed: bool)

  /** What `startCamera` is given: the logging switch and one switch per detector. */
  datatype RecognizerConfig = RecognizerConfig(
    isLoggingEnabled: bool,
    barcodeScanner: BarCodeScannerConfig,
    textRecognizerConfig: TextRecognizerConfig)

  /** An exception thrown by a detector or by the bridge; only its message is kept. */
  datatype Exception = Exception(message: Option<string>)

  /** The plugin's own errors and their fixed messages. */
  datatype PluginError = PermissionDeniedError | PermissionDeniedCompletely {
    function ErrorMessage(): string {
      match this
      case PermissionDeniedError => "User did not enable camera permission"
      case PermissionDeniedCompletely => "Permission has been denied. Manual enable needed"
    }
  }

  /** The kind of analyzer that reported a value on iOS. */
  datatype AnalyzerType = BarCode | ImageText

  /** A JavaScript value as the Capacitor bridge carries it. An object is a
      map from keys to values. */
  datatype JSValue =
    | JSNull
    | JSBool(b: bool)
    | JSNumber(n: real)
    | JSString(s: string)
    | JSObject(fields: map<string, JSValue>)

  /** A Capacitor plugin call; `keepAlive` keeps it open so that it can be
      resolved more than once. */
  datatype PluginCall = PluginCall(id: nat, keepAlive: bool)

  // ---- abstract output of the ML Kit detectors ----

  /** A recognized line: its text and the detector's confidence in [0, 1]. */
  datatype TextLine = TextLine(text: string, confidence: real)

  /** A block of recognized text, made of lines. */
  datatype TextBlock = TextBlock(lines: seq<TextLine>)

  /** A detected barcode; its raw value may be absent. */
  datatype MlBarcode = MlBarcode(rawValue: Option<string>)

  /** The number of lines across all blocks. */
  function TotalLines(blocks: seq<TextBlock>): nat {
    if blocks == [] then 0 else |blocks[0].lines| + TotalLines(blocks[1..])
  }

  /** All lines, block after block, each block's lines in order. */
  function AllLines(blocks: seq<TextBlock>): seq<TextLine> {
    if blocks == [] then [] else blocks[0].lines + AllLines(blocks[1..])
  }

  /** The raw values that are present, in input order. */
  function PresentValues(barcodes: seq<MlBarcode>): seq<string> {
    if barcodes == [] then []
    else OptionToSeq(barcodes[0].rawValue) + PresentValues(barcodes[1..])
  }

  lemma {:induction false} AllLinesLength(blocks: seq<TextBlock>)
    ensures |AllLines(blocks)| == TotalLines(blocks)
  {
    if blocks != [] {
      AllLinesLength(blocks[1..]);
    }
  }

  lemma {:induction false} TotalLinesAppend(a: seq<TextBlock>, b: seq<TextBlock>)
    ensures TotalLines(a + b) == TotalLines(a) + TotalLines(b)
  {
    if a == [] {
      assert a + b == b;
    } else {
      assert (a + b)[1..] == a[1..] + b;
      TotalLinesAppend(a[1..], b);
    }
  }

  /** Line `j` of block `i` is found in `AllLines` right after the lines of the
      blocks before it: blocks are visited in order, and lines within a block. */
  lemma {:induction false} AllLinesAt(blocks: seq<TextBlock>, i: nat, j: nat)
    requires i < |blocks| && j < |blocks[i].lines|
    ensures TotalLines(blocks[..i]) + j < |AllLines(blocks)|
    ensures AllLines(blocks)[TotalLines(blocks[..i]) + j] == blocks[i].lines[j]
  {
    AllLinesLength(blocks);
    AllLinesLength(blocks[1..]);
    if i == 0 {
      assert blocks[..0] == [];
    } else {
      AllLinesAt(blocks[1..], i - 1, j);
      assert blocks[..i] == [blocks[0]] + blocks[1..][..i - 1];
      TotalLinesAppend([blocks[0]], blocks[1..][..i - 1]);
      assert TotalLines([blocks[0]]) == |blocks[0].lines| by {
        assert [blocks[0]][1..] == [];
      }
    }
  }

  lemma {:induction false} PresentValuesAppend(a: seq<MlBarcode>, b: seq<MlBarcode>)
    ensures PresentValues(a + b) == PresentValues(a) + PresentValues(b)
  {
    if a == [] {
      assert a + b == b;
    } else {
      assert (a + b)[1..] == a[1..] + b;
      PresentValuesAppend(a[1..], b);
    }
  }
}
