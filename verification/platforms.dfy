/** How the Android and the iOS implementations compare: the same detector
    output yields the same contents in the same order, barcodes reach the web
    side as identical objects, text objects differ only by Android's
    confidence, the analyzers are wired up alike, and the configurations agree
    whenever every switch is given as a boolean. */
module Platforms {
  import opened Wrappers
  import opened Domain
  import A = Analyzers
  import AP = AndroidPlugin
  import CA = CameraActivity
  import IA = IosAnalyzers
  import IC = IosCamera
  import IP = IosPlugin

  /** For the same barcodes, both platforms report the same values in the
      same order, and each reaches the web side as the very same object. */
  lemma BarcodesAgree(barcodes: seq<MlBarcode>, e: Option<Exception>)
    ensures |A.BarcodeOnSuccess(barcodes)| == |IA.BarcodeFound(Some(barcodes), e)|
    ensures forall k :: 0 <= k < |A.BarcodeOnSuccess(barcodes)| ==>
              AP.ResultObject(A.BarcodeOnSuccess(barcodes)[k]) ==
              IP.DataObject(IA.BarcodeFound(Some(barcodes), e)[k].text, IA.BarcodeFound(Some(barcodes), e)[k].kind)
  {
    A.BarcodeResultsFollowValues(barcodes);
    IA.ValuesFoundFollowsValues(barcodes);
  }

  /** For the same text, both platforms report one finding per line in the
      same order, and the web side reads Android's object (which also holds
      the confidence) as exactly the iOS finding. */
  lemma TextAgrees(blocks: seq<TextBlock>)
    ensures |A.TextOnSuccess(blocks)| == |IA.TextFound(blocks)|
    ensures forall k :: 0 <= k < |A.TextOnSuccess(blocks)| ==>
              A.TextOnSuccess(blocks)[k].content == IA.TextFound(blocks)[k].text &&
              IP.ReadData(AP.ResultObject(A.TextOnSuccess(blocks)[k])) == Some(IA.TextFound(blocks)[k])
  {
    A.TextResultsFollowLines(blocks);
    IA.TextFoundFollowsLines(blocks);
  }

  /** The analyzers of a configuration: Android binds the same analyzers as
      iOS registers, in the same order, and adds the preview at the end. */
  lemma WiringAgrees(config: RecognizerConfig)
    ensures CA.UseCasesFor(Some(config)) == AnalysisUseCases(IC.RegisteredFor(config)) + [CA.PreviewUseCase]
  {
    var r := IC.RegisteredFor(config);
    if |r| == 2 {
      assert r == [IC.BarcodeAnalyzer, IC.TextAnalyzer];
      assert r[1..] == [IC.TextAnalyzer];
      assert r[1..][1..] == [];
      assert AnalysisUseCases(r[1..]) == [CA.TextAnalysis];
    } else if |r| == 1 {
      assert r[1..] == [];
    }
  }

  /** The Android use case for each iOS analyzer. */
  function AnalysisUseCases(analyzers: seq<IC.Analyzer>): seq<CA.UseCase> {
    if analyzers == [] then []
    else [if analyzers[0] == IC.BarcodeAnalyzer then CA.BarcodeAnalysis else CA.TextAnalysis]
         + AnalysisUseCases(analyzers[1..])
  }

  /** An entry that is absent or a boolean. */
  predicate AbsentOrBool(obj: map<string, JSValue>, key: string) {
    key !in obj || obj[key].JSBool?
  }

  /** A section that is absent, not an object, or an object whose `allow` is
      absent or a boolean. */
  predicate SectionWellTyped(config: map<string, JSValue>, section: string) {
    section !in config || !config[section].JSObject? || AbsentOrBool(config[section].fields, "allow")
  }

  /** When `isLoggingEnabled` is a boolean and every `allow` is absent or a
      boolean, both platforms build the same configuration. Without
      `isLoggingEnabled`, Android fails where iOS reads `false`; a string
      "true" turns a detector on under Android and leaves it off under iOS. */
  lemma ConfigsAgree(config: map<string, JSValue>)
    ensures "isLoggingEnabled" in config && config["isLoggingEnabled"].JSBool? &&
            SectionWellTyped(config, "barcodeScanner") && SectionWellTyped(config, "textRecognizer") ==>
              AP.ParseConfig(config) == Success(IP.ParseIosConfig(config))
    ensures "isLoggingEnabled" !in config ==>
              AP.ParseConfig(config).Failure? && !IP.ParseIosConfig(config).isLoggingEnabled
    ensures var c := map["isLoggingEnabled" := JSBool(true),
                         "barcodeScanner" := JSObject(map["allow" := JSString("TRUE")])];
            AP.ParseConfig(c).Success? && AP.ParseConfig(c).value.barcodeScanner.isAllowed &&
            !IP.ParseIosConfig(c).barcodeScanner.isAllowed
  {
    var c := map["isLoggingEnabled" := JSBool(true),
                 "barcodeScanner" := JSObject(map["allow" := JSString("TRUE")])];
    assert AP.EqualsIgnoreCase("TRUE", "true") by {
      assert AP.AsciiLower('T') == 't' && AP.AsciiLower('R') == 'r';
      assert AP.AsciiLower('U') == 'u' && AP.AsciiLower('E') == 'e';
    }
    assert AP.ToBoolean(JSString("TRUE")) == Some(true);
  }
}
