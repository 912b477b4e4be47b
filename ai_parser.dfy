/**
 * `parseRevenueStatement`: validate the upload, convert its pages, then
 * ask the model, folding each stage's progress into one overall
 * percentage: 5 before validation, 10 before conversion, the conversion's
 * reports squeezed into 10 to 40, 40 before the model call, and its
 * reports squeezed into 40 to 100. Any error is passed on unchanged.
 */
module AiParser {
  import opened Options
  import opened Json
  import opened PdfService
  import opened OpenAIService

  /** The conversion's own percentage `p` as overall progress: 10 + 0.3p. */
  function PdfStage(p: real): real {
    10.0 + p * 0.3
  }

  /** The model call's own percentage `p` as overall progress: 40 + 0.6p. */
  function AiStage(p: real): real {
    40.0 + p * 0.6
  }

  /** 10 + 0.3p is strictly increasing and sends 0 to 100 onto 10 to 40. */
  lemma PdfStageSpec(p: real, q: real)
    ensures p < q ==> PdfStage(p) < PdfStage(q)
    ensures 0.0 <= p <= 100.0 ==> 10.0 <= PdfStage(p) <= 40.0
    ensures 10.0 <= q <= 40.0 ==> var r := (q - 10.0) / 0.3; 0.0 <= r <= 100.0 && PdfStage(r) == q
  {
  }

  /** 40 + 0.6p is strictly increasing and sends 0 to 100 onto 40 to 100. */
  lemma AiStageSpec(p: real, q: real)
    ensures p < q ==> AiStage(p) < AiStage(q)
    ensures 0.0 <= p <= 100.0 ==> 40.0 <= AiStage(p) <= 100.0
    ensures 40.0 <= q <= 100.0 ==> var r := (q - 40.0) / 0.6; 0.0 <= r <= 100.0 && AiStage(r) == q
  {
  }

  /** The conversion's reports as the caller sees them. */
  function PdfReports(ps: seq<real>): (r: seq<real>)
    ensures |r| == |ps|
  {
    seq(|ps|, i requires 0 <= i < |ps| => PdfStage(ps[i]))
  }

  /** The model call's reports as the caller sees them. */
  function AiReports(ps: seq<int>): (r: seq<real>)
    ensures |r| == |ps|
  {
    seq(|ps|, i requires 0 <= i < |ps| => AiStage(ps[i] as real))
  }

  /** Progress reported to the caller, and the record or the message of the error thrown. */
  datatype Report = Report(progress: seq<real>, result: Result<map<string, Json>, string>)

  /**
   * `parseRevenueStatement` for an upload `file`, a conversion that went
   * as `conversion` says, and a model call described as in `Run`.
   */
  function ParseRevenueStatement(file: Option<FileInfo>, conversion: Conversion,
                                 configured: bool, completion: Completion, parse: string -> ParseOutcome): Report
  {
    match ValidatePdfFile(file)
    case Invalid(m) => Report([5.0], Err(m))
    case Valid =>
      var converting := [5.0, 10.0] + PdfReports(ConversionProgress(conversion));
      match ConversionResult(conversion)
      case Err(m) => Report(converting, Err(m))
      case Ok(_) =>
        var call := Run(configured, completion, parse);
        Report(converting + [40.0] + AiReports(call.progress), call.result)
  }

  /**
   * A rejected file ends the call at once with the gate's error: what the
   * conversion and the model would have done makes no difference.
   */
  lemma ValidationComesFirst(file: Option<FileInfo>,
                             c1: Conversion, configured1: bool, completion1: Completion, parse1: string -> ParseOutcome,
                             c2: Conversion, configured2: bool, completion2: Completion, parse2: string -> ParseOutcome)
    requires ValidatePdfFile(file).Invalid?
    ensures ParseRevenueStatement(file, c1, configured1, completion1, parse1)
         == ParseRevenueStatement(file, c2, configured2, completion2, parse2)
         == Report([5.0], Err(ValidatePdfFile(file).message))
  {
  }

  /** A failed conversion ends the call before the model is asked. */
  lemma ConversionComesBeforeModel(file: Option<FileInfo>, conversion: Conversion,
                                   configured1: bool, completion1: Completion, parse1: string -> ParseOutcome,
                                   configured2: bool, completion2: Completion, parse2: string -> ParseOutcome)
    requires ConversionResult(conversion).Err?
    ensures ParseRevenueStatement(file, conversion, configured1, completion1, parse1)
         == ParseRevenueStatement(file, conversion, configured2, completion2, parse2)
    ensures ParseRevenueStatement(file, conversion, configured1, completion1, parse1).result.Err?
  {
  }

  /**
   * The error the caller sees is the one a stage threw, unchanged: the
   * gate's, the conversion's, or the model call's.
   */
  lemma ErrorsPassThrough(file: Option<FileInfo>, conversion: Conversion,
                          configured: bool, completion: Completion, parse: string -> ParseOutcome, m: string)
    requires ParseRevenueStatement(file, conversion, configured, completion, parse).result == Err(m)
    ensures || ValidatePdfFile(file) == Invalid(m)
            || (ValidatePdfFile(file).Valid? && ConversionResult(conversion) == Err(m))
            || (ValidatePdfFile(file).Valid? && ConversionResult(conversion).Ok?
                && Run(configured, completion, parse).result == Err(m))
  {
  }

  /** Scaling by a stage keeps the stage's reports in order. */
  lemma PdfReportsNonDecreasing(ps: seq<real>)
    requires NonDecreasing(ps)
    ensures NonDecreasing(PdfReports(ps))
  {
    var r := PdfReports(ps);
    forall i, j | 0 <= i <= j < |r| ensures r[i] <= r[j] {
      PdfStageSpec(ps[i], ps[j]);
    }
  }

  /**
   * The overall progress never goes down, starts at 5, and ends at 100
   * exactly when the statement was parsed.
   */
  lemma ProgressNeverDecreases(file: Option<FileInfo>, conversion: Conversion,
                               configured: bool, completion: Completion, parse: string -> ParseOutcome)
    ensures var r := ParseRevenueStatement(file, conversion, configured, completion, parse);
      && |r.progress| > 0 && r.progress[0] == 5.0 && NonDecreasing(r.progress)
      && (r.progress[|r.progress| - 1] == 100.0 <==> r.result.Ok?)
  {
    var r := ParseRevenueStatement(file, conversion, configured, completion, parse);
    if ValidatePdfFile(file).Valid? {
      var ps := ConversionProgress(conversion);
      ConversionSpec(conversion);
      var pdf := PdfReports(ps);
      PdfReportsNonDecreasing(ps);
      forall i | 0 <= i < |pdf| ensures 10.0 <= pdf[i] <= 40.0 {
        PdfStageSpec(ps[i], ps[i]);
      }
      var converting := [5.0, 10.0] + pdf;
      ConcatNonDecreasing([5.0, 10.0], pdf);
      if conversion.Converted? {
        var call := Run(configured, completion, parse);
        ProgressSpec(configured, completion, parse);
        var ai := AiReports(call.progress);
        AiReportsSpec(call.progress);
        ConcatNonDecreasing(converting, [40.0]);
        ConcatNonDecreasing(converting + [40.0], ai);
        assert r.progress == converting + [40.0] + ai;
      } else {
        assert r.progress == converting;
        if |pdf| > 0 {
          assert pdf[|pdf| - 1] != 100.0 by {
            assert ps[|ps| - 1] != 100.0;
            assert ps[|ps| - 1] <= 100.0;
          }
        }
      }
    }
  }

  /** The model call's reports, scaled: 55, 70, 85, 100 in order, stopping early on failure. */
  lemma AiReportsSpec(ps: seq<int>)
    requires 1 <= |ps| <= 4 && ps == [25, 50, 75, 100][..|ps|]
    ensures var r := AiReports(ps);
      && NonDecreasing(r) && r[0] == 55.0
      && (r[|r| - 1] == 100.0 <==> |ps| == 4)
  {
    var r := AiReports(ps);
    forall i | 0 <= i < |r| - 1 ensures r[i] <= r[i + 1] {
      assert ps[i] < ps[i + 1];
    }
    NonDecreasingFromSteps(r);
    assert ps[|ps| - 1] == [25, 50, 75, 100][|ps| - 1];
  }
}
