/**
 * The PDF side of the pipeline: the gate every upload passes before any
 * conversion, and the progress the page-by-page conversion reports. The
 * rendering itself (pdf.js, the canvas, the PNG encoding) is I/O; a
 * conversion is described by how many pages the document has and whether,
 * and after how many progress reports, it failed.
 */
module PdfService {
  import opened Options

  // ---------------------------------------------------------------------
  // The upload gate
  // ---------------------------------------------------------------------

  /** What the gate reads of a browser `File`: its MIME type and its size in bytes. */
  datatype FileInfo = FileInfo(mimeType: string, size: nat)

  /** The gate lets the file through, or throws an error with this message. */
  datatype Validation = Valid | Invalid(message: string)

  const PdfMimeType := "application/pdf"
  /** 20 MB, the largest upload accepted. */
  const MaxSize: nat := 20 * 1024 * 1024
  const NoFileMessage := "No file provided"
  const NotPdfMessage := "File must be a PDF"
  const TooLargeMessage := "PDF file is too large. Maximum size is 20MB."

  /** `validatePDFFile`: a missing file, then the type, then the size. */
  function ValidatePdfFile(file: Option<FileInfo>): (v: Validation)
    ensures v.Valid? <==> file.Some? && file.value.mimeType == "application/pdf" && file.value.size <= 20971520
  {
    if file.None? then Invalid(NoFileMessage)
    else if file.value.mimeType != PdfMimeType then Invalid(NotPdfMessage)
    else if file.value.size > MaxSize then Invalid(TooLargeMessage)
    else Valid
  }

  /**
   * Which error a rejected file gets: no file, then any type other than
   * exactly "application/pdf" (so an oversized non-PDF is reported as not
   * a PDF), then a size above 20971520 bytes.
   */
  lemma ValidationMessages(file: Option<FileInfo>)
    ensures file.None? ==> ValidatePdfFile(file) == Invalid("No file provided")
    ensures file.Some? && file.value.mimeType != "application/pdf"
            ==> ValidatePdfFile(file) == Invalid("File must be a PDF")
    ensures file.Some? && file.value.mimeType == "application/pdf" && file.value.size > 20971520
            ==> ValidatePdfFile(file) == Invalid("PDF file is too large. Maximum size is 20MB.")
    ensures ValidatePdfFile(file).Invalid? ==> ValidatePdfFile(file).message in {NoFileMessage, NotPdfMessage, TooLargeMessage}
  {
  }

  // ---------------------------------------------------------------------
  // Conversion progress
  // ---------------------------------------------------------------------

  /** Every value reported is at most every later one. */
  predicate NonDecreasing(s: seq<real>) {
    forall i, j :: 0 <= i <= j < |s| ==> s[i] <= s[j]
  }

  /** Each value at most the next one makes the whole sequence non-decreasing. */
  lemma NonDecreasingFromSteps(s: seq<real>)
    requires forall i :: 0 <= i < |s| - 1 ==> s[i] <= s[i + 1]
    ensures NonDecreasing(s)
  {
    forall i, j | 0 <= i <= j < |s| ensures s[i] <= s[j] {
      StepsChain(s, i, j);
    }
  }

  lemma {:induction false} StepsChain(s: seq<real>, i: nat, j: nat)
    requires forall k :: 0 <= k < |s| - 1 ==> s[k] <= s[k + 1]
    requires i <= j < |s|
    ensures s[i] <= s[j]
    decreases j - i
  {
    if i < j {
      StepsChain(s, i, j - 1);
    }
  }

  /** Two non-decreasing runs joined where the first ends at most where the second starts. */
  lemma ConcatNonDecreasing(a: seq<real>, b: seq<real>)
    requires NonDecreasing(a) && NonDecreasing(b)
    requires |a| > 0 && |b| > 0 ==> a[|a| - 1] <= b[0]
    ensures NonDecreasing(a + b)
  {
    var s := a + b;
    forall i, j | 0 <= i <= j < |s| ensures s[i] <= s[j] {
      if i < |a| && |a| <= j {
        assert s[i] <= a[|a| - 1] && b[0] <= s[j];
      }
    }
  }

  /** The progress after page `pageNum` of `numPages`: 30 + (pageNum / numPages) * 60. */
  function PageProgress(pageNum: nat, numPages: nat): (p: real)
    requires 1 <= pageNum <= numPages
    ensures 30.0 < p <= 90.0
    ensures p == 90.0 <==> pageNum == numPages
  {
    var fraction := pageNum as real / numPages as real;
    FractionBounds(pageNum, numPages);
    30.0 + fraction * 60.0
  }

  lemma FractionBounds(k: nat, n: nat)
    requires 1 <= k <= n
    ensures 0.0 < k as real / n as real <= 1.0
    ensures k as real / n as real == 1.0 <==> k == n
  {
    var q := k as real / n as real;
    assert q * n as real == k as real;
  }

  /** Each rendered page reports more than the one before. */
  lemma PageProgressIncreasing(j: nat, k: nat, n: nat)
    requires 1 <= j < k <= n
    ensures PageProgress(j, n) < PageProgress(k, n)
  {
    var qj, qk := j as real / n as real, k as real / n as real;
    assert qj * n as real == j as real && qk * n as real == k as real;
    assert (qk - qj) * n as real == (k - j) as real;
  }

  /** The per-page values of a document with `numPages` pages. */
  function PageProgresses(numPages: nat): (p: seq<real>)
    ensures |p| == numPages
  {
    seq(numPages, i requires 0 <= i < numPages => PageProgress(i + 1, numPages))
  }

  /** Every callback of a conversion that renders all pages: 10, 20, 30, one per page, then 100. */
  function ConvertProgress(numPages: nat): (p: seq<real>)
    ensures |p| == numPages + 4
  {
    [10.0, 20.0, 30.0] + PageProgresses(numPages) + [100.0]
  }

  /**
   * The conversion's reports never decrease, start at 10, end at 100 and
   * reach 90 with the last page; 100 comes only at the very end.
   */
  lemma ConvertProgressSpec(numPages: nat)
    ensures var p := ConvertProgress(numPages);
      && NonDecreasing(p) && p[0] == 10.0 && p[|p| - 1] == 100.0
      && (numPages > 0 ==> p[|p| - 2] == 90.0)
      && forall i :: 0 <= i < |p| - 1 ==> p[i] < 100.0
  {
    var p := ConvertProgress(numPages);
    var pages := PageProgresses(numPages);
    assert p[3..3 + numPages] == pages;
    forall i | 0 <= i < |p| - 1 ensures p[i] <= p[i + 1] && p[i] < 100.0 {
      if 3 <= i < 2 + numPages {
        PageProgressIncreasing(i - 2, i - 1, numPages);
      } else if numPages > 0 && i == 2 + numPages {
        assert p[i] == pages[numPages - 1];
      } else if i == 2 && numPages > 0 {
        assert p[3] == pages[0];
      }
    }
    NonDecreasingFromSteps(p);
  }

  /**
   * How a conversion went: every page of the document rendered, or pdf.js
   * or the canvas failed after the first `reported` progress callbacks.
   */
  datatype Conversion = Converted(numPages: nat) | FailedAfter(numPages: nat, reported: nat, error: Thrown)

  const ConversionFailurePrefix := "Failed to convert PDF to images: "

  /** The progress values `convertPDFPagesToImages` reports; a failure stops before the final 100. */
  function ConversionProgress(c: Conversion): seq<real> {
    match c
    case Converted(n) => ConvertProgress(n)
    case FailedAfter(n, k, _) => ConvertProgress(n)[..if k < n + 3 then k else n + 3]
  }

  /** The number of page images returned, or the message of the error rethrown by the `catch`. */
  function ConversionResult(c: Conversion): Result<nat, string> {
    match c
    case Converted(n) => Ok(n)
    case FailedAfter(_, _, e) => Err(ConversionFailurePrefix + e.MessageOrUnknown())
  }

  /**
   * Whatever happens, the reports never decrease and stay within 10 to
   * 100; 100 is reported exactly when the conversion succeeds, and a
   * failure is rethrown behind "Failed to convert PDF to images: ".
   */
  lemma ConversionSpec(c: Conversion)
    ensures var p := ConversionProgress(c);
      && NonDecreasing(p)
      && (forall i :: 0 <= i < |p| ==> 10.0 <= p[i] <= 100.0)
      && (100.0 in p <==> ConversionResult(c).Ok?)
    ensures ConversionResult(c).Err? ==> ConversionResult(c).error == "Failed to convert PDF to images: " + c.error.MessageOrUnknown()
  {
    var full := ConvertProgress(c.numPages);
    ConvertProgressSpec(c.numPages);
    var p := ConversionProgress(c);
    assert p <= full;
    forall i | 0 <= i < |p| ensures 10.0 <= p[i] <= 100.0 {
      assert full[0] <= full[i] <= full[|full| - 1];
    }
    if c.Converted? {
      assert p[|p| - 1] == 100.0;
    } else {
      forall i | 0 <= i < |p| ensures p[i] != 100.0 {
        assert full[i] < 100.0;
      }
    }
  }
}
