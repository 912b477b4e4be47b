/**
 * The CDEX-style accounting export (project/src/utils/cdexGenerator.ts):
 * its validation gate, the period-to-date mapping, the ledger of
 * transactions with their identifiers and totals, XML escaping and the
 * serialised document.
 */
module Cdex {
  import opened Options
  import opened Text
  import opened Records

  // Account codes of the ledger.
  const RevenueAccount := "4000"
  const TaxAccount := "2200"
  /** Declared with the others, but no transaction uses it. */
  const DeductionsAccount := "6000"
  const ReceivablesAccount := "1200"

  // ---------------------------------------------------------------------
  // Validation gate
  // ---------------------------------------------------------------------

  datatype ValidationError =
    | CompanyRequired
    | PeriodRequired
    | RevenueRequired
    | LineItemsRequired
    | DescriptionRequired(line: nat)
    | AmountRequired(line: nat)
  {
    function Message(): string {
      match this
      case CompanyRequired => "Company name is required"
      case PeriodRequired => "Reporting period is required"
      case RevenueRequired => "Valid total revenue amount is required"
      case LineItemsRequired => "At least one revenue line item is required"
      case DescriptionRequired(line) => "Line item " + NatToString(line) + ": Description is required"
      case AmountRequired(line) => "Line item " + NatToString(line) + ": Valid amount is required"
    }

    /** Where the error stands in the order validation reports errors (lines count from 1). */
    function Rank(): nat {
      match this
      case CompanyRequired => 0
      case PeriodRequired => 1
      case RevenueRequired => 2
      case LineItemsRequired => 3
      case DescriptionRequired(line) => 2 * line + 2
      case AmountRequired(line) => 2 * line + 3
    }
  }

  /** `!s || s.trim() === ''`: nothing but whitespace (see `BlankIffTrimmedEmpty`). */
  predicate IsBlank(s: string) {
    AllWhitespace(s)
  }

  lemma BlankIffTrimmedEmpty(s: string)
    ensures IsBlank(s) <==> Trim(s) == ""
  {
  }

  /** When validation reports `e` for `data`: the condition each error stands for. */
  predicate Reports(data: ParsedData, e: ValidationError) {
    match e
    case CompanyRequired => IsBlank(data.company)
    case PeriodRequired => IsBlank(data.period)
    case RevenueRequired => data.totalRevenue < 0.0
    case LineItemsRequired => |data.lineItems| == 0
    case DescriptionRequired(l) => 1 <= l <= |data.lineItems| && IsBlank(data.lineItems[l - 1].description)
    case AmountRequired(l) => 1 <= l <= |data.lineItems| && data.lineItems[l - 1].amount < 0.0
  }

  /** The record-level checks, in the order `validateCDEXData` makes them. */
  function HeaderChecks(): seq<ValidationError> {
    [CompanyRequired, PeriodRequired, RevenueRequired, LineItemsRequired]
  }

  /** The checks of lines 1 to n: per line, its description before its amount. */
  function ItemChecks(n: nat): seq<ValidationError> {
    if n == 0 then [] else ItemChecks(n - 1) + [DescriptionRequired(n), AmountRequired(n)]
  }

  /** Every check `validateCDEXData` makes on `data`, in order. */
  function Checks(data: ParsedData): seq<ValidationError> {
    HeaderChecks() + ItemChecks(|data.lineItems|)
  }

  /** The checks among `checks` that fail on `data`, in the order given. */
  function FailedChecks(data: ParsedData, checks: seq<ValidationError>): (r: seq<ValidationError>)
    ensures |r| <= |checks|
    decreases |checks|
  {
    if checks == [] then []
    else
      var last := checks[|checks| - 1];
      FailedChecks(data, checks[..|checks| - 1]) + (if Reports(data, last) then [last] else [])
  }

  /** A check is among the failed ones exactly when it is one of the checks and its condition holds. */
  lemma {:induction false} FailedChecksMembers(data: ParsedData, checks: seq<ValidationError>)
    ensures forall e :: e in FailedChecks(data, checks) <==> e in checks && Reports(data, e)
    decreases |checks|
  {
    if checks != [] {
      var init, last := checks[..|checks| - 1], checks[|checks| - 1];
      FailedChecksMembers(data, init);
      assert checks == init + [last];
    }
  }

  /** The error list `validateCDEXData` builds: the failed checks in check order. */
  function ValidationErrors(data: ParsedData): seq<ValidationError> {
    FailedChecks(data, Checks(data))
  }

  lemma FailedChecksSnoc(data: ParsedData, checks: seq<ValidationError>, e: ValidationError)
    ensures FailedChecks(data, checks + [e])
            == FailedChecks(data, checks) + (if Reports(data, e) then [e] else [])
  {
    assert (checks + [e])[..|checks|] == checks;
  }

  /** `validateCDEXData`: pushes the error of each failed check, one check at a time. */
  method ValidateCDEXData(data: ParsedData) returns (isValid: bool, errors: seq<ValidationError>)
    ensures errors == ValidationErrors(data)
    ensures isValid <==> errors == []
  {
    errors := ValidateHeader(data);
    assert HeaderChecks() + ItemChecks(0) == HeaderChecks();
    var i := 0;
    while i < |data.lineItems|
      invariant 0 <= i <= |data.lineItems|
      invariant errors == FailedChecks(data, HeaderChecks() + ItemChecks(i))
    {
      var item := data.lineItems[i];
      ValidationStep(data, i);
      if IsBlank(item.description) {
        errors := errors + [DescriptionRequired(i + 1)];
      }
      if item.amount < 0.0 {
        errors := errors + [AmountRequired(i + 1)];
      }
      i := i + 1;
    }
    isValid := |errors| == 0;
  }

  /** What the checks of line `i + 1` add to the failed checks before them. */
  lemma ValidationStep(data: ParsedData, i: nat)
    requires i < |data.lineItems|
    ensures FailedChecks(data, HeaderChecks() + ItemChecks(i + 1))
            == FailedChecks(data, HeaderChecks() + ItemChecks(i))
               + (if IsBlank(data.lineItems[i].description) then [DescriptionRequired(i + 1)] else [])
               + (if data.lineItems[i].amount < 0.0 then [AmountRequired(i + 1)] else [])
  {
    var done := HeaderChecks() + ItemChecks(i);
    ChecksStep(i);
    FailedChecksSnoc(data, done, DescriptionRequired(i + 1));
    FailedChecksSnoc(data, done + [DescriptionRequired(i + 1)], AmountRequired(i + 1));
  }

  /** The record-level part of `validateCDEXData`: company, period, revenue, then the line count. */
  method ValidateHeader(data: ParsedData) returns (errors: seq<ValidationError>)
    ensures errors == FailedChecks(data, HeaderChecks())
  {
    var c0, c1, c2 := [CompanyRequired], [CompanyRequired, PeriodRequired], [CompanyRequired, PeriodRequired, RevenueRequired];
    FailedChecksSnoc(data, [], CompanyRequired);
    FailedChecksSnoc(data, c0, PeriodRequired);
    FailedChecksSnoc(data, c1, RevenueRequired);
    FailedChecksSnoc(data, c2, LineItemsRequired);
    errors := [];
    if IsBlank(data.company) {
      errors := errors + [CompanyRequired];
    }
    if IsBlank(data.period) {
      errors := errors + [PeriodRequired];
    }
    if data.totalRevenue < 0.0 {
      errors := errors + [RevenueRequired];
    }
    if |data.lineItems| == 0 {
      errors := errors + [LineItemsRequired];
    }
    assert c2 + [LineItemsRequired] == HeaderChecks();
  }

  lemma ChecksStep(i: nat)
    ensures HeaderChecks() + ItemChecks(i + 1)
            == HeaderChecks() + ItemChecks(i) + [DescriptionRequired(i + 1)] + [AmountRequired(i + 1)]
  {
    assert ItemChecks(i + 1) == ItemChecks(i) + [DescriptionRequired(i + 1), AmountRequired(i + 1)];
  }

  /** The checks of lines 1 to n, position by position. */
  lemma {:induction false} ItemChecksAt(n: nat)
    ensures |ItemChecks(n)| == 2 * n
    ensures forall k :: 0 <= k < 2 * n ==>
      ItemChecks(n)[k] == if k % 2 == 0 then DescriptionRequired(k / 2 + 1) else AmountRequired(k / 2 + 1)
  {
    if n > 0 {
      ItemChecksAt(n - 1);
    }
  }

  /** The k-th check has rank k, and every error whose condition holds is among the checks. */
  lemma ChecksSpec(data: ParsedData)
    ensures |Checks(data)| == 4 + 2 * |data.lineItems|
    ensures forall k :: 0 <= k < |Checks(data)| ==> Checks(data)[k].Rank() == k
    ensures forall e :: Reports(data, e) ==> e in Checks(data)
  {
    var n := |data.lineItems|;
    ItemChecksAt(n);
    var cs := Checks(data);
    assert forall k :: 4 <= k < |cs| ==> cs[k] == ItemChecks(n)[k - 4];
    forall e | Reports(data, e) ensures e in cs {
      match e
      case DescriptionRequired(l) =>
        assert cs[2 * l + 2] == e;
      case AmountRequired(l) =>
        assert cs[2 * l + 3] == e;
      case _ =>
        assert e in HeaderChecks();
    }
  }

  predicate StrictlyRanked(errors: seq<ValidationError>) {
    forall i, j :: 0 <= i < j < |errors| ==> errors[i].Rank() < errors[j].Rank()
  }

  /** Leaving checks out keeps the rest in rank order. */
  lemma {:induction false} FailedChecksRanked(data: ParsedData, checks: seq<ValidationError>)
    requires StrictlyRanked(checks)
    ensures StrictlyRanked(FailedChecks(data, checks))
    decreases |checks|
  {
    if checks != [] {
      var init, last := checks[..|checks| - 1], checks[|checks| - 1];
      FailedChecksRanked(data, init);
      FailedChecksMembers(data, init);
      assert forall e :: e in init ==> e.Rank() < last.Rank();
    }
  }

  /**
   * The error list is exactly the set of failed conditions, in the fixed
   * order company, period, revenue, empty items, then per line its
   * description before its amount; so it holds at most 4 + 2n errors.
   */
  lemma ValidationErrorsSpec(data: ParsedData)
    ensures forall e :: e in ValidationErrors(data) <==> Reports(data, e)
    ensures StrictlyRanked(ValidationErrors(data))
    ensures |ValidationErrors(data)| <= 4 + 2 * |data.lineItems|
  {
    ChecksSpec(data);
    FailedChecksMembers(data, Checks(data));
    FailedChecksRanked(data, Checks(data));
  }

  /** What the export demands of a record. */
  predicate ExportReady(data: ParsedData) {
    && !IsBlank(data.company)
    && !IsBlank(data.period)
    && data.totalRevenue >= 0.0
    && |data.lineItems| > 0
    && forall i :: 0 <= i < |data.lineItems| ==>
         !IsBlank(data.lineItems[i].description) && data.lineItems[i].amount >= 0.0
  }

  /** `isValid` holds exactly when every condition of the gate holds. */
  lemma ValidIffExportReady(data: ParsedData)
    ensures ValidationErrors(data) == [] <==> ExportReady(data)
  {
    ValidationErrorsSpec(data);
    var errs := ValidationErrors(data);
    if errs == [] {
      assert !Reports(data, CompanyRequired) && !Reports(data, PeriodRequired);
      assert !Reports(data, RevenueRequired) && !Reports(data, LineItemsRequired);
      forall i | 0 <= i < |data.lineItems|
        ensures !IsBlank(data.lineItems[i].description) && data.lineItems[i].amount >= 0.0
      {
        assert !Reports(data, DescriptionRequired(i + 1)) && !Reports(data, AmountRequired(i + 1));
      }
    } else {
      assert Reports(data, errs[0]);
    }
  }

  /** The messages of `errors`, in order. */
  function Messages(errors: seq<ValidationError>): (ms: seq<string>)
    ensures |ms| == |errors|
    ensures forall i :: 0 <= i < |errors| ==> ms[i] == errors[i].Message()
  {
    seq(|errors|, i requires 0 <= i < |errors| => errors[i].Message())
  }

  const ExportErrorHeading := "CDEX Export Error:\n"

  /** The message `generateCDEXFile` throws when validation fails. */
  function ExportErrorMessage(errors: seq<ValidationError>): string {
    ExportErrorHeading + Join(Messages(errors), "\n")
  }

  /** The thrown message names every validation error. */
  lemma ExportErrorListsAll(errors: seq<ValidationError>)
    ensures forall e :: e in errors ==> Contains(ExportErrorMessage(errors), e.Message())
  {
    var msg, joined := ExportErrorMessage(errors), Join(Messages(errors), "\n");
    ContainsAt(msg, joined, |ExportErrorHeading|);
    forall e | e in errors ensures Contains(msg, e.Message()) {
      var i :| 0 <= i < |errors| && errors[i] == e;
      JoinContainsPart(Messages(errors), "\n", i);
      ContainsTransitive(msg, joined, e.Message());
    }
  }

  // ---------------------------------------------------------------------
  // Period end date (formatDateForCDEX)
  // ---------------------------------------------------------------------

  datatype MonthDay = MonthDay(month: nat, day: nat)

  function DaysInMonth(month: nat): nat {
    if month == 2 then 28
    else if month == 4 || month == 6 || month == 9 || month == 11 then 30
    else 31
  }

  lemma DecemberNamesDec(period: string)
    ensures Contains(period, "December") ==> Contains(period, "Dec")
  {
    if Contains(period, "December") {
      ContainsAt("December", "Dec", 0);
      ContainsTransitive(period, "December", "Dec");
    }
  }

  /** The month end a period text names; the first rule that applies wins. */
  function PeriodEndOf(period: string): (r: Option<MonthDay>)
    ensures r.Some? ==> r.value.month in {3, 6, 9, 12} && r.value.day == DaysInMonth(r.value.month)
    ensures Contains(period, "Dec") ==> r == Some(MonthDay(12, 31))
    ensures r.None? <==> !Contains(period, "Dec") && !Contains(period, "Q4") && !Contains(period, "Q3")
                         && !Contains(period, "Q2") && !Contains(period, "Q1")
  {
    DecemberNamesDec(period);
    if Contains(period, "December") || Contains(period, "Dec") then Some(MonthDay(12, 31))
    else if Contains(period, "Q4") then Some(MonthDay(12, 31))
    else if Contains(period, "Q3") then Some(MonthDay(9, 30))
    else if Contains(period, "Q2") then Some(MonthDay(6, 30))
    else if Contains(period, "Q1") then Some(MonthDay(3, 31))
    else None
  }

  /** `formatDateForCDEX`: the period end as `YYYY-MM-DD`, else December 31 of the current year. */
  function FormatDateForCDEX(period: string, currentYear: int): string {
    match PeriodEndOf(period)
    case Some(md) => YearText(period, currentYear) + "-" + TwoDigits(md.month) + "-" + TwoDigits(md.day)
    case None => IntToString(currentYear) + "-12-31"
  }

  /** A date `year-mm-dd` splits back into the year and two numbers in two digits each. */
  lemma DashedDateParts(r: string, year: string, month: nat, day: nat)
    requires month < 100 && day < 100 && r == year + "-" + TwoDigits(month) + "-" + TwoDigits(day)
    ensures |r| == |year| + 6 && r[..|year|] == year && r[|year|] == '-' && r[|year| + 3] == '-'
    ensures AllDigits(r[|year| + 1..|year| + 3]) && DigitsValue(r[|year| + 1..|year| + 3]) == month
    ensures AllDigits(r[|year| + 4..]) && DigitsValue(r[|year| + 4..]) == day
  {
    TwoDigitsValue(month);
    TwoDigitsValue(day);
    assert r[|year| + 1..|year| + 3] == TwoDigits(month);
    assert r[|year| + 4..] == TwoDigits(day);
  }

  /**
   * With a period end, the date is the period's year (else the current
   * year), a dash, two digits that read back as the month, a dash and two
   * digits that read back as the day; with none it is December 31 of the
   * current year.
   */
  lemma FormatDateSpec(period: string, currentYear: int)
    ensures var r, year := FormatDateForCDEX(period, currentYear), YearText(period, currentYear);
      PeriodEndOf(period).Some? ==>
        var md := PeriodEndOf(period).value;
        && |r| == |year| + 6 && r[..|year|] == year && r[|year|] == '-' && r[|year| + 3] == '-'
        && AllDigits(r[|year| + 1..|year| + 3]) && DigitsValue(r[|year| + 1..|year| + 3]) == md.month
        && AllDigits(r[|year| + 4..]) && DigitsValue(r[|year| + 4..]) == md.day
    ensures PeriodEndOf(period).None? ==> FormatDateForCDEX(period, currentYear) == IntToString(currentYear) + "-12-31"
  {
    var end := PeriodEndOf(period);
    if end.Some? {
      var r, year := FormatDateForCDEX(period, currentYear), YearText(period, currentYear);
      assert r == year + "-" + TwoDigits(end.value.month) + "-" + TwoDigits(end.value.day);
      DashedDateParts(r, year, end.value.month, end.value.day);
    }
  }

  /** A text without the first character of `sub` does not contain `sub`. */
  lemma AbsentFirstChar(s: string, sub: string)
    requires |sub| > 0 && sub[0] !in s
    ensures !Contains(s, sub)
  {
    ContainsIff(s, sub);
    forall i ensures !OccursAt(s, sub, i) {
      if 0 <= i && i + |sub| <= |s| {
        assert s[i..i + |sub|][0] == s[i];
      }
    }
  }

  /** A text in which `a` is never directly followed by `b` does not contain `ab`. */
  lemma AbsentPair(s: string, a: char, b: char)
    requires forall j :: 0 <= j < |s| - 1 ==> s[j] != a || s[j + 1] != b
    ensures !Contains(s, [a, b])
  {
    ContainsIff(s, [a, b]);
    forall i ensures !OccursAt(s, [a, b], i) {
      if 0 <= i && i + 2 <= |s| {
        assert s[i..i + 2][0] == s[i] && s[i..i + 2][1] == s[i + 1];
      }
    }
  }

  /** After text with no two adjacent digits that ends in a non-digit, the first four digits are the year. */
  lemma YearAfterText(prefix: string, year: string, rest: string, currentYear: int)
    requires prefix != [] && !IsAsciiDigit(prefix[|prefix| - 1])
    requires forall j :: 0 <= j < |prefix| - 1 ==> !IsAsciiDigit(prefix[j]) || !IsAsciiDigit(prefix[j + 1])
    requires |year| == 4 && AllDigits(year)
    ensures YearText(prefix + year + rest, currentYear) == year
  {
    var s := prefix + year + rest;
    assert s[|prefix|..|prefix| + 4] == year;
    assert FourDigitsAt(s, |prefix|);
    forall j | 0 <= j < |prefix| ensures !FourDigitsAt(s, j) {
      if j + 4 <= |s| {
        var w := s[j..j + 4];
        if j == |prefix| - 1 {
          assert w[0] == prefix[j];
        } else {
          assert w[0] == prefix[j] && w[1] == prefix[j + 1];
        }
      }
    }
  }

  /** "December 2021" ends on December 31, 2021, whatever the current year. */
  lemma FormatDateDecember(p: string, currentYear: int)
    requires p == "December 2021"
    ensures FormatDateForCDEX(p, currentYear) == "2021-12-31"
  {
    assert p[0..3] == "Dec";
    ContainsAt(p, "Dec", 0);
    assert PeriodEndOf(p) == Some(MonthDay(12, 31));
    var prefix, year := "December ", "2021";
    assert p == prefix + year + [];
    YearAfterText(prefix, year, [], currentYear);
    var mm, dd := TwoDigits(12), TwoDigits(31);
    assert mm == "12" && dd == "31";
    calc {
      FormatDateForCDEX(p, currentYear);
      YearText(p, currentYear) + "-" + mm + "-" + dd;
      "2021" + "-" + "12" + "-" + "31";
    }
  }

  /** "Q1 2023" names neither December nor another quarter, and names the first. */
  lemma FirstQuarterRule(p: string)
    requires p == "Q1 2023"
    ensures PeriodEndOf(p) == Some(MonthDay(3, 31))
  {
    assert 'D' !in p;
    AbsentFirstChar(p, "December");
    AbsentFirstChar(p, "Dec");
    assert forall j :: 1 <= j < |p| ==> p[j] != 'Q';
    assert p[1] == '1';
    AbsentPair(p, 'Q', '4');
    AbsentPair(p, 'Q', '3');
    AbsentPair(p, 'Q', '2');
    assert p[0..2] == "Q1";
    ContainsAt(p, "Q1", 0);
  }

  /** "Q1 2023" ends on March 31, 2023, whatever the current year. */
  lemma FormatDateFirstQuarter(p: string, currentYear: int)
    requires p == "Q1 2023"
    ensures FormatDateForCDEX(p, currentYear) == "2023-03-31"
  {
    FirstQuarterRule(p);
    var prefix, year := "Q1 ", "2023";
    assert p == prefix + year + [];
    YearAfterText(prefix, year, [], currentYear);
    var mm, dd := TwoDigits(3), TwoDigits(31);
    assert mm == "03" && dd == "31";
    calc {
      FormatDateForCDEX(p, currentYear);
      YearText(p, currentYear) + "-" + mm + "-" + dd;
      "2023" + "-" + "03" + "-" + "31";
    }
  }

  // ---------------------------------------------------------------------
  // Transaction identifiers and document reference
  // ---------------------------------------------------------------------

  /** `generateTransactionId`: `TXN-<timestamp>-<sequence padded to 4 digits>`. */
  function TransactionId(timestamp: int, sequence: nat): string {
    "TXN-" + IntToString(timestamp) + "-" + PadStart(NatToString(sequence), 4, '0')
  }

  /** For one timestamp, distinct sequence numbers give distinct identifiers. */
  lemma TransactionIdInjective(timestamp: int, a: nat, b: nat)
    requires TransactionId(timestamp, a) == TransactionId(timestamp, b)
    ensures a == b
  {
    var prefix := "TXN-" + IntToString(timestamp) + "-";
    var pa, pb := PadStart(NatToString(a), 4, '0'), PadStart(NatToString(b), 4, '0');
    assert TransactionId(timestamp, a) == prefix + pa && TransactionId(timestamp, b) == prefix + pb;
    assert pa == (prefix + pa)[|prefix|..] && pb == (prefix + pb)[|prefix|..];
    PaddedNatInjective(a, b, 4);
  }

  /** A final `.ext`: a dot, then at least one character that is neither `.` nor `/`. */
  predicate IsExtension(e: string) {
    |e| >= 2 && e[0] == '.' && forall i :: 1 <= i < |e| ==> e[i] != '.' && e[i] != '/'
  }

  /** Number of characters at the end of `s` that are neither `.` nor `/`. */
  function TrailingNameChars(s: string): (k: nat)
    ensures k <= |s|
    ensures forall i :: |s| - k <= i < |s| ==> s[i] != '.' && s[i] != '/'
    ensures k < |s| ==> s[|s| - 1 - k] == '.' || s[|s| - 1 - k] == '/'
  {
    if |s| > 0 && s[|s| - 1] != '.' && s[|s| - 1] != '/' then
      var k' := TrailingNameChars(s[..|s| - 1]);
      assert forall i :: |s| - 1 - k' <= i < |s| - 1 ==> s[i] == s[..|s| - 1][i];
      1 + k'
    else 0
  }

  /** An extension starting at `j` is a dot followed only by characters other than `.` and `/`. */
  lemma ExtensionShape(name: string, j: nat)
    requires j <= |name|
    ensures IsExtension(name[j..]) ==>
      && j < |name| - 1 && name[j] == '.'
      && forall i :: j < i < |name| ==> name[i] != '.' && name[i] != '/'
  {
    if IsExtension(name[j..]) {
      var e := name[j..];
      assert forall i :: j < i < |name| ==> name[i] == e[i - j];
      assert name[j] == e[0];
    }
  }

  /** `name.replace(/\.[^/.]+$/, '')`: the name without its final extension, if it has one. */
  function StripExtension(name: string): (r: string)
    ensures |r| <= |name| && name[..|r|] == r
    ensures r != name ==> IsExtension(name[|r|..])
    ensures r == name ==> forall k :: 0 <= k <= |name| ==> !IsExtension(name[k..])
  {
    var k := TrailingNameChars(name);
    if k >= 1 && k < |name| && name[|name| - 1 - k] == '.' then
      var r := name[..|name| - 1 - k];
      assert forall i :: 1 <= i < k + 1 ==> name[|r|..][i] == name[|r| + i];
      r
    else
      assert forall j :: 0 <= j <= |name| ==> !IsExtension(name[j..]) by {
        forall j | 0 <= j <= |name| ensures !IsExtension(name[j..]) {
          ExtensionShape(name, j);
        }
      }
      name
  }

  // ---------------------------------------------------------------------
  // Ledger (convertToCDEXFormat)
  // ---------------------------------------------------------------------

  datatype Transaction = Transaction(
    accountCode: string,
    transactionDate: string,
    debitAmount: real,
    creditAmount: real,
    description: string,
    documentReference: string,
    transactionId: string)

  datatype Header = Header(
    companyName: string,
    reportingPeriod: string,
    generatedDate: string,
    documentType: string,
    version: string)

  datatype Summary = Summary(totalDebits: real, totalCredits: real, transactionCount: nat)

  datatype CdexData = CdexData(header: Header, transactions: seq<Transaction>, summary: Summary)

  function RevenueCredit(item: LineItem, date: string, reference: string, timestamp: int, sequence: nat): Transaction {
    Transaction(RevenueAccount, date, 0.0, item.amount, item.description, reference, TransactionId(timestamp, sequence))
  }

  function ReceivablesDebit(data: ParsedData, date: string, reference: string, timestamp: int, sequence: nat): Transaction {
    Transaction(ReceivablesAccount, date, data.totalRevenue, 0.0,
                "Accounts Receivable - " + data.company + " Revenue", reference, TransactionId(timestamp, sequence))
  }

  function TaxCredit(data: ParsedData, date: string, reference: string, timestamp: int, sequence: nat): Transaction {
    Transaction(TaxAccount, date, 0.0, data.taxes, "Tax Liability", reference, TransactionId(timestamp, sequence))
  }

  /** One revenue credit per line item, numbered from 1 in line-item order (see `CreditsAt`). */
  function Credits(items: seq<LineItem>, date: string, reference: string, timestamp: int): (cs: seq<Transaction>)
    ensures |cs| == |items|
    decreases |items|
  {
    if items == [] then []
    else
      var n := |items|;
      Credits(items[..n - 1], date, reference, timestamp) + [RevenueCredit(items[n - 1], date, reference, timestamp, n)]
  }

  /** The credit at position `i` is line item `i`'s, with sequence number `i + 1`. */
  lemma {:induction false} CreditsAt(items: seq<LineItem>, date: string, reference: string, timestamp: int, i: nat)
    requires i < |items|
    ensures Credits(items, date, reference, timestamp)[i] == RevenueCredit(items[i], date, reference, timestamp, i + 1)
    decreases |items|
  {
    var n := |items|;
    if i < n - 1 {
      CreditsAt(items[..n - 1], date, reference, timestamp, i);
    }
  }

  /** One more line item adds its credit at the end, numbered after the others. */
  lemma CreditsSnoc(items: seq<LineItem>, i: nat, date: string, reference: string, timestamp: int)
    requires i < |items|
    ensures Credits(items[..i + 1], date, reference, timestamp)
            == Credits(items[..i], date, reference, timestamp) + [RevenueCredit(items[i], date, reference, timestamp, i + 1)]
  {
    assert items[..i + 1][..i] == items[..i];
  }

  /** The ledger by position: line-item credits, the receivables debit, then the tax credit when taxes are positive. */
  function Ledger(data: ParsedData, date: string, reference: string, timestamp: int): seq<Transaction> {
    var n := |data.lineItems|;
    Credits(data.lineItems, date, reference, timestamp)
    + [ReceivablesDebit(data, date, reference, timestamp, n + 1)]
    + (if data.taxes > 0.0 then [TaxCredit(data, date, reference, timestamp, n + 2)] else [])
  }

  /** `transactions.reduce((sum, txn) => sum + txn.debitAmount, 0)`. */
  function TotalDebits(txs: seq<Transaction>): real
    decreases |txs|
  {
    if txs == [] then 0.0 else TotalDebits(txs[..|txs| - 1]) + txs[|txs| - 1].debitAmount
  }

  /** `transactions.reduce((sum, txn) => sum + txn.creditAmount, 0)`. */
  function TotalCredits(txs: seq<Transaction>): real
    decreases |txs|
  {
    if txs == [] then 0.0 else TotalCredits(txs[..|txs| - 1]) + txs[|txs| - 1].creditAmount
  }

  /** The document `convertToCDEXFormat` returns; `isoDate` is today's date as the clock gives it. */
  function CdexDocument(data: ParsedData, originalFileName: string, currentYear: int, timestamp: int,
                        isoDate: string): CdexData
  {
    var txs := Ledger(data, FormatDateForCDEX(data.period, currentYear), StripExtension(originalFileName), timestamp);
    CdexData(
      Header(data.company, data.period, isoDate, "Revenue Statement", "1.0"),
      txs,
      Summary(Round2(TotalDebits(txs)), Round2(TotalCredits(txs)), |txs|))
  }

  /**
   * `convertToCDEXFormat`. `timestamp` stands for
   * `new Date(transactionDate).getTime()` and `isoDate` for today's date.
   */
  method ConvertToCDEXFormat(data: ParsedData, originalFileName: string, currentYear: int, timestamp: int,
                             isoDate: string) returns (doc: CdexData)
    ensures doc == CdexDocument(data, originalFileName, currentYear, timestamp, isoDate)
  {
    var transactionDate := FormatDateForCDEX(data.period, currentYear);
    var documentRef := StripExtension(originalFileName);
    var transactions := BuildLedger(data, transactionDate, documentRef, timestamp);
    var totalDebits := TotalDebits(transactions);
    var totalCredits := TotalCredits(transactions);
    doc := CdexData(
      Header(data.company, data.period, isoDate, "Revenue Statement", "1.0"),
      transactions,
      Summary(Round2(totalDebits), Round2(totalCredits), |transactions|));
  }

  /**
   * The pushes of `convertToCDEXFormat`: one credit per line item, then the
   * debit and the optional tax credit, each numbered by the list's length so far.
   */
  method BuildLedger(data: ParsedData, transactionDate: string, documentRef: string, timestamp: int)
    returns (transactions: seq<Transaction>)
    ensures transactions == Ledger(data, transactionDate, documentRef, timestamp)
  {
    var items := data.lineItems;
    transactions := [];
    var i := 0;
    while i < |items|
      invariant 0 <= i <= |items|
      invariant transactions == Credits(items[..i], transactionDate, documentRef, timestamp)
    {
      CreditsSnoc(items, i, transactionDate, documentRef, timestamp);
      transactions := transactions + [RevenueCredit(items[i], transactionDate, documentRef, timestamp, i + 1)];
      i := i + 1;
    }
    assert items[..i] == items;
    transactions := transactions + [ReceivablesDebit(data, transactionDate, documentRef, timestamp, |transactions| + 1)];
    if data.taxes > 0.0 {
      transactions := transactions + [TaxCredit(data, transactionDate, documentRef, timestamp, |transactions| + 1)];
    }
  }

  /** The entry at each position of the ledger, field by field. */
  lemma LedgerEntry(data: ParsedData, date: string, reference: string, timestamp: int, i: nat)
    requires i < |Ledger(data, date, reference, timestamp)|
    ensures var t, n := Ledger(data, date, reference, timestamp)[i], |data.lineItems|;
      && t.transactionDate == date && t.documentReference == reference
      && t.transactionId == TransactionId(timestamp, i + 1)
      && (t.debitAmount == 0.0 || t.creditAmount == 0.0)
      && (i < n ==> t.accountCode == RevenueAccount && t.debitAmount == 0.0
                    && t.creditAmount == data.lineItems[i].amount && t.description == data.lineItems[i].description)
      && (i == n ==> t.accountCode == ReceivablesAccount && t.debitAmount == data.totalRevenue && t.creditAmount == 0.0)
      && (i > n ==> t.accountCode == TaxAccount && t.debitAmount == 0.0 && t.creditAmount == data.taxes)
  {
    var txs, n := Ledger(data, date, reference, timestamp), |data.lineItems|;
    var cs := Credits(data.lineItems, date, reference, timestamp);
    if i < n {
      CreditsAt(data.lineItems, date, reference, timestamp, i);
      assert txs[i] == cs[i];
    } else if i == n {
      assert txs[i] == ReceivablesDebit(data, date, reference, timestamp, i + 1);
    } else {
      assert i + 1 == n + 2;
      assert txs[i] == TaxCredit(data, date, reference, timestamp, i + 1);
    }
  }

  /**
   * The layout of the ledger: n revenue credits in line-item order, the
   * receivables debit of the gross revenue, the tax credit exactly when
   * taxes are positive; one date and one reference throughout, sequence
   * numbers 1 to the length in list order, and never both a debit and a
   * credit on one entry.
   */
  lemma LedgerLayout(data: ParsedData, date: string, reference: string, timestamp: int)
    ensures var txs, n := Ledger(data, date, reference, timestamp), |data.lineItems|;
      && |txs| == n + 1 + (if data.taxes > 0.0 then 1 else 0)
      && (forall i :: 0 <= i < n ==>
            txs[i].accountCode == RevenueAccount && txs[i].debitAmount == 0.0
            && txs[i].creditAmount == data.lineItems[i].amount
            && txs[i].description == data.lineItems[i].description)
      && txs[n].accountCode == ReceivablesAccount && txs[n].debitAmount == data.totalRevenue
      && txs[n].creditAmount == 0.0
      && (data.taxes > 0.0 ==> txs[n + 1].accountCode == TaxAccount && txs[n + 1].debitAmount == 0.0
                               && txs[n + 1].creditAmount == data.taxes)
      && (forall i :: 0 <= i < |txs| ==> txs[i].transactionDate == date && txs[i].documentReference == reference)
      && (forall i :: 0 <= i < |txs| ==> txs[i].transactionId == TransactionId(timestamp, i + 1))
      && (forall i :: 0 <= i < |txs| ==> txs[i].debitAmount == 0.0 || txs[i].creditAmount == 0.0)
  {
    var txs, n := Ledger(data, date, reference, timestamp), |data.lineItems|;
    forall i | 0 <= i < |txs|
      ensures txs[i].transactionDate == date && txs[i].documentReference == reference
      ensures txs[i].transactionId == TransactionId(timestamp, i + 1)
      ensures txs[i].debitAmount == 0.0 || txs[i].creditAmount == 0.0
      ensures i < n ==> txs[i].accountCode == RevenueAccount && txs[i].debitAmount == 0.0
                        && txs[i].creditAmount == data.lineItems[i].amount
                        && txs[i].description == data.lineItems[i].description
    {
      LedgerEntry(data, date, reference, timestamp, i);
    }
    LedgerEntry(data, date, reference, timestamp, n);
    if data.taxes > 0.0 {
      LedgerEntry(data, date, reference, timestamp, n + 1);
    }
  }

  /** Every transaction identifier in one ledger is distinct. */
  lemma LedgerIdsDistinct(data: ParsedData, date: string, reference: string, timestamp: int)
    ensures var txs := Ledger(data, date, reference, timestamp);
      forall i, j :: 0 <= i < j < |txs| ==> txs[i].transactionId != txs[j].transactionId
  {
    var txs := Ledger(data, date, reference, timestamp);
    LedgerLayout(data, date, reference, timestamp);
    forall i, j | 0 <= i < j < |txs| ensures txs[i].transactionId != txs[j].transactionId {
      if txs[i].transactionId == txs[j].transactionId {
        TransactionIdInjective(timestamp, i + 1, j + 1);
      }
    }
  }

  lemma {:induction false} TotalsAppend(a: seq<Transaction>, b: seq<Transaction>)
    ensures TotalDebits(a + b) == TotalDebits(a) + TotalDebits(b)
    ensures TotalCredits(a + b) == TotalCredits(a) + TotalCredits(b)
    decreases |b|
  {
    if b == [] {
      assert a + b == a;
    } else {
      assert (a + b)[..|a + b| - 1] == a + b[..|b| - 1];
      TotalsAppend(a, b[..|b| - 1]);
    }
  }

  /** The revenue credits debit nothing and credit the line items' amounts. */
  lemma {:induction false} CreditsTotals(items: seq<LineItem>, date: string, reference: string, timestamp: int)
    ensures var cs := Credits(items, date, reference, timestamp);
      TotalDebits(cs) == 0.0 && TotalCredits(cs) == SumAmounts(items)
    decreases |items|
  {
    if items != [] {
      var n := |items|;
      var init := items[..n - 1];
      CreditsTotals(init, date, reference, timestamp);
      var cs, ci := Credits(items, date, reference, timestamp), Credits(init, date, reference, timestamp);
      var last := RevenueCredit(items[n - 1], date, reference, timestamp, n);
      assert cs == ci + [last];
      assert cs[..n - 1] == ci;
      assert TotalCredits(cs) == TotalCredits(ci) + last.creditAmount;
      assert TotalDebits(cs) == TotalDebits(ci) + last.debitAmount;
    }
  }

  /** Debits total the gross revenue; credits total the line items plus positive taxes. */
  lemma LedgerTotals(data: ParsedData, date: string, reference: string, timestamp: int)
    ensures var txs := Ledger(data, date, reference, timestamp);
      && TotalDebits(txs) == data.totalRevenue
      && TotalCredits(txs) == SumAmounts(data.lineItems) + (if data.taxes > 0.0 then data.taxes else 0.0)
  {
    var n := |data.lineItems|;
    var cs := Credits(data.lineItems, date, reference, timestamp);
    var rd := [ReceivablesDebit(data, date, reference, timestamp, n + 1)];
    var tx := if data.taxes > 0.0 then [TaxCredit(data, date, reference, timestamp, n + 2)] else [];
    CreditsTotals(data.lineItems, date, reference, timestamp);
    TotalsAppend(cs, rd);
    TotalsAppend(cs + rd, tx);
    assert rd[..0] == [] && (tx == [] || tx[..0] == []);
    assert Ledger(data, date, reference, timestamp) == cs + rd + tx;
  }

  /**
   * The ledger is not a balanced one: when the items add up to the total
   * revenue, debits equal credits exactly when there are no positive taxes,
   * and otherwise the credits exceed the debits by the taxes.
   */
  lemma LedgerBalance(data: ParsedData, date: string, reference: string, timestamp: int)
    requires SumAmounts(data.lineItems) == data.totalRevenue
    ensures var txs := Ledger(data, date, reference, timestamp);
      && (TotalCredits(txs) == TotalDebits(txs) <==> data.taxes <= 0.0)
      && (data.taxes > 0.0 ==> TotalCredits(txs) - TotalDebits(txs) == data.taxes)
  {
    LedgerTotals(data, date, reference, timestamp);
  }

  /** The summary of the document: rounded totals and the number of entries. */
  lemma DocumentSummary(data: ParsedData, originalFileName: string, currentYear: int, timestamp: int, isoDate: string)
    ensures var doc := CdexDocument(data, originalFileName, currentYear, timestamp, isoDate);
      && doc.summary.totalDebits == Round2(data.totalRevenue)
      && doc.summary.totalCredits == Round2(SumAmounts(data.lineItems) + (if data.taxes > 0.0 then data.taxes else 0.0))
      && doc.summary.transactionCount == |data.lineItems| + 1 + (if data.taxes > 0.0 then 1 else 0)
  {
    var date := FormatDateForCDEX(data.period, currentYear);
    LedgerTotals(data, date, StripExtension(originalFileName), timestamp);
    LedgerLayout(data, date, StripExtension(originalFileName), timestamp);
  }

  // ---------------------------------------------------------------------
  // XML escaping
  // ---------------------------------------------------------------------

  /** `s.replace(/c/g, rep)` for a single character `c`. */
  function ReplaceAll(s: string, c: char, rep: string): string {
    if s == [] then [] else (if s[0] == c then rep else [s[0]]) + ReplaceAll(s[1..], c, rep)
  }

  /** `escapeXML`: five global replacements, `&` first. */
  function EscapeXml(s: string): string {
    ReplaceAll(ReplaceAll(ReplaceAll(ReplaceAll(ReplaceAll(s, '&', "&amp;"), '<', "&lt;"), '>', "&gt;"),
               '"', "&quot;"), '\'', "&#39;")
  }

  /** The entity each of the five characters of section 4.6 of XML 1.0 stands for. */
  function EscapeChar(c: char): string {
    if c == '&' then "&amp;"
    else if c == '<' then "&lt;"
    else if c == '>' then "&gt;"
    else if c == '"' then "&quot;"
    else if c == '\'' then "&#39;"
    else [c]
  }

  /** The per-character image of `s` under `f`. */
  function MapChars(f: char -> string, s: string): string {
    if s == [] then [] else f(s[0]) + MapChars(f, s[1..])
  }

  lemma {:induction false} ReplaceAllAppend(a: string, b: string, c: char, rep: string)
    ensures ReplaceAll(a + b, c, rep) == ReplaceAll(a, c, rep) + ReplaceAll(b, c, rep)
    decreases |a|
  {
    if a == [] {
      assert a + b == b;
    } else {
      assert (a + b)[1..] == a[1..] + b;
      ReplaceAllAppend(a[1..], b, c, rep);
    }
  }

  lemma {:induction false} ReplaceAllAbsent(s: string, c: char, rep: string)
    requires c !in s
    ensures ReplaceAll(s, c, rep) == s
    decreases |s|
  {
    if s != [] {
      assert s[0] != c && c !in s[1..];
      ReplaceAllAbsent(s[1..], c, rep);
    }
  }

  lemma ReplaceAllSingle(x: char, c: char, rep: string)
    ensures ReplaceAll([x], c, rep) == if x == c then rep else [x]
  {
    assert [x][1..] == [];
  }

  /** The five replacements split over a concatenation. */
  lemma EscapeXmlAppend(a: string, b: string)
    ensures EscapeXml(a + b) == EscapeXml(a) + EscapeXml(b)
  {
    var a1, b1 := ReplaceAll(a, '&', "&amp;"), ReplaceAll(b, '&', "&amp;");
    ReplaceAllAppend(a, b, '&', "&amp;");
    var a2, b2 := ReplaceAll(a1, '<', "&lt;"), ReplaceAll(b1, '<', "&lt;");
    ReplaceAllAppend(a1, b1, '<', "&lt;");
    var a3, b3 := ReplaceAll(a2, '>', "&gt;"), ReplaceAll(b2, '>', "&gt;");
    ReplaceAllAppend(a2, b2, '>', "&gt;");
    var a4, b4 := ReplaceAll(a3, '"', "&quot;"), ReplaceAll(b3, '"', "&quot;");
    ReplaceAllAppend(a3, b3, '"', "&quot;");
    ReplaceAllAppend(a4, b4, '\'', "&#39;");
  }

  /** The five characters of section 4.6 of XML 1.0 that the export escapes. */
  predicate IsEscaped(c: char) {
    c == '&' || c == '<' || c == '>' || c == '"' || c == '\''
  }

  /** The character the `k`-th replacement of the chain escapes, counting from 0. */
  function StepChar(k: nat): (c: char)
    requires k < 5
    ensures IsEscaped(c)
  {
    if k == 0 then '&' else if k == 1 then '<' else if k == 2 then '>' else if k == 3 then '"' else '\''
  }

  /** The position of a character in the chain; 5 for a character the chain leaves alone. */
  function StepOf(c: char): (k: nat)
    ensures k <= 5 && (k < 5 <==> IsEscaped(c))
    ensures k < 5 ==> StepChar(k) == c
  {
    if c == '&' then 0 else if c == '<' then 1 else if c == '>' then 2 else if c == '"' then 3
    else if c == '\'' then 4 else 5
  }

  /** The first `k` replacements of the chain, `&` first. */
  function EscapeSteps(s: string, k: nat): string
    requires k <= 5
  {
    if k == 0 then s else ReplaceAll(EscapeSteps(s, k - 1), StepChar(k - 1), EscapeChar(StepChar(k - 1)))
  }

  /** The chain of `escapeXML` is the five steps in order. */
  lemma EscapeXmlSteps(s: string)
    ensures EscapeXml(s) == EscapeSteps(s, 5)
  {
    assert EscapeSteps(s, 1) == ReplaceAll(s, '&', "&amp;");
    assert EscapeSteps(s, 2) == ReplaceAll(EscapeSteps(s, 1), '<', "&lt;");
    assert EscapeSteps(s, 3) == ReplaceAll(EscapeSteps(s, 2), '>', "&gt;");
    assert EscapeSteps(s, 4) == ReplaceAll(EscapeSteps(s, 3), '"', "&quot;");
  }

  /** The only escaped character inside an entity is its leading `&`. */
  lemma EntityMarkup(c: char)
    requires IsEscaped(c)
    ensures forall x :: x in EscapeChar(c) && IsEscaped(x) ==> x == '&'
  {
    var e := EscapeChar(c);
    forall i | 0 <= i < |e| && IsEscaped(e[i]) ensures e[i] == '&' {
      if c == '&' {
        assert e == ['&', 'a', 'm', 'p', ';'];
      } else if c == '<' {
        assert e == ['&', 'l', 't', ';'];
      } else if c == '>' {
        assert e == ['&', 'g', 't', ';'];
      } else if c == '"' {
        assert e == ['&', 'q', 'u', 'o', 't', ';'];
      } else {
        assert e == ['&', '#', '3', '9', ';'];
      }
    }
  }

  /**
   * After `k` steps a single character is its entity if its own step has
   * run, and itself otherwise: an entity holds none of the characters of
   * the later steps, so it is never escaped again.
   */
  lemma {:induction false} EscapeStepsChar(c: char, k: nat)
    requires k <= 5
    ensures EscapeSteps([c], k) == if StepOf(c) < k then EscapeChar(c) else [c]
  {
    if k > 0 {
      EscapeStepsChar(c, k - 1);
      var next := StepChar(k - 1);
      if StepOf(c) < k - 1 {
        EntityMarkup(c);
        ReplaceAllAbsent(EscapeChar(c), next, EscapeChar(next));
      } else {
        ReplaceAllSingle(c, next, EscapeChar(next));
      }
    }
  }

  /** On one character the chain yields that character's entity. */
  lemma EscapeXmlChar(c: char)
    ensures EscapeXml([c]) == EscapeChar(c)
  {
    EscapeXmlSteps([c]);
    EscapeStepsChar(c, 5);
  }

  /** Because `&` goes first, no entity is escaped again: the chain escapes each character once. */
  lemma {:induction false} EscapeXmlPerCharacter(s: string)
    ensures EscapeXml(s) == MapChars(EscapeChar, s)
    decreases |s|
  {
    if s == [] {
      assert EscapeXml(s) == [];
    } else {
      assert s == [s[0]] + s[1..];
      EscapeXmlAppend([s[0]], s[1..]);
      EscapeXmlChar(s[0]);
      EscapeXmlPerCharacter(s[1..]);
    }
  }

  /** The character whose entity `t` starts with, if it starts with one of the five. */
  function EntityAt(t: string): (r: Option<char>)
    ensures r.Some? ==> StartsWith(t, EscapeChar(r.value)) && |EscapeChar(r.value)| > 1
  {
    if StartsWith(t, "&amp;") then Some('&')
    else if StartsWith(t, "&lt;") then Some('<')
    else if StartsWith(t, "&gt;") then Some('>')
    else if StartsWith(t, "&quot;") then Some('"')
    else if StartsWith(t, "&#39;") then Some('\'')
    else None
  }

  /** Reads the five entities back into their characters; everything else is kept. */
  function UnescapeXml(t: string): string
    decreases |t|
  {
    if t == [] then []
    else match EntityAt(t)
      case Some(c) => [c] + UnescapeXml(t[|EscapeChar(c)|..])
      case None => [t[0]] + UnescapeXml(t[1..])
  }

  lemma PrefixStartsWith(a: string, b: string)
    ensures StartsWith(a + b, a)
  {
    assert (a + b)[..|a|] == a;
  }

  lemma DifferentAt(t: string, p: string, i: nat)
    requires i < |p| && i < |t| && t[i] != p[i]
    ensures !StartsWith(t, p)
  {
    if |p| <= |t| {
      assert t[..|p|][i] == t[i];
    }
  }

  /** The escape of a character is read back as that character, whatever follows it. */
  lemma EntityAtEscape(c: char, rest: string)
    ensures var t := EscapeChar(c) + rest;
      && t != []
      && (if EscapeChar(c) == [c] then EntityAt(t).None? && t[0] == c && t[1..] == rest
          else EntityAt(t) == Some(c) && t[|EscapeChar(c)|..] == rest)
  {
    var e := EscapeChar(c);
    var t := e + rest;
    PrefixStartsWith(e, rest);
    assert t[|e|..] == rest;
    assert t[0] == e[0];
    if c == '&' {
    } else if c == '<' {
      DifferentAt(t, "&amp;", 1);
    } else if c == '>' {
      DifferentAt(t, "&amp;", 1);
      DifferentAt(t, "&lt;", 1);
    } else if c == '"' {
      DifferentAt(t, "&amp;", 1);
      DifferentAt(t, "&lt;", 1);
      DifferentAt(t, "&gt;", 1);
    } else if c == '\'' {
      DifferentAt(t, "&amp;", 1);
      DifferentAt(t, "&lt;", 1);
      DifferentAt(t, "&gt;", 1);
      DifferentAt(t, "&quot;", 1);
    } else {
      DifferentAt(t, "&amp;", 0);
      DifferentAt(t, "&lt;", 0);
      DifferentAt(t, "&gt;", 0);
      DifferentAt(t, "&quot;", 0);
      DifferentAt(t, "&#39;", 0);
    }
  }

  lemma {:induction false} UnescapeMapChars(s: string)
    ensures UnescapeXml(MapChars(EscapeChar, s)) == s
    decreases |s|
  {
    if s != [] {
      UnescapeMapChars(s[1..]);
      EntityAtEscape(s[0], MapChars(EscapeChar, s[1..]));
    }
  }

  /** Unescaping the five entities gives the original text back. */
  lemma UnescapeEscape(s: string)
    ensures UnescapeXml(EscapeXml(s)) == s
  {
    EscapeXmlPerCharacter(s);
    UnescapeMapChars(s);
  }

  predicate IsMarkupChar(c: char) {
    c == '<' || c == '>' || c == '"' || c == '\''
  }

  lemma {:induction false} MapCharsNoMarkup(s: string)
    ensures forall i :: 0 <= i < |MapChars(EscapeChar, s)| ==> !IsMarkupChar(MapChars(EscapeChar, s)[i])
    decreases |s|
  {
    if s != [] {
      MapCharsNoMarkup(s[1..]);
      var e, rest := EscapeChar(s[0]), MapChars(EscapeChar, s[1..]);
      assert forall i :: 0 <= i < |e| ==> !IsMarkupChar(e[i]);
      assert forall i :: |e| <= i < |e + rest| ==> (e + rest)[i] == rest[i - |e|];
    }
  }

  /** The escaped text holds no raw `<`, `>`, `"` or `'`. */
  lemma EscapeNoMarkup(s: string)
    ensures forall i :: 0 <= i < |EscapeXml(s)| ==> !IsMarkupChar(EscapeXml(s)[i])
  {
    EscapeXmlPerCharacter(s);
    MapCharsNoMarkup(s);
  }

  lemma {:induction false} MapCharsPlain(s: string)
    requires forall i :: 0 <= i < |s| ==> s[i] != '&' && !IsMarkupChar(s[i])
    ensures MapChars(EscapeChar, s) == s
    decreases |s|
  {
    if s != [] {
      MapCharsPlain(s[1..]);
    }
  }

  /** Text without any of the five characters is left as it is. */
  lemma EscapePlainText(s: string)
    requires forall i :: 0 <= i < |s| ==> s[i] != '&' && !IsMarkupChar(s[i])
    ensures EscapeXml(s) == s
  {
    EscapeXmlPerCharacter(s);
    MapCharsPlain(s);
  }

  // ---------------------------------------------------------------------
  // XML document (generateCDEXXML)
  // ---------------------------------------------------------------------

  const XmlProlog := "<?xml version=\"1.0\" encoding=\"UTF-8\"?>\n"
  const XmlOpen := "<cdex:AccountingDocument xmlns:cdex=\"http://cdex.org/schema/v1.0\" version=\"1.0\">\n"

  /** Two spaces of indentation per nesting level. */
  function Indent(depth: nat): string {
    Repeat(' ', 2 * depth)
  }

  /** A line `<cdex:tag>text</cdex:tag>` at the given depth. */
  function Element(depth: nat, tag: string, text: string): string {
    Indent(depth) + "<cdex:" + tag + ">" + text + "</cdex:" + tag + ">\n"
  }

  function OpenTag(depth: nat, tag: string): string {
    Indent(depth) + "<cdex:" + tag + ">\n"
  }

  function CloseTag(depth: nat, tag: string): string {
    Indent(depth) + "</cdex:" + tag + ">\n"
  }

  /** The `<cdex:Header>` section; free text is escaped, the date and version are not. */
  function HeaderXml(h: Header): string {
    OpenTag(1, "Header")
    + Element(2, "CompanyName", EscapeXml(h.companyName))
    + Element(2, "ReportingPeriod", EscapeXml(h.reportingPeriod))
    + Element(2, "GeneratedDate", h.generatedDate)
    + Element(2, "DocumentType", EscapeXml(h.documentType))
    + Element(2, "Version", h.version)
    + CloseTag(1, "Header")
  }

  /** Element lines for a list of (tag, text) pairs, in order. */
  function Elements(depth: nat, fields: seq<(string, string)>): string {
    if fields == [] then "" else Element(depth, fields[0].0, fields[0].1) + Elements(depth, fields[1..])
  }

  /** The fields of a transaction as its block lists them; `fixed2` stands for `toFixed(2)`. */
  function TransactionFields(t: Transaction, fixed2: real -> string): seq<(string, string)> {
    [ ("TransactionId", t.transactionId),
      ("AccountCode", t.accountCode),
      ("TransactionDate", t.transactionDate),
      ("DebitAmount", fixed2(t.debitAmount)),
      ("CreditAmount", fixed2(t.creditAmount)),
      ("Description", EscapeXml(t.description)),
      ("DocumentReference", EscapeXml(t.documentReference)) ]
  }

  /** One `<cdex:Transaction>` block. */
  function TransactionXml(t: Transaction, fixed2: real -> string): string {
    OpenTag(2, "Transaction") + Elements(3, TransactionFields(t, fixed2)) + CloseTag(2, "Transaction")
  }

  /** The transaction blocks, one per entry, in ledger order. */
  function TransactionsXml(txs: seq<Transaction>, fixed2: real -> string): string
    decreases |txs|
  {
    if txs == [] then "" else TransactionsXml(txs[..|txs| - 1], fixed2) + TransactionXml(txs[|txs| - 1], fixed2)
  }

  function SummaryXml(s: Summary, fixed2: real -> string): string {
    OpenTag(1, "Summary")
    + Element(2, "TotalDebits", fixed2(s.totalDebits))
    + Element(2, "TotalCredits", fixed2(s.totalCredits))
    + Element(2, "TransactionCount", NatToString(s.transactionCount))
    + CloseTag(1, "Summary")
  }

  /** The whole XML text of a document. */
  function CdexXml(doc: CdexData, fixed2: real -> string): string {
    XmlProlog + XmlOpen + HeaderXml(doc.header)
    + OpenTag(1, "Transactions") + TransactionsXml(doc.transactions, fixed2) + CloseTag(1, "Transactions")
    + SummaryXml(doc.summary, fixed2)
    + "</cdex:AccountingDocument>\n"
  }

  /** `generateCDEXXML`: appends the document piece by piece, one transaction block per entry. */
  method GenerateCDEXXML(doc: CdexData, fixed2: real -> string) returns (xml: string)
    ensures xml == CdexXml(doc, fixed2)
  {
    xml := XmlProlog;
    xml := xml + XmlOpen;
    xml := xml + HeaderXml(doc.header);
    xml := xml + OpenTag(1, "Transactions");
    xml := AppendTransactions(xml, doc.transactions, fixed2);
    xml := xml + CloseTag(1, "Transactions");
    xml := xml + SummaryXml(doc.summary, fixed2);
    xml := xml + "</cdex:AccountingDocument>\n";
  }

  /** Appending the next entry's block extends the transactions text by one entry. */
  lemma TransactionsXmlSnoc(prefix: string, txs: seq<Transaction>, i: nat, fixed2: real -> string)
    requires i < |txs|
    ensures prefix + TransactionsXml(txs[..i + 1], fixed2)
            == prefix + TransactionsXml(txs[..i], fixed2) + TransactionXml(txs[i], fixed2)
  {
    var done, block := TransactionsXml(txs[..i], fixed2), TransactionXml(txs[i], fixed2);
    assert txs[..i + 1][..i] == txs[..i];
    assert TransactionsXml(txs[..i + 1], fixed2) == done + block;
    assert prefix + done + block == prefix + (done + block);
  }

  /** The `forEach` of `generateCDEXXML`: one `<cdex:Transaction>` block appended per entry, in order. */
  method AppendTransactions(prefix: string, txs: seq<Transaction>, fixed2: real -> string) returns (xml: string)
    ensures xml == prefix + TransactionsXml(txs, fixed2)
  {
    xml := prefix;
    var i := 0;
    while i < |txs|
      invariant 0 <= i <= |txs|
      invariant xml == prefix + TransactionsXml(txs[..i], fixed2)
    {
      TransactionsXmlSnoc(prefix, txs, i, fixed2);
      xml := xml + TransactionXml(txs[i], fixed2);
      i := i + 1;
    }
    assert txs[..i] == txs;
  }

  /** `cleanFileName + '_cdex_' + date + '.xml'`. */
  function CdexFileName(originalFileName: string, isoDate: string): string {
    StripExtension(originalFileName) + "_cdex_" + isoDate + ".xml"
  }

  datatype ExportFile = ExportFile(content: string, fileName: string)

  /** The export file of a record that passed validation. */
  function CdexFile(data: ParsedData, originalFileName: string, currentYear: int, timestamp: int,
                    isoDate: string, fixed2: real -> string): ExportFile
  {
    ExportFile(CdexXml(CdexDocument(data, originalFileName, currentYear, timestamp, isoDate), fixed2),
               CdexFileName(originalFileName, isoDate))
  }

  /**
   * `generateCDEXFile` up to the download: validation first; on failure
   * the thrown message lists every error and nothing is built.
   */
  method GenerateCDEXFile(data: ParsedData, originalFileName: string, currentYear: int, timestamp: int,
                          isoDate: string, fixed2: real -> string) returns (r: Result<ExportFile, string>)
    ensures r.Err? <==> !ExportReady(data)
    ensures r.Err? ==> r.error == ExportErrorMessage(ValidationErrors(data))
    ensures r.Ok? ==> r.value == CdexFile(data, originalFileName, currentYear, timestamp, isoDate, fixed2)
  {
    var isValid, errors := ValidateCDEXData(data);
    ValidIffExportReady(data);
    if !isValid {
      r := Err(ExportErrorMessage(errors));
    } else {
      var file := BuildCdexFile(data, originalFileName, currentYear, timestamp, isoDate, fixed2);
      r := Ok(file);
    }
  }

  /** The body of the `try` in `generateCDEXFile`: the document, its XML text and the file name. */
  method BuildCdexFile(data: ParsedData, originalFileName: string, currentYear: int, timestamp: int,
                       isoDate: string, fixed2: real -> string) returns (file: ExportFile)
    ensures file == CdexFile(data, originalFileName, currentYear, timestamp, isoDate, fixed2)
  {
    var cdexData := ConvertToCDEXFormat(data, originalFileName, currentYear, timestamp, isoDate);
    var xmlContent := GenerateCDEXXML(cdexData, fixed2);
    file := ExportFile(xmlContent, CdexFileName(originalFileName, isoDate));
  }
}
