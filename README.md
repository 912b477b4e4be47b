# energylinkparser, modelled in Dafny

energylinkparser reads oil and gas revenue statements uploaded as PDF files.
It runs in the browser. It checks the upload and renders each page to an
image. It asks an OpenAI vision model to extract the statement as JSON, then
patches that JSON towards a revenue record: company, period, total revenue,
line items, taxes and net revenue. The patch defaults missing numbers but
does not make every field of the declared type. From the record it builds
two exports:

- a three-sheet Excel workbook, whose "Oil & Gas Production" sheet parses
  each line item's description into a property name, number, product type
  and owner interest;
- a CDEX accounting document: a ledger of revenue credits, a receivables
  debit and a tax credit, written as XML. Its credits minus its debits are
  the item amounts, minus the total revenue, plus any positive taxes; so
  when the items add up to the total revenue and taxes are positive, the
  credits exceed the debits by the taxes.

The project models these pieces, one module per source file:

| module | file | models |
|---|---|---|
| `Options`, `Json`, `Records`, `Text` | shared | option/result types, thrown values, parsed JSON, the typed record, and the JavaScript string built-ins used (`trim`, `includes`, `padStart`, `join`, the first four-digit run) |
| `PdfService` | `project/src/services/pdfService.ts` | the upload gate `validatePDFFile` and the progress values reported by `convertPDFPagesToImages` |
| `OpenAIService` | `project/src/services/openaiService.ts` | `parseRevenueStatementWithAI`: fence stripping, the structure check, the in-place repair of the parsed object (a class), the translation of errors into user messages, and the progress checkpoints |
| `AiParser` | `project/src/utils/aiParser.ts` | `parseRevenueStatement`: validation, conversion, then the model call, with each stage's progress rescaled |
| `PropertyInfo` | `project/src/utils/excelGenerator.ts` | `parsePropertyInfoWithTrainingData`: the info record (a class), the well name, the property number and its 32-bit hash fallback, the product profile, the owner interest and the property name |
| `Excel` | `project/src/utils/excelGenerator.ts` | `createProductionSheet`, `formatProductionDate`, the row matrices of `generateExcelFile` and its file name |
| `Cdex` | `project/src/utils/cdexGenerator.ts` | validation, `formatDateForCDEX`, transaction ids, the ledger built by `convertToCDEXFormat`, XML escaping and `generateCDEXXML`, and the gate in `generateCDEXFile` |

Imperative code stays imperative:

- loops that push errors, transactions or XML text are methods with loop
  invariants, proved equal to a specification function;
- objects mutated field by field (the parsed JSON object, the `info`
  record) are classes.

Rules that depend on outside input take that input as a parameter:

- The clock is a parameter (current year, local date string, timestamp).
- So is `Math.random()` (a draw in [0, 1)).
- So are `JSON.parse` (a function from text to a parse outcome), the model's
  answer (a `Completion`) and the PDF renderer (a `Conversion`: page count,
  and where it failed, if it did).
- The regular-expression lists of the property parser are ordered lists of
  abstract matchers.

Amounts are real numbers. `Math.round(x * 100) / 100` is written out as
`Round2`. The 32-bit arithmetic of the description hash is written out as
`Wrap32`.

## Model

| member | source | states |
|---|---|---|
| Records.Abs | project/src/utils/excelGenerator.ts:155 | `Math.abs` is non-negative and equals x or -x |
| Records.Round2 | project/src/utils/cdexGenerator.ts:180-181 | `Math.round(x*100)/100` lies within half a cent of x (rounding half up) and is a whole number of cents |
| Text.Trim | project/src/utils/cdexGenerator.ts:52 | `trim()` never lengthens the string; the result has no whitespace at either end; it is empty exactly when the input is all whitespace; an already trimmed string is unchanged |
| Text.IndexOfFrom | project/src/utils/excelGenerator.ts:358 | the search behind `includes` finds the first occurrence at or after `from`, or reports that there is none |
| Text.ContainsIff | project/src/utils/excelGenerator.ts:358 | `includes(sub)` holds exactly when `sub` occurs at some position |
| Text.FourDigitRunFrom | project/src/utils/excelGenerator.ts:359 | `/\d{4}/` finds the leftmost run of four ASCII digits, or proves there is none |
| Text.YearText | project/src/utils/excelGenerator.ts:359 | the year is four digits taken from the period, or the current year's text when the period holds no four-digit run |
| Text.NatToStringRoundTrip | project/src/utils/excelGenerator.ts:302 | `toString()` of a natural number reads back as the same number |
| Text.NatToStringInjective | project/src/utils/excelGenerator.ts:302 | different numbers have different decimal strings |
| Text.PadStart | project/src/utils/cdexGenerator.ts:86 | `padStart(width, c)` keeps the string as its suffix, fills the front with `c`, and reaches `width` unless already longer |
| Text.PaddedNatValue | project/src/utils/cdexGenerator.ts:86 | a zero-padded number is all digits and reads back as the number |
| Text.NatToStringWidth | project/src/utils/excelGenerator.ts:302 | a number below 10^k has at most k digits, and exactly k when it is at least 10^(k-1) |
| Text.TwoDigitsValue | project/src/utils/excelGenerator.ts:391 | below 100, `String(n).padStart(2, '0')` is two digits that read back as n |
| Text.PaddedNatInjective | project/src/utils/cdexGenerator.ts:86 | zero-padding to the same width keeps different numbers apart |
| Text.JoinContainsPart | project/src/utils/cdexGenerator.ts:191 | `join(sep)` contains every part |
| Cdex.BlankIffTrimmedEmpty | project/src/utils/cdexGenerator.ts:52 | a field counts as missing exactly when it trims to the empty string |
| Cdex.FailedChecks | project/src/utils/cdexGenerator.ts:49-82 | its ensures bound the failed checks by the checks given; its other properties are in `Cdex.FailedChecksMembers` |
| Cdex.ValidationErrors | project/src/utils/cdexGenerator.ts:49-82 | defined by its body; its properties are in `Cdex.ValidationErrorsSpec`, `Cdex.ValidIffExportReady` and `Cdex.ValidateCDEXData` |
| Cdex.ValidateCDEXData | project/src/utils/cdexGenerator.ts:49-82 | the method's error list is the specified one (header checks, then a description and an amount check per item, in order), and `isValid` holds exactly when it is empty |
| Cdex.ValidationStep | project/src/utils/cdexGenerator.ts:69-76 | one loop turn appends exactly the item's failed description check, then its failed amount check, numbered index + 1 |
| Cdex.ValidateHeader | project/src/utils/cdexGenerator.ts:52-66 | the four record checks report a blank company, a blank period, a negative total revenue and an empty item list, in that order |
| Cdex.ItemChecksAt | project/src/utils/cdexGenerator.ts:69-76 | item k is checked at positions 2k and 2k+1, description before amount |
| Cdex.FailedChecksMembers | project/src/utils/cdexGenerator.ts:49-82 | an error is reported exactly when its check is in the list and fails |
| Cdex.ValidationErrorsSpec | project/src/utils/cdexGenerator.ts:49-82 | an error appears exactly when its condition holds on the record; errors come in source order without repeats; there are at most 4 + 2n |
| Cdex.ValidIffExportReady | project/src/utils/cdexGenerator.ts:78-81 | the record is valid exactly when company and period are non-blank, total revenue is non-negative, there is at least one item, and every item has a non-blank description and a non-negative amount |
| Cdex.ExportErrorListsAll | project/src/utils/cdexGenerator.ts:191 | the export error text contains the message of every validation error |
| Cdex.FormatDateForCDEX | project/src/utils/cdexGenerator.ts:89-121 | defined by its body; its properties are in `Cdex.FormatDateSpec`, `Cdex.FormatDateDecember` and `Cdex.FormatDateFirstQuarter` |
| Cdex.PeriodEndOf | project/src/utils/cdexGenerator.ts:94-120 | the period end is the last day of month 3, 6, 9 or 12; "Dec" (covering "December") wins and gives 12-31; there is no match exactly when none of "Dec", "Q4", "Q3", "Q2", "Q1" occurs |
| Cdex.YearAfterText | project/src/utils/cdexGenerator.ts:95 | a four-digit year after text holding no two adjacent digits is the year the period's match picks |
| Cdex.FormatDateDecember | project/src/utils/cdexGenerator.ts:94-97 | "December 2021" becomes "2021-12-31" |
| Cdex.FormatDateFirstQuarter | project/src/utils/cdexGenerator.ts:114-117 | "Q1 2023" becomes "2023-03-31" |
| Cdex.DashedDateParts | project/src/utils/cdexGenerator.ts:96 | a `year-MM-DD` text splits back into the year and two two-digit numbers |
| Cdex.FormatDateSpec | project/src/utils/cdexGenerator.ts:89-121 | for every period: with a period end, the date is the period's year (else the current year), a dash, two digits reading back as the month, a dash, two digits reading back as the day; with none it is `<current year>-12-31` |
| Cdex.TransactionId | project/src/utils/cdexGenerator.ts:84-87 | defined by its body; its properties are in `Cdex.TransactionIdInjective` |
| Cdex.TransactionIdInjective | project/src/utils/cdexGenerator.ts:84-87 | for a fixed timestamp, different indices give different transaction ids |
| Cdex.StripExtension | project/src/utils/cdexGenerator.ts:125 | `/\.[^/.]+$/` removal yields a prefix of the name; a removed suffix is a dot followed by at least one character that is neither '.' nor '/'; an unchanged name has no such suffix |
| Cdex.CreditsAt | project/src/utils/cdexGenerator.ts:130-140 | the i-th revenue credit carries item i's amount and description with id index i + 1 |
| Cdex.CdexDocument | project/src/utils/cdexGenerator.ts:123-185 | defined by its body; its properties are in `Cdex.DocumentSummary` and `Cdex.ConvertToCDEXFormat` |
| Cdex.ConvertToCDEXFormat | project/src/utils/cdexGenerator.ts:123-185 | the imperative conversion builds exactly the specified CDEX document |
| Cdex.Ledger | project/src/utils/cdexGenerator.ts:127-164 | defined by its body; its properties are in `Cdex.LedgerLayout`, `Cdex.LedgerEntry`, `Cdex.LedgerIdsDistinct`, `Cdex.LedgerTotals`, `Cdex.LedgerBalance` and `Cdex.BuildLedger` |
| Cdex.BuildLedger | project/src/utils/cdexGenerator.ts:127-164 | the push sequence yields exactly the specified ledger |
| Cdex.LedgerEntry | project/src/utils/cdexGenerator.ts:130-164 | each transaction carries the date, the reference and the id of its 1-based position, never both a debit and a credit, and the account and amounts of its kind |
| Cdex.LedgerLayout | project/src/utils/cdexGenerator.ts:127-164 | the ledger has n revenue credits in item order, one receivables debit of the total revenue, and a tax credit exactly when taxes are positive |
| Cdex.LedgerIdsDistinct | project/src/utils/cdexGenerator.ts:138-162 | no two transactions share an id |
| Cdex.LedgerTotals | project/src/utils/cdexGenerator.ts:166-168 | total debits equal the total revenue; total credits equal the item amounts plus any positive taxes |
| Cdex.LedgerBalance | project/src/utils/cdexGenerator.ts:127-168 | when the items add up to the total revenue, debits equal credits exactly when taxes are not positive; otherwise credits exceed debits by the taxes |
| Cdex.DocumentSummary | project/src/utils/cdexGenerator.ts:179-183 | the summary holds the rounded debit and credit totals and the count n + 1 (+ 1 with taxes) |
| Cdex.EscapeXml | project/src/utils/cdexGenerator.ts:223-230 | defined by its body; its properties are in `Cdex.EscapeXmlPerCharacter`, `Cdex.UnescapeEscape`, `Cdex.EscapeNoMarkup` and `Cdex.EscapePlainText` |
| Cdex.EscapeXmlAppend | project/src/utils/cdexGenerator.ts:223-230 | escaping distributes over concatenation |
| Cdex.EscapeXmlPerCharacter | project/src/utils/cdexGenerator.ts:223-230 | the five chained replacements escape each character on its own, '&' first so no entity is escaped twice |
| Cdex.UnescapeEscape | project/src/utils/cdexGenerator.ts:223-230 | unescaping the escaped text gives the original back, so escaping loses nothing |
| Cdex.EscapeNoMarkup | project/src/utils/cdexGenerator.ts:223-230 | escaped text contains no '<', '>', '"' or '\'' |
| Cdex.EscapePlainText | project/src/utils/cdexGenerator.ts:223-230 | text without '&' or markup characters is left unchanged |
| Cdex.HeaderXml | project/src/utils/cdexGenerator.ts:236-242 | defined by its body; its properties are in `Cdex.GenerateCDEXXML` |
| Cdex.TransactionXml | project/src/utils/cdexGenerator.ts:247-255 | defined by its body; its properties are in `Cdex.AppendTransactions` |
| Cdex.CdexXml | project/src/utils/cdexGenerator.ts:222-269 | defined by its body; its properties are in `Cdex.GenerateCDEXXML` and `Cdex.AppendTransactions` |
| Cdex.GenerateCDEXXML | project/src/utils/cdexGenerator.ts:222-269 | the appending method produces exactly the specified document text |
| Cdex.AppendTransactions | project/src/utils/cdexGenerator.ts:246-256 | the loop appends one element per transaction, in order |
| Cdex.GenerateCDEXFile | project/src/utils/cdexGenerator.ts:187-220 | it fails exactly when validation fails, with "CDEX Export Error:" and every error message; otherwise it yields the XML and the `<stem>_cdex_<date>.xml` name |
| Cdex.BuildCdexFile | project/src/utils/cdexGenerator.ts:194-209 | the export file holds the generated XML under the cleaned file name |
| PropertyInfo.FirstMatchIndex | project/src/utils/excelGenerator.ts:244-250 | patterns are tried in list order; the first one that matches wins; there is no match only when none matches |
| PropertyInfo.FirstMatchPriority | project/src/utils/excelGenerator.ts:286-292 | when pattern i is the first to match, its capture is taken |
| PropertyInfo.BeforeFirst | project/src/utils/excelGenerator.ts:257 | `split(sep)[0]` is followed by `sep` in the text and does not contain `sep` |
| PropertyInfo.SeparatorCut | project/src/utils/excelGenerator.ts:254-260 | the separator rule applies exactly when some separator occurs |
| PropertyInfo.SeparatorCutFirst | project/src/utils/excelGenerator.ts:254-260 | the first separator in list order that occurs decides the cut |
| PropertyInfo.CutAtSeparator | project/src/utils/excelGenerator.ts:253-261 | the separator loop yields the trimmed text before the first listed separator found, or nothing |
| PropertyInfo.WordEnd | project/src/utils/excelGenerator.ts:265 | the first word of `split(/\s+/)` runs up to the first whitespace |
| PropertyInfo.SplitWhitespace | project/src/utils/excelGenerator.ts:265 | the split yields at least one word, the first being the text before the first whitespace |
| PropertyInfo.FallbackNameNonEmpty | project/src/utils/excelGenerator.ts:264-271 | the fallback well name is never empty |
| PropertyInfo.WellName | project/src/utils/excelGenerator.ts:241-271 | defined by its body; its properties are in `PropertyInfo.ExtractWellName` |
| PropertyInfo.ExtractWellName | project/src/utils/excelGenerator.ts:241-271 | the three stages (patterns, separators, first words) yield the specified well name, which is never empty |
| PropertyInfo.Wrap32 | project/src/utils/excelGenerator.ts:298-299 | the result of `<<` and `& a` is a signed 32-bit integer |
| PropertyInfo.Wrap32Congruent | project/src/utils/excelGenerator.ts:298-299 | numbers equal modulo 2^32 wrap to the same value |
| PropertyInfo.Utf16 | project/src/utils/excelGenerator.ts:297 | `split('')` yields UTF-16 code units in 0..65535 |
| PropertyInfo.HashStepIs31 | project/src/utils/excelGenerator.ts:298 | one hash step, `((a << 5) - a) + code` wrapped, is 31a + code modulo 2^32 |
| PropertyInfo.Hash | project/src/utils/excelGenerator.ts:297-300 | the hash is a signed 32-bit integer |
| PropertyInfo.HashUnits | project/src/utils/excelGenerator.ts:297-300 | the reduce loop computes the specified hash |
| PropertyInfo.TruncRem | project/src/utils/excelGenerator.ts:301 | JavaScript `%` takes the sign of the dividend and is smaller than the divisor in size |
| PropertyInfo.FallbackBaseAsWritten | project/src/utils/excelGenerator.ts:301 | the base as written is below 1000000; for a non-negative hash it is the six-digit base; for a negative one it is that base reflected about 100000; it has six digits exactly when the hash is non-negative or its size leaves remainder 0 or at least 200000 modulo 900000 |
| PropertyInfo.FallbackBaseShortForNegativeHash | project/src/utils/excelGenerator.ts:301 | as written, a negative hash can give a base below 100000, e.g. -1677711412 gives 11412 |
| PropertyInfo.SmithLakeFallback | project/src/utils/excelGenerator.ts:297-302 | "Smith Lake" hashes to -1677711412, so the number as written is "11412-1", where the intended one is "211412-1" |
| PropertyInfo.FallbackBase | project/src/utils/excelGenerator.ts:301 | the corrected base is always a six-digit number |
| PropertyInfo.FallbackNumber | project/src/utils/excelGenerator.ts:297-302 | the number as written is one to six digits followed by "-1", and eight characters exactly when the base as written has six digits |
| PropertyInfo.FallbackNumberValue | project/src/utils/excelGenerator.ts:301-302 | its digits read back as the base as written of the name's hash |
| PropertyInfo.IntendedFallbackNumber | project/src/utils/excelGenerator.ts:301-302 | the corrected number is six digits, reading back as the corrected base, followed by "-1" |
| PropertyInfo.FallbackNumberAsIntended | project/src/utils/excelGenerator.ts:297-302 | the number as written equals the intended one exactly when the hash is non-negative or a multiple of 900000 |
| PropertyInfo.PropertyNumber | project/src/utils/excelGenerator.ts:285-303 | defined by its body; its properties are in `PropertyInfo.PropertyNumberSpec` and `PropertyInfo.ExtractPropertyNumber` |
| PropertyInfo.PropertyNumberSpec | project/src/utils/excelGenerator.ts:285-303 | a property number is never empty; a non-empty capture of the first matching pattern is the number; with no match, or an empty capture, it is the fallback number as written; no pattern matching means no match |
| PropertyInfo.ExtractPropertyNumber | project/src/utils/excelGenerator.ts:285-303 | the pattern loop and the hash fallback as written yield the specified number |
| PropertyInfo.ProfileOf | project/src/utils/excelGenerator.ts:306-334 | defined by its body; its properties are in `PropertyInfo.ProfileSpec` and `PropertyInfo.PropertyRecord.ScanProductType` |
| PropertyInfo.ProfileSpec | project/src/utils/excelGenerator.ts:306-334 | the product profile is one of four; GAS exactly when a gas keyword occurs in the lower-cased text; then OIL, NGL, WATER in that priority; otherwise OIL |
| PropertyInfo.FinalInterest | project/src/utils/excelGenerator.ts:339 | the owner interest is clamped to 0.001..0.999 |
| PropertyInfo.FinalInterestUnclamped | project/src/utils/excelGenerator.ts:337-339 | for a draw in [0, 1) the clamp never bites: the interest is the profile's base plus (draw - 0.5) * 0.05, within 0.025 of the base |
| PropertyInfo.RemoveNameWordsFrom | project/src/utils/excelGenerator.ts:344 | defined by its body; its properties are in `PropertyInfo.NameWordAt` and `PropertyInfo.RemoveNameWordsAbsent` |
| PropertyInfo.NameWordAt | project/src/utils/excelGenerator.ts:344 | a whole word well/lease/unit/property, in any case, is recognised where it starts |
| PropertyInfo.RemoveNameWordsAbsent | project/src/utils/excelGenerator.ts:344 | text without those words is left unchanged |
| PropertyInfo.PropertyName | project/src/utils/excelGenerator.ts:343-348 | the property name is never empty |
| PropertyInfo.FieldsOf | project/src/utils/excelGenerator.ts:213-352 | defined by its body; its properties are in `PropertyInfo.FieldsSpec` and `PropertyInfo.ParsePropertyInfoWithTrainingData` |
| PropertyInfo.FieldsSpec | project/src/utils/excelGenerator.ts:213-352 | the parsed fields have a non-empty name and number (the fallback as written when no pattern captures one), an interest in 0.001..0.999, and one of the four profiles |
| PropertyInfo.PropertyRecord.constructor | project/src/utils/excelGenerator.ts:215-222 | the info record starts empty, as OIL in BBL with interest 0.125 and BTU factor "1.000" |
| PropertyInfo.PropertyRecord.SetProfile | project/src/utils/excelGenerator.ts:309-312 | a profile branch sets product type, unit, BTU factor and interest and leaves name and number alone |
| PropertyInfo.PropertyRecord.ScanProductType | project/src/utils/excelGenerator.ts:306-334 | the keyword scan leaves the record on the specified profile |
| PropertyInfo.ParsePropertyInfoWithTrainingData | project/src/utils/excelGenerator.ts:213-352 | a fresh record whose fields are exactly the specified ones, with the property number as written |
| Excel.TotalTaxes | project/src/utils/excelGenerator.ts:155 | defined by its body; its properties are in `Excel.DeductionTotalsSpec` |
| Excel.TotalDeductions | project/src/utils/excelGenerator.ts:156 | defined by its body; its properties are in `Excel.DeductionTotalsSpec` |
| Excel.DeductionTotalsSpec | project/src/utils/excelGenerator.ts:155-156 | both totals are non-negative and cover gross minus net, exactly so unless the taxes alone exceed it |
| Excel.Proportion | project/src/utils/excelGenerator.ts:164 | defined by its body; its properties are in `Excel.ApportionmentSpec` |
| Excel.Share | project/src/utils/excelGenerator.ts:165-166 | defined by its body; its properties are in `Excel.ApportionmentSpec`, `Excel.SharesComplete` and `Excel.ApportionmentIsComplete` |
| Excel.ApportionmentSpec | project/src/utils/excelGenerator.ts:164-170 | an item's share is non-negative and proportional to its absolute amount; its net plus deductions plus taxes is its gross; with no revenue the item keeps its gross |
| Excel.SumAbsAmountsIsSum | project/src/utils/excelGenerator.ts:169 | the gross values of the items add up to the sum of their absolute amounts |
| Excel.SumScaled | project/src/utils/excelGenerator.ts:165-166 | values proportional to weights sum proportionally |
| Excel.SharesComplete | project/src/utils/excelGenerator.ts:164-166 | when the total revenue is the sum of the gross values, the items' shares of a total add up to that total |
| Excel.ApportionmentIsComplete | project/src/utils/excelGenerator.ts:155-166 | in that case the items' deductions and taxes add up to the totals in the TOTAL row, before rounding |
| Excel.FormatProductionDate | project/src/utils/excelGenerator.ts:354-401 | defined by its body; its properties are in `Excel.ProductionDateSpec` |
| Excel.FirstMonthFrom | project/src/utils/excelGenerator.ts:389-394 | the month loop finds the first month name the period contains, or proves none does |
| Excel.ProductionMonth | project/src/utils/excelGenerator.ts:358-394 | the chosen month is between 1 and 12 |
| Excel.DecemberMeansDec | project/src/utils/excelGenerator.ts:358 | testing "December" or "Dec" is the same as testing "Dec" |
| Excel.ProductionDateSpec | project/src/utils/excelGenerator.ts:354-401 | the production date is "MM/01/YYYY" with MM the chosen month and YYYY the period's year (or the current year), or today's local date when no month is found |
| Excel.ProductionRow | project/src/utils/excelGenerator.ts:159-189 | defined by its body; its properties are in `Excel.ProductionRowBalances` and `Excel.ProductionTableLayout` |
| Excel.TotalRow | project/src/utils/excelGenerator.ts:192-208 | defined by its body; its properties are in `Excel.ProductionTableLayout` and `Excel.ApportionmentIsComplete` |
| Excel.ProductionSheet | project/src/utils/excelGenerator.ts:134-211 | defined by its body; its properties are in `Excel.ProductionTableLayout`, `Excel.VolumeColumnSum` and `Excel.GrossColumnSum` |
| Excel.VolumeColumnSum | project/src/utils/excelGenerator.ts:177 | the Volume column of the item rows adds up to the items' quantities |
| Excel.GrossColumnSum | project/src/utils/excelGenerator.ts:180 | the Gross Value column adds up to the items' absolute amounts |
| Excel.ProductionTableLayout | project/src/utils/excelGenerator.ts:134-211 | the production sheet is the 15-column header, one row per item in order, then a TOTAL row whose volume is the Volume column's sum and whose gross and net are the record's |
| Excel.ProductionRowBalances | project/src/utils/excelGenerator.ts:180-183 | in every row, gross minus the three rounded parts is within 1.5 cents of zero |
| Excel.RoundedSplit | project/src/utils/excelGenerator.ts:181-183 | rounding three parts separately moves their sum by under 1.5 cents |
| Excel.RevenueSheet | project/src/utils/excelGenerator.ts:22-42 | defined by its body; its properties are in `Excel.RevenueSheetLayout` and `Excel.ItemRows` |
| Excel.SummarySheet | project/src/utils/excelGenerator.ts:66-81 | defined by its body; its properties are in `Excel.SummarySheetLayout` and `Excel.BreakdownRows` |
| Excel.ItemRows | project/src/utils/excelGenerator.ts:31-36 | one four-cell row per item, in order |
| Excel.BreakdownRows | project/src/utils/excelGenerator.ts:80 | one description/amount row per item, in order |
| Excel.RevenueSheetLayout | project/src/utils/excelGenerator.ts:22-42 | the analysis sheet has n + 13 rows: items at 8 onward, then gross, taxes and net |
| Excel.SummarySheetLayout | project/src/utils/excelGenerator.ts:66-81 | the summary sheet counts the items and lists each one after thirteen rows |
| Excel.ExcelFileName | project/src/utils/excelGenerator.ts:125-128 | defined by its body; its properties are in `Excel.WithoutPdfSuffixSpec` and `Excel.ExcelFileNameSpec` |
| Excel.WithoutPdfSuffixSpec | project/src/utils/excelGenerator.ts:125 | `/\.pdf$/i` removes the last four characters exactly when they are a dot and p, d, f in any mix of cases; otherwise the name is unchanged |
| Excel.ExcelFileNameSpec | project/src/utils/excelGenerator.ts:125-127 | the name is the original without a trailing ".pdf" in any mix of cases, or the whole original when it has none, then "_parsed_<date>.xlsx" |
| PdfService.ValidatePdfFile | project/src/services/pdfService.ts:94-108 | a file passes exactly when it exists, has type "application/pdf" and is at most 20971520 bytes |
| PdfService.ValidationMessages | project/src/services/pdfService.ts:95-107 | a missing file, then a wrong type, then an excessive size, each with its own message |
| PdfService.PageProgress | project/src/services/pdfService.ts:53 | per-page progress lies in (30, 90] and is 90 exactly on the last page |
| PdfService.PageProgressIncreasing | project/src/services/pdfService.ts:53-54 | each page reports more than the page before |
| PdfService.ConversionProgress | project/src/services/pdfService.ts:7-63 | defined by its body; its properties are in `PdfService.ConvertProgressSpec` and `PdfService.ConversionSpec` |
| PdfService.ConversionResult | project/src/services/pdfService.ts:7-63 | defined by its body; its properties are in `PdfService.ConversionSpec` |
| PdfService.ConvertProgressSpec | project/src/services/pdfService.ts:12-57 | a full conversion reports a non-decreasing run from 10 to 100, with 90 on the last page and 100 only at the end |
| PdfService.ConversionSpec | project/src/services/pdfService.ts:7-63 | every run reports non-decreasing values in 10..100, reaches 100 exactly on success, and rethrows a failure behind "Failed to convert PDF to images: " |
| OpenAIService.StripFences | project/src/services/openaiService.ts:181 | defined by its body; its properties are in `OpenAIService.FenceAt` and `OpenAIService.StripKeepsPlain` |
| OpenAIService.CleanResponse | project/src/services/openaiService.ts:181 | defined by its body; its properties are in `OpenAIService.CleanResponseWithoutBackticks` and `OpenAIService.CleanResponseOfFencedJson` |
| OpenAIService.FenceAt | project/src/services/openaiService.ts:181 | a fence match is 3 to 8 characters long and starts at a backtick, or at a newline followed by one |
| OpenAIService.StripKeepsPlain | project/src/services/openaiService.ts:181 | text with no fence in it is kept as it is |
| OpenAIService.CleanResponseWithoutBackticks | project/src/services/openaiService.ts:181 | an answer without backticks is only trimmed |
| OpenAIService.CleanResponseOfFencedJson | project/src/services/openaiService.ts:181 | a body in a ```json fence comes out bare |
| OpenAIService.Accepts | project/src/services/openaiService.ts:187-189 | defined by its body; its properties are in `OpenAIService.AcceptsOnlyObjects` |
| OpenAIService.AcceptsOnlyObjects | project/src/services/openaiService.ts:187-189 | the structure check passes only objects with a truthy company and period and a numeric total revenue |
| OpenAIService.RepairItemAsWritten | project/src/services/openaiService.ts:197-202 | the item map as written fails (TypeError) exactly on a `null` item |
| OpenAIService.RepairItemAsWrittenSpec | project/src/services/openaiService.ts:197-202 | the item as written has exactly four fields; a truthy description and numeric quantity, rate and amount are kept; quantity defaults to 1 and amount to 0; a non-numeric rate becomes the original amount when that is truthy, of whatever type, else 0; the item is all numbers exactly when the rate does not leak |
| OpenAIService.RepairItemAsWrittenIdempotent | project/src/services/openaiService.ts:197-202 | repairing an item twice as written gives the same item exactly when its rate did not leak |
| OpenAIService.RateLeakAsWritten | project/src/services/openaiService.ts:200 | as written, an amount of "12.50" becomes the rate, and repairing again turns the rate into 0 |
| OpenAIService.RepairItem | project/src/services/openaiService.ts:197-202 | the corrected item repair fails exactly on a `null` item |
| OpenAIService.RepairItemSpec | project/src/services/openaiService.ts:197-202 | the corrected repair gives exactly four fields with numeric quantity, rate and amount; numbers and a truthy description are kept; defaults are 1, 0, and the amount for the rate |
| OpenAIService.RepairItemIdempotent | project/src/services/openaiService.ts:197-202 | repairing a correctly repaired item changes nothing |
| OpenAIService.RepairItemAgreesUnlessLeak | project/src/services/openaiService.ts:200 | the corrected repair equals the code as written exactly when the rate does not leak |
| OpenAIService.RepairItems | project/src/services/openaiService.ts:197-202 | the map succeeds exactly when no item is `null`, with each item repaired as written, in order |
| OpenAIService.RepairedFields | project/src/services/openaiService.ts:192-207 | its ensures say it fails exactly when the item map does; its other properties are in `OpenAIService.RepairedFieldsSpec` and `OpenAIService.RepairedFieldsIdempotent` |
| OpenAIService.RepairedFieldsSpec | project/src/services/openaiService.ts:192-207 | the repaired record has the four keys, items repaired one by one as written (all numbers exactly when the rate does not leak), numeric totals (taxes default to 0, net to total minus taxes), and every other field untouched |
| OpenAIService.RepairedFieldsIdempotent | project/src/services/openaiService.ts:192-207 | repairing a repaired record changes nothing exactly when no item's rate leaked |
| OpenAIService.ParsedObject.Repair | project/src/services/openaiService.ts:192-207 | the in-place field updates leave the object equal to the record repaired as written, and report failure exactly when an item is `null` |
| OpenAIService.UserMessage | project/src/services/openaiService.ts:217-233 | defined by its body; its properties are in `OpenAIService.UserMessageClassifies`, `OpenAIService.FailureTextDiffers`, `OpenAIService.PrefixedWithoutCode` and `OpenAIService.OwnFailuresArePrefixed` |
| OpenAIService.FailureTextDiffers | project/src/services/openaiService.ts:223-233 | a prefixed failure can never be mistaken for one of the four fixed messages |
| OpenAIService.UserMessageClassifies | project/src/services/openaiService.ts:217-233 | 429, then 401, then 403, then 500/502/503 in the message pick the fixed messages, in that priority; anything else is prefixed with "AI parsing failed: " |
| OpenAIService.PrefixedWithoutCode | project/src/services/openaiService.ts:233 | a message without digits 0-5 is only prefixed |
| OpenAIService.OwnFailuresArePrefixed | project/src/services/openaiService.ts:233 | the service's own errors (key missing, no response, bad JSON) reach the caller prefixed |
| OpenAIService.Interpret | project/src/services/openaiService.ts:181-215 | defined by its body; its properties are in `OpenAIService.InterpretAnswer`, `OpenAIService.RunSpec` and `OpenAIService.RejectedAnswer` |
| OpenAIService.Attempt | project/src/services/openaiService.ts:35-215 | defined by its body; its properties are in `OpenAIService.TryParse` and `OpenAIService.ProgressSpec` |
| OpenAIService.Run | project/src/services/openaiService.ts:31-234 | defined by its body; its properties are in `OpenAIService.ParseRevenueStatementWithAI`, `OpenAIService.ProgressSpec`, `OpenAIService.RunSpec` and `OpenAIService.RejectedAnswer` |
| OpenAIService.TryParse | project/src/services/openaiService.ts:35-215 | the inner steps report the specified progress and produce the specified record or thrown error |
| OpenAIService.InterpretAnswer | project/src/services/openaiService.ts:181-215 | cleaning, parsing, checking and repairing (as written) the answer yields the specified record, or "Failed to parse AI response as JSON" |
| OpenAIService.ParseRevenueStatementWithAI | project/src/services/openaiService.ts:31-235 | the whole call reports the specified progress and yields the specified result |
| OpenAIService.ProgressSpec | project/src/services/openaiService.ts:36-209 | progress is a prefix of 25, 50, 75, 100 and reaches 100 exactly on success |
| OpenAIService.RunSpec | project/src/services/openaiService.ts:175-215 | a success is the as-written repaired form of an accepted parse; no answer and a missing key fail with their own prefixed messages |
| OpenAIService.RejectedAnswer | project/src/services/openaiService.ts:184-214 | an answer that fails to parse or fails the structure check ends with the prefixed JSON message |
| AiParser.PdfStageSpec | project/src/utils/aiParser.ts:17 | 10 + 0.3p is increasing and maps 0..100 onto 10..40 |
| AiParser.AiStageSpec | project/src/utils/aiParser.ts:25 | 40 + 0.6p is increasing and maps 0..100 onto 40..100 |
| AiParser.ParseRevenueStatement | project/src/utils/aiParser.ts:4-33 | defined by its body; its properties are in `AiParser.ValidationComesFirst`, `AiParser.ConversionComesBeforeModel`, `AiParser.ErrorsPassThrough`, `AiParser.AiReportsSpec` and `AiParser.ProgressNeverDecreases` |
| AiParser.ValidationComesFirst | project/src/utils/aiParser.ts:10-11 | a rejected file ends the call after the 5% report with the gate's error, whatever conversion and model would do |
| AiParser.ConversionComesBeforeModel | project/src/utils/aiParser.ts:15-19 | a failed conversion ends the call with an error before the model is asked |
| AiParser.ErrorsPassThrough | project/src/utils/aiParser.ts:30-33 | the error seen is exactly the gate's, the conversion's or the model call's |
| AiParser.PdfReportsNonDecreasing | project/src/utils/aiParser.ts:15-19 | rescaling keeps the conversion's reports in order |
| AiParser.AiReportsSpec | project/src/utils/aiParser.ts:23-27 | the model call's reports become 55, 70, 85, 100, reaching 100 only when all four came |
| AiParser.ProgressNeverDecreases | project/src/utils/aiParser.ts:4-34 | the overall progress starts at 5, never decreases, and ends at 100 exactly when parsing succeeds |

## Left out

- Floating point: amounts are exact reals. IEEE rounding of `0.3 * p`, `0.6 * p`, `pageNum / numPages * 60` and `x * 100` is not modelled. NaN and the infinities are not modelled either, so `item.quantity || 0` and `item.rate || 0` (excelGenerator.ts:177, 179) only differ from the value for NaN and are modelled as the value.
- `toFixed(2)` in the XML is a parameter `fixed2`, and the owner interest is kept as a real rather than its `toFixed(9)` text. `parseFloat` of the fixed profile strings is replaced by the reals they denote.
- `toLowerCase` in the product-type scan and the `/i` flag of the name cleaning are modelled as ASCII case folding.
- PropertyInfo.FirstMatchIndex: the regular expressions of `parsePropertyInfoWithTrainingData` are abstract matchers, so which descriptions each pattern matches is not modelled, only the first-match-wins order.
- Dates: `new Date()`, `getFullYear`, `toLocaleDateString`, `toISOString` and `new Date(date).getTime()` are parameters (current year, local date text, ISO date, timestamp).
- `Math.random()` is a parameter drawn from [0, 1); one draw per line item.
- The production date is computed once for the sheet. The source calls `formatProductionDate` once per row, but with the same inputs each call gives the same result.
- XLSX: creating the workbook, column widths, cell styles and `writeFile` are I/O. Only the row matrices handed to `aoa_to_sheet` and the file name are modelled.
- Downloading the CDEX file (Blob, object URL, link click) is I/O. The model returns the XML text and the file name instead. The `catch` around it is only reachable through those browser calls, so it is not modelled.
- pdf.js, the canvas and PNG encoding: a conversion is described by its page count, or by how many progress reports preceded a failure. The base64 images themselves are not modelled.
- The OpenAI client: the request (prompt, images, model, temperature) is not modelled. The answer is a `Completion`: a thrown error, or a returned content that may be missing. `JSON.parse` is a parameter.
- OpenAIService.UserMessage: an error that is not an `Error` instance (`OtherValue`) is never classified and gets "Unknown error". This is as in the source.
- The `onProgress` callbacks are assumed not to throw. Their values are returned as sequences instead.
- Exporter inputs: `Cdex`, `Excel` and `PropertyInfo` take a typed `ParsedData` record (string company, period and descriptions, numeric amounts and rates). The record the service returns need not have those types. It may hold a truthy non-string company or period (accepted at openaiService.ts:187), a truthy non-string description (kept by `|| 'Unknown Item'`, line 198), or a string rate (line 200). Of these, only the non-string texts would fail in the exporters, where `.trim()` raises a TypeError on them: the company and period at cdexGenerator.ts:52 and :56, the description at cdexGenerator.ts:70 and excelGenerator.ts:225. That TypeError is not modelled. A string rate raises nothing: the CDEX export never reads the rate, and the workbook only places it in the Rate cell (excelGenerator.ts:34) and the Price cell (`item.rate || 0`, :179); the model's numeric rate does not capture a text cell there.
- `console.log` and `console.error` are not modelled.
- A file size is a natural number of bytes.
- The constant `deductions: '6000'` is declared as `Cdex.DeductionsAccount`, but the source never uses it.

## Findings

| source | as written | input that shows it | evidently intended | confidence | as-written member | corrected member |
|---|---|---|---|---|---|---|
| project/src/utils/excelGenerator.ts:301 | `Math.abs(hash % 900000 + 100000)`: for a negative hash the remainder is negative, so the sum can be small | the well name "Smith Lake" hashes to -1677711412, giving base 11412 and the property number "11412-1" | a six-digit base, as the comment says: `Math.abs(hash) % 900000 + 100000`, in 100000..999999 | not executed | PropertyInfo.SmithLakeFallback | PropertyInfo.IntendedFallbackNumber |
| project/src/services/openaiService.ts:200 | a non-numeric rate falls back to `item.amount` whenever that is truthy, even when the amount is not a number | an item `{description: "Gas", amount: "12.50"}` gets rate "12.50" (not a number), and repairing it again gives rate 0 | fall back to the repaired numeric amount, so every field is a number and repair is idempotent | not executed | OpenAIService.RateLeakAsWritten | OpenAIService.RepairItemIdempotent |

The model of each operation follows the code as written: the property
number uses `FallbackBaseAsWritten`, and the response repair uses
`RepairItemAsWritten`. The corrected definitions (`FallbackBase`,
`IntendedFallbackNumber`, `RepairItem`) stand beside them with their
intended properties proved, and `FallbackNumberAsIntended` and
`RepairItemAgreesUnlessLeak` say exactly where the two differ.
