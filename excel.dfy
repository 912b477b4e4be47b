/**
 * The spreadsheet export (project/src/utils/excelGenerator.ts): the row
 * matrices of the three sheets `generateExcelFile` builds, the production
 * sheet with its apportioned deductions and taxes and its totals row, the
 * production date and the file name. The sheets are modelled as the arrays
 * of rows handed to the spreadsheet library; the library itself, widths and
 * styles are not part of this model.
 */
module Excel {
  import opened Options
  import opened Text
  import opened Records
  import opened PropertyInfo

  /** A cell of a row matrix: a string or a number. */
  datatype Cell = Str(s: string) | Num(x: real)

  type Row = seq<Cell>

  /** What the spreadsheet rows depend on besides the record: the clock and the two pattern lists. */
  datatype Environment = Environment(
    currentYear: int,
    localDate: string,
    wellNamePatterns: seq<Matcher>,
    numberPatterns: seq<Matcher>)

  // ---------------------------------------------------------------------
  // Deductions and taxes
  // ---------------------------------------------------------------------

  /** Only the taxes proper, whatever their sign. */
  function TotalTaxes(data: ParsedData): real {
    Abs(data.taxes)
  }

  /** Every other cost: what separates gross from net once the taxes are set aside, never negative. */
  function TotalDeductions(data: ParsedData): real {
    Max(0.0, data.totalRevenue - data.netRevenue - TotalTaxes(data))
  }

  /**
   * Both totals are non-negative; together they cover the gap between gross
   * and net revenue, and match it exactly unless the taxes alone exceed it.
   */
  lemma DeductionTotalsSpec(data: ParsedData)
    ensures TotalTaxes(data) >= 0.0 && TotalDeductions(data) >= 0.0
    ensures TotalDeductions(data) + TotalTaxes(data) >= data.totalRevenue - data.netRevenue
    ensures TotalTaxes(data) <= data.totalRevenue - data.netRevenue
            ==> TotalDeductions(data) + TotalTaxes(data) == data.totalRevenue - data.netRevenue
    ensures TotalTaxes(data) > data.totalRevenue - data.netRevenue ==> TotalDeductions(data) == 0.0
  {
  }

  /** The item's share of the gross revenue: |amount| / totalRevenue, or 0 when the revenue is not positive. */
  function Proportion(data: ParsedData, item: LineItem): real {
    if data.totalRevenue > 0.0 then Abs(item.amount) / data.totalRevenue else 0.0
  }

  /** The item's part of `total`, by its proportion of the revenue. */
  function Share(total: real, data: ParsedData, item: LineItem): real {
    total * Proportion(data, item)
  }

  function ItemDeductions(data: ParsedData, item: LineItem): real {
    Share(TotalDeductions(data), data, item)
  }

  function ItemTaxes(data: ParsedData, item: LineItem): real {
    Share(TotalTaxes(data), data, item)
  }

  function GrossValue(item: LineItem): real {
    Abs(item.amount)
  }

  function NetValue(data: ParsedData, item: LineItem): real {
    GrossValue(item) - ItemDeductions(data, item) - ItemTaxes(data, item)
  }

  /**
   * The shares are non-negative, gross is split exactly into net,
   * deductions and taxes, and nothing is apportioned when the revenue is
   * not positive.
   */
  lemma ApportionmentSpec(data: ParsedData, item: LineItem)
    ensures Proportion(data, item) >= 0.0
    ensures ItemDeductions(data, item) >= 0.0 && ItemTaxes(data, item) >= 0.0
    ensures NetValue(data, item) + ItemDeductions(data, item) + ItemTaxes(data, item) == GrossValue(item)
    ensures data.totalRevenue <= 0.0 ==> ItemDeductions(data, item) == 0.0 && ItemTaxes(data, item) == 0.0
                                         && NetValue(data, item) == GrossValue(item)
    ensures data.totalRevenue > 0.0 ==> Proportion(data, item) * data.totalRevenue == Abs(item.amount)
  {
    DeductionTotalsSpec(data);
    var p := Proportion(data, item);
    assert ItemDeductions(data, item) >= 0.0 by {
      MulNonNegative(TotalDeductions(data), p);
    }
    assert ItemTaxes(data, item) >= 0.0 by {
      MulNonNegative(TotalTaxes(data), p);
    }
  }

  lemma MulNonNegative(x: real, y: real)
    requires x >= 0.0 && y >= 0.0
    ensures x * y >= 0.0
  {
  }

  /** The shares of `total`, item by item. */
  function Shares(total: real, data: ParsedData, items: seq<LineItem>): (xs: seq<real>)
    ensures |xs| == |items|
  {
    seq(|items|, i requires 0 <= i < |items| => Share(total, data, items[i]))
  }

  function AbsAmounts(items: seq<LineItem>): (ws: seq<real>)
    ensures |ws| == |items|
  {
    seq(|items|, i requires 0 <= i < |items| => Abs(items[i].amount))
  }

  function SumReals(xs: seq<real>): real
    decreases |xs|
  {
    if xs == [] then 0.0 else SumReals(xs[..|xs| - 1]) + xs[|xs| - 1]
  }

  lemma {:induction false} SumAbsAmountsIsSum(items: seq<LineItem>)
    ensures SumReals(AbsAmounts(items)) == SumAbsAmounts(items)
    decreases |items|
  {
    if items != [] {
      var n := |items|;
      SumAbsAmountsIsSum(items[..n - 1]);
      assert AbsAmounts(items)[..n - 1] == AbsAmounts(items[..n - 1]);
    }
  }

  /** An item's share of `total`, scaled back by the revenue, is `total` times its absolute amount. */
  lemma ShareScaled(total: real, data: ParsedData, item: LineItem)
    requires data.totalRevenue > 0.0
    ensures Share(total, data, item) * data.totalRevenue == total * Abs(item.amount)
  {
    ScaledQuotient(total, Abs(item.amount), data.totalRevenue);
  }

  lemma ScaledQuotient(t: real, a: real, r: real)
    requires r > 0.0
    ensures (t * (a / r)) * r == t * a
  {
    assert (a / r) * r == a;
  }

  /** Terms that are each `t` times a weight, scaled by `r`, add up to `t` times the total weight. */
  lemma {:induction false} SumScaled(xs: seq<real>, ws: seq<real>, t: real, r: real)
    requires |xs| == |ws| && forall i :: 0 <= i < |xs| ==> xs[i] * r == t * ws[i]
    ensures SumReals(xs) * r == t * SumReals(ws)
    decreases |xs|
  {
    if xs != [] {
      var n := |xs|;
      SumScaled(xs[..n - 1], ws[..n - 1], t, r);
      var x, y, s, a := SumReals(xs[..n - 1]), xs[n - 1], SumReals(ws[..n - 1]), ws[n - 1];
      assert (x + y) * r == x * r + y * r;
      assert t * (s + a) == t * s + t * a;
    }
  }

  /**
   * When the items' absolute amounts add up to the gross revenue, the
   * apportioned deductions and taxes add up to the totals exactly.
   */
  lemma ApportionmentIsComplete(data: ParsedData)
    requires data.totalRevenue > 0.0 && SumAbsAmounts(data.lineItems) == data.totalRevenue
    ensures SumReals(Shares(TotalDeductions(data), data, data.lineItems)) == TotalDeductions(data)
    ensures SumReals(Shares(TotalTaxes(data), data, data.lineItems)) == TotalTaxes(data)
  {
    var items, r := data.lineItems, data.totalRevenue;
    SumAbsAmountsIsSum(items);
    SharesComplete(TotalDeductions(data), data);
    SharesComplete(TotalTaxes(data), data);
  }

  lemma SharesComplete(total: real, data: ParsedData)
    requires data.totalRevenue > 0.0 && SumReals(AbsAmounts(data.lineItems)) == data.totalRevenue
    ensures SumReals(Shares(total, data, data.lineItems)) == total
  {
    var items, r := data.lineItems, data.totalRevenue;
    var xs, ws := Shares(total, data, items), AbsAmounts(items);
    SharesScaled(total, data);
    SumScaled(xs, ws, total, r);
    DivideOut(SumReals(xs), total, r);
  }

  /** Each item's share times the revenue is the total times the item's absolute amount. */
  lemma SharesScaled(total: real, data: ParsedData)
    requires data.totalRevenue > 0.0
    ensures var xs, ws := Shares(total, data, data.lineItems), AbsAmounts(data.lineItems);
      |xs| == |ws| && forall i :: 0 <= i < |xs| ==> xs[i] * data.totalRevenue == total * ws[i]
  {
    var items := data.lineItems;
    var xs, ws := Shares(total, data, items), AbsAmounts(items);
    forall i | 0 <= i < |xs| ensures xs[i] * data.totalRevenue == total * ws[i] {
      ShareScaled(total, data, items[i]);
    }
  }

  lemma DivideOut(a: real, b: real, r: real)
    requires r > 0.0 && a * r == b * r
    ensures a == b
  {
    assert (a - b) * r == 0.0;
  }

  // ---------------------------------------------------------------------
  // Production date
  // ---------------------------------------------------------------------

  const MonthNames: seq<string> := ["January", "February", "March", "April", "May", "June",
                                    "July", "August", "September", "October", "November", "December"]

  /** The index of the first name of `months`, from `i` on, that `period` contains. */
  function FirstMonthFrom(period: string, months: seq<string>, i: nat): (r: Option<nat>)
    requires i <= |months|
    ensures r.Some? ==> i <= r.value < |months| && Contains(period, months[r.value])
    ensures r.Some? ==> forall j :: i <= j < r.value ==> !Contains(period, months[j])
    ensures r.None? ==> forall j :: i <= j < |months| ==> !Contains(period, months[j])
    decreases |months| - i
  {
    if i == |months| then None
    else if Contains(period, months[i]) then Some(i)
    else FirstMonthFrom(period, months, i + 1)
  }

  /**
   * `formatProductionDate`: the first day of the period's last month or
   * quarter, as MM/01/YYYY, by the first rule that applies; `localDate`
   * stands for today's `toLocaleDateString()`.
   */
  function FormatProductionDate(period: string, currentYear: int, localDate: string): string {
    var year := YearText(period, currentYear);
    if Contains(period, "December") || Contains(period, "Dec") then "12/01/" + year
    else if Contains(period, "Q4") then "10/01/" + year
    else if Contains(period, "Q3") then "07/01/" + year
    else if Contains(period, "Q2") then "04/01/" + year
    else if Contains(period, "Q1") then "01/01/" + year
    else
      match FirstMonthFrom(period, MonthNames, 0)
      case Some(i) => TwoDigits(i + 1) + "/01/" + year
      case None => localDate
  }

  /**
   * The month the rules pick, stated apart from the text: December first,
   * then the quarters from Q4 down to Q1 (each its first month), then the
   * first month named.
   */
  function ProductionMonth(period: string): (m: Option<nat>)
    ensures m.Some? ==> 1 <= m.value <= 12
  {
    if Contains(period, "Dec") then Some(12)
    else if Contains(period, "Q4") then Some(10)
    else if Contains(period, "Q3") then Some(7)
    else if Contains(period, "Q2") then Some(4)
    else if Contains(period, "Q1") then Some(1)
    else
      match FirstMonthFrom(period, MonthNames, 0)
      case Some(i) => Some(i + 1)
      case None => None
  }

  /** "December" contains "Dec", so testing both is testing "Dec". */
  lemma DecemberMeansDec(period: string)
    ensures Contains(period, "December") || Contains(period, "Dec") <==> Contains(period, "Dec")
  {
    var d := "December";
    assert d[..3] == "Dec";
    ContainsAt(d, "Dec", 0);
    if Contains(period, d) {
      ContainsTransitive(period, d, "Dec");
    }
  }

  lemma QuarterMonthDigits()
    ensures AllDigits("12") && DigitsValue("12") == 12
    ensures AllDigits("10") && DigitsValue("10") == 10
    ensures AllDigits("07") && DigitsValue("07") == 7
    ensures AllDigits("04") && DigitsValue("04") == 4
    ensures AllDigits("01") && DigitsValue("01") == 1
  {
  }

  /** A date `mm/01/year` splits back into its month digits and the rest. */
  lemma DateParts(r: string, mm: string, year: string)
    requires |mm| == 2 && r == mm + "/01/" + year
    ensures |r| == 6 + |year| && r[..2] == mm && r[2..] == "/01/" + year
  {
  }

  /**
   * With a month chosen, the date is that month in two digits, then
   * "/01/" and the year; with none it is today's local date.
   */
  lemma ProductionDateSpec(period: string, currentYear: int, localDate: string)
    ensures var r, year := FormatProductionDate(period, currentYear, localDate), YearText(period, currentYear);
      match ProductionMonth(period)
      case Some(m) => |r| == 6 + |year| && AllDigits(r[..2]) && DigitsValue(r[..2]) == m && r[2..] == "/01/" + year
      case None => r == localDate
  {
    DecemberMeansDec(period);
    QuarterMonthDigits();
    var year := YearText(period, currentYear);
    var r := FormatProductionDate(period, currentYear, localDate);
    if Contains(period, "Dec") {
      DateParts(r, "12", year);
    } else if Contains(period, "Q4") {
      DateParts(r, "10", year);
    } else if Contains(period, "Q3") {
      DateParts(r, "07", year);
    } else if Contains(period, "Q2") {
      DateParts(r, "04", year);
    } else if Contains(period, "Q1") {
      DateParts(r, "01", year);
    } else if FirstMonthFrom(period, MonthNames, 0).Some? {
      var m := FirstMonthFrom(period, MonthNames, 0).value + 1;
      TwoDigitsValue(m);
      DateParts(r, TwoDigits(m), year);
    }
  }

  // ---------------------------------------------------------------------
  // Production sheet
  // ---------------------------------------------------------------------

  const ProductionHeaders: seq<string> := [
    "Property Name", "Property Number", "Production Date", "Product Type", "Volume", "Unit", "Price",
    "Gross Value", "Deductions", "Taxes", "Net Value", "Owner Interest", "BTU Factor", "Check Date", "Operator"]

  function Strs(texts: seq<string>): (row: Row)
    ensures |row| == |texts| && forall k :: 0 <= k < |texts| ==> row[k] == Str(texts[k])
  {
    seq(|texts|, k requires 0 <= k < |texts| => Str(texts[k]))
  }

  /** `data.company || 'Unknown Operator'`. */
  function OperatorName(company: string): string {
    if company != "" then company else "Unknown Operator"
  }

  /** The fields parsed from each item's description, the i-th with the i-th `Math.random()` draw. */
  function ItemFields(env: Environment, items: seq<LineItem>, draws: seq<real>): seq<Fields>
    requires |draws| == |items|
  {
    seq(|items|, i requires 0 <= i < |items| =>
      FieldsOf(items[i].description, env.wellNamePatterns, env.numberPatterns, draws[i]))
  }

  /** The row of one line item, given the fields parsed from its description and the production date. */
  function ProductionRow(data: ParsedData, env: Environment, item: LineItem, info: Fields, date: string): (row: Row) {
    [Str(info.propertyName), Str(info.propertyNumber), Str(date),
     Str(info.productType), Num(item.quantity), Str(info.unit), Num(item.rate), Num(GrossValue(item)),
     Num(Round2(ItemDeductions(data, item))), Num(Round2(ItemTaxes(data, item))), Num(Round2(NetValue(data, item))),
     Num(info.ownerInterest), Str(info.btuFactor), Str(env.localDate), Str(OperatorName(data.company))]
  }

  /** The item rows, in line-item order. */
  function ProductionRows(data: ParsedData, env: Environment, items: seq<LineItem>, infos: seq<Fields>, date: string)
    : (rows: seq<Row>)
    requires |infos| == |items|
  {
    seq(|items|, i requires 0 <= i < |items| => ProductionRow(data, env, items[i], infos[i], date))
  }

  /** The TOTAL row: summed quantities, the record's own gross and net, the rounded totals. */
  function TotalRow(data: ParsedData): Row {
    [Str("TOTAL"), Str(""), Str(""), Str(""), Num(SumQuantities(data.lineItems)), Str(""), Str(""),
     Num(data.totalRevenue), Num(Round2(TotalDeductions(data))), Num(Round2(TotalTaxes(data))),
     Num(data.netRevenue), Str(""), Str(""), Str(""), Str("")]
  }

  /** The header row, one row per line item, then the TOTAL row. */
  function ProductionTable(data: ParsedData, env: Environment, infos: seq<Fields>, date: string): seq<Row>
    requires |infos| == |data.lineItems|
  {
    [Strs(ProductionHeaders)] + ProductionRows(data, env, data.lineItems, infos, date) + [TotalRow(data)]
  }

  /** `createProductionSheet`: every item parsed with its own draw, every row dated by the period. */
  function ProductionSheet(data: ParsedData, env: Environment, draws: seq<real>): seq<Row>
    requires |draws| == |data.lineItems|
  {
    ProductionTable(data, env, ItemFields(env, data.lineItems, draws),
                    FormatProductionDate(data.period, env.currentYear, env.localDate))
  }

  /** The sum of the numbers in column `c` over `rows`. */
  function ColumnSum(rows: seq<Row>, c: nat): real
    decreases |rows|
  {
    if rows == [] then 0.0
    else
      var last := rows[|rows| - 1];
      ColumnSum(rows[..|rows| - 1], c) + if c < |last| && last[c].Num? then last[c].x else 0.0
  }

  /** The Volume column of the item rows adds up to the items' quantities. */
  lemma {:induction false} VolumeColumnSum(data: ParsedData, env: Environment, items: seq<LineItem>,
                                           infos: seq<Fields>, date: string)
    requires |infos| == |items|
    ensures ColumnSum(ProductionRows(data, env, items, infos, date), 4) == SumQuantities(items)
    decreases |items|
  {
    if items != [] {
      var n := |items|;
      VolumeColumnSum(data, env, items[..n - 1], infos[..n - 1], date);
      var rows := ProductionRows(data, env, items, infos, date);
      assert rows[..n - 1] == ProductionRows(data, env, items[..n - 1], infos[..n - 1], date);
      assert rows[n - 1] == ProductionRow(data, env, items[n - 1], infos[n - 1], date);
    }
  }

  /** The Gross Value column of the item rows adds up to the items' absolute amounts. */
  lemma {:induction false} GrossColumnSum(data: ParsedData, env: Environment, items: seq<LineItem>,
                                          infos: seq<Fields>, date: string)
    requires |infos| == |items|
    ensures ColumnSum(ProductionRows(data, env, items, infos, date), 7) == SumAbsAmounts(items)
    decreases |items|
  {
    if items != [] {
      var n := |items|;
      GrossColumnSum(data, env, items[..n - 1], infos[..n - 1], date);
      var rows := ProductionRows(data, env, items, infos, date);
      assert rows[..n - 1] == ProductionRows(data, env, items[..n - 1], infos[..n - 1], date);
      assert rows[n - 1] == ProductionRow(data, env, items[n - 1], infos[n - 1], date);
    }
  }

  /**
   * The production table has 1 + n + 1 rows of 15 cells: the headers, the
   * items in order, then TOTAL, whose volume is the sum of the Volume column
   * and whose gross and net are the record's, not re-summed.
   */
  lemma ProductionTableLayout(data: ParsedData, env: Environment, infos: seq<Fields>, date: string)
    requires |infos| == |data.lineItems|
    ensures var sheet, n := ProductionTable(data, env, infos, date), |data.lineItems|;
      && |sheet| == n + 2
      && (forall r :: 0 <= r < |sheet| ==> |sheet[r]| == 15)
      && sheet[0] == Strs(ProductionHeaders)
      && (forall i :: 0 <= i < n ==> sheet[i + 1] == ProductionRow(data, env, data.lineItems[i], infos[i], date))
      && sheet[n + 1][0] == Str("TOTAL")
      && sheet[n + 1][4] == Num(ColumnSum(sheet[1..n + 1], 4))
      && sheet[n + 1][7] == Num(data.totalRevenue) && sheet[n + 1][10] == Num(data.netRevenue)
  {
    var sheet, n := ProductionTable(data, env, infos, date), |data.lineItems|;
    var rows := ProductionRows(data, env, data.lineItems, infos, date);
    assert sheet[1..n + 1] == rows;
    VolumeColumnSum(data, env, data.lineItems, infos, date);
  }

  /**
   * In each item row, Net Value, Deductions and Taxes, each rounded to the
   * cent, still make up the Gross Value within a cent and a half.
   */
  lemma ProductionRowBalances(data: ParsedData, env: Environment, item: LineItem, info: Fields, date: string)
    ensures var row := ProductionRow(data, env, item, info, date);
      && row[7].Num? && row[8].Num? && row[9].Num? && row[10].Num?
      && -3.0 / 200.0 <= row[7].x - row[8].x - row[9].x - row[10].x < 3.0 / 200.0
  {
    var row := ProductionRow(data, env, item, info, date);
    var d, t, net := ItemDeductions(data, item), ItemTaxes(data, item), NetValue(data, item);
    assert row[7].x == Abs(item.amount) && row[8].x == Round2(d) && row[9].x == Round2(t) && row[10].x == Round2(net);
    RoundedSplit(Abs(item.amount), d, t, net);
  }

  /** Rounding three parts of a whole to the cent moves their sum by less than a cent and a half. */
  lemma RoundedSplit(whole: real, a: real, b: real, c: real)
    requires a + b + c == whole
    ensures -3.0 / 200.0 <= whole - Round2(a) - Round2(b) - Round2(c) < 3.0 / 200.0
  {
  }

  // ---------------------------------------------------------------------
  // The other two sheets and the file name
  // ---------------------------------------------------------------------

  function ItemRow(item: LineItem): Row {
    [Str(item.description), Num(item.quantity), Num(item.rate), Num(item.amount)]
  }

  function ItemRows(items: seq<LineItem>): (rows: seq<Row>)
    ensures |rows| == |items| && forall i :: 0 <= i < |items| ==> rows[i] == ItemRow(items[i])
  {
    seq(|items|, i requires 0 <= i < |items| => ItemRow(items[i]))
  }

  function BreakdownRows(items: seq<LineItem>): (rows: seq<Row>)
    ensures |rows| == |items| && forall i :: 0 <= i < |items| ==> rows[i] == [Str(items[i].description), Num(items[i].amount)]
  {
    seq(|items|, i requires 0 <= i < |items| => [Str(items[i].description), Num(items[i].amount)])
  }

  /** The rows of the "Revenue Analysis" sheet; `localDate` is the generation date. */
  function RevenueSheet(data: ParsedData, localDate: string): seq<Row> {
    [[Str("Revenue Statement Analysis")], [Str("")], [Str("Company:"), Str(data.company)],
     [Str("Period:"), Str(data.period)], [Str("Generated:"), Str(localDate)], [Str("")], [Str("LINE ITEMS")],
     Strs(["Description", "Quantity", "Rate", "Amount"])]
    + ItemRows(data.lineItems)
    + [[Str("")], [Str("SUMMARY")], [Str("Gross Revenue"), Str(""), Str(""), Num(data.totalRevenue)],
       [Str("Taxes & Deductions"), Str(""), Str(""), Num(data.taxes)],
       [Str("Net Revenue"), Str(""), Str(""), Num(data.netRevenue)]]
  }

  /** The rows of the "Summary" sheet. */
  function SummarySheet(data: ParsedData): seq<Row> {
    [[Str("Revenue Summary")], [Str("")], [Str("Company"), Str(data.company)], [Str("Period"), Str(data.period)],
     [Str("")], [Str("Financial Summary")], [Str("Metric"), Str("Amount")],
     [Str("Total Revenue Items"), Num(|data.lineItems| as real)], [Str("Gross Revenue"), Num(data.totalRevenue)],
     [Str("Total Taxes/Deductions"), Num(data.taxes)], [Str("Net Revenue"), Num(data.netRevenue)],
     [Str("")], [Str("Revenue Breakdown by Type")]]
    + BreakdownRows(data.lineItems)
  }

  /**
   * The analysis sheet lists every item in order below eight heading rows,
   * then closes with the gross, taxes and net of the record.
   */
  lemma RevenueSheetLayout(data: ParsedData, localDate: string)
    ensures var rev, n := RevenueSheet(data, localDate), |data.lineItems|;
      && |rev| == n + 13
      && (forall i :: 0 <= i < n ==> rev[8 + i] == ItemRow(data.lineItems[i]))
      && rev[n + 10] == [Str("Gross Revenue"), Str(""), Str(""), Num(data.totalRevenue)]
      && rev[n + 11] == [Str("Taxes & Deductions"), Str(""), Str(""), Num(data.taxes)]
      && rev[n + 12] == [Str("Net Revenue"), Str(""), Str(""), Num(data.netRevenue)]
  {
  }

  /** The summary sheet counts the items, then lists each description with its amount after thirteen rows. */
  lemma SummarySheetLayout(data: ParsedData)
    ensures var sum, n := SummarySheet(data), |data.lineItems|;
      && |sum| == n + 13
      && sum[7] == [Str("Total Revenue Items"), Num(n as real)]
      && (forall i :: 0 <= i < n ==> sum[13 + i] == [Str(data.lineItems[i].description), Num(data.lineItems[i].amount)])
  {
  }

  /** `originalFileName.replace(/\.pdf$/i, '')`: a final ".pdf", in any case, is dropped. */
  function WithoutPdfSuffix(name: string): string {
    if |name| >= 4 && ToLowerAscii(name[|name| - 4..]) == ".pdf" then name[..|name| - 4] else name
  }

  /** The workbook's file name; `dateStamp` is the first ten characters of today's ISO timestamp. */
  function ExcelFileName(originalFileName: string, dateStamp: string): string {
    WithoutPdfSuffix(originalFileName) + "_parsed_" + dateStamp + ".xlsx"
  }

  /** The name ends in a dot and the letters p, d, f, each in either case. */
  predicate EndsInPdf(name: string) {
    && |name| >= 4 && name[|name| - 4] == '.'
    && name[|name| - 3] in "pP" && name[|name| - 2] in "dD" && name[|name| - 1] in "fF"
  }

  /** The suffix is dropped exactly when the name ends in ".pdf", in any mix of cases; otherwise the name is unchanged. */
  lemma WithoutPdfSuffixSpec(name: string)
    ensures EndsInPdf(name) ==> WithoutPdfSuffix(name) == name[..|name| - 4]
    ensures !EndsInPdf(name) ==> WithoutPdfSuffix(name) == name
  {
    if |name| >= 4 {
      var t := name[|name| - 4..];
      var l := ToLowerAscii(t);
      assert t[0] == name[|name| - 4] && t[1] == name[|name| - 3] && t[2] == name[|name| - 2] && t[3] == name[|name| - 1];
      assert l == ".pdf" <==> l[0] == '.' && l[1] == 'p' && l[2] == 'd' && l[3] == 'f';
    }
  }

  /**
   * The workbook is named after the original file without its ".pdf"
   * suffix, in any case, or after the whole name when it has none, followed
   * by the stamp and ".xlsx".
   */
  lemma ExcelFileNameSpec(originalFileName: string, dateStamp: string)
    ensures EndsInPdf(originalFileName)
            ==> ExcelFileName(originalFileName, dateStamp)
                == originalFileName[..|originalFileName| - 4] + "_parsed_" + dateStamp + ".xlsx"
    ensures !EndsInPdf(originalFileName)
            ==> ExcelFileName(originalFileName, dateStamp) == originalFileName + "_parsed_" + dateStamp + ".xlsx"
  {
    WithoutPdfSuffixSpec(originalFileName);
  }
}
