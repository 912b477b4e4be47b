/**
 * The revenue record every stage passes along (`ParsedData` in
 * project/src/types/types.ts), with the money helpers the exports share.
 * Money is a `real`; binary floating point is not modelled.
 */
module Records {

  datatype LineItem = LineItem(description: string, quantity: real, rate: real, amount: real)

  datatype ParsedData = ParsedData(
    company: string,
    period: string,
    totalRevenue: real,
    lineItems: seq<LineItem>,
    taxes: real,
    netRevenue: real)

  function Abs(x: real): (r: real)
    ensures r >= 0.0 && (r == x || r == -x)
  {
    if x < 0.0 then -x else x
  }

  function Max(x: real, y: real): (r: real)
    ensures r >= x && r >= y && (r == x || r == y)
  {
    if x >= y then x else y
  }

  function Min(x: real, y: real): (r: real)
    ensures r <= x && r <= y && (r == x || r == y)
  {
    if x <= y then x else y
  }

  /** `Math.round(x * 100) / 100`: to the nearest cent, halves rounded up. */
  function Round2(x: real): (r: real)
    ensures x - 1.0 / 200.0 < r <= x + 1.0 / 200.0
    ensures (r * 100.0).Floor as real == r * 100.0
  {
    (x * 100.0 + 0.5).Floor as real / 100.0
  }

  /** Sum of the line items' amounts, added left to right as `reduce` does. */
  function SumAmounts(items: seq<LineItem>): real
    decreases |items|
  {
    if items == [] then 0.0 else SumAmounts(items[..|items| - 1]) + items[|items| - 1].amount
  }

  /** Sum of the line items' quantities, added left to right. */
  function SumQuantities(items: seq<LineItem>): real
    decreases |items|
  {
    if items == [] then 0.0 else SumQuantities(items[..|items| - 1]) + items[|items| - 1].quantity
  }

  /** Sum of the absolute values of the line items' amounts, added left to right. */
  function SumAbsAmounts(items: seq<LineItem>): (r: real)
    ensures r >= 0.0
    decreases |items|
  {
    if items == [] then 0.0 else SumAbsAmounts(items[..|items| - 1]) + Abs(items[|items| - 1].amount)
  }
}
