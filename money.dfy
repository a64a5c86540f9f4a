/**
 * Invoice line and total arithmetic (src/utils/money.ts), on exact decimals.
 *
 * The source uses a decimal library and rounds every stored amount to two
 * places with its default mode, half-up (ties go away from zero).  Here the
 * amounts are Dafny `real`s, which are exact rationals.
 */
module Money {

  /** An item as the caller enters it; `taxRate` is a percentage. */
  datatype ItemInput = ItemInput(description: string, quantity: real, unitPrice: real, taxRate: real)

  datatype CalculatedItem = CalculatedItem(
    description: string,
    quantity: real,
    unitPrice: real,
    taxRate: real,
    lineSubtotal: real,
    lineTax: real,
    lineTotal: real)

  datatype Totals = Totals(subtotal: real, taxTotal: real, grandTotal: real)

  /** A whole number of hundredths. */
  predicate IsCents(x: real) {
    (x * 100.0).Floor as real == x * 100.0
  }

  /**
   * `toDecimalPlaces(2)`: the nearest multiple of 0.01, a tie going away from
   * zero.  The bounds below pin the result down uniquely.
   */
  function Round2(x: real): (r: real)
    ensures NearestCent(r, x)
    ensures x >= 0.0 ==> -0.005 < r - x <= 0.005
    ensures x < 0.0 ==> -0.005 <= r - x < 0.005
    ensures x >= 0.0 ==> r >= 0.0
  {
    if x >= 0.0 then
      RoundUpHalf(x);
      HalfUp(x)
    else
      RoundUpHalf(-x);
      -HalfUp(-x)
  }

  /** Rounding a non-negative amount half-up to two places. */
  function HalfUp(y: real): real
    requires y >= 0.0
  {
    ((y * 100.0 + 0.5).Floor as real) / 100.0
  }

  lemma RoundUpHalf(y: real)
    requires y >= 0.0
    ensures IsCents(HalfUp(y)) && IsCents(-HalfUp(y))
    ensures -0.005 < HalfUp(y) - y <= 0.005 && HalfUp(y) >= 0.0
  {
    var z := y * 100.0 + 0.5;
    var n := z.Floor;
    assert n as real <= z < n as real + 1.0;
    assert n >= 0;
    WholeHundredths(n);
  }

  /** A whole number of hundredths, and its negation, are in cents. */
  lemma WholeHundredths(n: int)
    ensures IsCents(n as real / 100.0) && IsCents(-(n as real / 100.0))
  {
    var r := n as real / 100.0;
    assert r * 100.0 == n as real;
    assert (r * 100.0).Floor == n;
    assert -r * 100.0 == (-n) as real;
    assert (-r * 100.0).Floor == -n;
  }

  /** Rounding leaves an amount that already has two places alone. */
  lemma Round2OfCents(x: real)
    requires IsCents(x)
    ensures Round2(x) == x
  {
    var n := (x * 100.0).Floor;
    if x >= 0.0 {
      assert (x * 100.0 + 0.5).Floor == n;
    } else {
      assert -x * 100.0 == (-n) as real;
      assert (-x * 100.0 + 0.5).Floor == -n;
    }
  }

  lemma CentsSum(x: real, y: real)
    requires IsCents(x) && IsCents(y)
    ensures IsCents(x + y)
  {
    var a, b := (x * 100.0).Floor, (y * 100.0).Floor;
    assert (x + y) * 100.0 == (a + b) as real;
  }

  /** `r` is at most half a cent away from the exact amount `x`. */
  predicate NearestCent(r: real, x: real) {
    IsCents(r) && -0.005 <= r - x <= 0.005
  }

  /**
   * `calculateLineItem`: each stored amount is the exact one rounded half-up
   * to two places, and so lies within half a cent of it.
   */
  function CalculateLineItem(item: ItemInput): (r: CalculatedItem)
    ensures r.description == item.description && r.quantity == item.quantity
    ensures r.unitPrice == item.unitPrice && r.taxRate == item.taxRate
    ensures r.lineSubtotal == Round2(item.quantity * item.unitPrice)
    ensures r.lineTax == Round2(item.quantity * item.unitPrice * (item.taxRate / 100.0))
    ensures r.lineTotal ==
      Round2(item.quantity * item.unitPrice + item.quantity * item.unitPrice * (item.taxRate / 100.0))
    ensures NearestCent(r.lineSubtotal, item.quantity * item.unitPrice)
    ensures NearestCent(r.lineTax, item.quantity * item.unitPrice * (item.taxRate / 100.0))
    ensures NearestCent(r.lineTotal,
      item.quantity * item.unitPrice + item.quantity * item.unitPrice * (item.taxRate / 100.0))
  {
    RoundedLine(item, item.quantity * item.unitPrice, item.quantity * item.unitPrice * (item.taxRate / 100.0))
  }

  /** The item with its exact subtotal and tax, and their sum, rounded to two places. */
  function RoundedLine(item: ItemInput, lineSubtotal: real, lineTax: real): (r: CalculatedItem)
    ensures r.description == item.description && r.quantity == item.quantity
    ensures r.unitPrice == item.unitPrice && r.taxRate == item.taxRate
    ensures NearestCent(r.lineSubtotal, lineSubtotal) && NearestCent(r.lineTax, lineTax)
    ensures NearestCent(r.lineTotal, lineSubtotal + lineTax)
    ensures r.lineSubtotal == Round2(lineSubtotal) && r.lineTax == Round2(lineTax)
    ensures r.lineTotal == Round2(lineSubtotal + lineTax)
  {
    CalculatedItem(item.description, item.quantity, item.unitPrice, item.taxRate,
                   Round2(lineSubtotal), Round2(lineTax), Round2(lineSubtotal + lineTax))
  }

  /** A zero quantity or a zero price gives an all-zero line. */
  lemma ZeroLine(item: ItemInput)
    requires item.quantity == 0.0 || item.unitPrice == 0.0
    ensures var r := CalculateLineItem(item);
      r.lineSubtotal == 0.0 && r.lineTax == 0.0 && r.lineTotal == 0.0
  {
    assert item.quantity * item.unitPrice == 0.0;
  }

  /** 3 x 0.1 at 5%: 0.3, a tax of 0.015 rounded up to 0.02, and 0.315 rounded to 0.32. */
  lemma HalfUpExample()
    ensures CalculateLineItem(ItemInput("Small Decimal", 3.0, 0.1, 5.0))
      == CalculatedItem("Small Decimal", 3.0, 0.1, 5.0, 0.3, 0.02, 0.32)
  {
    assert (0.3 * 100.0 + 0.5).Floor == 30;
    assert (0.015 * 100.0 + 0.5).Floor == 2;
    assert (0.315 * 100.0 + 0.5).Floor == 32;
  }

  /**
   * The line total is not the sum of the rounded parts: 1 x 0.004 at 25% has
   * subtotal 0.00 and tax 0.00 but total 0.01.
   */
  lemma TotalIsNotSumOfRoundedParts()
    ensures var r := CalculateLineItem(ItemInput("x", 1.0, 0.004, 25.0));
      r.lineSubtotal == 0.0 && r.lineTax == 0.0 && r.lineTotal == 0.01
  {
    assert (0.004 * 100.0 + 0.5).Floor == 0;
    assert (0.001 * 100.0 + 0.5).Floor == 0;
    assert (0.005 * 100.0 + 0.5).Floor == 1;
  }

  // ---------------------------------------------------------------------------
  // Totals
  // ---------------------------------------------------------------------------

  function SumSubtotals(items: seq<CalculatedItem>): real
  {
    if items == [] then 0.0 else SumSubtotals(items[..|items| - 1]) + items[|items| - 1].lineSubtotal
  }

  function SumTaxes(items: seq<CalculatedItem>): real
  {
    if items == [] then 0.0 else SumTaxes(items[..|items| - 1]) + items[|items| - 1].lineTax
  }

  /** The invoice totals: sums of the rounded line amounts, each rounded again. */
  function TotalsOf(items: seq<CalculatedItem>): Totals
  {
    var subtotal := SumSubtotals(items);
    var taxTotal := SumTaxes(items);
    Totals(Round2(subtotal), Round2(taxTotal), Round2(subtotal + taxTotal))
  }

  predicate AllLinesInCents(items: seq<CalculatedItem>) {
    forall i :: 0 <= i < |items| ==> IsCents(items[i].lineSubtotal) && IsCents(items[i].lineTax)
  }

  lemma {:induction false} SumsAreCents(items: seq<CalculatedItem>)
    requires AllLinesInCents(items)
    ensures IsCents(SumSubtotals(items)) && IsCents(SumTaxes(items))
    decreases |items|
  {
    if items != [] {
      var last := items[|items| - 1];
      SumsAreCents(items[..|items| - 1]);
      CentsSum(SumSubtotals(items[..|items| - 1]), last.lineSubtotal);
      CentsSum(SumTaxes(items[..|items| - 1]), last.lineTax);
    }
  }

  /**
   * For lines already rounded to cents, the final rounding changes nothing:
   * the subtotal and tax total are the exact sums of the line amounts and the
   * grand total is exactly their sum.
   */
  lemma TotalsAreExactSums(items: seq<CalculatedItem>)
    requires AllLinesInCents(items)
    ensures var t := TotalsOf(items);
      && t.subtotal == SumSubtotals(items)
      && t.taxTotal == SumTaxes(items)
      && t.grandTotal == t.subtotal + t.taxTotal
  {
    SumsAreCents(items);
    CentsSum(SumSubtotals(items), SumTaxes(items));
    Round2OfCents(SumSubtotals(items));
    Round2OfCents(SumTaxes(items));
    Round2OfCents(SumSubtotals(items) + SumTaxes(items));
  }

  /** `calculateInvoiceTotals`: one pass accumulating both sums. */
  method CalculateInvoiceTotals(items: seq<CalculatedItem>) returns (totals: Totals)
    ensures totals == TotalsOf(items)
  {
    var subtotal, taxTotal := 0.0, 0.0;
    for i := 0 to |items|
      invariant subtotal == SumSubtotals(items[..i])
      invariant taxTotal == SumTaxes(items[..i])
    {
      assert items[..i + 1][..i] == items[..i];
      subtotal := subtotal + items[i].lineSubtotal;
      taxTotal := taxTotal + items[i].lineTax;
    }
    assert items[..|items|] == items;
    var grandTotal := subtotal + taxTotal;
    totals := Totals(Round2(subtotal), Round2(taxTotal), Round2(grandTotal));
  }

  /** `items.map(calculateLineItem)`. */
  function LinesOf(inputs: seq<ItemInput>): (items: seq<CalculatedItem>)
    ensures |items| == |inputs|
    ensures forall i :: 0 <= i < |inputs| ==> items[i] == CalculateLineItem(inputs[i])
    ensures AllLinesInCents(items)
  {
    seq(|inputs|, i requires 0 <= i < |inputs| => CalculateLineItem(inputs[i]))
  }

  /**
   * The totals `calculateInvoiceFromItems` reports: the grand total is exactly
   * the subtotal plus the tax total.
   */
  function InvoiceTotals(inputs: seq<ItemInput>): (t: Totals)
    ensures t.grandTotal == t.subtotal + t.taxTotal
    ensures t.subtotal == SumSubtotals(LinesOf(inputs)) && t.taxTotal == SumTaxes(LinesOf(inputs))
  {
    TotalsAreExactSums(LinesOf(inputs));
    TotalsOf(LinesOf(inputs))
  }

  /** `calculateInvoiceFromItems`: the lines, in input order, and their totals. */
  method CalculateInvoiceFromItems(inputs: seq<ItemInput>) returns (items: seq<CalculatedItem>, totals: Totals)
    ensures items == LinesOf(inputs)
    ensures totals == InvoiceTotals(inputs)
  {
    items := LinesOf(inputs);
    totals := CalculateInvoiceTotals(items);
  }

  /** No items: all totals zero. */
  lemma EmptyInvoice()
    ensures InvoiceTotals([]) == Totals(0.0, 0.0, 0.0)
  {
    assert LinesOf([]) == [];
  }

  /** 0.1 + 0.2 totals exactly 0.3. */
  lemma ExactDecimalSum()
    ensures var t := InvoiceTotals([ItemInput("a", 1.0, 0.1, 0.0), ItemInput("b", 1.0, 0.2, 0.0)]);
      t.subtotal == 0.3 && t.grandTotal == 0.3
  {
    var inputs := [ItemInput("a", 1.0, 0.1, 0.0), ItemInput("b", 1.0, 0.2, 0.0)];
    var items := LinesOf(inputs);
    assert (0.1 * 100.0 + 0.5).Floor == 10;
    assert (0.2 * 100.0 + 0.5).Floor == 20;
    assert (0.0 * 100.0 + 0.5).Floor == 0;
    assert items[0].lineSubtotal == 0.1 && items[0].lineTax == 0.0;
    assert items[1].lineSubtotal == 0.2 && items[1].lineTax == 0.0;
    assert items[..1][..0] == [];
    assert SumSubtotals(items[..1]) == 0.1;
    assert items[..|items| - 1] == items[..1];
    assert SumSubtotals(items) == 0.1 + 0.2;
    assert SumTaxes(items[..1]) == 0.0;
    assert SumTaxes(items) == 0.0;
    assert (0.3 * 100.0 + 0.5).Floor == 30;
  }
}
